// The Room rows of the `carrito`, `productos` and `usuarios` tables and their
// conversions to and from the domain records.
module Entidades {
  import opened Opciones
  import opened Dominio

  /** A row of `carrito`: its own key `id` (0 asks for a generated key), a copy
      of the product's fields under `productoId`, and the quantity. */
  datatype CarritoEntity = CarritoEntity(
    id: int := 0,
    productoId: int,
    nombre: string,
    descripcion: string,
    precio: real,
    imagenUrl: string,
    categoria: string,
    stock: int,
    cantidad: int := 1)
  {
    /** `toDomain()`: the product the row copies; the product id is the row's
        `productoId`, never its key. */
    function ToDomain(): (p: Producto)
      ensures p.id == productoId
    {
      Producto(id := productoId, nombre := nombre, descripcion := descripcion, precio := precio,
               imagenUrl := imagenUrl, categoria := categoria, stock := stock)
    }
  }

  /** The row the cart code builds for a product not yet in the cart. */
  function FilaNueva(p: Producto, cantidad: int): (e: CarritoEntity)
    ensures e.id == 0 && e.productoId == p.id && e.cantidad == cantidad
  {
    CarritoEntity(productoId := p.id, nombre := p.nombre, descripcion := p.descripcion,
                  precio := p.precio, imagenUrl := p.imagenUrl, categoria := p.categoria,
                  stock := p.stock, cantidad := cantidad)
  }

  /** A new row gives back exactly the product it was built from. */
  lemma FilaNuevaToDomain(p: Producto, cantidad: int)
    ensures FilaNueva(p, cantidad).ToDomain() == p
  {
  }

  /** `toDomain` does not look at the row key or the quantity. */
  lemma ToDomainIgnoraClaveYCantidad(e: CarritoEntity, id: int, cantidad: int)
    ensures e.(id := id, cantidad := cantidad).ToDomain() == e.ToDomain()
  {
  }

  /** A row built with the defaults has key 0 and quantity 1. */
  lemma CarritoEntityPorDefecto(pid: int, n: string, d: string, pr: real, u: string, c: string, s: int)
    ensures var e := CarritoEntity(productoId := pid, nombre := n, descripcion := d, precio := pr,
                                   imagenUrl := u, categoria := c, stock := s);
            e.id == 0 && e.cantidad == 1
  {
  }

  /** A row of `productos`; `id` 0 asks for a generated key. */
  datatype ProductoEntity = ProductoEntity(
    id: int := 0,
    nombre: string,
    descripcion: string,
    precio: real,
    imagenUrl: string,
    categoria: string,
    stock: int)

  function ToProducto(e: ProductoEntity): Producto {
    Producto(e.id, e.nombre, e.descripcion, e.precio, e.imagenUrl, e.categoria, e.stock)
  }

  function ToEntity(p: Producto): ProductoEntity {
    ProductoEntity(p.id, p.nombre, p.descripcion, p.precio, p.imagenUrl, p.categoria, p.stock)
  }

  /** The two conversions are inverse bijections: nothing, the id included, is
      lost either way. */
  lemma ProductoEntityIda(p: Producto)
    ensures ToProducto(ToEntity(p)) == p
  {
  }

  lemma ProductoEntityVuelta(e: ProductoEntity)
    ensures ToEntity(ToProducto(e)) == e
  {
  }

  /** Converting a whole list keeps length and order. */
  function ToProductos(s: seq<ProductoEntity>): (r: seq<Producto>)
    ensures |r| == |s|
    ensures forall i :: 0 <= i < |s| ==> r[i] == ToProducto(s[i])
  {
    if s == [] then [] else [ToProducto(s[0])] + ToProductos(s[1..])
  }

  function ToEntities(s: seq<Producto>): (r: seq<ProductoEntity>)
    ensures |r| == |s|
    ensures forall i :: 0 <= i < |s| ==> r[i] == ToEntity(s[i])
  {
    if s == [] then [] else [ToEntity(s[0])] + ToEntities(s[1..])
  }

  /** A row of `usuarios`; `id` 0 asks for a generated key. */
  datatype UsuarioEntity = UsuarioEntity(
    id: int := 0,
    nombreCompleto: string,
    email: string,
    telefono: string,
    direccion: string,
    anioNacimiento: int,
    esDuoc: bool,
    codigoPropio: string,
    codigoReferido: Option<string>,
    puntosLevelUp: int := 0,
    nivel: int := 1)
}
