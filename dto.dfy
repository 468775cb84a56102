// The product record of the remote catalogue and its mappers to and from the
// domain product.
module Dto {
  import opened Dominio

  /** A product as the remote catalogue sends it (`id`, `title`, `description`,
      `price`, `image`, `category`). */
  datatype ProductoDto = ProductoDto(
    identificador: int,
    titulo: string,
    descripcion: string,
    precio: real,
    urlImagen: string,
    categoria: string)

  /** Stock given to every product that comes from the catalogue. */
  const STOCK_API: int := 10

  function AModeloConStock(d: ProductoDto, stockDisponible: int): (p: Producto)
    ensures p.stock == stockDisponible
  {
    Producto(d.identificador, d.titulo, d.descripcion, d.precio, d.urlImagen, d.categoria, stockDisponible)
  }

  function AModelo(d: ProductoDto): (p: Producto)
    ensures p.stock == STOCK_API
  {
    Producto(d.identificador, d.titulo, d.descripcion, d.precio, d.urlImagen, d.categoria, 10)
  }

  function ADto(p: Producto): ProductoDto {
    ProductoDto(p.id, p.nombre, p.descripcion, p.precio, p.imagenUrl, p.categoria)
  }

  function AModelos(s: seq<ProductoDto>): (r: seq<Producto>)
    ensures |r| == |s|
    ensures forall i :: 0 <= i < |s| ==> r[i] == AModelo(s[i])
  {
    if s == [] then [] else [AModelo(s[0])] + AModelos(s[1..])
  }

  function ADtos(s: seq<Producto>): (r: seq<ProductoDto>)
    ensures |r| == |s|
    ensures forall i :: 0 <= i < |s| ==> r[i] == ADto(s[i])
  {
    if s == [] then [] else [ADto(s[0])] + ADtos(s[1..])
  }

  /** `aModelo` is `aModeloConStock` with the fixed stock of 10. */
  lemma AModeloEsConStock(d: ProductoDto)
    ensures AModelo(d) == AModeloConStock(d, STOCK_API)
  {
  }

  /** Every field of the remote record survives the trip to the domain and back,
      whatever its value (empty strings, zero price, non-positive ids). */
  lemma ADtoDeAModelo(d: ProductoDto, s: int)
    ensures ADto(AModelo(d)) == d
    ensures ADto(AModeloConStock(d, s)) == d
  {
  }

  /** The trip from the domain to the remote record and back loses only the
      stock, which comes back as 10. */
  lemma AModeloDeADto(p: Producto)
    ensures AModelo(ADto(p)) == p.(stock := STOCK_API)
    ensures AModeloConStock(ADto(p), p.stock) == p
  {
  }

  /** The list mappers round-trip element by element. */
  lemma ADtosDeAModelos(s: seq<ProductoDto>)
    ensures ADtos(AModelos(s)) == s
  {
    var r := ADtos(AModelos(s));
    forall i | 0 <= i < |s| ensures r[i] == s[i] {
      ADtoDeAModelo(s[i], STOCK_API);
    }
  }
}
