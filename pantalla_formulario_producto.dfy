// The add/edit product form: its input filters, its first-failure validation
// and the product it hands to `onGuardar`.
module PantallaFormularioProducto {
  import opened Opciones
  import opened Texto
  import opened Formato
  import opened Dominio

  const MSG_NOMBRE: string := "El nombre es obligatorio"
  const MSG_DESCRIPCION: string := "La descripci\U{F3}n es obligatoria"
  const MSG_PRECIO: string := "Ingresa un precio v\U{E1}lido mayor a 0"
  const MSG_STOCK: string := "Ingresa un stock v\U{E1}lido (0 o m\U{E1}s)"
  const MSG_CATEGORIA: string := "La categor\U{ED}a es obligatoria"
  const MSG_IMAGEN: string := "El ID de imagen es obligatorio"

  /** The six text fields as typed. */
  datatype Campos = Campos(
    nombre: string,
    descripcion: string,
    precio: string,
    stock: string,
    categoria: string,
    imagenUrl: string)

  /** The fields a form opens with: empty, or the product being edited with its
      price truncated to a whole number. */
  function CamposIniciales(existente: Option<Producto>): Campos {
    match existente
    case None => Campos("", "", "", "", "", "")
    case Some(p) => Campos(p.nombre, p.descripcion, IntADecimal(TruncarAEntero(p.precio)),
                           IntADecimal(p.stock), p.categoria, p.imagenUrl)
  }

  predicate PrecioValido(s: string) {
    !EsBlanco(s) && AIntONull(s).Some? && AIntONull(s).value > 0
  }

  predicate StockValido(s: string) {
    !EsBlanco(s) && AIntONull(s).Some? && AIntONull(s).value >= 0
  }

  /** The `when` chain of the save button: the first failing check's message,
      or `None` when every check passes. */
  function Validar(c: Campos): Option<string> {
    if EsBlanco(c.nombre) then Some(MSG_NOMBRE)
    else if EsBlanco(c.descripcion) then Some(MSG_DESCRIPCION)
    else if !PrecioValido(c.precio) then Some(MSG_PRECIO)
    else if !StockValido(c.stock) then Some(MSG_STOCK)
    else if EsBlanco(c.categoria) then Some(MSG_CATEGORIA)
    else if EsBlanco(c.imagenUrl) then Some(MSG_IMAGEN)
    else None
  }

  /** Reference reading of the checks: every failing check's message, in the
      order name, description, price, stock, category, image. */
  function Fallos(c: Campos): seq<string> {
    (if EsBlanco(c.nombre) then [MSG_NOMBRE] else []) +
    (if EsBlanco(c.descripcion) then [MSG_DESCRIPCION] else []) +
    (if !PrecioValido(c.precio) then [MSG_PRECIO] else []) +
    (if !StockValido(c.stock) then [MSG_STOCK] else []) +
    (if EsBlanco(c.categoria) then [MSG_CATEGORIA] else []) +
    (if EsBlanco(c.imagenUrl) then [MSG_IMAGEN] else [])
  }

  /** The product saved from valid fields: the edited product's id or 0, the
      text fields trimmed, price and stock read as integers. */
  function Construir(existente: Option<Producto>, c: Campos): (p: Producto)
    requires Validar(c).None?
    ensures p.id == (if existente.Some? then existente.value.id else 0)
    ensures p.nombre == Recortar(c.nombre) && p.descripcion == Recortar(c.descripcion)
    ensures p.categoria == Recortar(c.categoria) && p.imagenUrl == Recortar(c.imagenUrl)
    ensures p.precio > 0.0 && p.precio == AIntONull(c.precio).value as real
    ensures p.stock >= 0 && p.stock == AIntONull(c.stock).value
  {
    Producto(
      id := match existente case Some(e) => e.id case None => 0,
      nombre := Recortar(c.nombre),
      descripcion := Recortar(c.descripcion),
      precio := AIntONull(c.precio).value as real,
      imagenUrl := Recortar(c.imagenUrl),
      categoria := Recortar(c.categoria),
      stock := AIntONull(c.stock).value)
  }

  /** One character of the image field's filter. */
  function NormalizarChar(c: char): char {
    if MinusculaChar(c) == ' ' then '_' else MinusculaChar(c)
  }

  /** The image field's filter: `lowercase()`, then every space becomes "_". */
  function NormalizarImagen(s: string): (r: string)
    ensures |r| == |s|
    ensures forall i :: 0 <= i < |s| ==> r[i] == NormalizarChar(s[i])
  {
    if s == [] then [] else [NormalizarChar(s[0])] + NormalizarImagen(s[1..])
  }

  class FormularioProducto {
    const existente: Option<Producto>
    var campos: Campos
    var mensajeError: Option<string>
    /** The products handed to `onGuardar`, in order. */
    var guardados: seq<Producto>

    /** An error on screen is always the message of the fields on screen. */
    ghost predicate Valid()
      reads this
    {
      mensajeError.None? || mensajeError == Validar(campos)
    }

    constructor(existente: Option<Producto>)
      ensures this.existente == existente && campos == CamposIniciales(existente)
      ensures mensajeError.None? && guardados == [] && Valid()
    {
      this.existente := existente;
      campos := CamposIniciales(existente);
      mensajeError := None;
      guardados := [];
    }

    method CambiarNombre(v: string)
      modifies this`campos, this`mensajeError
      ensures campos == old(campos).(nombre := v) && mensajeError.None? && Valid()
    {
      campos := campos.(nombre := v);
      mensajeError := None;
    }

    method CambiarDescripcion(v: string)
      modifies this`campos, this`mensajeError
      ensures campos == old(campos).(descripcion := v) && mensajeError.None? && Valid()
    {
      campos := campos.(descripcion := v);
      mensajeError := None;
    }

    method CambiarPrecio(v: string)
      modifies this`campos, this`mensajeError
      ensures campos == old(campos).(precio := FiltrarDigitos(v)) && mensajeError.None? && Valid()
    {
      campos := campos.(precio := FiltrarDigitos(v));
      mensajeError := None;
    }

    method CambiarStock(v: string)
      modifies this`campos, this`mensajeError
      ensures campos == old(campos).(stock := FiltrarDigitos(v)) && mensajeError.None? && Valid()
    {
      campos := campos.(stock := FiltrarDigitos(v));
      mensajeError := None;
    }

    method CambiarCategoria(v: string)
      modifies this`campos, this`mensajeError
      ensures campos == old(campos).(categoria := v) && mensajeError.None? && Valid()
    {
      campos := campos.(categoria := v);
      mensajeError := None;
    }

    method CambiarImagen(v: string)
      modifies this`campos, this`mensajeError
      ensures campos == old(campos).(imagenUrl := NormalizarImagen(v)) && mensajeError.None? && Valid()
    {
      campos := campos.(imagenUrl := NormalizarImagen(v));
      mensajeError := None;
    }

    /** The save button: a failing check shows its message and saves nothing;
        otherwise exactly one product is handed over and no error is on screen. */
    method PulsarGuardar()
      requires Valid()
      modifies this`mensajeError, this`guardados
      ensures Valid()
      ensures Validar(campos).Some? ==> mensajeError == Validar(campos) && guardados == old(guardados)
      ensures Validar(campos).None? ==>
        guardados == old(guardados) + [Construir(existente, campos)] && mensajeError.None?
    {
      var error := Validar(campos);
      if error.Some? {
        mensajeError := error;
      } else {
        guardados := guardados + [Construir(existente, campos)];
      }
    }
  }

  // ---------------------------------------------------------------------
  // Properties of the form
  // ---------------------------------------------------------------------

  /** The chain reports the first failing check, and nothing exactly when no
      check fails. */
  lemma ValidarEsPrimerFallo(c: Campos)
    ensures Validar(c) == if Fallos(c) == [] then None else Some(Fallos(c)[0])
  {
  }

  /** A saved product has non-blank, trimmed text fields. */
  lemma {:induction false} GuardadoSinBlancos(existente: Option<Producto>, c: Campos)
    requires Validar(c).None?
    ensures var p := Construir(existente, c);
      p.nombre != [] && p.descripcion != [] && p.categoria != [] && p.imagenUrl != [] &&
      !EsEspacio(p.nombre[0]) && !EsEspacio(p.nombre[|p.nombre| - 1])
  {
    RecortarEsTramo(c.nombre);
    RecortarEsTramo(c.descripcion);
    RecortarEsTramo(c.categoria);
    RecortarEsTramo(c.imagenUrl);
  }

  /** After the digit filter, a non-empty price is accepted exactly when its
      value lies in 1..2147483647. */
  lemma PrecioFiltrado(v: string)
    requires FiltrarDigitos(v) != []
    ensures var s := FiltrarDigitos(v);
      PrecioValido(s) <==> 0 < ValorDecimal(s) <= MAX_INT
  {
    var s := FiltrarDigitos(v);
    assert EsDigito(s[0]) && !EsEspacio(s[0]);
  }

  /** After the digit filter, a non-empty stock is accepted exactly when its
      value fits in an `Int`. */
  lemma StockFiltrado(v: string)
    requires FiltrarDigitos(v) != []
    ensures var s := FiltrarDigitos(v);
      StockValido(s) <==> ValorDecimal(s) <= MAX_INT
  {
    var s := FiltrarDigitos(v);
    assert EsDigito(s[0]) && !EsEspacio(s[0]);
  }

  /** A normalised image id has no spaces and no upper-case ASCII letters, and
      normalising it again changes nothing. */
  lemma {:induction false} NormalizarImagenPropiedades(s: string)
    ensures ' ' !in NormalizarImagen(s)
    ensures forall i :: 0 <= i < |s| ==> !('A' <= NormalizarImagen(s)[i] <= 'Z')
    ensures NormalizarImagen(NormalizarImagen(s)) == NormalizarImagen(s)
  {
    var r := NormalizarImagen(s);
    forall i | 0 <= i < |s| ensures r[i] != ' ' && !('A' <= r[i] <= 'Z') && NormalizarChar(r[i]) == r[i] {
      NormalizarCharPropiedades(s[i]);
    }
    var rr := NormalizarImagen(r);
    assert forall i :: 0 <= i < |r| ==> rr[i] == NormalizarChar(r[i]);
  }

  lemma NormalizarCharPropiedades(c: char)
    ensures NormalizarChar(c) != ' ' && !('A' <= NormalizarChar(c) <= 'Z')
    ensures NormalizarChar(NormalizarChar(c)) == NormalizarChar(c)
  {
  }

  /** Editing a product that passes the checks keeps its id; a new product is
      saved with id 0 so the table assigns one. */
  lemma IdGuardado(p: Producto, c: Campos)
    requires Validar(c).None?
    ensures Construir(Some(p), c).id == p.id
    ensures Construir(None, c).id == 0
  {
  }
}
