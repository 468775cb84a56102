// The result type of remote calls: success with data, failure with a message,
// or still loading, with its queries and its `map`.
module Remoto {
  import opened Opciones

  /** A thrown exception, seen only through its optional message. */
  datatype Excepcion = Excepcion(mensaje: Option<string>)

  datatype ResultadoApi<T> =
    | Exito(datos: T)
    | Error(mensajeError: string, codigoHttp: Option<int> := None, excepcion: Option<Excepcion> := None)
    | Cargando
  {
    function ObtenerDatosONull(): (r: Option<T>)
      ensures r.Some? <==> this.Exito?
      ensures this.Exito? ==> r == Some(this.datos)
    {
      match this
      case Exito(d) => Some(d)
      case _ => None
    }

    predicate EstaEnError() { this.Error? }

    predicate EstaCargando() { this.Cargando? }

    predicate FueExitoso() { this.Exito? }

    /** The arguments `alSerExitoso(bloque)` passes to `bloque`, in order. */
    function AlSerExitoso(): (llamadas: seq<T>)
      ensures |llamadas| <= 1
      ensures |llamadas| == 1 <==> this.Exito?
      ensures this.Exito? ==> llamadas == [this.datos]
    {
      if this.Exito? then [this.datos] else []
    }

    /** The arguments `alSerError(bloque)` passes to `bloque`, in order. */
    function AlSerError(): (llamadas: seq<string>)
      ensures |llamadas| <= 1
      ensures |llamadas| == 1 <==> this.Error?
      ensures this.Error? ==> llamadas == [this.mensajeError]
    {
      if this.Error? then [this.mensajeError] else []
    }

    function Mapear<R>(f: T -> R): (r: ResultadoApi<R>)
      ensures this.Exito? <==> r.Exito?
      ensures this.Exito? ==> r.datos == f(this.datos)
      ensures this.Error? <==> r.Error?
      ensures this.Error? ==> r.mensajeError == this.mensajeError && r.codigoHttp == this.codigoHttp && r.excepcion == this.excepcion
      ensures this.Cargando? <==> r.Cargando?
    {
      match this
      case Exito(d) => Exito(f(d))
      case Error(m, c, e) => Error(m, c, e)
      case Cargando => Cargando
    }

    function ObtenerMensajeError(mensajePorDefecto: string := ""): (m: string)
      ensures this.Error? ==> m == this.mensajeError
      ensures !this.Error? ==> m == mensajePorDefecto
    {
      match this
      case Error(msg, _, _) => msg
      case _ => mensajePorDefecto
    }
  }

  /** Every result is in exactly one of the three states. */
  lemma ExactamenteUnEstado<T>(r: ResultadoApi<T>)
    ensures r.FueExitoso() || r.EstaEnError() || r.EstaCargando()
    ensures !(r.FueExitoso() && r.EstaEnError())
    ensures !(r.FueExitoso() && r.EstaCargando())
    ensures !(r.EstaEnError() && r.EstaCargando())
  {
  }

  /** `mapear` with the identity changes nothing. */
  lemma MapearIdentidad<T>(r: ResultadoApi<T>)
    ensures r.Mapear(x => x) == r
  {
  }

  /** Two `mapear`s in a row are one `mapear` of the composition. */
  lemma MapearComposicion<T, U, V>(r: ResultadoApi<T>, f: T -> U, g: U -> V)
    ensures r.Mapear(f).Mapear(g) == r.Mapear(x => g(f(x)))
  {
  }

  /** A failure built with only a message has no HTTP code and no exception,
      and reports that message. */
  lemma ErrorPorDefecto<T>(m: string)
    ensures var e: ResultadoApi<T> := Error(m);
      e.codigoHttp == None && e.excepcion == None && e.ObtenerMensajeError() == m
  {
  }

  /** Without an explicit default, non-failures report the empty message. */
  lemma MensajePorDefectoVacio<T>(r: ResultadoApi<T>)
    requires !r.Error?
    ensures r.ObtenerMensajeError() == ""
  {
  }
}
