/** The order lifecycle states. The three state classes of the source carry no
    fields and differ only in the label `obtenerEstado` returns, so they form a
    closed enumeration. */
module Estados {
  import opened Base

  datatype Estado = Recibido | Cocinando | Terminado {

    /** `obtenerEstado`: the label each state class returns. No label is the
        placeholder reported for an order without a state. */
    function ObtenerEstado(): (s: string)
      ensures s != SIN_ESTADO
    {
      assert SIN_ESTADO[0] !in {'R', 'C', 'T'};
      match this
      case Recibido => "RECIBIDO"
      case Cocinando => "COCINANDO"
      case Terminado => "TERMINADO"
    }
  }

  /** What `Pedido.obtenerEstadoActual` reports when the order has no state. */
  const SIN_ESTADO: string := "SIN_ESTADO"

  /** `Pedido.obtenerEstadoActual`: the label of the current state, or
      SIN_ESTADO for a null state. */
  function Etiqueta(e: Option<Estado>): (s: string)
    ensures e.Some? ==> s == e.value.ObtenerEstado()
    ensures e.None? <==> s == SIN_ESTADO
  {
    match e
    case Some(x) => x.ObtenerEstado()
    case None => SIN_ESTADO
  }

  /** Reads a label back into a state: the inverse of `ObtenerEstado`. */
  function EstadoDeEtiqueta(s: string): (r: Option<Estado>)
    ensures r.Some? ==> r.value.ObtenerEstado() == s
  {
    if s == "RECIBIDO" then Some(Recibido)
    else if s == "COCINANDO" then Some(Cocinando)
    else if s == "TERMINADO" then Some(Terminado)
    else None
  }

  /** Every label reads back as the state that produced it. */
  lemma EtiquetaIdaYVuelta(e: Estado)
    ensures EstadoDeEtiqueta(e.ObtenerEstado()) == Some(e)
  {
    match e
    case Recibido =>
    case Cocinando =>
      assert "COCINANDO"[0] != "RECIBIDO"[0];
    case Terminado =>
      assert "TERMINADO"[0] != "RECIBIDO"[0];
      assert "TERMINADO"[0] != "COCINANDO"[0];
  }

  /** The labels tell the states apart: two states share a label exactly when
      they are the same state. */
  lemma EtiquetasDistintas(e1: Estado, e2: Estado)
    ensures e1.ObtenerEstado() == e2.ObtenerEstado() <==> e1 == e2
  {
    EtiquetaIdaYVuelta(e1);
    EtiquetaIdaYVuelta(e2);
  }
}
