/** Order snapshots and the append-only order history. */
module Memento {
  import opened Base
  import opened Pedidos

  /** `PedidoMemento`: an immutable snapshot of an order. The lifecycle state
      is not among its fields. */
  datatype PedidoMemento = PedidoMemento(
    id: Option<int>,
    nombreCliente: Option<string>,
    fechaHora: FechaHora,
    pagado: bool,
    cantidadDetalles: int,
    total: int)

  /** The snapshot constructor. Its frame leaves out the order's state field,
      so changing the state alone never changes the snapshot taken. */
  function Capturar(p: Pedido): (m: PedidoMemento)
    reads p`id, p`nombreCliente, p`fechaHora, p`pagado, p`detalles, p.detalles
    ensures m.id == p.id && m.nombreCliente == p.nombreCliente
    ensures m.fechaHora == p.fechaHora && m.pagado == p.pagado
    ensures m.cantidadDetalles == |p.detalles| && m.total == p.GetTotal()
  {
    PedidoMemento(p.id, p.nombreCliente, p.fechaHora, p.pagado, |p.detalles|, SumaSubtotales(p.detalles))
  }

  /** Every entry carries an id (true of every snapshot of a saved order). */
  ghost predicate ConIds(hs: seq<PedidoMemento>)
  {
    forall i | 0 <= i < |hs| :: hs[i].id.Some?
  }

  /** `obtenerPorId`: walks the log oldest first and stops at the first entry
      whose id equals `id`. Comparing reads the entry's id first, so an entry
      without id met before a match throws. */
  function PrimeroConId(hs: seq<PedidoMemento>, id: Option<int>): (r: Result<Option<PedidoMemento>>)
    ensures r.Ok? && r.value.Some? ==> r.value.value in hs && r.value.value.id == id && id.Some?
    ensures r == Ok(None) ==> forall i | 0 <= i < |hs| :: hs[i].id != id
    ensures ConIds(hs) ==> r.Ok?
  {
    if hs == [] then Ok(None)
    else if hs[0].id.None? then Err(NullPointerException)
    else if hs[0].id == id then Ok(Some(hs[0]))
    else PrimeroConId(hs[1..], id)
  }

  /** The entry found is the oldest match: when entry i matches and every
      earlier entry has a different id, entry i is the one returned. */
  lemma {:induction false} PrimeroConIdEsElMasAntiguo(hs: seq<PedidoMemento>, id: Option<int>, i: int)
    requires 0 <= i < |hs| && hs[i].id == id && id.Some?
    requires forall j | 0 <= j < i :: hs[j].id.Some? && hs[j].id != id
    ensures PrimeroConId(hs, id) == Ok(Some(hs[i]))
  {
    if i > 0 {
      PrimeroConIdEsElMasAntiguo(hs[1..], id, i - 1);
    }
  }

  /** Appending to the log never changes what an earlier successful search
      found: the first match stays first. */
  lemma {:induction false} PrimeroConIdEstable(hs: seq<PedidoMemento>, m: PedidoMemento, id: Option<int>)
    requires PrimeroConId(hs, id).Ok? && PrimeroConId(hs, id).value.Some?
    ensures PrimeroConId(hs + [m], id) == PrimeroConId(hs, id)
  {
    assert hs != [];
    assert (hs + [m])[1..] == hs[1..] + [m];
    if hs[0].id != id {
      PrimeroConIdEstable(hs[1..], m, id);
    }
  }

  /** The order history. */
  class HistorialPedidos {
    var historial: seq<PedidoMemento>

    constructor ()
      ensures historial == []
    {
      historial := [];
    }

    /** `guardarEstado`: appends one snapshot of the order at the end. */
    method GuardarEstado(p: Pedido)
      modifies this
      ensures historial == old(historial) + [Capturar(p)]
      ensures ConIds(old(historial)) && p.id.Some? ==> ConIds(historial)
    {
      historial := historial + [Capturar(p)];
    }

    /** `obtenerHistorial`: a new list with the log's entries in insertion
        order; adding to it does not touch the log. */
    method ObtenerHistorial() returns (copia: Lista<PedidoMemento>)
      ensures fresh(copia) && copia.elementos == historial
    {
      copia := new Lista.De(historial);
    }

    /** `obtenerPorId`. */
    function ObtenerPorId(id: Option<int>): Result<Option<PedidoMemento>>
      reads this
    {
      PrimeroConId(historial, id)
    }
  }
}
