/** The order aggregate: line items, orders, and the order store that the
    services load from and save to. */
module Pedidos {
  import opened Base
  import opened Estados
  import opened Catalogo

  /** A line item: a quantity of a product at the unit price captured when the
      item was made. */
  class DetallePedido {
    var id: Option<int>
    var cantidad: int
    var precioUnitario: int
    var producto: Option<Producto>
    var pedido: Pedido?

    /** The no-argument constructor: everything zero or null. */
    constructor ()
      ensures id == None && cantidad == 0 && precioUnitario == 0
      ensures producto == None && pedido == null
      ensures GetSubtotal() == 0
    {
      id, cantidad, precioUnitario := None, 0, 0;
      producto, pedido := None, null;
    }

    /** The four-argument constructor stores exactly what it is given and
        leaves the order back-reference null. */
    constructor Con(id: Option<int>, cantidad: int, precioUnitario: int, producto: Option<Producto>)
      ensures this.id == id && this.cantidad == cantidad
      ensures this.precioUnitario == precioUnitario && this.producto == producto
      ensures pedido == null
    {
      this.id, this.cantidad, this.precioUnitario := id, cantidad, precioUnitario;
      this.producto, this.pedido := producto, null;
    }

    method SetId(v: Option<int>)
      modifies this`id
      ensures id == v
    {
      id := v;
    }

    /** Any quantity is accepted, zero and negative ones included. */
    method SetCantidad(v: int)
      modifies this`cantidad
      ensures cantidad == v
    {
      cantidad := v;
    }

    method SetPrecioUnitario(v: int)
      modifies this`precioUnitario
      ensures precioUnitario == v
    {
      precioUnitario := v;
    }

    method SetProducto(v: Option<Producto>)
      modifies this`producto
      ensures producto == v
    {
      producto := v;
    }

    method SetPedido(v: Pedido?)
      modifies this`pedido
      ensures pedido == v
    {
      pedido := v;
    }

    /** `getSubtotal`: quantity times the captured unit price. It reads only
        those two fields, never the product. */
    function GetSubtotal(): (r: int)
      reads this`cantidad, this`precioUnitario
      ensures r == 0 <==> cantidad == 0 || precioUnitario == 0
      ensures cantidad >= 0 && precioUnitario >= 0 ==> r >= 0
    {
      cantidad * precioUnitario
    }
  }

  /** The sum of the items' subtotals, first item first. */
  function SumaSubtotales(ds: seq<DetallePedido>): int
    reads ds
  {
    if ds == [] then 0 else ds[0].GetSubtotal() + SumaSubtotales(ds[1..])
  }

  /** The sum over a concatenation is the sum of the two sums. */
  lemma {:induction false} SumaConcatenada(a: seq<DetallePedido>, b: seq<DetallePedido>)
    ensures SumaSubtotales(a + b) == SumaSubtotales(a) + SumaSubtotales(b)
  {
    if a == [] {
      assert a + b == b;
    } else {
      assert (a + b)[1..] == a[1..] + b;
      SumaConcatenada(a[1..], b);
    }
  }

  /** Appending one item adds exactly its subtotal. */
  lemma SumaAgregar(ds: seq<DetallePedido>, d: DetallePedido)
    ensures SumaSubtotales(ds + [d]) == SumaSubtotales(ds) + d.cantidad * d.precioUnitario
  {
    SumaConcatenada(ds, [d]);
    assert SumaSubtotales([d]) == d.GetSubtotal() + SumaSubtotales([]);
  }

  /** With no negative quantity and no negative price the total is never
      negative; the setters do not rule negative quantities out. */
  lemma {:induction false} SumaNoNegativa(ds: seq<DetallePedido>)
    ensures (forall i | 0 <= i < |ds| :: ds[i].cantidad >= 0 && ds[i].precioUnitario >= 0) ==> SumaSubtotales(ds) >= 0
  {
    if ds != [] {
      SumaNoNegativa(ds[1..]);
      assert forall i | 0 <= i < |ds| - 1 :: ds[1..][i] == ds[i + 1];
    }
  }

  /** The sum depends on the items' quantities and prices only: changing any
      other field of any item (such as the order back-reference) leaves it. */
  twostate lemma {:induction false} SumaEstable(ds: seq<DetallePedido>)
    requires forall i | 0 <= i < |ds| ::
      old(ds[i].cantidad) == ds[i].cantidad && old(ds[i].precioUnitario) == ds[i].precioUnitario
    ensures SumaSubtotales(ds) == old(SumaSubtotales(ds))
  {
    if ds != [] {
      SumaEstable(ds[1..]);
    }
  }

  /** An order. Its lifecycle state is a field the code overwrites at will. */
  class Pedido {
    var id: Option<int>
    var nombreCliente: Option<string>
    var fechaHora: FechaHora
    var pagado: bool
    var estadoActual: Option<Estado>
    var detalles: seq<DetallePedido>

    /** The no-argument constructor: unsaved, no customer, unpaid, received,
        no items. */
    constructor (ahora: FechaHora)
      ensures id == None && nombreCliente == None && fechaHora == ahora
      ensures !pagado && estadoActual == Some(Recibido) && detalles == []
      ensures GetTotal() == 0
    {
      id, nombreCliente, fechaHora := None, None, ahora;
      pagado, estadoActual, detalles := false, Some(Recibido), [];
    }

    /** The two-argument constructor: the given id and customer, otherwise the
        same fresh order. */
    constructor ConCliente(id: Option<int>, nombreCliente: Option<string>, ahora: FechaHora)
      ensures this.id == id && this.nombreCliente == nombreCliente && fechaHora == ahora
      ensures !pagado && estadoActual == Some(Recibido) && detalles == []
      ensures GetTotal() == 0
    {
      this.id, this.nombreCliente, fechaHora := id, nombreCliente, ahora;
      pagado, estadoActual, detalles := false, Some(Recibido), [];
    }

    /** `cambiarEstado`: installs whatever state it is given, from any state;
        there is no transition guard. */
    method CambiarEstado(nuevoEstado: Option<Estado>)
      modifies this`estadoActual
      ensures estadoActual == nuevoEstado
    {
      estadoActual := nuevoEstado;
    }

    /** `obtenerEstadoActual`: the state's label, or SIN_ESTADO when null.
        The label always reads back as the current state. */
    function ObtenerEstadoActual(): (s: string)
      reads this`estadoActual
      ensures estadoActual.Some? ==> s == estadoActual.value.ObtenerEstado()
      ensures estadoActual.None? <==> s == SIN_ESTADO
      ensures EstadoDeEtiqueta(s) == estadoActual
    {
      match estadoActual
      case Some(e) =>
        EtiquetaIdaYVuelta(e);
        Etiqueta(estadoActual)
      case None =>
        assert SIN_ESTADO[0] !in {'R', 'C', 'T'};
        Etiqueta(estadoActual)
    }

    method SetId(v: Option<int>)
      modifies this`id
      ensures id == v
    {
      id := v;
    }

    method SetNombreCliente(v: Option<string>)
      modifies this`nombreCliente
      ensures nombreCliente == v
    {
      nombreCliente := v;
    }

    method SetFechaHora(v: FechaHora)
      modifies this`fechaHora
      ensures fechaHora == v
    {
      fechaHora := v;
    }

    /** `setPagado`: sets the flag either way, in any state. */
    method SetPagado(v: bool)
      modifies this`pagado
      ensures pagado == v
    {
      pagado := v;
    }

    /** `agregarDetalle`: points the item back at this order and appends it;
        the earlier items stay as they were and the total grows by exactly
        the new item's subtotal. */
    method AgregarDetalle(d: DetallePedido)
      modifies this`detalles, d`pedido
      ensures detalles == old(detalles) + [d] && d.pedido == this
      ensures GetTotal() == old(GetTotal()) + d.cantidad * d.precioUnitario
    {
      d.SetPedido(this);
      SumaEstable(old(detalles));
      detalles := detalles + [d];
      SumaAgregar(old(detalles), d);
    }

    /** `getTotal`: the sum of the items' subtotals. An order without items
        totals 0, and one whose items have no negative quantity or price
        never totals less than 0. */
    function GetTotal(): (r: int)
      reads this`detalles, detalles
      ensures detalles == [] ==> r == 0
      ensures (forall i | 0 <= i < |detalles| :: detalles[i].cantidad >= 0 && detalles[i].precioUnitario >= 0) ==> r >= 0
    {
      SumaNoNegativa(detalles);
      SumaSubtotales(detalles)
    }
  }

  /** The order store: whole orders by id, with ids handed out in increasing
      order and never reused. */
  class RepositorioPedidos {
    var filas: map<int, Pedido>
    var siguienteId: int

    /** Every stored order carries its own key as id, and every key is below
        the next id to hand out. */
    ghost predicate Valid()
      reads this, filas.Values`id
    {
      forall k | k in filas :: k < siguienteId && filas[k].id == Some(k)
    }

    constructor ()
      ensures Valid() && filas == map[]
    {
      filas, siguienteId := map[], 1;
    }

    /** `findById`. */
    function FindById(k: int): Option<Pedido>
      reads this
    {
      if k in filas then Some(filas[k]) else None
    }

    /** The order stored under `k`, as a set: empty when there is none. It
        names what an operation on order `k` may write. */
    function Cargado(k: int): set<Pedido>
      reads this
    {
      if k in filas then {filas[k]} else {}
    }

    /** `save`: an order without id gets the next id and is stored under it;
        an order already stored is kept where it is. */
    method Save(p: Pedido) returns (guardado: Pedido)
      requires Valid()
      requires p.id.Some? ==> p.id.value in filas && filas[p.id.value] == p
      modifies this, (if p.id.None? then {p} else {})`id
      ensures Valid() && guardado == p
      ensures old(p.id).None? ==>
        && p.id == Some(old(siguienteId))
        && filas == old(filas)[old(siguienteId) := p]
        && siguienteId == old(siguienteId) + 1
      ensures old(p.id).Some? ==>
        p.id == old(p.id) && filas == old(filas) && siguienteId == old(siguienteId)
    {
      if p.id.None? {
        var k := siguienteId;
        p.SetId(Some(k));
        filas := filas[k := p];
        siguienteId := k + 1;
      }
      guardado := p;
    }

    /** `deleteById`: removes the key; a missing key is ignored. */
    method DeleteById(k: int)
      requires Valid()
      modifies this
      ensures Valid()
      ensures filas == old(filas) - {k} && siguienteId == old(siguienteId)
    {
      filas := filas - {k};
    }

    /** An order without an id is not stored. */
    lemma SinIdNoGuardado(p: Pedido)
      requires Valid() && p.id.None?
      ensures p !in filas.Values
    {
      forall k | k in filas
        ensures filas[k] != p
      {
        assert filas[k].id == Some(k);
      }
    }
  }
}
