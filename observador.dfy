/** Observer side of the notifications: waiter observers, the subject that
    keeps them, and the record of every notification delivered. */
module Observador {
  import opened Base
  import opened Pedidos

  /** One notification as a waiter observer prints it: who was told, about
      which order id, and which state label. */
  datatype Entrega = Entrega(mesero: string, pedidoId: Option<int>, estado: string)

  /** Standard output, shared by every observer. Printing is not modelled;
      only the notifications delivered are recorded, oldest first. */
  class Consola {
    ghost var entregas: seq<Entrega>

    constructor ()
      ensures entregas == []
    {
      entregas := [];
    }
  }

  /** `ObservadorMesero`: a named waiter. It does not override `equals`, so
      two waiters with the same name are still two observers. */
  class ObservadorMesero {
    const nombreMesero: string

    constructor (nombreMesero: string)
      ensures this.nombreMesero == nombreMesero
    {
      this.nombreMesero := nombreMesero;
    }

    /** `actualizar`: announces the order's id and the new state label. */
    method Actualizar(consola: Consola, pedido: Pedido, estado: string)
      modifies consola
      ensures consola.entregas == old(consola.entregas) + [Entrega(nombreMesero, pedido.id, estado)]
    {
      consola.entregas := consola.entregas + [Entrega(nombreMesero, pedido.id, estado)];
    }
  }

  /** What one fan-out to `obs` delivers: one notification per registered
      observer, in registration order. */
  function Difusion(obs: seq<ObservadorMesero>, pedidoId: Option<int>, estado: string): seq<Entrega>
  {
    if obs == [] then []
    else Difusion(obs[..|obs| - 1], pedidoId, estado) + [Entrega(obs[|obs| - 1].nombreMesero, pedidoId, estado)]
  }

  /** A fan-out delivers exactly one notification per observer. */
  lemma {:induction false} DifusionLongitud(obs: seq<ObservadorMesero>, pedidoId: Option<int>, estado: string)
    ensures |Difusion(obs, pedidoId, estado)| == |obs|
  {
    if obs != [] {
      DifusionLongitud(obs[..|obs| - 1], pedidoId, estado);
    }
  }

  /** The i-th notification of a fan-out goes to the i-th observer
      registered, about the same order and state. */
  lemma {:induction false} DifusionPorPosicion(obs: seq<ObservadorMesero>, pedidoId: Option<int>, estado: string)
    ensures |Difusion(obs, pedidoId, estado)| == |obs|
    ensures forall i | 0 <= i < |obs| ::
      Difusion(obs, pedidoId, estado)[i] == Entrega(obs[i].nombreMesero, pedidoId, estado)
  {
    if obs != [] {
      DifusionPorPosicion(obs[..|obs| - 1], pedidoId, estado);
    }
  }

  /** Fanning out to two lists one after the other is fanning out to their
      concatenation. */
  lemma {:induction false} DifusionConcatenada(a: seq<ObservadorMesero>, b: seq<ObservadorMesero>, pedidoId: Option<int>, estado: string)
    ensures Difusion(a + b, pedidoId, estado) == Difusion(a, pedidoId, estado) + Difusion(b, pedidoId, estado)
  {
    if b == [] {
      assert a + b == a;
    } else {
      assert (a + b)[..|a + b| - 1] == a + b[..|b| - 1];
      DifusionConcatenada(a, b[..|b| - 1], pedidoId, estado);
    }
  }

  /** How many observers in `obs` are named `nombre`. */
  function ObservadoresLlamados(obs: seq<ObservadorMesero>, nombre: string): nat
  {
    if obs == [] then 0
    else ObservadoresLlamados(obs[..|obs| - 1], nombre) + (if obs[|obs| - 1].nombreMesero == nombre then 1 else 0)
  }

  /** How many notifications in `es` went to a waiter named `nombre`. */
  function EntregasA(es: seq<Entrega>, nombre: string): nat
  {
    if es == [] then 0
    else EntregasA(es[..|es| - 1], nombre) + (if es[|es| - 1].mesero == nombre then 1 else 0)
  }

  /** Duplicate names are not merged: a waiter name registered k times gets k
      notifications from one fan-out. */
  lemma {:induction false} DuplicadosRecibenCadaUno(obs: seq<ObservadorMesero>, nombre: string, pedidoId: Option<int>, estado: string)
    ensures EntregasA(Difusion(obs, pedidoId, estado), nombre) == ObservadoresLlamados(obs, nombre)
  {
    if obs != [] {
      var d := Difusion(obs, pedidoId, estado);
      assert d[..|d| - 1] == Difusion(obs[..|obs| - 1], pedidoId, estado);
      DuplicadosRecibenCadaUno(obs[..|obs| - 1], nombre, pedidoId, estado);
    }
  }

  /** `List.remove(Object)` for observers: drops the first occurrence of that
      very observer and keeps the rest in order. */
  function SinPrimero(obs: seq<ObservadorMesero>, o: ObservadorMesero): (r: seq<ObservadorMesero>)
    ensures o !in obs ==> r == obs
    ensures o in obs ==> |r| == |obs| - 1
    ensures forall x :: x in r ==> x in obs
  {
    if obs == [] then []
    else if obs[0] == o then obs[1..]
    else [obs[0]] + SinPrimero(obs[1..], o)
  }

  /** Removing cuts out exactly the first occurrence: what comes before it and
      what comes after it are kept as they were. */
  lemma {:induction false} SinPrimeroCorta(obs: seq<ObservadorMesero>, o: ObservadorMesero, i: int)
    requires 0 <= i < |obs| && obs[i] == o && o !in obs[..i]
    ensures SinPrimero(obs, o) == obs[..i] + obs[i + 1..]
  {
    if i > 0 {
      assert obs[1..][..i - 1] == obs[1..i];
      SinPrimeroCorta(obs[1..], o, i - 1);
      assert obs[..i] == [obs[0]] + obs[1..i];
    }
  }

  /** Adding an observer that was not registered and then removing it gives
      back the original list. */
  lemma {:induction false} AgregarYQuitar(obs: seq<ObservadorMesero>, o: ObservadorMesero)
    requires o !in obs
    ensures SinPrimero(obs + [o], o) == obs
  {
    SinPrimeroCorta(obs + [o], o, |obs|);
    assert (obs + [o])[..|obs|] == obs;
  }

  /** `SujetoPedido`: the observer list, the order being announced and the
      last state announced. */
  class SujetoPedido {
    var observadores: seq<ObservadorMesero>
    var pedido: Pedido?
    var estadoActual: Option<string>
    const consola: Consola

    constructor (consola: Consola)
      ensures observadores == [] && pedido == null && estadoActual == None
      ensures this.consola == consola
    {
      observadores, pedido, estadoActual := [], null, None;
      this.consola := consola;
    }

    /** The order id the observers are told about. */
    function IdNotificado(): Option<int>
      reads this`pedido, pedido
    {
      if pedido == null then None else pedido.id
    }

    /** `agregarObservador`: appends at the end; duplicates are allowed. */
    method AgregarObservador(o: ObservadorMesero)
      modifies this`observadores
      ensures observadores == old(observadores) + [o]
    {
      observadores := observadores + [o];
    }

    /** `removerObservador`: drops the first occurrence of that observer. */
    method RemoverObservador(o: ObservadorMesero)
      modifies this`observadores
      ensures observadores == SinPrimero(old(observadores), o)
    {
      observadores := SinPrimero(observadores, o);
    }

    /** `notificarObservadores`: records the state as the current one, then
        tells every observer, in registration order, exactly once. The
        observer list is not changed. An observer reads the order's id, so
        with observers registered the order must be set. */
    method NotificarObservadores(nuevoEstado: string)
      requires pedido != null || observadores == []
      modifies this`estadoActual, consola
      ensures estadoActual == Some(nuevoEstado)
      ensures consola.entregas == old(consola.entregas) + Difusion(observadores, IdNotificado(), nuevoEstado)
    {
      estadoActual := Some(nuevoEstado);
      var i := 0;
      while i < |observadores|
        invariant 0 <= i <= |observadores|
        invariant estadoActual == Some(nuevoEstado)
        invariant consola.entregas == old(consola.entregas) + Difusion(observadores[..i], IdNotificado(), nuevoEstado)
      {
        observadores[i].Actualizar(consola, pedido, nuevoEstado);
        assert observadores[..i + 1][..i] == observadores[..i];
        i := i + 1;
      }
      assert observadores[..i] == observadores;
    }

    /** `setPedido`: changes the announced order only. */
    method SetPedido(p: Pedido?)
      modifies this`pedido
      ensures pedido == p
    {
      pedido := p;
    }
  }
}
