/** The two order commands: create an order, and send an order to the cook. */
module Comandos {
  import opened Base
  import opened Estados
  import opened Pedidos
  import opened Observador
  import opened Mediador

  /** `ComandoCrearPedido`: creates and saves one order for a customer, and
      can delete it again. */
  class ComandoCrearPedido {
    const repositorio: RepositorioPedidos
    const nombreCliente: Option<string>
    var pedidoCreado: Pedido?

    /** Nothing has been created yet: `obtenerPedido` gives null. */
    constructor (repositorio: RepositorioPedidos, nombreCliente: Option<string>)
      ensures this.repositorio == repositorio && this.nombreCliente == nombreCliente
      ensures pedidoCreado == null
    {
      this.repositorio, this.nombreCliente := repositorio, nombreCliente;
      pedidoCreado := null;
    }

    /** `ejecutar`: a new order with the customer's name and otherwise the
        defaults (unpaid, received, no items) is saved under the next id, and
        remembered. */
    method Ejecutar(ahora: FechaHora)
      requires repositorio.Valid()
      modifies repositorio, this`pedidoCreado
      ensures repositorio.Valid()
      ensures pedidoCreado != null && fresh(pedidoCreado)
      ensures pedidoCreado.id == Some(old(repositorio.siguienteId))
      ensures pedidoCreado.nombreCliente == nombreCliente && pedidoCreado.fechaHora == ahora
      ensures !pedidoCreado.pagado && pedidoCreado.estadoActual == Some(Recibido)
      ensures pedidoCreado.detalles == []
      ensures repositorio.filas == old(repositorio.filas)[old(repositorio.siguienteId) := pedidoCreado]
      ensures repositorio.siguienteId == old(repositorio.siguienteId) + 1
    {
      var pedido := new Pedido(ahora);
      pedido.SetNombreCliente(nombreCliente);
      pedidoCreado := repositorio.Save(pedido);
    }

    /** `deshacer`: deletes the created order's id from the store; before
        `ejecutar`, or when that order has no id, nothing changes. */
    method Deshacer()
      requires repositorio.Valid()
      modifies repositorio
      ensures repositorio.Valid()
      ensures pedidoCreado != null && pedidoCreado.id.Some? ==>
        repositorio.filas == old(repositorio.filas) - {pedidoCreado.id.value}
      ensures !(pedidoCreado != null && pedidoCreado.id.Some?) ==> unchanged(repositorio)
      ensures repositorio.siguienteId == old(repositorio.siguienteId)
    {
      if pedidoCreado != null && pedidoCreado.id.Some? {
        repositorio.DeleteById(pedidoCreado.id.value);
      }
    }

    /** `obtenerPedido`. */
    function ObtenerPedido(): Pedido?
      reads this`pedidoCreado
    {
      pedidoCreado
    }
  }

  /** Undoing a creation gives back exactly the rows there were before it:
      the new id was not in use, so deleting it removes only the new row. */
  lemma {:induction false} DeshacerRestaura(filas: map<int, Pedido>, siguienteId: int, p: Pedido)
    requires forall k | k in filas :: k < siguienteId
    ensures filas[siguienteId := p] - {siguienteId} == filas
  {
    assert siguienteId !in filas;
    var despues := filas[siguienteId := p] - {siguienteId};
    assert despues.Keys == filas.Keys;
    assert forall k | k in despues :: despues[k] == filas[k];
  }

  /** `ComandoEnviarACocinero`: hands one fixed order to the mediator. */
  class ComandoEnviarACocinero {
    const pedido: Pedido
    const mediador: MediadorRestaurante

    constructor (pedido: Pedido, mediador: MediadorRestaurante)
      ensures this.pedido == pedido && this.mediador == mediador
    {
      this.pedido, this.mediador := pedido, mediador;
    }

    /** `ejecutar`: the mediator announces the order as COCINANDO, once. The
        order itself, its state included, is not written. */
    method Ejecutar()
      modifies mediador.sujetoPedido`pedido, mediador.sujetoPedido`estadoActual, mediador.sujetoPedido.consola
      ensures mediador.sujetoPedido.pedido == pedido
      ensures mediador.sujetoPedido.estadoActual == Some(Cocinando.ObtenerEstado())
      ensures mediador.sujetoPedido.consola.entregas ==
        old(mediador.sujetoPedido.consola.entregas)
        + Difusion(mediador.sujetoPedido.observadores, pedido.id, Cocinando.ObtenerEstado())
    {
      mediador.EnviarPedidoACocinero(pedido);
    }

    /** `deshacer`: undoes nothing; it writes nothing. */
    method Deshacer()
    {
    }

    /** `obtenerPedido`: the order given to the constructor. */
    function ObtenerPedido(): Pedido
    {
      pedido
    }
  }

  /** A command as the menu builder stores it: either kind. */
  datatype Comando =
    | CrearPedido(crear: ComandoCrearPedido)
    | EnviarACocinero(enviar: ComandoEnviarACocinero)
}
