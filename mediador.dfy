/** The restaurant mediator: it owns a subject of its own, separate from any
    service's, and announces "cooking" and "ready" on it. */
module Mediador {
  import opened Base
  import opened Estados
  import opened Pedidos
  import opened Observador

  class MediadorRestaurante {
    const sujetoPedido: SujetoPedido

    /** A new mediator owns a new subject with no observers. */
    constructor (consola: Consola)
      ensures fresh(sujetoPedido) && sujetoPedido.consola == consola
      ensures sujetoPedido.observadores == [] && sujetoPedido.pedido == null
      ensures sujetoPedido.estadoActual == None
    {
      sujetoPedido := new SujetoPedido(consola);
    }

    /** `enviarPedidoACocinero`: announces the order as COCINANDO to every
        mediator observer, whatever the order's own state is; the order is
        not touched. */
    method EnviarPedidoACocinero(p: Pedido)
      modifies sujetoPedido`pedido, sujetoPedido`estadoActual, sujetoPedido.consola
      ensures sujetoPedido.pedido == p
      ensures sujetoPedido.estadoActual == Some(Cocinando.ObtenerEstado())
      ensures sujetoPedido.consola.entregas ==
        old(sujetoPedido.consola.entregas) + Difusion(sujetoPedido.observadores, p.id, Cocinando.ObtenerEstado())
    {
      sujetoPedido.SetPedido(p);
      sujetoPedido.NotificarObservadores("COCINANDO");
    }

    /** `pedidoListo`: announces the order as TERMINADO to every mediator
        observer; the order is not touched. */
    method PedidoListo(p: Pedido)
      modifies sujetoPedido`pedido, sujetoPedido`estadoActual, sujetoPedido.consola
      ensures sujetoPedido.pedido == p
      ensures sujetoPedido.estadoActual == Some(Terminado.ObtenerEstado())
      ensures sujetoPedido.consola.entregas ==
        old(sujetoPedido.consola.entregas) + Difusion(sujetoPedido.observadores, p.id, Terminado.ObtenerEstado())
    {
      sujetoPedido.SetPedido(p);
      sujetoPedido.NotificarObservadores("TERMINADO");
    }

    /** `registrarMesero`: appends one new waiter observer with that name. */
    method RegistrarMesero(nombreMesero: string)
      modifies sujetoPedido`observadores
      ensures |sujetoPedido.observadores| == |old(sujetoPedido.observadores)| + 1
      ensures sujetoPedido.observadores[..|old(sujetoPedido.observadores)|] == old(sujetoPedido.observadores)
      ensures fresh(sujetoPedido.observadores[|old(sujetoPedido.observadores)|])
      ensures sujetoPedido.observadores[|old(sujetoPedido.observadores)|].nombreMesero == nombreMesero
    {
      var o := new ObservadorMesero(nombreMesero);
      sujetoPedido.AgregarObservador(o);
    }
  }
}
