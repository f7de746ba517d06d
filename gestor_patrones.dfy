/** The service that drives the patterns together: orders through commands,
    the mediator and the history, and the role chain. */
module GestorPatrones {
  import opened Base
  import opened Estados
  import opened Pedidos
  import opened Memento
  import opened Observador
  import opened Mediador
  import opened Comandos
  import opened Cadena
  import opened Empleados

  class GestorPatronesService {
    const pedidoRepository: RepositorioPedidos
    const empleadoRepository: RepositorioEmpleados
    const mediador: MediadorRestaurante
    const historial: HistorialPedidos
    const cadena: ManejadorPedido
    ghost const nodos: seq<ManejadorPedido>

    /** The order store is consistent, every history entry carries an id, and
        the chain is still cook, waiter, admin. */
    ghost predicate Valid()
      reads pedidoRepository, pedidoRepository.filas.Values`id, historial, nodos
    {
      && pedidoRepository.Valid() && ConIds(historial.historial)
      && cadena.Enlazada(nodos) && Tipos(nodos) == CADENA_ESTANDAR
    }

    /** The constructor builds its own chain, cook first; the stores, the
        mediator and the history are shared, not copied. */
    constructor (pedidoRepository: RepositorioPedidos, empleadoRepository: RepositorioEmpleados,
                 mediador: MediadorRestaurante, historial: HistorialPedidos)
      requires pedidoRepository.Valid() && ConIds(historial.historial)
      ensures Valid()
      ensures this.pedidoRepository == pedidoRepository && this.empleadoRepository == empleadoRepository
      ensures this.mediador == mediador && this.historial == historial
      ensures nodos[0].tipo == Cocinero
    {
      this.pedidoRepository, this.empleadoRepository := pedidoRepository, empleadoRepository;
      this.mediador, this.historial := mediador, historial;
      var cabeza, enlazados := ConfigurarCadena();
      cadena, nodos := cabeza, enlazados;
    }

    /** `crearPedidoConCommand`: one new order saved under the next id and one
        snapshot of it in the history; nobody is notified. */
    method CrearPedidoConCommand(nombreCliente: Option<string>, ahora: FechaHora) returns (pedido: Pedido)
      requires Valid()
      modifies pedidoRepository, historial
      ensures Valid()
      ensures fresh(pedido) && pedido.id == Some(old(pedidoRepository.siguienteId))
      ensures pedido.nombreCliente == nombreCliente && pedido.fechaHora == ahora
      ensures !pedido.pagado && pedido.estadoActual == Some(Recibido) && pedido.detalles == []
      ensures pedidoRepository.filas == old(pedidoRepository.filas)[old(pedidoRepository.siguienteId) := pedido]
      ensures historial.historial == old(historial.historial) + [Capturar(pedido)]
    {
      var comando := new ComandoCrearPedido(pedidoRepository, nombreCliente);
      comando.Ejecutar(ahora);
      pedido := comando.ObtenerPedido();
      historial.GuardarEstado(pedido);
    }

    /** The state change and the save both service methods make on a stored
        order: the order's state becomes `estado` and the store keeps every
        entry where it was. */
    method CambiarYGuardar(pedido: Pedido, estado: Estado)
      requires pedidoRepository.Valid()
      requires pedido.id.Some? && pedido.id.value in pedidoRepository.filas
      requires pedidoRepository.filas[pedido.id.value] == pedido
      modifies pedidoRepository, pedido`estadoActual
      ensures pedidoRepository.Valid() && pedido.estadoActual == Some(estado)
      ensures pedidoRepository.filas == old(pedidoRepository.filas)
      ensures pedidoRepository.siguienteId == old(pedidoRepository.siguienteId)
    {
      pedido.CambiarEstado(Some(estado));
      var _ := pedidoRepository.Save(pedido);
    }

    /** `enviarPedidoACocinero`: a missing order throws "Pedido no encontrado"
        and changes nothing. Otherwise the order becomes COCINANDO whatever
        its state was, is saved, the mediator's observers are told COCINANDO
        once each, and one snapshot goes to the history. */
    method EnviarPedidoACocinero(pedidoId: int) returns (r: Outcome)
      requires Valid()
      modifies pedidoRepository, pedidoRepository.Cargado(pedidoId)`estadoActual, historial
      modifies mediador.sujetoPedido`pedido, mediador.sujetoPedido`estadoActual, mediador.sujetoPedido.consola
      ensures Valid()
      ensures pedidoRepository.filas == old(pedidoRepository.filas)
      ensures pedidoRepository.siguienteId == old(pedidoRepository.siguienteId)
      ensures r.Fail? <==> pedidoId !in old(pedidoRepository.filas)
      ensures r.Fail? ==> r.error == RuntimeException("Pedido no encontrado")
      ensures r.Fail? ==> unchanged(historial, mediador.sujetoPedido, mediador.sujetoPedido.consola)
      ensures r.Pass? ==>
        var p := pedidoRepository.filas[pedidoId];
        && p.estadoActual == Some(Cocinando)
        && historial.historial == old(historial.historial) + [Capturar(p)]
        && mediador.sujetoPedido.pedido == p
        && mediador.sujetoPedido.estadoActual == Some(Cocinando.ObtenerEstado())
        && mediador.sujetoPedido.consola.entregas == old(mediador.sujetoPedido.consola.entregas)
             + Difusion(mediador.sujetoPedido.observadores, Some(pedidoId), Cocinando.ObtenerEstado())
    {
      var encontrado := pedidoRepository.FindById(pedidoId);
      if encontrado.None? {
        return Fail(RuntimeException("Pedido no encontrado"));
      }
      var pedido := encontrado.value;
      assert pedido.id == Some(pedidoId);
      CambiarYGuardar(pedido, Cocinando);
      var comando := new ComandoEnviarACocinero(pedido, mediador);
      comando.Ejecutar();
      historial.GuardarEstado(pedido);
      r := Pass;
    }

    /** `terminarPedido`: a missing order throws "Pedido no encontrado" and
        changes nothing. Otherwise the order becomes TERMINADO whatever its
        state was, is saved, the mediator's observers are told TERMINADO once
        each, and one snapshot goes to the history. */
    method TerminarPedido(pedidoId: int) returns (r: Outcome)
      requires Valid()
      modifies pedidoRepository, pedidoRepository.Cargado(pedidoId)`estadoActual, historial
      modifies mediador.sujetoPedido`pedido, mediador.sujetoPedido`estadoActual, mediador.sujetoPedido.consola
      ensures Valid()
      ensures pedidoRepository.filas == old(pedidoRepository.filas)
      ensures pedidoRepository.siguienteId == old(pedidoRepository.siguienteId)
      ensures r.Fail? <==> pedidoId !in old(pedidoRepository.filas)
      ensures r.Fail? ==> r.error == RuntimeException("Pedido no encontrado")
      ensures r.Fail? ==> unchanged(historial, mediador.sujetoPedido, mediador.sujetoPedido.consola)
      ensures r.Pass? ==>
        var p := pedidoRepository.filas[pedidoId];
        && p.estadoActual == Some(Terminado)
        && historial.historial == old(historial.historial) + [Capturar(p)]
        && mediador.sujetoPedido.pedido == p
        && mediador.sujetoPedido.estadoActual == Some(Terminado.ObtenerEstado())
        && mediador.sujetoPedido.consola.entregas == old(mediador.sujetoPedido.consola.entregas)
             + Difusion(mediador.sujetoPedido.observadores, Some(pedidoId), Terminado.ObtenerEstado())
    {
      var encontrado := pedidoRepository.FindById(pedidoId);
      if encontrado.None? {
        return Fail(RuntimeException("Pedido no encontrado"));
      }
      var pedido := encontrado.value;
      assert pedido.id == Some(pedidoId);
      CambiarYGuardar(pedido, Terminado);
      mediador.PedidoListo(pedido);
      historial.GuardarEstado(pedido);
      r := Pass;
    }

    /** `manejarPedidoPorRol`: a missing order throws "Pedido no encontrado"
        before the chain runs. Otherwise the chain runs once and the one
        handler the role names acts. Nothing is written either way. */
    method ManejarPedidoPorRol(pedidoId: int, rol: Option<string>) returns (r: Result<Manejo>)
      requires Valid()
      ensures r.Err? <==> pedidoId !in pedidoRepository.filas
      ensures r.Err? ==> r.error == RuntimeException("Pedido no encontrado")
      ensures r.Ok? ==> Some(r.value) == Despachar(CADENA_ESTANDAR, rol)
    {
      var encontrado := pedidoRepository.FindById(pedidoId);
      if encontrado.None? {
        return Err(RuntimeException("Pedido no encontrado"));
      }
      var m := cadena.Manejar(encontrado.value, rol, nodos);
      AdminCierra(CADENA_ESTANDAR, rol, 2);
      r := Ok(m.value);
    }

    /** `registrarMeseroParaNotificaciones`: one new waiter observer on the
        mediator's subject only. */
    method RegistrarMeseroParaNotificaciones(nombreMesero: string)
      modifies mediador.sujetoPedido`observadores
      ensures |mediador.sujetoPedido.observadores| == |old(mediador.sujetoPedido.observadores)| + 1
      ensures mediador.sujetoPedido.observadores[..|old(mediador.sujetoPedido.observadores)|]
        == old(mediador.sujetoPedido.observadores)
      ensures fresh(mediador.sujetoPedido.observadores[|old(mediador.sujetoPedido.observadores)|])
      ensures mediador.sujetoPedido.observadores[|old(mediador.sujetoPedido.observadores)|].nombreMesero == nombreMesero
    {
      mediador.RegistrarMesero(nombreMesero);
    }
  }
}
