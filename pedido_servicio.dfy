/** The order service: creates orders, adds items, moves orders through
    their states, and records every step in the shared history and on two
    notification subjects (its own and the mediator's). */
module PedidoServicio {
  import opened Base
  import opened Estados
  import opened Catalogo
  import opened Pedidos
  import opened Memento
  import opened Observador
  import opened Mediador
  import opened Comandos
  import opened ProductosServicio

  /** The item `agregarProducto` adds: a new item for the quantity, at the
      product's current price, appended to the order; the total grows by
      exactly that item's subtotal. */
  method AgregarLinea(pedido: Pedido, producto: Producto, cantidad: int) returns (d: DetallePedido)
    modifies pedido`detalles
    ensures fresh(d) && pedido.detalles == old(pedido.detalles) + [d]
    ensures d.pedido == pedido && d.id == None && d.cantidad == cantidad
    ensures d.precioUnitario == producto.precio && d.producto == Some(producto)
    ensures pedido.GetTotal() == old(pedido.GetTotal()) + cantidad * producto.precio
  {
    d := new DetallePedido();
    d.SetCantidad(cantidad);
    d.SetPrecioUnitario(producto.precio);
    d.SetProducto(Some(producto));
    pedido.AgregarDetalle(d);
  }

  class PedidoService {
    const pedidoRepo: RepositorioPedidos
    const productoRepo: RepositorioProductos
    const mediador: MediadorRestaurante
    const sujetoPedido: SujetoPedido
    const historial: HistorialPedidos

    /** Both stores are consistent, every history entry carries an id, and
        the service's subject is its own, separate from the mediator's, both
        writing to the same console. */
    ghost predicate Valid()
      reads pedidoRepo, pedidoRepo.filas.Values`id, productoRepo, historial
    {
      && pedidoRepo.Valid() && productoRepo.Valid()
      && ConIds(historial.historial)
      && sujetoPedido != mediador.sujetoPedido
      && sujetoPedido.consola == mediador.sujetoPedido.consola
    }

    /** The constructor makes a new subject with one observer, "Mesero
        Principal"; the mediator and the history are shared, not copied. */
    constructor (pedidoRepo: RepositorioPedidos, productoRepo: RepositorioProductos,
                 mediador: MediadorRestaurante, historial: HistorialPedidos)
      requires pedidoRepo.Valid() && productoRepo.Valid() && ConIds(historial.historial)
      ensures Valid()
      ensures this.pedidoRepo == pedidoRepo && this.productoRepo == productoRepo
      ensures this.mediador == mediador && this.historial == historial
      ensures fresh(sujetoPedido) && |sujetoPedido.observadores| == 1
      ensures fresh(sujetoPedido.observadores[0])
      ensures sujetoPedido.observadores[0].nombreMesero == "Mesero Principal"
    {
      this.pedidoRepo, this.productoRepo := pedidoRepo, productoRepo;
      this.mediador, this.historial := mediador, historial;
      sujetoPedido := new SujetoPedido(mediador.sujetoPedido.consola);
      new;
      var principal := new ObservadorMesero("Mesero Principal");
      sujetoPedido.AgregarObservador(principal);
    }

    /** `crearPedido`: one new order is saved under the next id, one snapshot
        of it is added to the history, and the service's observers are told
        once each that it is RECIBIDO. The mediator's observers are not told. */
    method CrearPedido(nombreCliente: Option<string>, ahora: FechaHora) returns (pedido: Pedido)
      requires Valid()
      modifies pedidoRepo, historial, sujetoPedido`pedido, sujetoPedido`estadoActual, sujetoPedido.consola
      ensures Valid()
      ensures fresh(pedido) && pedido.id == Some(old(pedidoRepo.siguienteId))
      ensures pedido.nombreCliente == nombreCliente && pedido.fechaHora == ahora
      ensures !pedido.pagado && pedido.estadoActual == Some(Recibido) && pedido.detalles == []
      ensures pedidoRepo.filas == old(pedidoRepo.filas)[old(pedidoRepo.siguienteId) := pedido]
      ensures historial.historial == old(historial.historial) + [Capturar(pedido)]
      ensures sujetoPedido.pedido == pedido && sujetoPedido.estadoActual == Some(Recibido.ObtenerEstado())
      ensures sujetoPedido.consola.entregas ==
        old(sujetoPedido.consola.entregas) + Difusion(sujetoPedido.observadores, pedido.id, Recibido.ObtenerEstado())
      ensures |sujetoPedido.consola.entregas| ==
        |old(sujetoPedido.consola.entregas)| + |sujetoPedido.observadores|
    {
      var comando := new ComandoCrearPedido(pedidoRepo, nombreCliente);
      comando.Ejecutar(ahora);
      pedido := comando.ObtenerPedido();
      historial.GuardarEstado(pedido);
      Anunciar(pedido);
    }

    /** `agregarProducto`. A missing order gives empty and changes nothing,
        whether or not the product exists. A missing product throws "Producto
        no encontrado" and changes nothing. Otherwise one new item with the
        product's current price is appended to the order, the order is saved,
        and one snapshot is added to the history; nobody is notified. */
    method AgregarProducto(idPedido: int, idProducto: int, cantidad: int) returns (r: Result<Option<Pedido>>)
      requires Valid()
      modifies pedidoRepo, pedidoRepo.Cargado(idPedido)`detalles, historial
      ensures Valid()
      ensures pedidoRepo.filas == old(pedidoRepo.filas) && pedidoRepo.siguienteId == old(pedidoRepo.siguienteId)
      ensures idPedido !in old(pedidoRepo.filas) ==> r == Ok(None)
      ensures idPedido in old(pedidoRepo.filas) && idProducto !in productoRepo.filas ==>
        r == Err(RuntimeException("Producto no encontrado"))
      ensures r.Ok? && r.value.Some? <==> idPedido in old(pedidoRepo.filas) && idProducto in productoRepo.filas
      ensures !(r.Ok? && r.value.Some?) ==> unchanged(historial) && unchanged(pedidoRepo.Cargado(idPedido))
      ensures r.Ok? && r.value.Some? ==>
        var p := pedidoRepo.filas[idPedido];
        var producto := productoRepo.filas[idProducto];
        && r.value.value == p
        && |p.detalles| == |old(p.detalles)| + 1
        && var d := p.detalles[|p.detalles| - 1];
        && p.detalles == old(p.detalles) + [d]
        && fresh(d) && d.pedido == p && d.id == None
        && d.cantidad == cantidad && d.precioUnitario == producto.precio && d.producto == Some(producto)
        && p.GetTotal() == old(p.GetTotal()) + cantidad * producto.precio
        && historial.historial == old(historial.historial) + [Capturar(p)]
    {
      var encontrado := pedidoRepo.FindById(idPedido);
      if encontrado.None? {
        return Ok(None);
      }
      var pedido := encontrado.value;
      var prod := productoRepo.FindById(idProducto);
      if prod.None? {
        return Err(RuntimeException("Producto no encontrado"));
      }
      var detalle := AgregarLinea(pedido, prod.value, cantidad);
      var guardado := pedidoRepo.Save(pedido);
      historial.GuardarEstado(guardado);
      r := Ok(Some(guardado));
    }

    /** The service's own announcement: the subject now holds the order and
        each of its observers is told the order's current label once, in
        registration order. */
    method Anunciar(pedido: Pedido)
      modifies sujetoPedido`pedido, sujetoPedido`estadoActual, sujetoPedido.consola
      ensures sujetoPedido.pedido == pedido && sujetoPedido.estadoActual == Some(pedido.ObtenerEstadoActual())
      ensures sujetoPedido.consola.entregas == old(sujetoPedido.consola.entregas)
        + Difusion(sujetoPedido.observadores, pedido.id, pedido.ObtenerEstadoActual())
      ensures |sujetoPedido.consola.entregas| == |old(sujetoPedido.consola.entregas)| + |sujetoPedido.observadores|
    {
      sujetoPedido.SetPedido(pedido);
      sujetoPedido.NotificarObservadores(pedido.ObtenerEstadoActual());
      DifusionLongitud(sujetoPedido.observadores, pedido.id, pedido.ObtenerEstadoActual());
    }

    /** The tail shared by the state-changing operations: the loaded order is
        saved (it keeps its id and place), one snapshot of it is added to the
        history, and the service's observers are told its current label. */
    method GuardarYNotificar(idPedido: int, pedido: Pedido) returns (guardado: Pedido)
      requires Valid() && idPedido in pedidoRepo.filas && pedidoRepo.filas[idPedido] == pedido
      modifies pedidoRepo, historial, sujetoPedido`pedido, sujetoPedido`estadoActual, sujetoPedido.consola
      ensures Valid() && guardado == pedido
      ensures pedidoRepo.filas == old(pedidoRepo.filas) && pedidoRepo.siguienteId == old(pedidoRepo.siguienteId)
      ensures historial.historial == old(historial.historial) + [Capturar(pedido)]
      ensures sujetoPedido.pedido == pedido && sujetoPedido.estadoActual == Some(pedido.ObtenerEstadoActual())
      ensures sujetoPedido.consola.entregas == old(sujetoPedido.consola.entregas)
        + Difusion(sujetoPedido.observadores, Some(idPedido), pedido.ObtenerEstadoActual())
      ensures |sujetoPedido.consola.entregas| == |old(sujetoPedido.consola.entregas)| + |sujetoPedido.observadores|
    {
      assert pedido.id == Some(idPedido);
      guardado := pedidoRepo.Save(pedido);
      historial.GuardarEstado(guardado);
      Anunciar(guardado);
    }

    /** `enviarACocinero`: a missing order gives empty and changes nothing.
        Otherwise the order becomes COCINANDO whatever its state was (even
        TERMINADO); the mediator's observers are told COCINANDO once each,
        then, after the save and one history snapshot, the service's own
        observers are told the same. */
    method EnviarACocinero(idPedido: int) returns (r: Option<Pedido>)
      requires Valid()
      modifies pedidoRepo, pedidoRepo.Cargado(idPedido)`estadoActual, historial
      modifies sujetoPedido`pedido, sujetoPedido`estadoActual, sujetoPedido.consola
      modifies mediador.sujetoPedido`pedido, mediador.sujetoPedido`estadoActual
      ensures Valid()
      ensures pedidoRepo.filas == old(pedidoRepo.filas) && pedidoRepo.siguienteId == old(pedidoRepo.siguienteId)
      ensures r.None? <==> idPedido !in old(pedidoRepo.filas)
      ensures r.None? ==> unchanged(historial, sujetoPedido, mediador.sujetoPedido, sujetoPedido.consola)
      ensures r.Some? ==>
        && r.value == pedidoRepo.filas[idPedido]
        && r.value.estadoActual == Some(Cocinando)
        && historial.historial == old(historial.historial) + [Capturar(r.value)]
        && sujetoPedido.pedido == r.value && mediador.sujetoPedido.pedido == r.value
        && sujetoPedido.estadoActual == Some(Cocinando.ObtenerEstado())
        && mediador.sujetoPedido.estadoActual == Some(Cocinando.ObtenerEstado())
        && sujetoPedido.consola.entregas == old(sujetoPedido.consola.entregas)
             + Difusion(mediador.sujetoPedido.observadores, Some(idPedido), Cocinando.ObtenerEstado())
             + Difusion(sujetoPedido.observadores, Some(idPedido), Cocinando.ObtenerEstado())
        && |sujetoPedido.consola.entregas| == |old(sujetoPedido.consola.entregas)|
             + |mediador.sujetoPedido.observadores| + |sujetoPedido.observadores|
    {
      var encontrado := pedidoRepo.FindById(idPedido);
      if encontrado.None? {
        return None;
      }
      var pedido := encontrado.value;
      pedido.CambiarEstado(Some(Cocinando));
      var comando := new ComandoEnviarACocinero(pedido, mediador);
      comando.Ejecutar();
      DifusionLongitud(mediador.sujetoPedido.observadores, Some(idPedido), Cocinando.ObtenerEstado());
      var guardado := GuardarYNotificar(idPedido, pedido);
      r := Some(guardado);
    }

    /** `terminarPedido`: a missing order gives empty and changes nothing.
        Otherwise the order becomes TERMINADO whatever its state was (even
        RECIBIDO); the mediator's observers are told TERMINADO once each,
        then, after the save and one history snapshot, the service's own
        observers are told the same. */
    method TerminarPedido(idPedido: int) returns (r: Option<Pedido>)
      requires Valid()
      modifies pedidoRepo, pedidoRepo.Cargado(idPedido)`estadoActual, historial
      modifies sujetoPedido`pedido, sujetoPedido`estadoActual, sujetoPedido.consola
      modifies mediador.sujetoPedido`pedido, mediador.sujetoPedido`estadoActual
      ensures Valid()
      ensures pedidoRepo.filas == old(pedidoRepo.filas) && pedidoRepo.siguienteId == old(pedidoRepo.siguienteId)
      ensures r.None? <==> idPedido !in old(pedidoRepo.filas)
      ensures r.None? ==> unchanged(historial, sujetoPedido, mediador.sujetoPedido, sujetoPedido.consola)
      ensures r.Some? ==>
        && r.value == pedidoRepo.filas[idPedido]
        && r.value.estadoActual == Some(Terminado)
        && historial.historial == old(historial.historial) + [Capturar(r.value)]
        && sujetoPedido.pedido == r.value && mediador.sujetoPedido.pedido == r.value
        && sujetoPedido.estadoActual == Some(Terminado.ObtenerEstado())
        && mediador.sujetoPedido.estadoActual == Some(Terminado.ObtenerEstado())
        && sujetoPedido.consola.entregas == old(sujetoPedido.consola.entregas)
             + Difusion(mediador.sujetoPedido.observadores, Some(idPedido), Terminado.ObtenerEstado())
             + Difusion(sujetoPedido.observadores, Some(idPedido), Terminado.ObtenerEstado())
        && |sujetoPedido.consola.entregas| == |old(sujetoPedido.consola.entregas)|
             + |mediador.sujetoPedido.observadores| + |sujetoPedido.observadores|
    {
      var encontrado := pedidoRepo.FindById(idPedido);
      if encontrado.None? {
        return None;
      }
      var pedido := encontrado.value;
      pedido.CambiarEstado(Some(Terminado));
      mediador.PedidoListo(pedido);
      DifusionLongitud(mediador.sujetoPedido.observadores, Some(idPedido), Terminado.ObtenerEstado());
      var guardado := GuardarYNotificar(idPedido, pedido);
      r := Some(guardado);
    }

    /** `marcarPagado`: a missing order gives empty and changes nothing.
        Otherwise the order is marked paid in whatever state it is, saved,
        and one snapshot is added to the history; nobody is notified. */
    method MarcarPagado(idPedido: int) returns (r: Option<Pedido>)
      requires Valid()
      modifies pedidoRepo, pedidoRepo.Cargado(idPedido)`pagado, historial
      ensures Valid()
      ensures pedidoRepo.filas == old(pedidoRepo.filas) && pedidoRepo.siguienteId == old(pedidoRepo.siguienteId)
      ensures r.None? <==> idPedido !in old(pedidoRepo.filas)
      ensures r.None? ==> unchanged(historial)
      ensures r.Some? ==>
        && r.value == pedidoRepo.filas[idPedido] && r.value.pagado
        && r.value.estadoActual == old(r.value.estadoActual)
        && historial.historial == old(historial.historial) + [Capturar(r.value)]
    {
      var encontrado := pedidoRepo.FindById(idPedido);
      if encontrado.None? {
        return None;
      }
      var pedido := encontrado.value;
      pedido.SetPagado(true);
      var guardado := pedidoRepo.Save(pedido);
      historial.GuardarEstado(guardado);
      r := Some(guardado);
    }

    /** `registrarMesero`: one new waiter observer with that name on the
        service's subject, and another on the mediator's. */
    method RegistrarMesero(nombreMesero: string)
      requires Valid()
      modifies sujetoPedido`observadores, mediador.sujetoPedido`observadores
      ensures Valid()
      ensures |sujetoPedido.observadores| == |old(sujetoPedido.observadores)| + 1
      ensures sujetoPedido.observadores[..|old(sujetoPedido.observadores)|] == old(sujetoPedido.observadores)
      ensures fresh(sujetoPedido.observadores[|old(sujetoPedido.observadores)|])
      ensures sujetoPedido.observadores[|old(sujetoPedido.observadores)|].nombreMesero == nombreMesero
      ensures |mediador.sujetoPedido.observadores| == |old(mediador.sujetoPedido.observadores)| + 1
      ensures mediador.sujetoPedido.observadores[..|old(mediador.sujetoPedido.observadores)|]
        == old(mediador.sujetoPedido.observadores)
      ensures fresh(mediador.sujetoPedido.observadores[|old(mediador.sujetoPedido.observadores)|])
      ensures mediador.sujetoPedido.observadores[|old(mediador.sujetoPedido.observadores)|].nombreMesero == nombreMesero
    {
      var o := new ObservadorMesero(nombreMesero);
      sujetoPedido.AgregarObservador(o);
      mediador.RegistrarMesero(nombreMesero);
    }
  }
}
