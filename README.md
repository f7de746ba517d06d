# Café del Bosque: the order workflow, modelled in Dafny

This project models the order workflow of the Café del Bosque restaurant
back end (a Spring application, Java), as it is written:

- **Orders and line items.** A `Pedido` holds its line items
  (`DetallePedido`), a paid flag and a lifecycle state. Its total is the
  sum of quantity times the unit price captured when each item was added.
- **Lifecycle states.** RECIBIDO, COCINANDO and TERMINADO form a closed
  enumeration. `Pedido.cambiarEstado` installs any state from any state.
- **Role dispatch chain.** Cook, then waiter, then admin, linked through
  successor fields. Roles match ignoring case, the first match wins, and
  the admin handler always ends the walk.
- **Notifications.** A subject (`SujetoPedido`) tells every registered
  waiter, in registration order and once per registration. The mediator
  owns a second subject of its own. Every notification delivered is
  recorded on a shared console log, so the order in which the two subjects
  speak can be stated.
- **History (memento).** An append-only log of order snapshots. A
  snapshot does not include the lifecycle state, and a lookup by id
  returns the oldest matching entry.
- **Commands.** Create an order, with undo. Send an order to the cook.
- **The three services.** Orders (`PedidoService`), patterns
  (`GestorPatronesService`) and employees (`EmpleadoService`). Each
  operation loads, mutates, saves, appends to the history and notifies,
  in the source's own order. Missing orders, products and employees take
  the source's error paths: an empty result, or the exception with its
  message.
- **The catalog side.** The hot and cold product factories, the menu
  builder, the "extra" decorator, and the product service.
- **The inventory item's low-stock test.**

Stores are modelled as classes holding a `map` from id to row, plus the
next id to hand out. Ids increase and are never reused. The order store
holds the order objects themselves, so an order a service changes is the
stored one. The product and employee stores hold values.

The code and the system's intended design differ in a few places. The
model follows the code:

- There are no transition guards. `enviarACocinero` and
  `enviarPedidoACocinero` move a TERMINADO order back to COCINANDO.
  `terminarPedido` finishes a RECIBIDO order. No "invalid transition"
  error exists.
- The paid flag can be set either way, in any state.
- `HistorialPedidos.obtenerPorId` returns the oldest matching snapshot,
  not the most recent one. An entry without an id met before a match
  throws a null-pointer exception.
- `agregarProducto` on a missing order returns empty rather than failing.
- A lifecycle change in `PedidoService` notifies the mediator's waiters
  first and the service's own waiters afterwards. A waiter registered
  through `registrarMesero` is therefore told twice.
- A failing observer is not isolated from the others. In the model no
  observer can fail: the console only records.

Files:

| file | module |
|---|---|
| base.dfy | `Base`: Option, exceptions, Result and Outcome, timestamps, the `Lista` list object |
| estados.dfy | `Estados`: the three states and their labels |
| catalogo.dfy | `Catalogo`: products, the two factories, the extra decorator |
| pedidos.dfy | `Pedidos`: line items, orders, the order store |
| memento.dfy | `Memento`: snapshots and the history |
| observador.dfy | `Observador`: waiters, the console log, the subject |
| mediador.dfy | `Mediador`: the mediator |
| cadena.dfy | `Cadena`: the role chain |
| comandos.dfy | `Comandos`: the two commands |
| menus.dfy | `Menus`: menu and menu builder |
| productos_servicio.dfy | `ProductosServicio`: product store and product service |
| empleados.dfy | `Empleados`: employees, their store and the employee service |
| pedido_servicio.dfy | `PedidoServicio`: the order service |
| gestor_patrones.dfy | `GestorPatrones`: the patterns service |
| inventario.dfy | `Inventario`: the inventory item |

## Model

| member | source | states |
|---|---|---|
| Estados.Etiqueta | src/main/java/com/restaurante/gestionPedidos/model/Pedido.java:51-53 | The label is the state's own label when there is a state. It is "SIN_ESTADO" exactly when the state is null. |
| Estados.EstadoDeEtiqueta | src/main/java/com/restaurante/patrones/state/EstadoRecibido.java:28-30 | Reading a label back: any state it returns has exactly that label. |
| Estados.EtiquetaIdaYVuelta | src/main/java/com/restaurante/patrones/state/EstadoCocinando.java:28-30 | Every state's label reads back as that very state. |
| Estados.EtiquetasDistintas | src/main/java/com/restaurante/patrones/state/EstadoTerminado.java:28-30 | Two states share a label if and only if they are the same state. |
| Estados.Estado.ObtenerEstado | src/main/java/com/restaurante/patrones/state/EstadoRecibido.java:28-30 | No state's label is the null-state placeholder "SIN_ESTADO". That each label belongs to one state only is stated by EtiquetasDistintas. |
| Catalogo.CrearBebida | src/main/java/com/restaurante/patrones/factory/ProductoCalienteFactory.java:12-19 | A factory's drink is unsaved (no id), available, and has a positive price. Its exact name, category and price are stated by CatalogoCaliente and CatalogoFrio. |
| Catalogo.CrearPlato | src/main/java/com/restaurante/patrones/factory/ProductoCalienteFactory.java:22-29 | A factory's dish is unsaved, available, and has a positive price. Its exact name, category and price are stated by CatalogoCaliente and CatalogoFrio. |
| Catalogo.CrearPostre | src/main/java/com/restaurante/patrones/factory/ProductoCalienteFactory.java:32-39 | A factory's dessert is unsaved, available, and has a positive price. Its exact name, category and price are stated by CatalogoCaliente and CatalogoFrio. |
| Catalogo.CatalogoCaliente | src/main/java/com/restaurante/patrones/factory/ProductoCalienteFactory.java:11-39 | The hot factory builds "Café Caliente" (5000), "Sopa del Día" (12000) and "Tarta Caliente de Chocolate" (8000), with their categories. |
| Catalogo.CatalogoFrio | src/main/java/com/restaurante/patrones/factory/ProductoFrioFactory.java:11-39 | The cold factory builds "Limonada" (6000), "Ensalada César" (15000) and "Helado de Vainilla" (7000), with their categories. |
| Catalogo.CategoriasDistintas | src/main/java/com/restaurante/patrones/factory/ProductoFrioFactory.java:15-35 | No two of the six factory products share a category. |
| Catalogo.ProductoConExtra.GetPrecio | src/main/java/com/restaurante/patrones/decorator/ProductoConExtra.java:20-23 | The decorated price less the extra's price is the wrapped product's price. |
| Catalogo.ProductoConExtra.GetNombre | src/main/java/com/restaurante/patrones/decorator/ProductoConExtra.java:25-27 | The decorated name starts with the wrapped name, continues with " con ", and ends with the extra. Its length is the sum of the three. |
| Catalogo.ConExtra | src/main/java/com/restaurante/gestionProductos/service/ProductoService.java:128-131 | The product written back has the decorated price and name. Its id, category and availability stay the product's own. |
| Catalogo.ExtrasSeAcumulan | src/main/java/com/restaurante/patrones/decorator/ProductoConExtra.java:20-27 | Two extras in a row add both prices and append both names in order. The category does not change. |
| Pedidos.DetallePedido.constructor | src/main/java/com/restaurante/gestionPedidos/model/DetallePedido.java:24 | A default item has no id, no product and no order, and quantity and price 0, so its subtotal is 0. |
| Pedidos.DetallePedido.Con | src/main/java/com/restaurante/gestionPedidos/model/DetallePedido.java:26-31 | Stores exactly the given id, quantity, price and product. The order back-reference is null. |
| Pedidos.DetallePedido.SetId | src/main/java/com/restaurante/gestionPedidos/model/DetallePedido.java:53-55 | Sets the id and nothing else. |
| Pedidos.DetallePedido.SetCantidad | src/main/java/com/restaurante/gestionPedidos/model/DetallePedido.java:57-59 | Sets the quantity to any value, zero and negative included, and nothing else. |
| Pedidos.DetallePedido.SetPrecioUnitario | src/main/java/com/restaurante/gestionPedidos/model/DetallePedido.java:61-63 | Sets the unit price and nothing else. |
| Pedidos.DetallePedido.SetProducto | src/main/java/com/restaurante/gestionPedidos/model/DetallePedido.java:65-67 | Sets the product and nothing else. The captured price is untouched. |
| Pedidos.DetallePedido.SetPedido | src/main/java/com/restaurante/gestionPedidos/model/DetallePedido.java:69-71 | Sets the order back-reference and nothing else. |
| Pedidos.DetallePedido.GetSubtotal | src/main/java/com/restaurante/gestionPedidos/model/DetallePedido.java:73-76 | The subtotal is 0 exactly when the quantity or the price is 0, and it is not negative when neither is. It reads only the quantity and the captured price, never the product. How it adds up into the order total is stated by SumaAgregar and SumaEstable. |
| Pedidos.SumaConcatenada | src/main/java/com/restaurante/gestionPedidos/model/Pedido.java:96-101 | The total over two item lists put together is the sum of their totals. |
| Pedidos.SumaAgregar | src/main/java/com/restaurante/gestionPedidos/model/Pedido.java:91-101 | Appending one item raises the total by exactly that item's quantity times its price. |
| Pedidos.SumaNoNegativa | src/main/java/com/restaurante/gestionPedidos/model/DetallePedido.java:73-76 | With no negative quantity and no negative price, the total is not negative. |
| Pedidos.SumaEstable | src/main/java/com/restaurante/gestionPedidos/model/DetallePedido.java:73-76 | The total depends only on each item's quantity and captured price. Changing any other field of any item, or the product it points to, leaves the total as it was. |
| Pedidos.Pedido.constructor | src/main/java/com/restaurante/gestionPedidos/model/Pedido.java:29-33 | A new order has no id and no customer, carries the given timestamp, is unpaid and RECIBIDO, has no items, and totals 0. |
| Pedidos.Pedido.ConCliente | src/main/java/com/restaurante/gestionPedidos/model/Pedido.java:35-41 | The given id and customer. Otherwise the same new order: unpaid, RECIBIDO, no items, total 0. |
| Pedidos.Pedido.CambiarEstado | src/main/java/com/restaurante/gestionPedidos/model/Pedido.java:43-45 | From any state, installs exactly the state given (null included) and writes nothing else. |
| Pedidos.Pedido.ObtenerEstadoActual | src/main/java/com/restaurante/gestionPedidos/model/Pedido.java:51-53 | The current state's label, or "SIN_ESTADO" exactly when there is no state. The label always reads back as the current state, so it loses nothing. |
| Pedidos.Pedido.SetId | src/main/java/com/restaurante/gestionPedidos/model/Pedido.java:75-77 | Sets the id and nothing else. |
| Pedidos.Pedido.SetNombreCliente | src/main/java/com/restaurante/gestionPedidos/model/Pedido.java:79-81 | Sets the customer and nothing else. |
| Pedidos.Pedido.SetFechaHora | src/main/java/com/restaurante/gestionPedidos/model/Pedido.java:83-85 | Sets the timestamp and nothing else. |
| Pedidos.Pedido.SetPagado | src/main/java/com/restaurante/gestionPedidos/model/Pedido.java:87-89 | Sets the paid flag to the given value, either way, and nothing else. |
| Pedidos.Pedido.AgregarDetalle | src/main/java/com/restaurante/gestionPedidos/model/Pedido.java:91-94 | The item is appended after the unchanged earlier items and points back at this order. The total grows by exactly its subtotal. |
| Pedidos.Pedido.GetTotal | src/main/java/com/restaurante/gestionPedidos/model/Pedido.java:96-101 | An order without items totals 0. Items with no negative quantity or price never total below 0. Each appended item adds exactly its subtotal (AgregarDetalle, SumaAgregar), and the total ignores every item field but quantity and price (SumaEstable). |
| Pedidos.RepositorioPedidos.constructor | src/main/java/com/restaurante/gestionPedidos/repository/PedidoRepository.java:9 | An empty, consistent store. |
| Pedidos.RepositorioPedidos.Save | src/main/java/com/restaurante/gestionPedidos/repository/PedidoRepository.java:9 | An order without an id is given the next id and stored under it, and the next id advances. An order already stored stays where it is and the store is unchanged. The store stays consistent. |
| Pedidos.RepositorioPedidos.DeleteById | src/main/java/com/restaurante/gestionPedidos/repository/PedidoRepository.java:9 | Removes that key, ignoring a missing one. Nothing else changes. |
| Pedidos.RepositorioPedidos.SinIdNoGuardado | src/main/java/com/restaurante/gestionPedidos/model/Pedido.java:15-17 | An order without an id is not in a consistent store. |
| Memento.Capturar | src/main/java/com/restaurante/patrones/memento/PedidoMemento.java:18-25 | The snapshot holds the order's id, customer, timestamp, paid flag, item count and total. It does not read the lifecycle state. |
| Memento.PrimeroConId | src/main/java/com/restaurante/patrones/memento/HistorialPedidos.java:35-40 | A hit is a log entry with that (non-null) id. An empty result means no entry has that id. A log whose entries all carry ids never throws. |
| Memento.PrimeroConIdEsElMasAntiguo | src/main/java/com/restaurante/patrones/memento/HistorialPedidos.java:35-40 | When entry i matches and every earlier entry has a different id, entry i is the one returned: the oldest match. |
| Memento.PrimeroConIdEstable | src/main/java/com/restaurante/patrones/memento/HistorialPedidos.java:16-17 | Appending a snapshot never changes what an earlier successful lookup found. |
| Memento.HistorialPedidos.constructor | src/main/java/com/restaurante/patrones/memento/HistorialPedidos.java:14 | A new history is empty. |
| Memento.HistorialPedidos.GuardarEstado | src/main/java/com/restaurante/patrones/memento/HistorialPedidos.java:16-19 | Exactly one snapshot of the order is appended after the unchanged earlier entries. |
| Memento.HistorialPedidos.ObtenerHistorial | src/main/java/com/restaurante/patrones/memento/HistorialPedidos.java:21-23 | A new list holding the entries in insertion order. It is fresh, so adding to it cannot touch the log. |
| Observador.ObservadorMesero.constructor | src/main/java/com/restaurante/patrones/observer/ObservadorMesero.java:11-13 | The waiter carries the given name. |
| Observador.ObservadorMesero.Actualizar | src/main/java/com/restaurante/patrones/observer/ObservadorMesero.java:16-19 | One notification is recorded: this waiter's name, the order's id and the state label. |
| Observador.DifusionLongitud | src/main/java/com/restaurante/patrones/observer/SujetoPedido.java:26-28 | One fan-out delivers exactly one notification per registered observer. |
| Observador.DifusionPorPosicion | src/main/java/com/restaurante/patrones/observer/SujetoPedido.java:26-28 | The i-th notification of a fan-out goes to the i-th registered observer, about the same order and state. |
| Observador.DifusionConcatenada | src/main/java/com/restaurante/patrones/observer/SujetoPedido.java:26-28 | Fanning out to two lists in turn equals fanning out to the two lists joined. |
| Observador.DuplicadosRecibenCadaUno | src/main/java/com/restaurante/patrones/observer/SujetoPedido.java:16-28 | A name registered k times receives exactly k notifications from one fan-out. |
| Observador.SinPrimero | src/main/java/com/restaurante/patrones/observer/SujetoPedido.java:20-22 | Removing an observer that is absent changes nothing. Removing one that is present shortens the list by one. No observer is added. |
| Observador.SinPrimeroCorta | src/main/java/com/restaurante/patrones/observer/SujetoPedido.java:20-22 | Removal cuts out exactly the first occurrence and keeps what came before and after it, in order. |
| Observador.AgregarYQuitar | src/main/java/com/restaurante/patrones/observer/SujetoPedido.java:16-22 | Adding an observer that was not registered and then removing it restores the list. |
| Observador.SujetoPedido.constructor | src/main/java/com/restaurante/patrones/observer/SujetoPedido.java:12-14 | No observers, no order, no state, writing to the given console. |
| Observador.SujetoPedido.AgregarObservador | src/main/java/com/restaurante/patrones/observer/SujetoPedido.java:16-18 | Appends at the end, duplicates allowed. Only the list changes. |
| Observador.SujetoPedido.RemoverObservador | src/main/java/com/restaurante/patrones/observer/SujetoPedido.java:20-22 | The list becomes the old list without the first occurrence of that observer. |
| Observador.SujetoPedido.NotificarObservadores | src/main/java/com/restaurante/patrones/observer/SujetoPedido.java:24-29 | Records the state as current. Then every observer, in registration order, is told once about the current order. The observer list and the order are unchanged. |
| Observador.SujetoPedido.SetPedido | src/main/java/com/restaurante/patrones/observer/SujetoPedido.java:31-33 | Changes the announced order only. |
| Mediador.MediadorRestaurante.constructor | src/main/java/com/restaurante/patrones/mediator/MediadorRestaurante.java:15-17 | The mediator owns a new subject with no observers. |
| Mediador.MediadorRestaurante.EnviarPedidoACocinero | src/main/java/com/restaurante/patrones/mediator/MediadorRestaurante.java:19-24 | Every mediator waiter is told "COCINANDO" once, whatever the order's own state. The order is not written. |
| Mediador.MediadorRestaurante.PedidoListo | src/main/java/com/restaurante/patrones/mediator/MediadorRestaurante.java:26-30 | Every mediator waiter is told "TERMINADO" once. The order is not written. |
| Mediador.MediadorRestaurante.RegistrarMesero | src/main/java/com/restaurante/patrones/mediator/MediadorRestaurante.java:32-34 | One new waiter with that name is appended to the mediator's subject. The earlier observers are kept. |
| Cadena.Decidir | src/main/java/com/restaurante/patrones/chainofresponsibility/ManejadorAdmin.java:10-16 | The admin handler never forwards. The "no handler" outcome comes exactly from the admin with a non-ADMIN role. A null role is forwarded by cook and waiter and is reported as unhandled by the admin. |
| Cadena.PrimeroGana | src/main/java/com/restaurante/patrones/chainofresponsibility/ManejadorCocinero.java:11-16 | The first handler that acts decides the outcome. Every handler after it is ignored. |
| Cadena.NadieAtiende | src/main/java/com/restaurante/patrones/chainofresponsibility/ManejadorPedido.java:17-21 | If every handler forwards, the walk ends at the null successor with no outcome. |
| Cadena.AdminCierra | src/main/java/com/restaurante/patrones/chainofresponsibility/ManejadorAdmin.java:10-16 | A chain with an admin handler always produces an outcome, and nothing linked after the first admin is consulted. |
| Cadena.CadenaEstandarClasifica | src/main/java/com/restaurante/gestionEmpleados/service/EmpleadoService.java:32-41 | On the cook, waiter, admin chain each outcome holds exactly for its roles, ignoring case: cook for COCINERO or BARISTA, waiter for MESERO, admin for ADMIN, "no handler" for any other role (null included). |
| Cadena.MismoRolSinMayusculas | src/main/java/com/restaurante/patrones/chainofresponsibility/ManejadorMesero.java:11 | Two spellings of a role that differ only in letter case are dispatched the same way, on any chain. |
| Cadena.DespacharRespeta | src/main/java/com/restaurante/patrones/chainofresponsibility/ManejadorCocinero.java:11 | The walk depends on the role only through which role names it matches. |
| Cadena.ManejadorPedido.constructor | src/main/java/com/restaurante/patrones/chainofresponsibility/ManejadorPedido.java:9 | A new handler has no successor. |
| Cadena.ManejadorPedido.EstablecerSiguiente | src/main/java/com/restaurante/patrones/chainofresponsibility/ManejadorPedido.java:11-13 | Overwrites the successor with the given handler. |
| Cadena.ManejadorPedido.Manejar | src/main/java/com/restaurante/patrones/chainofresponsibility/ManejadorMesero.java:10-18 | Walking the linked handlers from this one gives the outcome of the first handler that acts, none if all forward. The order is only read. |
| Cadena.ManejadorPedido.PasarASiguiente | src/main/java/com/restaurante/patrones/chainofresponsibility/ManejadorPedido.java:17-21 | Without a successor nothing happens. Otherwise the rest of the chain handles the same order and role. |
| Cadena.ConfigurarCadena | src/main/java/com/restaurante/gestionEmpleados/service/EmpleadoService.java:32-41 | Three new handlers linked cook, waiter, admin, with the cook at the head and nothing after the admin. |
| Comandos.ComandoCrearPedido.constructor | src/main/java/com/restaurante/patrones/command/ComandoCrearPedido.java:14-17 | Nothing has been created yet: the created order is null. |
| Comandos.ComandoCrearPedido.Ejecutar | src/main/java/com/restaurante/patrones/command/ComandoCrearPedido.java:20-25 | A new order with the customer's name is saved under the next id and remembered. It is unpaid, RECIBIDO and without items. Only that one row is added. |
| Comandos.ComandoCrearPedido.Deshacer | src/main/java/com/restaurante/patrones/command/ComandoCrearPedido.java:28-33 | After a creation, the created order's row is deleted. Before a creation, or when the order has no id, the store is unchanged. |
| Comandos.DeshacerRestaura | src/main/java/com/restaurante/patrones/command/ComandoCrearPedido.java:20-31 | Undo after do gives back exactly the rows there were before. |
| Comandos.ComandoEnviarACocinero.constructor | src/main/java/com/restaurante/patrones/command/ComandoEnviarACocinero.java:13-16 | Holds exactly the given order and mediator. |
| Comandos.ComandoEnviarACocinero.Ejecutar | src/main/java/com/restaurante/patrones/command/ComandoEnviarACocinero.java:19-22 | The mediator announces the order as COCINANDO, once per mediator waiter. The order's own state is not written. |
| Menus.Menu.constructor | src/main/java/com/restaurante/patrones/builder/Menu.java:15-18 | Holds the two lists it is given, not copies. |
| Menus.MenuBuilder.constructor | src/main/java/com/restaurante/patrones/builder/MenuBuilder.java:13-14 | A new builder has two new, empty lists. |
| Menus.MenuBuilder.AgregarBebida | src/main/java/com/restaurante/patrones/builder/MenuBuilder.java:16-19 | Appends to the product list only and returns the same builder. |
| Menus.MenuBuilder.AgregarPlato | src/main/java/com/restaurante/patrones/builder/MenuBuilder.java:21-24 | Appends to the same product list and returns the same builder. |
| Menus.MenuBuilder.AgregarPostre | src/main/java/com/restaurante/patrones/builder/MenuBuilder.java:26-29 | Appends to the same product list and returns the same builder. |
| Menus.MenuBuilder.AgregarComando | src/main/java/com/restaurante/patrones/builder/MenuBuilder.java:31-34 | Appends to the command list only and returns the same builder. |
| Menus.MenuBuilder.Construir | src/main/java/com/restaurante/patrones/builder/MenuBuilder.java:36-38 | A new menu that shares the builder's own lists, so later additions show in it. |
| ProductosServicio.RepositorioProductos.constructor | src/main/java/com/restaurante/gestionProductos/repository/ProductoRepository.java:8 | An empty, consistent store. |
| ProductosServicio.RepositorioProductos.Save | src/main/java/com/restaurante/gestionProductos/repository/ProductoRepository.java:8 | A product without an id is stored under the next id, which advances. A product with a stored id replaces that row. The store stays consistent. |
| ProductosServicio.RepositorioProductos.DeleteById | src/main/java/com/restaurante/gestionProductos/repository/ProductoRepository.java:8 | Removes that key, ignoring a missing one. |
| ProductosServicio.MenuDelDia | src/main/java/com/restaurante/gestionProductos/service/ProductoService.java:57-62 | Six products, all unsaved and available. |
| ProductosServicio.MenuSinRepetidos | src/main/java/com/restaurante/gestionProductos/service/ProductoService.java:57-62 | The six menu products are pairwise different. |
| ProductosServicio.ConDatos | src/main/java/com/restaurante/gestionProductos/service/ProductoService.java:100-105 | The stored id is kept. Name, category, price and availability are the new data's. |
| ProductosServicio.ProductoService.constructor | src/main/java/com/restaurante/gestionProductos/service/ProductoService.java:31-36 | The service uses the given store. |
| ProductosServicio.ProductoService.ConstruirMenu | src/main/java/com/restaurante/gestionProductos/service/ProductoService.java:53-65 | A new menu: hot drink, cold drink, hot dish, cold dish, hot dessert, cold dessert, in that order, and no commands. Nothing is saved. |
| ProductosServicio.ProductoService.CrearBebidaCaliente | src/main/java/com/restaurante/gestionProductos/service/ProductoService.java:68-70 | The hot factory's drink is saved under the next id. Exactly that row is added. |
| ProductosServicio.ProductoService.CrearBebidaFria | src/main/java/com/restaurante/gestionProductos/service/ProductoService.java:72-74 | The cold factory's drink is saved under the next id. Exactly that row is added. |
| ProductosServicio.ProductoService.CrearPlatoCaliente | src/main/java/com/restaurante/gestionProductos/service/ProductoService.java:76-78 | The hot factory's dish is saved under the next id. Exactly that row is added. |
| ProductosServicio.ProductoService.CrearPlatoFrio | src/main/java/com/restaurante/gestionProductos/service/ProductoService.java:80-82 | The cold factory's dish is saved under the next id. Exactly that row is added. |
| ProductosServicio.ProductoService.CrearPostreCaliente | src/main/java/com/restaurante/gestionProductos/service/ProductoService.java:84-86 | The hot factory's dessert is saved under the next id. Exactly that row is added. |
| ProductosServicio.ProductoService.CrearPostreFrio | src/main/java/com/restaurante/gestionProductos/service/ProductoService.java:88-90 | The cold factory's dessert is saved under the next id. Exactly that row is added. |
| ProductosServicio.ProductoService.Crear | src/main/java/com/restaurante/gestionProductos/service/ProductoService.java:93-96 | Whatever id the product came with is dropped, so it is stored as a new row under an id not in use before. |
| ProductosServicio.ProductoService.Actualizar | src/main/java/com/restaurante/gestionProductos/service/ProductoService.java:99-107 | A missing id gives empty and changes nothing. Otherwise the stored row takes the new name, category, price and availability and keeps its id. No other row changes. |
| ProductosServicio.ProductoService.AgregarExtra | src/main/java/com/restaurante/gestionProductos/service/ProductoService.java:124-134 | A missing id throws "Producto no encontrado" and changes nothing. Otherwise the stored row takes the decorated price and name, keeping id, category and availability. |
| ProductosServicio.ProductoService.Eliminar | src/main/java/com/restaurante/gestionProductos/service/ProductoService.java:136-138 | Removes that id's row, if any. |
| Empleados.RepositorioEmpleados.constructor | src/main/java/com/restaurante/gestionEmpleados/repository/EmpleadoRepository.java:8 | An empty, consistent store. |
| Empleados.RepositorioEmpleados.Save | src/main/java/com/restaurante/gestionEmpleados/repository/EmpleadoRepository.java:8 | An employee without an id is stored under the next id, which advances. One with a stored id replaces that row. |
| Empleados.RepositorioEmpleados.DeleteById | src/main/java/com/restaurante/gestionEmpleados/repository/EmpleadoRepository.java:8 | Removes that key, ignoring a missing one. |
| Empleados.EmpleadoService.constructor | src/main/java/com/restaurante/gestionEmpleados/service/EmpleadoService.java:26-30 | The service uses the given store and its own cook, waiter, admin chain. |
| Empleados.EmpleadoService.ManejarPedidoPorRol | src/main/java/com/restaurante/gestionEmpleados/service/EmpleadoService.java:52-54 | The outcome is the standard chain's outcome for that role, and there always is one. |
| Empleados.EmpleadoService.ManejarPedidoPorEmpleado | src/main/java/com/restaurante/gestionEmpleados/service/EmpleadoService.java:57-61 | An unknown employee throws "Empleado no encontrado" and the chain does not run. A known one is dispatched on the role stored for that employee. |
| Empleados.EmpleadoService.Crear | src/main/java/com/restaurante/gestionEmpleados/service/EmpleadoService.java:67-70 | The employee's own id is dropped, so it is stored as a new row under an id not in use before. |
| Empleados.EmpleadoService.Actualizar | src/main/java/com/restaurante/gestionEmpleados/service/EmpleadoService.java:72-79 | A missing id gives empty and changes nothing. Otherwise the row takes the new name, role and salary and keeps its id. |
| Empleados.EmpleadoService.Eliminar | src/main/java/com/restaurante/gestionEmpleados/service/EmpleadoService.java:81-83 | Removes that id's row, if any. |
| PedidoServicio.AgregarLinea | src/main/java/com/restaurante/gestionPedidos/service/PedidoService.java:89-94 | A new item with the quantity, the product and the product's current price is appended to the order. The total grows by quantity times that price. |
| PedidoServicio.PedidoService.constructor | src/main/java/com/restaurante/gestionPedidos/service/PedidoService.java:41-58 | A new subject of the service's own, separate from the mediator's, with exactly one observer, "Mesero Principal". The stores, the mediator and the history are shared. |
| PedidoServicio.PedidoService.CrearPedido | src/main/java/com/restaurante/gestionPedidos/service/PedidoService.java:69-82 | One new order under the next id, with one history snapshot. The service's waiters are told RECIBIDO once each, and the mediator's waiters are not told. The service's subject records RECIBIDO as its current state. |
| PedidoServicio.PedidoService.AgregarProducto | src/main/java/com/restaurante/gestionPedidos/service/PedidoService.java:84-101 | A missing order gives empty. A missing product throws "Producto no encontrado". In both cases nothing changes. Otherwise exactly one priced item is appended, the total grows by its subtotal, and one snapshot is added. Nobody is notified. |
| PedidoServicio.PedidoService.Anunciar | src/main/java/com/restaurante/gestionPedidos/service/PedidoService.java:117-118 | The service's subject now holds the order and records its label as the current state. Each of its waiters is told that label once, in registration order. |
| PedidoServicio.PedidoService.GuardarYNotificar | src/main/java/com/restaurante/gestionPedidos/service/PedidoService.java:113-118 | Saving keeps the order's row, and one snapshot is appended. The service's waiters are told the order's current label once each, and the subject records that label as its current state. |
| PedidoServicio.PedidoService.EnviarACocinero | src/main/java/com/restaurante/gestionPedidos/service/PedidoService.java:104-122 | A missing order gives empty and changes nothing. Otherwise the order becomes COCINANDO from any state, and one snapshot is added. The console gets first the mediator's waiters, then the service's own, each told COCINANDO once. Both subjects record COCINANDO as their current state. |
| PedidoServicio.PedidoService.TerminarPedido | src/main/java/com/restaurante/gestionPedidos/service/PedidoService.java:125-142 | A missing order gives empty and changes nothing. Otherwise the order becomes TERMINADO from any state, and one snapshot is added. The mediator's waiters, then the service's own, are each told TERMINADO once. Both subjects record TERMINADO as their current state. |
| PedidoServicio.PedidoService.MarcarPagado | src/main/java/com/restaurante/gestionPedidos/service/PedidoService.java:144-151 | A missing order gives empty and changes nothing. Otherwise the order is marked paid, its state is kept, and one snapshot is added. Nobody is notified. |
| PedidoServicio.PedidoService.RegistrarMesero | src/main/java/com/restaurante/gestionPedidos/service/PedidoService.java:163-166 | One new waiter with that name is appended to the service's subject, and another to the mediator's. |
| GestorPatrones.GestorPatronesService.constructor | src/main/java/com/restaurante/patrones/service/GestorPatronesService.java:30-57 | The service shares the given stores, mediator and history, and builds its own cook, waiter, admin chain with the cook at the head. |
| GestorPatrones.GestorPatronesService.CrearPedidoConCommand | src/main/java/com/restaurante/patrones/service/GestorPatronesService.java:67-73 | One new order under the next id and one history snapshot. Nobody is notified. |
| GestorPatrones.GestorPatronesService.CambiarYGuardar | src/main/java/com/restaurante/patrones/service/GestorPatronesService.java:82-83 | The stored order takes the given state. Saving it leaves every row where it was. |
| GestorPatrones.GestorPatronesService.EnviarPedidoACocinero | src/main/java/com/restaurante/patrones/service/GestorPatronesService.java:78-89 | A missing order throws "Pedido no encontrado" and changes nothing. Otherwise the order becomes COCINANDO from any state and keeps its row. The mediator's waiters are told COCINANDO once each, and its subject records COCINANDO as its current state. One snapshot is added. |
| GestorPatrones.GestorPatronesService.TerminarPedido | src/main/java/com/restaurante/patrones/service/GestorPatronesService.java:94-103 | A missing order throws "Pedido no encontrado" and changes nothing. Otherwise the order becomes TERMINADO from any state, the mediator's waiters are told TERMINADO once each, and its subject records TERMINADO. One snapshot is added. |
| GestorPatrones.GestorPatronesService.ManejarPedidoPorRol | src/main/java/com/restaurante/patrones/service/GestorPatronesService.java:108-113 | A missing order throws "Pedido no encontrado" before the chain runs. Otherwise the outcome is the standard chain's for that role. Nothing is written either way. |
| GestorPatrones.GestorPatronesService.RegistrarMeseroParaNotificaciones | src/main/java/com/restaurante/patrones/service/GestorPatronesService.java:132-134 | One new waiter is appended to the mediator's subject only. |
| Inventario.InventarioItem.IsBajoStock | src/main/java/com/restaurante/gestionInventario/model/InventarioItem.java:69-72 | Stock below the minimum is low, stock exactly at the minimum is low too, and stock above it is not. The setters and the constructors restate this for the values they write. |
| Inventario.InventarioItem.constructor | src/main/java/com/restaurante/gestionInventario/model/InventarioItem.java:18 | Nulls and zeros. A new item is therefore low on stock, since 0 is at the minimum 0. |
| Inventario.InventarioItem.Con | src/main/java/com/restaurante/gestionInventario/model/InventarioItem.java:20-27 | Stores exactly the given values. The item is low on stock exactly when the given stock is at or below the given minimum. |
| Inventario.InventarioItem.SetId | src/main/java/com/restaurante/gestionInventario/model/InventarioItem.java:49-51 | Sets the id and nothing else. |
| Inventario.InventarioItem.SetNombreInsumo | src/main/java/com/restaurante/gestionInventario/model/InventarioItem.java:53-55 | Sets the name and nothing else. |
| Inventario.InventarioItem.SetUnidad | src/main/java/com/restaurante/gestionInventario/model/InventarioItem.java:57-59 | Sets the unit and nothing else. |
| Inventario.InventarioItem.SetStockActual | src/main/java/com/restaurante/gestionInventario/model/InventarioItem.java:61-63 | Sets the stock to any value, negative included. The item is then low exactly when that value is at or below the unchanged minimum. |
| Inventario.InventarioItem.SetStockMinimo | src/main/java/com/restaurante/gestionInventario/model/InventarioItem.java:65-67 | Sets the minimum to any value. The item is then low exactly when the unchanged stock is at or below it. |

## Left out

- Console output: every `System.out.println` in the states, handlers, mediator, commands, history, menu and product service. Only the notifications a waiter prints are recorded, as entries on the console log.
- The print-only action methods `procesar`, `cocinar`, `terminar` and `cancelar` of the three state classes. They write no field and nothing calls them.
- `HistorialPedidos.mostrarHistorial`, `Menu.mostrarMenu`, `ProductoService.mostrarMenu`, `GestorPatronesService.mostrarMenu` and `verHistorial`: printing only.
- The listing and query methods (`listarTodos`, `listarDisponibles`, `buscarPorId`, `buscarPorRol`, `pedidosEntre`, `findByFechaHoraBetween`, `findByDisponibleTrue`, `findByCategoria`, `findByRol`): repository queries with no logic of the services' own. `findById` is modelled as a map lookup.
- `ProductoService.aplicarDescuento` and `ProductoConDescuento`: the discount is computed from a `double` percentage, that is, in floating point.
- Floating point generally: unit prices, subtotals, totals and snapshot totals are `double` in the source and exact whole pesos here, so rounding is not modelled. `BigDecimal` prices are whole pesos as well.
- Empleado: the name is never null and the salary is whole pesos. The source has a nullable `String` name and a `BigDecimal` salary.
- ProductosServicio.ProductoService.Crear and Empleados.EmpleadoService.Crear: products and employees are values here. In the source, `crear` clears the id on the caller's own object, and saving writes the generated id back onto that same instance. The model returns the saved value with its new id, but it does not capture that update to the caller's object.
- Null product fields: a product's name, category and price are never null here. The source would throw a null-pointer exception pricing an item whose product has a null price.
- Java `int` overflow in quantities, stock values and `cantidad * precioUnitario`: the model's integers are unbounded.
- JPA persistence: `estadoActual` is `@Transient`, so an order read back from a real database would come back RECIBIDO. The order store here holds the order objects themselves, with their state. Cascading of line items, transactions and database failures are not modelled.
- `LocalDateTime.now()`: the clock is a parameter (`FechaHora`) handed in by the caller.
- `GestorConfiguracion` (a singleton holding display strings, printed by the patterns service's constructor) and `MenuFacade` (held by the patterns service and used only for printing) are not part of this model.
- `InventarioService` and the controllers are not part of this model. They are thin store and HTTP layers.
- Cadena.Coincide: `equalsIgnoreCase` is modelled for ASCII letters only. Java also folds non-ASCII letters, such as accented capitals, the dotless 'ı' and the Kelvin sign.
- Cadena.ManejadorPedido.Manejar: only a chain that ends in a null successor is covered. A cycle of handlers would loop in the source, and no service builds one.
- Observador.SujetoPedido.NotificarObservadores: requires the order to be set whenever observers are registered. The source would throw a null-pointer exception from the first waiter, and every caller sets the order first.
- Comandos.ComandoEnviarACocinero.Deshacer and both commands' `obtenerPedido`: modelled, but with no contract worth a row. `deshacer` writes nothing, and `obtenerPedido` returns the stored field.
- Concurrency: the Spring singletons (the mediator and the history, shared by both order services) are used from one thread at a time.
