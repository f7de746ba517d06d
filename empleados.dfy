/** Employees, their store, and the employee service that dispatches orders
    along the role chain. */
module Empleados {
  import opened Base
  import opened Pedidos
  import opened Cadena

  /** An employee (a plain entity). The role may be null; the salary is in
      whole pesos. */
  datatype Empleado = Empleado(id: Option<int>, nombre: string, rol: Option<string>, salario: int)

  /** The employee store: employees by id, ids handed out in increasing
      order. A stored employee is a value; updating one replaces it. */
  class RepositorioEmpleados {
    var filas: map<int, Empleado>
    var siguienteId: int

    ghost predicate Valid()
      reads this
    {
      forall k | k in filas :: k < siguienteId && filas[k].id == Some(k)
    }

    constructor ()
      ensures Valid() && filas == map[]
    {
      filas, siguienteId := map[], 1;
    }

    /** `findById`. */
    function FindById(k: int): Option<Empleado>
      reads this
    {
      if k in filas then Some(filas[k]) else None
    }

    /** `save`: an employee without id is stored under the next id; one with
        the id of a stored employee replaces it. */
    method Save(e: Empleado) returns (guardado: Empleado)
      requires Valid()
      requires e.id.Some? ==> e.id.value in filas
      modifies this
      ensures Valid()
      ensures e.id.None? ==>
        && guardado == e.(id := Some(old(siguienteId)))
        && filas == old(filas)[old(siguienteId) := guardado]
        && siguienteId == old(siguienteId) + 1
      ensures e.id.Some? ==>
        guardado == e && filas == old(filas)[e.id.value := e] && siguienteId == old(siguienteId)
    {
      if e.id.None? {
        guardado := e.(id := Some(siguienteId));
        filas := filas[siguienteId := guardado];
        siguienteId := siguienteId + 1;
      } else {
        guardado := e;
        filas := filas[e.id.value := e];
      }
    }

    /** `deleteById`: removes the key; a missing key is ignored. */
    method DeleteById(k: int)
      requires Valid()
      modifies this
      ensures Valid()
      ensures filas == old(filas) - {k} && siguienteId == old(siguienteId)
    {
      filas := filas - {k};
    }
  }

  /** `EmpleadoService`: the employee store and its own three-handler chain,
      built once in the constructor. */
  class EmpleadoService {
    const repo: RepositorioEmpleados
    const cadena: ManejadorPedido
    ghost const nodos: seq<ManejadorPedido>

    /** The store is consistent and the chain is still cook, waiter, admin. */
    ghost predicate Valid()
      reads repo, nodos
    {
      repo.Valid() && cadena.Enlazada(nodos) && Tipos(nodos) == CADENA_ESTANDAR
    }

    constructor (repo: RepositorioEmpleados)
      requires repo.Valid()
      ensures Valid() && this.repo == repo
    {
      this.repo := repo;
      var cabeza, enlazados := ConfigurarCadena();
      cadena := cabeza;
      nodos := enlazados;
    }

    /** `manejarPedidoPorRol`: the chain head gets the order and the role
        unchanged; exactly one handler acts, the one the role names. */
    method ManejarPedidoPorRol(pedido: Pedido, rol: Option<string>) returns (m: Manejo)
      requires Valid()
      ensures Some(m) == Despachar(CADENA_ESTANDAR, rol)
    {
      var r := cadena.Manejar(pedido, rol, nodos);
      AdminCierra(CADENA_ESTANDAR, rol, 2);
      m := r.value;
    }

    /** `manejarPedidoPorEmpleado`: an unknown employee throws "Empleado no
        encontrado" before the chain runs; a known one is dispatched on the
        role stored for that employee. */
    method ManejarPedidoPorEmpleado(idEmpleado: int, pedido: Pedido) returns (r: Result<Manejo>)
      requires Valid()
      ensures r.Err? <==> idEmpleado !in repo.filas
      ensures r.Err? ==> r.error == RuntimeException("Empleado no encontrado")
      ensures r.Ok? ==> Some(r.value) == Despachar(CADENA_ESTANDAR, repo.filas[idEmpleado].rol)
    {
      var encontrado := repo.FindById(idEmpleado);
      if encontrado.None? {
        r := Err(RuntimeException("Empleado no encontrado"));
      } else {
        var m := ManejarPedidoPorRol(pedido, encontrado.value.rol);
        r := Ok(m);
      }
    }

    /** `crear`: the id the employee came with is dropped, so it is always
        stored as a new employee under the next id. */
    method Crear(e: Empleado) returns (guardado: Empleado)
      requires Valid()
      modifies repo
      ensures Valid()
      ensures guardado == e.(id := Some(old(repo.siguienteId)))
      ensures old(repo.siguienteId) !in old(repo.filas)
      ensures repo.filas == old(repo.filas)[old(repo.siguienteId) := guardado]
    {
      guardado := repo.Save(e.(id := None));
    }

    /** `actualizar`: copies name, role and salary onto the stored employee
        and saves it; a missing id gives empty and changes nothing. */
    method Actualizar(id: int, datos: Empleado) returns (r: Option<Empleado>)
      requires Valid()
      modifies repo
      ensures Valid() && repo.siguienteId == old(repo.siguienteId)
      ensures r.None? <==> id !in old(repo.filas)
      ensures r.None? ==> repo.filas == old(repo.filas)
      ensures r.Some? ==>
        && r.value == Empleado(Some(id), datos.nombre, datos.rol, datos.salario)
        && repo.filas == old(repo.filas)[id := r.value]
    {
      var encontrado := repo.FindById(id);
      if encontrado.None? {
        r := None;
      } else {
        var e := encontrado.value.(nombre := datos.nombre, rol := datos.rol, salario := datos.salario);
        var guardado := repo.Save(e);
        r := Some(guardado);
      }
    }

    /** `eliminar`. */
    method Eliminar(id: int)
      requires Valid()
      modifies repo
      ensures Valid() && repo.filas == old(repo.filas) - {id}
    {
      repo.DeleteById(id);
    }
  }
}
