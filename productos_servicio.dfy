/** The product store and the product service: the six factory products,
    the fixed menu, and the update operations. */
module ProductosServicio {
  import opened Base
  import opened Catalogo
  import opened Comandos
  import opened Menus

  /** The product store: products by id, ids handed out in increasing order.
      A stored product is a value; updating one replaces the stored value. */
  class RepositorioProductos {
    var filas: map<int, Producto>
    var siguienteId: int

    ghost predicate Valid()
      reads this
    {
      forall k | k in filas :: k < siguienteId && filas[k].id == Some(k)
    }

    constructor ()
      ensures Valid() && filas == map[]
    {
      filas, siguienteId := map[], 1;
    }

    /** `findById`. */
    function FindById(k: int): Option<Producto>
      reads this
    {
      if k in filas then Some(filas[k]) else None
    }

    /** `save`: a product without id is stored under the next id; a product
        with the id of a stored one replaces it. */
    method Save(p: Producto) returns (guardado: Producto)
      requires Valid()
      requires p.id.Some? ==> p.id.value in filas
      modifies this
      ensures Valid()
      ensures p.id.None? ==>
        && guardado == p.(id := Some(old(siguienteId)))
        && filas == old(filas)[old(siguienteId) := guardado]
        && siguienteId == old(siguienteId) + 1
      ensures p.id.Some? ==>
        guardado == p && filas == old(filas)[p.id.value := p] && siguienteId == old(siguienteId)
    {
      if p.id.None? {
        guardado := p.(id := Some(siguienteId));
        filas := filas[siguienteId := guardado];
        siguienteId := siguienteId + 1;
      } else {
        guardado := p;
        filas := filas[p.id.value := p];
      }
    }

    /** `deleteById`: removes the key; a missing key is ignored. */
    method DeleteById(k: int)
      requires Valid()
      modifies this
      ensures Valid()
      ensures filas == old(filas) - {k} && siguienteId == old(siguienteId)
    {
      filas := filas - {k};
    }
  }

  /** The six products of the menu, in the order `construirMenu` adds them:
      both drinks, both dishes, both desserts, hot before cold. */
  function MenuDelDia(): (ps: seq<Producto>)
    ensures |ps| == 6
    ensures forall i | 0 <= i < 6 :: ps[i].id == None && ps[i].disponible
  {
    [ CrearBebida(Caliente), CrearBebida(Frio),
      CrearPlato(Caliente), CrearPlato(Frio),
      CrearPostre(Caliente), CrearPostre(Frio) ]
  }

  /** The six menu products are six different products. */
  lemma MenuSinRepetidos()
    ensures forall i, j | 0 <= i < j < |MenuDelDia()| :: MenuDelDia()[i] != MenuDelDia()[j]
  {
    CategoriasDistintas(Caliente, Caliente);
    CategoriasDistintas(Caliente, Frio);
    CategoriasDistintas(Frio, Caliente);
    CategoriasDistintas(Frio, Frio);
  }

  /** What `actualizar` makes of a stored product: the new name, category,
      price and availability, with the stored id kept. */
  function ConDatos(p: Producto, datos: Producto): (q: Producto)
    ensures q.id == p.id
    ensures q.nombre == datos.nombre && q.categoria == datos.categoria
    ensures q.precio == datos.precio && q.disponible == datos.disponible
  {
    p.(nombre := datos.nombre, categoria := datos.categoria,
       precio := datos.precio, disponible := datos.disponible)
  }

  /** `ProductoService`. The two factories hold no state; they are the
      `Caliente` and `Frio` values. */
  class ProductoService {
    const repo: RepositorioProductos

    constructor (repo: RepositorioProductos)
      ensures this.repo == repo
    {
      this.repo := repo;
    }

    /** `construirMenu`: a new menu of the six factory products in fixed
        order, and no commands. Nothing is saved. */
    method ConstruirMenu() returns (menu: Menu)
      ensures fresh(menu) && fresh(menu.productos) && fresh(menu.comandos)
      ensures menu.productos.elementos == MenuDelDia()
      ensures menu.comandos.elementos == []
    {
      var builder := new MenuBuilder();
      var b := builder.AgregarBebida(CrearBebida(Caliente));
      b := b.AgregarBebida(CrearBebida(Frio));
      b := b.AgregarPlato(CrearPlato(Caliente));
      b := b.AgregarPlato(CrearPlato(Frio));
      b := b.AgregarPostre(CrearPostre(Caliente));
      b := b.AgregarPostre(CrearPostre(Frio));
      menu := builder.Construir();
    }

    /** Saves a factory product: it gets the next id. */
    method GuardarNuevo(p: Producto) returns (guardado: Producto)
      requires repo.Valid() && p.id.None?
      modifies repo
      ensures repo.Valid()
      ensures guardado == p.(id := Some(old(repo.siguienteId)))
      ensures repo.filas == old(repo.filas)[old(repo.siguienteId) := guardado]
      ensures repo.siguienteId == old(repo.siguienteId) + 1
    {
      guardado := repo.Save(p);
    }

    /** `crearBebidaCaliente`: saves the hot factory's drink. */
    method CrearBebidaCaliente() returns (guardado: Producto)
      requires repo.Valid()
      modifies repo
      ensures repo.Valid()
      ensures guardado == CrearBebida(Caliente).(id := Some(old(repo.siguienteId)))
      ensures repo.filas == old(repo.filas)[old(repo.siguienteId) := guardado]
    {
      guardado := GuardarNuevo(CrearBebida(Caliente));
    }

    /** `crearBebidaFria`: saves the cold factory's drink. */
    method CrearBebidaFria() returns (guardado: Producto)
      requires repo.Valid()
      modifies repo
      ensures repo.Valid()
      ensures guardado == CrearBebida(Frio).(id := Some(old(repo.siguienteId)))
      ensures repo.filas == old(repo.filas)[old(repo.siguienteId) := guardado]
    {
      guardado := GuardarNuevo(CrearBebida(Frio));
    }

    /** `crearPlatoCaliente`: saves the hot factory's dish. */
    method CrearPlatoCaliente() returns (guardado: Producto)
      requires repo.Valid()
      modifies repo
      ensures repo.Valid()
      ensures guardado == CrearPlato(Caliente).(id := Some(old(repo.siguienteId)))
      ensures repo.filas == old(repo.filas)[old(repo.siguienteId) := guardado]
    {
      guardado := GuardarNuevo(CrearPlato(Caliente));
    }

    /** `crearPlatoFrio`: saves the cold factory's dish. */
    method CrearPlatoFrio() returns (guardado: Producto)
      requires repo.Valid()
      modifies repo
      ensures repo.Valid()
      ensures guardado == CrearPlato(Frio).(id := Some(old(repo.siguienteId)))
      ensures repo.filas == old(repo.filas)[old(repo.siguienteId) := guardado]
    {
      guardado := GuardarNuevo(CrearPlato(Frio));
    }

    /** `crearPostreCaliente`: saves the hot factory's dessert. */
    method CrearPostreCaliente() returns (guardado: Producto)
      requires repo.Valid()
      modifies repo
      ensures repo.Valid()
      ensures guardado == CrearPostre(Caliente).(id := Some(old(repo.siguienteId)))
      ensures repo.filas == old(repo.filas)[old(repo.siguienteId) := guardado]
    {
      guardado := GuardarNuevo(CrearPostre(Caliente));
    }

    /** `crearPostreFrio`: saves the cold factory's dessert. */
    method CrearPostreFrio() returns (guardado: Producto)
      requires repo.Valid()
      modifies repo
      ensures repo.Valid()
      ensures guardado == CrearPostre(Frio).(id := Some(old(repo.siguienteId)))
      ensures repo.filas == old(repo.filas)[old(repo.siguienteId) := guardado]
    {
      guardado := GuardarNuevo(CrearPostre(Frio));
    }

    /** `crear`: whatever id the product came with is dropped, so it is
        always stored as a new product under the next id. */
    method Crear(p: Producto) returns (guardado: Producto)
      requires repo.Valid()
      modifies repo
      ensures repo.Valid()
      ensures guardado == p.(id := Some(old(repo.siguienteId)))
      ensures old(repo.siguienteId) !in old(repo.filas)
      ensures repo.filas == old(repo.filas)[old(repo.siguienteId) := guardado]
    {
      guardado := GuardarNuevo(p.(id := None));
    }

    /** `actualizar`: copies name, category, price and availability onto the
        stored product and saves it; a missing id gives empty and changes
        nothing. */
    method Actualizar(id: int, datos: Producto) returns (r: Option<Producto>)
      requires repo.Valid()
      modifies repo
      ensures repo.Valid() && repo.siguienteId == old(repo.siguienteId)
      ensures r.None? <==> id !in old(repo.filas)
      ensures r.None? ==> repo.filas == old(repo.filas)
      ensures r.Some? ==>
        && r.value == ConDatos(old(repo.filas)[id], datos)
        && repo.filas == old(repo.filas)[id := r.value]
    {
      var encontrado := repo.FindById(id);
      if encontrado.None? {
        r := None;
      } else {
        var guardado := repo.Save(ConDatos(encontrado.value, datos));
        r := Some(guardado);
      }
    }

    /** `agregarExtra`: the stored product takes the decorated price and
        name; category, availability and id stay. A missing id throws
        "Producto no encontrado" and changes nothing. */
    method AgregarExtra(id: int, extra: string, precioExtra: int) returns (r: Result<Producto>)
      requires repo.Valid()
      modifies repo
      ensures repo.Valid() && repo.siguienteId == old(repo.siguienteId)
      ensures r.Err? <==> id !in old(repo.filas)
      ensures r.Err? ==> r.error == RuntimeException("Producto no encontrado") && repo.filas == old(repo.filas)
      ensures r.Ok? ==>
        && r.value == ConExtra(old(repo.filas)[id], extra, precioExtra)
        && repo.filas == old(repo.filas)[id := r.value]
    {
      var encontrado := repo.FindById(id);
      if encontrado.None? {
        r := Err(RuntimeException("Producto no encontrado"));
      } else {
        var guardado := repo.Save(ConExtra(encontrado.value, extra, precioExtra));
        r := Ok(guardado);
      }
    }

    /** `eliminar`. */
    method Eliminar(id: int)
      requires repo.Valid()
      modifies repo
      ensures repo.Valid() && repo.filas == old(repo.filas) - {id}
    {
      repo.DeleteById(id);
    }
  }
}
