/** The product catalog entity, the two product factories and the "extra"
    decorator. Prices are whole pesos. */
module Catalogo {
  import opened Base

  /** A catalog product (a plain entity with getters and setters only). */
  datatype Producto = Producto(
    id: Option<int>,
    nombre: string,
    categoria: string,
    precio: int,
    disponible: bool)

  // ---------------------------------------------------------------------------
  // Abstract factory
  // ---------------------------------------------------------------------------

  /** The two concrete factories: hot products and cold products. */
  datatype Fabrica = Caliente | Frio

  /** `crearBebida`: a fresh, unsaved, available drink of the factory's family. */
  function CrearBebida(f: Fabrica): (p: Producto)
    ensures p.id == None && p.disponible && p.precio > 0
  {
    match f
    case Caliente => Producto(None, "Café Caliente", "BEBIDA_CALIENTE", 5000, true)
    case Frio => Producto(None, "Limonada", "BEBIDA_FRIA", 6000, true)
  }

  /** `crearPlato`: a fresh, unsaved, available dish of the factory's family. */
  function CrearPlato(f: Fabrica): (p: Producto)
    ensures p.id == None && p.disponible && p.precio > 0
  {
    match f
    case Caliente => Producto(None, "Sopa del Día", "PLATO_CALIENTE", 12000, true)
    case Frio => Producto(None, "Ensalada César", "PLATO_FRIO", 15000, true)
  }

  /** `crearPostre`: a fresh, unsaved, available dessert of the factory's family. */
  function CrearPostre(f: Fabrica): (p: Producto)
    ensures p.id == None && p.disponible && p.precio > 0
  {
    match f
    case Caliente => Producto(None, "Tarta Caliente de Chocolate", "POSTRE_CALIENTE", 8000, true)
    case Frio => Producto(None, "Helado de Vainilla", "POSTRE_FRIO", 7000, true)
  }

  /** What the hot factory builds. */
  lemma CatalogoCaliente()
    ensures CrearBebida(Caliente) == Producto(None, "Café Caliente", "BEBIDA_CALIENTE", 5000, true)
    ensures CrearPlato(Caliente) == Producto(None, "Sopa del Día", "PLATO_CALIENTE", 12000, true)
    ensures CrearPostre(Caliente) == Producto(None, "Tarta Caliente de Chocolate", "POSTRE_CALIENTE", 8000, true)
  {
  }

  /** What the cold factory builds. */
  lemma CatalogoFrio()
    ensures CrearBebida(Frio) == Producto(None, "Limonada", "BEBIDA_FRIA", 6000, true)
    ensures CrearPlato(Frio) == Producto(None, "Ensalada César", "PLATO_FRIO", 15000, true)
    ensures CrearPostre(Frio) == Producto(None, "Helado de Vainilla", "POSTRE_FRIO", 7000, true)
  {
  }

  /** The six factory products are pairwise distinct: no two of them share a
      category, so a menu listing all six lists six different products. */
  lemma CategoriasDistintas(f: Fabrica, g: Fabrica)
    ensures CrearBebida(f).categoria != CrearPlato(g).categoria
    ensures CrearBebida(f).categoria != CrearPostre(g).categoria
    ensures CrearPlato(f).categoria != CrearPostre(g).categoria
    ensures f != g ==> CrearBebida(f).categoria != CrearBebida(g).categoria
    ensures f != g ==> CrearPlato(f).categoria != CrearPlato(g).categoria
    ensures f != g ==> CrearPostre(f).categoria != CrearPostre(g).categoria
  {
    assert CrearBebida(f).categoria[0] == 'B';
    assert CrearPlato(g).categoria[0] == 'P' && CrearPlato(g).categoria[1] == 'L';
    assert CrearPostre(g).categoria[0] == 'P' && CrearPostre(g).categoria[1] == 'O';
    assert CrearPlato(f).categoria[1] == 'L';
  }

  // ---------------------------------------------------------------------------
  // Decorator
  // ---------------------------------------------------------------------------

  /** `ProductoConExtra`: a view of a product with an extra added. It never
      writes to the wrapped product. */
  datatype ProductoConExtra = ProductoConExtra(producto: Producto, extra: string, precioExtra: int) {

    /** `getPrecio`: the wrapped price plus the extra's price. */
    function GetPrecio(): (r: int)
      ensures r - precioExtra == producto.precio
    {
      producto.precio + precioExtra
    }

    /** `getNombre`: the wrapped name, then " con ", then the extra. */
    function GetNombre(): (r: string)
      ensures producto.nombre <= r
      ensures |r| == |producto.nombre| + 5 + |extra|
      ensures r[|producto.nombre|..|producto.nombre| + 5] == " con "
      ensures r[|r| - |extra|..] == extra
    {
      producto.nombre + " con " + extra
    }

    /** `getCategoria`, `isDisponible`, `getId`: delegated unchanged. */
    function GetCategoria(): string { producto.categoria }
    function IsDisponible(): bool { producto.disponible }
    function GetId(): Option<int> { producto.id }
  }

  /** What `ProductoService.agregarExtra` writes back onto the stored product:
      the decorated price and name; everything else is the product's own. */
  function ConExtra(p: Producto, extra: string, precioExtra: int): (q: Producto)
    ensures q.precio == p.precio + precioExtra
    ensures q.nombre == p.nombre + " con " + extra
    ensures q.id == p.id && q.categoria == p.categoria && q.disponible == p.disponible
  {
    var d := ProductoConExtra(p, extra, precioExtra);
    p.(precio := d.GetPrecio(), nombre := d.GetNombre())
  }

  /** Adding two extras one after the other adds both prices and appends both
      names, in order. */
  lemma ExtrasSeAcumulan(p: Producto, e1: string, x1: int, e2: string, x2: int)
    ensures ConExtra(ConExtra(p, e1, x1), e2, x2).precio == p.precio + x1 + x2
    ensures ConExtra(ConExtra(p, e1, x1), e2, x2).nombre == p.nombre + " con " + e1 + " con " + e2
    ensures ConExtra(ConExtra(p, e1, x1), e2, x2).categoria == p.categoria
  {
  }
}
