/** The menu and its step-by-step builder. */
module Menus {
  import opened Base
  import opened Catalogo
  import opened Comandos

  /** `Menu`: holds the two lists it is given, without copying them. */
  class Menu {
    const productos: Lista<Producto>
    const comandos: Lista<Comando>

    constructor (productos: Lista<Producto>, comandos: Lista<Comando>)
      ensures this.productos == productos && this.comandos == comandos
    {
      this.productos, this.comandos := productos, comandos;
    }
  }

  /** `MenuBuilder`: one product list and one command list, both appended in
      place; every step returns the builder itself. */
  class MenuBuilder {
    const productos: Lista<Producto>
    const comandos: Lista<Comando>

    /** A new builder starts with two new, empty lists. */
    constructor ()
      ensures fresh(productos) && fresh(comandos)
      ensures productos.elementos == [] && comandos.elementos == []
    {
      productos := new Lista();
      comandos := new Lista();
    }

    /** `agregarBebida`: appends to the product list. */
    method AgregarBebida(bebida: Producto) returns (b: MenuBuilder)
      modifies productos
      ensures b == this && productos.elementos == old(productos.elementos) + [bebida]
    {
      productos.Agregar(bebida);
      b := this;
    }

    /** `agregarPlato`: appends to the same product list. */
    method AgregarPlato(plato: Producto) returns (b: MenuBuilder)
      modifies productos
      ensures b == this && productos.elementos == old(productos.elementos) + [plato]
    {
      productos.Agregar(plato);
      b := this;
    }

    /** `agregarPostre`: appends to the same product list. */
    method AgregarPostre(postre: Producto) returns (b: MenuBuilder)
      modifies productos
      ensures b == this && productos.elementos == old(productos.elementos) + [postre]
    {
      productos.Agregar(postre);
      b := this;
    }

    /** `agregarComando`: appends to the command list only. */
    method AgregarComando(comando: Comando) returns (b: MenuBuilder)
      modifies comandos
      ensures b == this && comandos.elementos == old(comandos.elementos) + [comando]
    {
      comandos.Agregar(comando);
      b := this;
    }

    /** `construir`: a new menu that shares the builder's own lists, so what
        is added to the builder afterwards shows in the menu too. */
    method Construir() returns (m: Menu)
      ensures fresh(m) && m.productos == productos && m.comandos == comandos
    {
      m := new Menu(productos, comandos);
    }
  }
}
