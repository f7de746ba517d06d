/** An inventory item and its low-stock test. */
module Inventario {
  import opened Base

  /** `InventarioItem`: a supply with its current and minimum stock. No
      bound is enforced on either stock value. */
  class InventarioItem {
    var id: Option<int>
    var nombreInsumo: Option<string>
    var unidad: Option<string>
    var stockActual: int
    var stockMinimo: int

    /** `isBajoStock`: the stock is low when it is at or below the minimum;
        being exactly at the minimum already counts as low. */
    predicate IsBajoStock(): (bajo: bool)
      reads this`stockActual, this`stockMinimo
      ensures stockActual < stockMinimo ==> bajo
      ensures stockActual == stockMinimo ==> bajo
      ensures stockActual > stockMinimo ==> !bajo
    {
      stockActual <= stockMinimo
    }

    /** The no-argument constructor: nulls and zeros, so a new item is low
        on stock (0 is at the minimum 0). */
    constructor ()
      ensures id == None && nombreInsumo == None && unidad == None
      ensures stockActual == 0 && stockMinimo == 0
      ensures IsBajoStock()
    {
      id, nombreInsumo, unidad := None, None, None;
      stockActual, stockMinimo := 0, 0;
    }

    /** The five-argument constructor stores exactly what it is given; the
        item is low on stock exactly when the given stock is at or below the
        given minimum. */
    constructor Con(id: Option<int>, nombreInsumo: Option<string>, unidad: Option<string>,
                    stockActual: int, stockMinimo: int)
      ensures this.id == id && this.nombreInsumo == nombreInsumo && this.unidad == unidad
      ensures this.stockActual == stockActual && this.stockMinimo == stockMinimo
      ensures IsBajoStock() <==> stockActual <= stockMinimo
    {
      this.id, this.nombreInsumo, this.unidad := id, nombreInsumo, unidad;
      this.stockActual, this.stockMinimo := stockActual, stockMinimo;
    }

    method SetId(v: Option<int>)
      modifies this`id
      ensures id == v
    {
      id := v;
    }

    method SetNombreInsumo(v: Option<string>)
      modifies this`nombreInsumo
      ensures nombreInsumo == v
    {
      nombreInsumo := v;
    }

    method SetUnidad(v: Option<string>)
      modifies this`unidad
      ensures unidad == v
    {
      unidad := v;
    }

    /** `setStockActual`: any value, negative included; the item is then low
        exactly when that value is at or below the unchanged minimum. */
    method SetStockActual(v: int)
      modifies this`stockActual
      ensures stockActual == v
      ensures IsBajoStock() <==> v <= stockMinimo
    {
      stockActual := v;
    }

    /** `setStockMinimo`: any value, negative included; the item is then low
        exactly when the unchanged stock is at or below that value. */
    method SetStockMinimo(v: int)
      modifies this`stockMinimo
      ensures stockMinimo == v
      ensures IsBajoStock() <==> stockActual <= v
    {
      stockMinimo := v;
    }
  }
}
