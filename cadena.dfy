/** The role dispatch chain: cook, then waiter, then admin. Each handler
    either handles the order for a role it recognises or passes it on. */
module Cadena {
  import opened Base
  import opened Pedidos

  /** `Character.toLowerCase` on the ASCII letters. */
  function Minuscula(c: char): char
  {
    if 'A' <= c <= 'Z' then (c as int + 32) as char else c
  }

  /** `literal.equalsIgnoreCase(rol)`: a null role never matches; otherwise
      the lengths agree and the letters agree up to case. */
  predicate Coincide(literal: string, rol: Option<string>)
  {
    && rol.Some?
    && |rol.value| == |literal|
    && forall i | 0 <= i < |literal| :: Minuscula(rol.value[i]) == Minuscula(literal[i])
  }

  /** The three concrete handlers. */
  datatype TipoManejador = Cocinero | Mesero | Admin

  /** What the handler that acts does with the order. */
  datatype Manejo =
    | Cocina        // cook: COCINERO or BARISTA
    | Servicio      // waiter: MESERO
    | Revision      // admin: ADMIN
    | SinManejador  // admin fallback: the role has no handler

  /** One handler's decision for a role. */
  datatype Decision = Atiende(manejo: Manejo) | Reenvia

  /** The `manejar` case split of each handler. Admin is the end of the
      line: it never forwards, it reports the role as unhandled instead. */
  function Decidir(tipo: TipoManejador, rol: Option<string>): (d: Decision)
    ensures tipo == Admin ==> d.Atiende?
    ensures d.Atiende? ==> (d.manejo == SinManejador <==> tipo == Admin && !Coincide("ADMIN", rol))
    ensures rol.None? ==> d == (if tipo == Admin then Atiende(SinManejador) else Reenvia)
  {
    match tipo
    case Cocinero =>
      if Coincide("COCINERO", rol) || Coincide("BARISTA", rol) then Atiende(Cocina) else Reenvia
    case Mesero =>
      if Coincide("MESERO", rol) then Atiende(Servicio) else Reenvia
    case Admin =>
      if Coincide("ADMIN", rol) then Atiende(Revision) else Atiende(SinManejador)
  }

  /** The walk down a chain of handlers of the given kinds: the first one
      that acts decides; running off the end (a null successor) does
      nothing. */
  function Despachar(tipos: seq<TipoManejador>, rol: Option<string>): Option<Manejo>
  {
    if tipos == [] then None
    else match Decidir(tipos[0], rol)
      case Atiende(m) => Some(m)
      case Reenvia => Despachar(tipos[1..], rol)
  }

  /** The first handler that acts wins: every later handler is ignored. */
  lemma {:induction false} PrimeroGana(tipos: seq<TipoManejador>, rol: Option<string>, i: int)
    requires 0 <= i < |tipos| && Decidir(tipos[i], rol).Atiende?
    requires forall j | 0 <= j < i :: Decidir(tipos[j], rol) == Reenvia
    ensures Despachar(tipos, rol) == Some(Decidir(tipos[i], rol).manejo)
  {
    if i > 0 {
      PrimeroGana(tipos[1..], rol, i - 1);
    }
  }

  /** If no handler acts the walk does nothing. */
  lemma {:induction false} NadieAtiende(tipos: seq<TipoManejador>, rol: Option<string>)
    requires forall j | 0 <= j < |tipos| :: Decidir(tipos[j], rol) == Reenvia
    ensures Despachar(tipos, rol) == None
  {
    if tipos != [] {
      NadieAtiende(tipos[1..], rol);
    }
  }

  /** A chain with an admin handler in it always produces an outcome, and
      whatever is linked after the first admin is never consulted. */
  lemma {:induction false} AdminCierra(tipos: seq<TipoManejador>, rol: Option<string>, i: int)
    requires 0 <= i < |tipos| && tipos[i] == Admin
    ensures Despachar(tipos, rol).Some?
    ensures Despachar(tipos, rol) == Despachar(tipos[..i + 1], rol)
  {
    if Decidir(tipos[0], rol) == Reenvia {
      assert tipos[0] != Admin;
      assert tipos[..i + 1][1..] == tipos[1..][..i];
      AdminCierra(tipos[1..], rol, i - 1);
    }
  }

  /** The chain both services wire. */
  const CADENA_ESTANDAR: seq<TipoManejador> := [Cocinero, Mesero, Admin]

  /** For every role the standard chain yields exactly one outcome: the cook
      for COCINERO or BARISTA, the waiter for MESERO, the admin for ADMIN,
      and the admin's "no handler" report for anything else, null included,
      all ignoring case. */
  lemma CadenaEstandarClasifica(rol: Option<string>)
    ensures Despachar(CADENA_ESTANDAR, rol) == Some(Cocina) <==>
      Coincide("COCINERO", rol) || Coincide("BARISTA", rol)
    ensures Despachar(CADENA_ESTANDAR, rol) == Some(Servicio) <==> Coincide("MESERO", rol)
    ensures Despachar(CADENA_ESTANDAR, rol) == Some(Revision) <==> Coincide("ADMIN", rol)
    ensures Despachar(CADENA_ESTANDAR, rol) == Some(SinManejador) <==>
      !Coincide("COCINERO", rol) && !Coincide("BARISTA", rol)
      && !Coincide("MESERO", rol) && !Coincide("ADMIN", rol)
  {
    var t := CADENA_ESTANDAR;
    assert t[1..] == [Mesero, Admin] && t[1..][1..] == [Admin];
    var cocina := Coincide("COCINERO", rol) || Coincide("BARISTA", rol);
    var admin := Despachar([Admin], rol);
    assert admin == Some(if Coincide("ADMIN", rol) then Revision else SinManejador);
    var mesero := Despachar([Mesero, Admin], rol);
    assert mesero == if Coincide("MESERO", rol) then Some(Servicio) else admin;
    assert Despachar(t, rol) == if cocina then Some(Cocina) else mesero;
    // the four role names have four different lengths
    assert Coincide("MESERO", rol) ==> !cocina && !Coincide("ADMIN", rol);
    assert Coincide("ADMIN", rol) ==> !cocina;
  }

  /** Matching ignores case: any spelling of a role that differs only in
      the case of ASCII letters is dispatched the same way. */
  lemma MismoRolSinMayusculas(a: string, b: string, t: seq<TipoManejador>)
    requires |a| == |b| && forall i | 0 <= i < |a| :: Minuscula(a[i]) == Minuscula(b[i])
    ensures Despachar(t, Some(a)) == Despachar(t, Some(b))
  {
    assert forall l: string :: Coincide(l, Some(a)) == Coincide(l, Some(b));
    DespacharRespeta(t, Some(a), Some(b));
  }

  /** The walk depends on the role only through the matches it gives. */
  lemma {:induction false} DespacharRespeta(t: seq<TipoManejador>, r1: Option<string>, r2: Option<string>)
    requires forall l: string :: Coincide(l, r1) == Coincide(l, r2)
    ensures Despachar(t, r1) == Despachar(t, r2)
  {
    assert Decidir(Cocinero, r1) == Decidir(Cocinero, r2);
    assert Decidir(Mesero, r1) == Decidir(Mesero, r2);
    assert Decidir(Admin, r1) == Decidir(Admin, r2);
    if t != [] {
      DespacharRespeta(t[1..], r1, r2);
    }
  }

  /** The kinds of the handlers of a chain, head first. */
  function Tipos(cadena: seq<ManejadorPedido>): (ts: seq<TipoManejador>)
    ensures |ts| == |cadena| && forall i | 0 <= i < |cadena| :: ts[i] == cadena[i].tipo
  {
    if cadena == [] then [] else [cadena[0].tipo] + Tipos(cadena[1..])
  }

  /** `ManejadorPedido`: a handler of a fixed kind and its successor. */
  class ManejadorPedido {
    const tipo: TipoManejador
    var siguiente: ManejadorPedido?

    /** A new handler has no successor. */
    constructor (tipo: TipoManejador)
      ensures this.tipo == tipo && siguiente == null
    {
      this.tipo := tipo;
      siguiente := null;
    }

    /** `establecerSiguiente`: overwrites the successor. */
    method EstablecerSiguiente(s: ManejadorPedido?)
      modifies this`siguiente
      ensures siguiente == s
    {
      siguiente := s;
    }

    /** `cadena` lists the handlers reached from this one by following
        successors, this one first, the last one with no successor. */
    ghost predicate Enlazada(cadena: seq<ManejadorPedido>)
      reads cadena
    {
      && |cadena| > 0 && cadena[0] == this
      && (forall i | 0 <= i < |cadena| - 1 :: cadena[i].siguiente == cadena[i + 1])
      && cadena[|cadena| - 1].siguiente == null
    }

    /** `manejar`: acts on the order when the role is its own, otherwise
        passes order and role on unchanged. The order is only read. */
    method Manejar(pedido: Pedido, rol: Option<string>, ghost cadena: seq<ManejadorPedido>) returns (r: Option<Manejo>)
      requires Enlazada(cadena)
      ensures r == Despachar(Tipos(cadena), rol)
      decreases |cadena|, 1
    {
      match Decidir(tipo, rol)
      case Atiende(m) =>
        r := Some(m);
      case Reenvia =>
        r := PasarASiguiente(pedido, rol, cadena);
    }

    /** `pasarASiguiente`: nothing happens without a successor; otherwise the
        successor handles the same order and role, once. */
    method PasarASiguiente(pedido: Pedido, rol: Option<string>, ghost cadena: seq<ManejadorPedido>) returns (r: Option<Manejo>)
      requires Enlazada(cadena)
      ensures r == Despachar(Tipos(cadena[1..]), rol)
      decreases |cadena|, 0
    {
      if siguiente == null {
        r := None;
      } else {
        assert |cadena| > 1 && cadena[1] == siguiente;
        assert siguiente.Enlazada(cadena[1..]);
        r := siguiente.Manejar(pedido, rol, cadena[1..]);
      }
    }
  }

  /** `configurarChain`: three new handlers linked cook, waiter, admin, with
      the cook as head. */
  method ConfigurarCadena() returns (cabeza: ManejadorPedido, ghost cadena: seq<ManejadorPedido>)
    ensures cabeza.Enlazada(cadena) && Tipos(cadena) == CADENA_ESTANDAR
    ensures forall i | 0 <= i < |cadena| :: fresh(cadena[i])
  {
    var cocinero := new ManejadorPedido(Cocinero);
    var mesero := new ManejadorPedido(Mesero);
    var admin := new ManejadorPedido(Admin);
    cocinero.EstablecerSiguiente(mesero);
    mesero.EstablecerSiguiente(admin);
    cabeza := cocinero;
    cadena := [cocinero, mesero, admin];
  }
}
