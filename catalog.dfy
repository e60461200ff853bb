/** The collection of sports, `db/deportes.json`, as a value: an ordered
    sequence of `{ nombre, precio }` records, and the pure operations the
    handlers apply to it. */
module Catalog {
  import opened Js

  /** One record. Both fields are stored as they were given: no coercion
      and no check of their type. */
  datatype Deporte = Deporte(nombre: JsValue, precio: JsValue)

  /** `deporte.nombre === nombre` with `nombre` a path parameter, hence a
      string: strict equality holds only for a string with the same text. */
  predicate Named(d: Deporte, nombre: string)
  {
    d.nombre == Str(nombre)
  }

  /** Some record of `s` has the name `nombre`. */
  predicate HasNamed(s: seq<Deporte>, nombre: string)
  {
    exists i :: 0 <= i < |s| && Named(s[i], nombre)
  }

  // ---------------------------------------------------------------------
  // Delete: `deportes.filter((deporte) => deporte.nombre !== nombre)`
  // ---------------------------------------------------------------------

  /** The records of `s` not named `nombre`, in their original order. */
  function Filtrar(s: seq<Deporte>, nombre: string): (r: seq<Deporte>)
    ensures |r| <= |s|
    ensures forall d :: d in r <==> d in s && !Named(d, nombre)
  {
    if s == [] then []
    else (if Named(s[0], nombre) then [] else [s[0]]) + Filtrar(s[1..], nombre)
  }

  /** Filtering distributes over concatenation: together with the one-record
      cases of the definition this fixes the order of the result, which is
      the order of `s`. */
  lemma {:induction false} FiltrarAppend(a: seq<Deporte>, b: seq<Deporte>, nombre: string)
    ensures Filtrar(a + b, nombre) == Filtrar(a, nombre) + Filtrar(b, nombre)
  {
    if a == [] {
      assert a + b == b;
    } else {
      assert (a + b)[0] == a[0];
      assert (a + b)[1..] == a[1..] + b;
      FiltrarAppend(a[1..], b, nombre);
    }
  }

  /** Every record named `nombre` is removed, every copy of it and not just
      the first; every other record keeps all its occurrences. */
  lemma {:induction false} FiltrarCount(s: seq<Deporte>, nombre: string, d: Deporte)
    ensures multiset(Filtrar(s, nombre))[d] == if Named(d, nombre) then 0 else multiset(s)[d]
  {
    if s != [] {
      FiltrarCount(s[1..], nombre, d);
      assert s == [s[0]] + s[1..];
      assert multiset(s) == multiset([s[0]]) + multiset(s[1..]);
    }
  }

  /** The handler's test `deportes.length === nuevosDeportes.length` holds
      exactly when no record is named `nombre`, and then nothing was
      filtered out. */
  lemma {:induction false} FiltrarLength(s: seq<Deporte>, nombre: string)
    ensures |Filtrar(s, nombre)| == |s| <==> !HasNamed(s, nombre)
    ensures !HasNamed(s, nombre) ==> Filtrar(s, nombre) == s
    ensures HasNamed(s, nombre) ==> |Filtrar(s, nombre)| < |s|
  {
    if s != [] {
      FiltrarLength(s[1..], nombre);
      if HasNamed(s[1..], nombre) {
        var i :| 0 <= i < |s[1..]| && Named(s[1..][i], nombre);
        assert Named(s[i + 1], nombre);
      }
      if !Named(s[0], nombre) && HasNamed(s, nombre) {
        var i :| 0 <= i < |s| && Named(s[i], nombre);
        assert Named(s[1..][i - 1], nombre);
      }
      if Named(s[0], nombre) {
        assert HasNamed(s, nombre);
      }
    }
  }

  /** A second delete of the same name finds nothing: the filtered
      collection has no record named `nombre` and filtering it again
      changes nothing. */
  lemma {:induction false} FiltrarIdempotent(s: seq<Deporte>, nombre: string)
    ensures !HasNamed(Filtrar(s, nombre), nombre)
    ensures Filtrar(Filtrar(s, nombre), nombre) == Filtrar(s, nombre)
  {
    FiltrarLength(Filtrar(s, nombre), nombre);
  }

  // ---------------------------------------------------------------------
  // Update: `deportes.findIndex(...)` then `deportes[i].precio = nuevoPrecio`
  // ---------------------------------------------------------------------

  /** The lowest index of a record named `nombre`, or -1 when there is none
      (the result of `Array.prototype.findIndex`). */
  function FirstMatch(s: seq<Deporte>, nombre: string): (k: int)
    ensures -1 <= k < |s|
    ensures k == -1 <==> !HasNamed(s, nombre)
    ensures k >= 0 ==> Named(s[k], nombre)
    ensures k >= 0 ==> forall j :: 0 <= j < k ==> !Named(s[j], nombre)
  {
    if s == [] then -1
    else if Named(s[0], nombre) then 0
    else
      var k := FirstMatch(s[1..], nombre);
      assert forall j :: 1 <= j < |s| ==> s[j] == s[1..][j - 1];
      if k == -1 then -1 else k + 1
  }

  /** The collection after the update: the first record named `nombre`
      gets the price `precio`; without such a record nothing changes. */
  function Editado(s: seq<Deporte>, nombre: string, precio: JsValue): seq<Deporte>
  {
    var k := FirstMatch(s, nombre);
    if k == -1 then s else s[k := Deporte(s[k].nombre, precio)]
  }

  /** The update touches one record, the first with the name, and only its
      price: length, every other record (later duplicates included) and the
      name stay as they were. */
  lemma EditadoOnlyFirst(s: seq<Deporte>, nombre: string, precio: JsValue)
    requires HasNamed(s, nombre)
    ensures var k, r := FirstMatch(s, nombre), Editado(s, nombre, precio);
      && 0 <= k < |r| == |s|
      && r[k].nombre == s[k].nombre && r[k].precio == precio
      && forall j :: 0 <= j < |s| && j != k ==> r[j] == s[j]
  {
  }

  /** The update leaves the first match where it was, so a second update
      of the same name hits the same record and the last price wins. */
  lemma EditadoTwice(s: seq<Deporte>, nombre: string, p: JsValue, q: JsValue)
    ensures FirstMatch(Editado(s, nombre, p), nombre) == FirstMatch(s, nombre)
    ensures Editado(Editado(s, nombre, p), nombre, q) == Editado(s, nombre, q)
  {
  }

  // ---------------------------------------------------------------------
  // Create: `deportes.push(nuevoDeporte)`
  // ---------------------------------------------------------------------

  /** Create never checks names, so appending a record whose name is taken
      leaves two records with that name. Update keeps finding the older one
      and leaves the new one as it was; delete removes both. */
  lemma {:induction false} AgregarDuplicate(s: seq<Deporte>, d: Deporte, nombre: string, precio: JsValue)
    requires HasNamed(s, nombre) && Named(d, nombre)
    ensures FirstMatch(s + [d], nombre) == FirstMatch(s, nombre) < |s|
    ensures Editado(s + [d], nombre, precio) == Editado(s, nombre, precio) + [d]
    ensures Filtrar(s + [d], nombre) == Filtrar(s, nombre)
  {
    var k := FirstMatch(s, nombre);
    var k' := FirstMatch(s + [d], nombre);
    assert forall j :: 0 <= j < |s| ==> (s + [d])[j] == s[j];
    FiltrarAppend(s, [d], nombre);
  }
}
