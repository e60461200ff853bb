/** The state the handlers work on: the array a load hands back, which the
    create and update handlers change in place, and the JSON file behind
    `leerDeportes`/`escribirDeportes`. */
module Store {
  import opened Js
  import opened Catalog

  datatype Option<T> = None | Some(value: T)

  /** The JavaScript array `deportes` produced by one load. */
  class Deportes {
    var elems: seq<Deporte>

    constructor (s: seq<Deporte>)
      ensures elems == s
    {
      elems := s;
    }

    /** `deportes.push(d)`: one record more, at the end. */
    method Push(d: Deporte)
      modifies this
      ensures elems == old(elems) + [d]
    {
      elems := elems + [d];
    }

    /** `deportes.findIndex((deporte) => deporte.nombre === nombre)`: the
        lowest index of a record named `nombre`, or -1 when there is none. */
    method FindIndex(nombre: string) returns (i: int)
      ensures -1 <= i < |elems|
      ensures i == -1 <==> !HasNamed(elems, nombre)
      ensures i >= 0 ==> Named(elems[i], nombre)
      ensures i >= 0 ==> forall j :: 0 <= j < i ==> !Named(elems[j], nombre)
      ensures i == FirstMatch(elems, nombre)
    {
      i := 0;
      while i < |elems|
        invariant 0 <= i <= |elems|
        invariant forall j :: 0 <= j < i ==> !Named(elems[j], nombre)
      {
        if Named(elems[i], nombre) {
          return;
        }
        i := i + 1;
      }
      i := -1;
    }

    /** `deportes[i].precio = precio`: the record at `i` gets a new price and
        keeps its name; no other record changes. */
    method SetPrecio(i: nat, precio: JsValue)
      requires i < |elems|
      modifies this
      ensures |elems| == |old(elems)|
      ensures elems[i] == Deporte(old(elems)[i].nombre, precio)
      ensures forall j :: 0 <= j < |elems| && j != i ==> elems[j] == old(elems)[j]
    {
      elems := elems[i := Deporte(elems[i].nombre, precio)];
    }
  }

  /** The file `db/deportes.json`. Whether reading (and parsing) it and
      writing it succeed is decided by the environment, given here by
      `readable` and `writable`; `loads` and `writes` record, for the
      proofs, every call of the load and every collection passed to the
      save. */
  class Db {
    var contents: seq<Deporte>
    var readable: bool
    var writable: bool
    ghost var loads: nat
    ghost var writes: seq<seq<Deporte>>

    constructor (s: seq<Deporte>, readable: bool, writable: bool)
      ensures contents == s && this.readable == readable && this.writable == writable
      ensures loads == 0 && writes == []
    {
      contents, this.readable, this.writable := s, readable, writable;
      loads, writes := 0, [];
    }

    /** `leerDeportes()`: a fresh array holding the whole collection, or a
        failure (missing file, unreadable file, malformed JSON). Nothing in
        the file changes. */
    method Load() returns (r: Option<Deportes>)
      modifies this`loads
      ensures loads == old(loads) + 1
      ensures r.Some? <==> readable
      ensures r.Some? ==> fresh(r.value) && r.value.elems == contents
    {
      loads := loads + 1;
      if readable {
        var a := new Deportes(contents);
        r := Some(a);
      } else {
        r := None;
      }
    }

    /** `escribirDeportes(s)`: the file is overwritten with the whole of `s`,
        or, on a write failure, stays as it was. */
    method Save(s: seq<Deporte>) returns (ok: bool)
      modifies this`contents, this`writes
      ensures writes == old(writes) + [s]
      ensures ok == writable
      ensures contents == if ok then s else old(contents)
    {
      writes := writes + [s];
      ok := writable;
      if ok {
        contents := s;
      }
    }
  }
}
