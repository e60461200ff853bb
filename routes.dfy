/** The three mutating route handlers: `POST /agregar`, `DELETE
    /borrar/:nombre` and `PUT /editar/:nombre`. Each validates its input,
    loads the whole collection, changes it in memory and saves the whole
    collection back; every failure inside the `try` becomes that route's
    500 reply. */
module Routes {
  import opened Js
  import opened Catalog
  import opened Store

  const AgregarRequired := "Nombre y precio son requeridos"
  const AgregarFailed := "Error al agregar el deporte"
  const BorrarFailed := "Error al borrar el deporte"
  const EditarRequired := "Nuevo precio es requerido"
  const EditarFailed := "Error al editar el deporte"
  const NoEncontrado := "Deporte no encontrado"

  /** What a handler sends back. */
  datatype Reply =
    | Created(deporte: Deporte)
    | Deleted
    | Edited(deporte: Deporte)
    | BadRequest(error: string)
    | NotFound(error: string)
    | ServerError(error: string)

  /** The HTTP status of a reply; `res.json` alone sends 200. */
  function Status(r: Reply): int
  {
    match r
    case Created(_) => 200
    case Deleted => 200
    case Edited(_) => 200
    case BadRequest(_) => 400
    case NotFound(_) => 404
    case ServerError(_) => 500
  }

  /** The JSON a record is sent as. */
  function DeporteJson(d: Deporte): JsValue
  {
    Obj(map["nombre" := d.nombre, "precio" := d.precio])
  }

  /** The JSON body of a reply. */
  function Body(r: Reply): JsValue
  {
    match r
    case Created(d) => DeporteJson(d)
    case Deleted => Obj(map["ok" := Bool(true)])
    case Edited(d) => DeporteJson(d)
    case BadRequest(e) => Obj(map["ok" := Bool(false), "error" := Str(e)])
    case NotFound(e) => Obj(map["ok" := Bool(false), "error" := Str(e)])
    case ServerError(e) => Obj(map["ok" := Bool(false), "error" := Str(e)])
  }

  /** Every reply with an error status carries `ok: false` and its message;
      a successful delete carries `ok: true`; a record is echoed with its
      two fields as stored. */
  lemma ReplyShape(r: Reply)
    ensures Status(r) in {200, 400, 404, 500}
    ensures Status(r) != 200 <==> Get(Body(r), "ok") == Bool(false)
    ensures Status(r) != 200 ==> Get(Body(r), "error") == Str(r.error)
    ensures r.Deleted? <==> Get(Body(r), "ok") == Bool(true)
    ensures r.Created? || r.Edited? ==>
      Get(Body(r), "nombre") == r.deporte.nombre && Get(Body(r), "precio") == r.deporte.precio
  {
  }

  /** `POST /agregar` with request body `body`. */
  method Agregar(db: Db, body: JsValue) returns (reply: Reply)
    modifies db
    ensures db.readable == old(db.readable) && db.writable == old(db.writable)
    // `const { nombre, precio } = req.body` throws on undefined or null.
    ensures !Destructurable(body) ==> reply == ServerError(AgregarFailed) && unchanged(db)
    // Validation comes first: a falsy field means no load and no save.
    ensures Destructurable(body) && !(Truthy(Get(body, "nombre")) && Truthy(Get(body, "precio"))) ==>
      reply == BadRequest(AgregarRequired) && unchanged(db)
    ensures Destructurable(body) && Truthy(Get(body, "nombre")) && Truthy(Get(body, "precio")) ==>
      var d := Deporte(Get(body, "nombre"), Get(body, "precio"));
      var s := old(db.contents) + [d];
      && db.loads == old(db.loads) + 1
      && (!old(db.readable) ==>
            reply == ServerError(AgregarFailed) && db.contents == old(db.contents) && db.writes == old(db.writes))
      && (old(db.readable) ==> db.writes == old(db.writes) + [s])
      && (old(db.readable) && old(db.writable) ==> reply == Created(d) && db.contents == s)
      && (old(db.readable) && !old(db.writable) ==>
            reply == ServerError(AgregarFailed) && db.contents == old(db.contents))
  {
    if !Destructurable(body) {
      return ServerError(AgregarFailed);
    }
    var nombre, precio := Get(body, "nombre"), Get(body, "precio");
    if !Truthy(nombre) || !Truthy(precio) {
      return BadRequest(AgregarRequired);
    }
    var nuevo := Deporte(nombre, precio);
    var loaded := db.Load();
    if loaded.None? {
      return ServerError(AgregarFailed);
    }
    var deportes := loaded.value;
    deportes.Push(nuevo);
    var ok := db.Save(deportes.elems);
    if !ok {
      return ServerError(AgregarFailed);
    }
    reply := Created(nuevo);
  }

  /** `DELETE /borrar/:nombre`. The path parameter is always a string. */
  method Borrar(db: Db, nombre: string) returns (reply: Reply)
    modifies db
    ensures db.readable == old(db.readable) && db.writable == old(db.writable)
    ensures db.loads == old(db.loads) + 1
    ensures !old(db.readable) ==>
      reply == ServerError(BorrarFailed) && db.contents == old(db.contents) && db.writes == old(db.writes)
    // Not found, and no save, exactly when no record has the name.
    ensures old(db.readable) ==>
      (reply == NotFound(NoEncontrado) <==> !HasNamed(old(db.contents), nombre))
    ensures old(db.readable) && !HasNamed(old(db.contents), nombre) ==>
      db.contents == old(db.contents) && db.writes == old(db.writes)
    ensures old(db.readable) && HasNamed(old(db.contents), nombre) ==>
      var s := Filtrar(old(db.contents), nombre);
      && db.writes == old(db.writes) + [s]
      && (old(db.writable) ==> reply == Deleted && db.contents == s)
      && (!old(db.writable) ==> reply == ServerError(BorrarFailed) && db.contents == old(db.contents))
  {
    var loaded := db.Load();
    if loaded.None? {
      return ServerError(BorrarFailed);
    }
    var deportes := loaded.value.elems;
    var nuevos := Filtrar(deportes, nombre);
    FiltrarLength(deportes, nombre);
    if |deportes| == |nuevos| {
      return NotFound(NoEncontrado);
    }
    var ok := db.Save(nuevos);
    if !ok {
      return ServerError(BorrarFailed);
    }
    reply := Deleted;
  }

  /** `PUT /editar/:nombre` with request body `body`. */
  method Editar(db: Db, nombre: string, body: JsValue) returns (reply: Reply)
    modifies db
    ensures db.readable == old(db.readable) && db.writable == old(db.writable)
    // `const { nuevoPrecio } = req.body` throws on undefined or null.
    ensures !Destructurable(body) ==> reply == ServerError(EditarFailed) && unchanged(db)
    // Validation comes first: a falsy price means no load and no save.
    ensures Destructurable(body) && !Truthy(Get(body, "nuevoPrecio")) ==>
      reply == BadRequest(EditarRequired) && unchanged(db)
    ensures Destructurable(body) && Truthy(Get(body, "nuevoPrecio")) ==>
      var precio := Get(body, "nuevoPrecio");
      var k := FirstMatch(old(db.contents), nombre);
      var s := Editado(old(db.contents), nombre, precio);
      && db.loads == old(db.loads) + 1
      && (!old(db.readable) ==>
            reply == ServerError(EditarFailed) && db.contents == old(db.contents) && db.writes == old(db.writes))
      && (old(db.readable) && k == -1 ==>
            reply == NotFound(NoEncontrado) && db.contents == old(db.contents) && db.writes == old(db.writes))
      && (old(db.readable) && k >= 0 ==> db.writes == old(db.writes) + [s])
      && (old(db.readable) && k >= 0 && old(db.writable) ==>
            reply == Edited(Deporte(old(db.contents)[k].nombre, precio)) && db.contents == s)
      && (old(db.readable) && k >= 0 && !old(db.writable) ==>
            reply == ServerError(EditarFailed) && db.contents == old(db.contents))
  {
    if !Destructurable(body) {
      return ServerError(EditarFailed);
    }
    var nuevoPrecio := Get(body, "nuevoPrecio");
    if !Truthy(nuevoPrecio) {
      return BadRequest(EditarRequired);
    }
    var loaded := db.Load();
    if loaded.None? {
      return ServerError(EditarFailed);
    }
    var deportes := loaded.value;
    var i := deportes.FindIndex(nombre);
    if i == -1 {
      return NotFound(NoEncontrado);
    }
    deportes.SetPrecio(i, nuevoPrecio);
    assert deportes.elems == Editado(old(db.contents), nombre, nuevoPrecio);
    var ok := db.Save(deportes.elems);
    if !ok {
      return ServerError(EditarFailed);
    }
    reply := Edited(deportes.elems[i]);
  }
}
