# clubDeportivo: the sports-catalogue handlers, in Dafny

The service keeps one collection of sports, an ordered array of
`{ nombre, precio }` records stored as the JSON file `db/deportes.json`. Each
of its three mutating routes works the same way. It checks its input, loads
the whole file, changes the array in memory and writes the whole array back:

- `POST /agregar` appends `{ nombre, precio }` and echoes it. It does not
  check whether the name is already taken.
- `DELETE /borrar/:nombre` keeps the records not named `nombre`. When none
  was removed it answers 404 and does not write.
- `PUT /editar/:nombre` gives the first record named `nombre` the price
  `nuevoPrecio` and echoes that record. When there is no such record it
  answers 404 and does not write.

The model has four modules:

- `Js` (js.dfy): JavaScript values as a request body or the parsed file can
  hold them. `Truthy` is ECMAScript's ToBoolean (section 7.1.2 of ECMA-262),
  which the handlers apply through `!`. `Destructurable` and `Get` model
  `const { … } = req.body`.
- `Catalog` (catalog.dfy): the record `Deporte` and the pure operations on
  the collection. `Filtrar` is the filter the delete applies. `FirstMatch` is
  the result of `findIndex`. `Editado` is the collection after an update.
  The lemmas about them are here too.
- `Store` (store.dfy): the state the handlers change. Class `Deportes` is the
  array a load returns, which `push` and the price assignment change in
  place. Class `Db` is the file. Whether a read or a write fails is given by
  its fields `readable` and `writable`, which stand for the environment.
  Ghost fields `loads` and `writes` record every load and every collection
  handed to a save. They let the contracts say "validated before any storage
  access" and "did not save".
- `Routes` (routes.dfy): the three handlers as methods on a `Db`, returning a
  `Reply` with the source's status codes and messages.

The code names the request fields `nombre`, `precio` and `nuevoPrecio`, and
the model uses those names.

## Model

| member | source | states |
|---|---|---|
| `Js.FalsyExactly` | server.js:48 | a field fails the `!v` test exactly when it is `undefined`, `null`, `false`, `0` or `""`; every string but `""`, every non-zero number, every array and every object passes |
| `Catalog.Filtrar` | server.js:68 | the delete's filter is never longer than its input, and a record is in it exactly when it is in the input and not named `nombre` |
| `Catalog.FiltrarAppend` | server.js:68 | filtering distributes over concatenation, so records keep their original relative order |
| `Catalog.FiltrarCount` | server.js:68 | every copy of a record named `nombre` is removed (not only the first); every other record keeps its number of occurrences |
| `Catalog.FiltrarLength` | server.js:68-72 | the length test `deportes.length === nuevosDeportes.length` holds if and only if no record is named `nombre`; then the filter returns the collection unchanged, and otherwise it is strictly shorter |
| `Catalog.FiltrarIdempotent` | server.js:68-72 | after a delete no record has the name, so filtering again changes nothing and a second delete answers 404 |
| `Catalog.FirstMatch` | server.js:91-92 | the result is -1 exactly when no record has the name; otherwise it is the lowest index of a record with the name |
| `Catalog.EditadoOnlyFirst` | server.js:91-95 | the update keeps the length, gives the first record with the name the new price, keeps that record's name and leaves every other record unchanged, later duplicates included |
| `Catalog.EditadoTwice` | server.js:91-95 | an update does not move the first match, so a second update of the same name hits the same record and the last price wins |
| `Catalog.AgregarDuplicate` | server.js:52-55 | appending a record whose name is taken leaves two records with that name; the update still finds the older one and leaves the new one as it was; the delete removes both |
| `Store.Deportes.Push` | server.js:54 | `push` adds exactly the new record at the end of the loaded array |
| `Store.Deportes.FindIndex` | server.js:91 | `findIndex` returns -1 if and only if no record has the name; otherwise it returns the lowest index of a named record, which is `FirstMatch` |
| `Store.Deportes.SetPrecio` | server.js:95 | the price assignment changes only the price of the record at that index; its name, the length and every other record stay as they were |
| `Store.Db.Load` | server.js:18-21 | a load changes nothing in the file; it fails exactly when the file cannot be read or parsed, and otherwise returns a fresh array holding the file's whole collection |
| `Store.Db.Save` | server.js:24-26 | a save records the collection it was given; the file then holds exactly that collection, or, when the write fails, stays as it was |
| `Routes.ReplyShape` | server.js:49-100 | every error reply (400, 404, 500) has the body `{ ok: false, error }` with its message; a delete answers `{ ok: true }`; a create or update echoes the record's `nombre` and `precio` |
| `Routes.Agregar` | server.js:45-61 | a body that cannot be destructured gives the 500 message. A falsy `nombre` or `precio` gives 400 "Nombre y precio son requeridos" with no load and no save. Otherwise the handler loads once; a failed load gives 500 with no save. After a load it saves the old collection with `{ nombre, precio }` appended; on success the file holds that collection and the reply echoes the new record. No uniqueness condition applies |
| `Routes.Borrar` | server.js:64-79 | the handler loads once; a failed load gives 500 with no save. It answers 404 "Deporte no encontrado" if and only if no record has the name, and then it does not save. Otherwise it saves the filtered collection; on success the file holds exactly the records not named `nombre`, in order, and the reply is `{ ok: true }` |
| `Routes.Editar` | server.js:82-102 | a body that cannot be destructured gives the 500 message. A falsy `nuevoPrecio` gives 400 "Nuevo precio es requerido" with no load and no save. With no record of that name it answers 404 and does not save. Otherwise it saves the collection with only the first match's price replaced; on success the reply is that record, with its old name and the new price |

## Left out

- `GET /deportes`, the static `/` page, the catch-all 404 route, the body-parser setup and the port (server.js:10-13, 29-42, 105-112). They are framework wiring with no logic of their own; the list route only loads and returns.
- File I/O and JSON text. `readFile`/`JSON.parse` and `writeFile`/`JSON.stringify` are not modelled byte by byte. A load yields the parsed collection or a failure, and a save replaces the collection or fails. Whether either fails is a field of `Db` that stands for the environment. Key order and the two-space indentation of the written JSON are not modelled.
- `Store.Db.Save`: a failed write leaves the file as it was. A real `writeFile` that fails midway can leave the file truncated; that is not modelled.
- A load is modelled as yielding an array of `{ nombre, precio }` records or failing; parsed file contents of any other shape are folded into a failed load, so the model answers 500 for them. The source does not always fail. For an array with some elements that are not objects (numbers, strings, booleans, arrays): `push` works on any array, so create answers 200 (server.js:54-56); `(5).nombre` is `undefined`, so such elements never match, and delete and update answer 200 or 404 as they would for the object elements alone (server.js:68-74, 91-97). Only a `null` element that the `filter` or `findIndex` callback reaches makes the source throw and answer 500. A parsed value that is not an array makes `push`, `filter` and `findIndex` throw, and there the source answers 500 as the model does. Fields of a stored record other than `nombre` and `precio` are not modelled, and neither is the difference between an absent `nombre` and one that is `undefined`.
- The price assignment mutates the record object in place, and the reply sends that same object. Records are values here, and the reply carries a copy equal to the stored record; aliasing is not modelled.
- Numbers are reals, so `NaN` and ±Infinity are not modelled. `NaN` cannot come from a JSON or url-encoded body, but an infinity can: `JSON.parse` reads `1e400` as `Infinity`, which is truthy. The source accepts such a `precio` or `nuevoPrecio`, and `JSON.stringify` then stores and echoes it as `null` (server.js:25, 56, 97). The model has no such value, and its save-then-load returns every stored value unchanged.
- Strings are sequences of Unicode scalar values. A JavaScript string holding a lone UTF-16 surrogate (for instance from `"\ud800"` in JSON) has no counterpart in the model. For well-formed strings, name comparison is the same as `===`.
- Concurrent requests. Two handlers may interleave between their load and their save and lose an update. Each handler is modelled as one uninterrupted step.
- Logging through `console.error`.
