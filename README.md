# In-memory user store of an Express CRUD service

This project models the core of a small HTTP service. Five routes work on one shared,
ordered, in-memory list of user records `{id, name}`:

- `GET /users` lists every record.
- `GET /users/:id` reads the first record whose id strictly equals `parseInt(id)`.
- `POST /user` appends a record whose id is `Date.now().toString()`.
- `PUT /users/:id` renames the first matching record in place.
- `DELETE /users/:id` splices the first matching record out.

The model is written in Dafny and follows `index.js`:

- `records.dfy` (module `UserRecords`) holds the record datatypes. Ids are `IntId` for the
  seed's numbers and `StrId` for created records. The module also holds JavaScript's `===`
  between an id and the parsed path parameter. The parsed value is `Option<int>`, where
  `None` is NaN. Finally it holds `find` and `findIndex` as the functions `Find` and
  `FindIndex`, and the lemmas about lookups.
- `decimal.dfy` (module `Decimal`) models `toString` on the millisecond clock reading. It is
  the decimal numeral of a `nat`, and it is proved to read back to the same number.
- `store.dfy` (module `UserRoutes`) holds the class `UserStore`. The class has the list as a
  `seq<User>` field and one method per route. Create, Update and Delete carry a
  `modifies this` clause.

Every handler returns the list of responses it **attempts**, as (status, body) pairs, and the
client receives the first one. The found branches of GET, PUT and DELETE have no early
return, so in the source the success response is followed by a 404 attempt. The model keeps
this as written: in those branches the list has two elements and the last is the 404. Any
mutation happens before either response.

A created record carries a string id, while lookups compare against a number with strict
equality. `StrIdNeverFound` proves that a record with a string id is never the one a lookup
finds, wherever it sits in the list, so it can never be found, updated or deleted by id.
`CreatedIsInvisible` adds that, at creation, appending the record leaves every lookup's
answer as it was.

## Model

| member | source | states |
|---|---|---|
| `UserRecords.StrictEq` | index.js:15 | `user.id === parseInt(id)`: holds only when the record has `IntId(n)` and the parsed value is `Some(n)`; string ids and NaN never match |
| `UserRecords.FindIndex` | index.js:49 | `findIndex`: returns -1 exactly when no record's id strictly equals the parsed id; otherwise returns the position of the first such record |
| `UserRecords.Find` | index.js:15 | `find`: returns undefined (`None`) exactly when nothing matches; otherwise returns the record at the first matching position |
| `UserRecords.NaNMatchesNothing` | index.js:15 | a non-numeric id parses to NaN, and no lookup with it finds anything |
| `UserRecords.StrIdNeverFound` | index.js:26 | for any list and any parsed id, a record with a string id (as every created record has) is never at the position `findIndex` returns, nor the record `find` returns |
| `UserRecords.FindIndexConcat` | index.js:49 | a lookup in `a + b` gives the first match in `a`; failing that, the first match in `b` shifted by `|a|`; failing both, -1 |
| `UserRecords.FindIndexSeesOnlyIds` | index.js:37 | two lists with the same ids at the same positions give the same lookup answer, whatever their names |
| `Decimal.ToString` | index.js:26 | the id string of a clock reading is non-empty and all decimal digits, with a leading `0` only for zero |
| `Decimal.ValueOfToString` | index.js:26 | reading the id string back as a decimal number gives the clock reading |
| `Decimal.ToStringInjective` | index.js:26 | two clock readings give the same id string if and only if they are equal |
| `UserRoutes.NewUser` | index.js:25-28 | the created record has a string id made of decimal digits and carries the request's name |
| `UserRoutes.Rename` | index.js:40 | `user.name = name` changes only the name at that position; the id, the length and all other records stay the same |
| `UserRoutes.RemoveAt` | index.js:52 | `splice(i, 1)` drops exactly the record at `i`: the length shrinks by one, earlier records keep their positions, later ones move down by one, and the multiset loses just that record |
| `UserRoutes.UserStore.constructor` | index.js:4 | the store starts with the seed list |
| `UserRoutes.UserStore.List` | index.js:8-10 | one response, status 200, carrying the whole list in order (even when empty); the list is not changed |
| `UserRoutes.UserStore.Get` | index.js:13-22 | no match: exactly one attempt, the 404 `User Not Found !`. Match: a 200 carrying the first matching record, then a 404 attempt. The list is never changed |
| `UserRoutes.UserStore.Create` | index.js:24-33 | exactly one record is appended at the end, with a string id from the clock and the given name; earlier records are unchanged; the response is 201 `Created !` |
| `UserRoutes.UserStore.Update` | index.js:35-45 | no match: the list is unchanged and only the 404 is attempted. Match: only the first match's name changes, then a 200 with the updated record is attempted, then a 404 |
| `UserRoutes.UserStore.Delete` | index.js:47-57 | no match: the list is unchanged and only the 404 is attempted. Match: exactly the first matching record is removed, then a 200 `deleted !` is attempted, then a 404 |
| `UserRoutes.CreatedIsInvisible` | index.js:15-30 | at creation, appending the new record to the list changes no lookup's answer |
| `UserRoutes.UpdateThenGet` | index.js:35-41 | after a rename, a lookup with the same id finds the same position, and the record found has the old id and the new name |
| `UserRoutes.DeleteThenFind` | index.js:49-52 | after the first match is removed, a lookup with the same id finds the next record with that id, if any; later duplicates stay |

## Left out

- Express app construction, JSON body parsing, route dispatch, `app.listen` and the console log (index.js:1-3, 6, 59-61). These are framework plumbing.
- Loading `./db/db.json` (index.js:4) is file I/O. The constructor takes the seed list as an argument instead.
- `Date.now()` is a clock, so the handler takes the reading as the parameter `now: nat`. Readings are taken to be non-negative: a clock set before 1970 would give a negative number and an id starting with `-`, which the model does not produce. The id is still a string either way. Only `toString` is modelled.
- `parseInt` is taken as already applied. Its handling of whitespace, signs, trailing characters and radix is not modelled. The handlers take its result as `Option<int>`, where `None` stands for NaN.
- JSON serialisation is not modelled. Neither is what Express does when a second response is sent after the headers (an error or nothing). The model records only that the second response is attempted.
- Names are `Option<string>`, where `None` is an absent field. Other JSON values a client might send as `name` (numbers, objects) are not modelled.
- `find` returns a reference to the stored object, and PUT mutates that object. Records here are values, so the update is made at the position that `findIndex` would give. Each record object sits in the array only once, so the result is the same.
- Concurrent requests are not modelled. Each handler runs to completion without interleaving.
