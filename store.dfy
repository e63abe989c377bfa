/** The five user routes over the shared in-memory user list. Each handler
    returns every response it attempts, in order; the client receives the first. */
module UserRoutes {
  import opened UserRecords
  import Decimal

  const STATUS_OK: nat := 200
  const STATUS_CREATED: nat := 201
  const STATUS_NOT_FOUND: nat := 404

  /** A JSON response body: one record, the whole list, or `{message: ...}`. */
  datatype Body = Record(user: User) | Records(users: seq<User>) | Message(text: string)

  datatype Response = Response(status: nat, body: Body)

  const NOT_FOUND := Response(STATUS_NOT_FOUND, Message("User Not Found !"))
  const CREATED := Response(STATUS_CREATED, Message("Created !"))
  const DELETED := Response(STATUS_OK, Message("deleted !"))

  /** The record a POST stores: its id is the decimal string of the clock reading. */
  function NewUser(now: nat, name: Name): (u: User)
    ensures u.id.StrId? && Decimal.AllDigits(u.id.s) && u.name == name
  {
    User(StrId(Decimal.ToString(now)), name)
  }

  /** The list after `user.name = name` on the record at position `i`. */
  function Rename(users: seq<User>, i: nat, name: Name): (r: seq<User>)
    requires i < |users|
    ensures |r| == |users|
    ensures r[i] == User(users[i].id, name)
    ensures forall k :: 0 <= k < |r| && k != i ==> r[k] == users[k]
  {
    users[i := users[i].(name := name)]
  }

  /** The list after `splice(i, 1)`. */
  function RemoveAt(users: seq<User>, i: nat): (r: seq<User>)
    requires i < |users|
    ensures |r| == |users| - 1
    ensures forall k :: 0 <= k < i ==> r[k] == users[k]
    ensures forall k :: i <= k < |r| ==> r[k] == users[k + 1]
    ensures multiset(r) + multiset{users[i]} == multiset(users)
  {
    assert users == users[..i] + [users[i]] + users[i + 1..];
    users[..i] + users[i + 1..]
  }

  class UserStore {
    var users: seq<User>

    /** The list loaded from the seed document at start-up. */
    constructor (seed: seq<User>)
      ensures users == seed
    {
      users := seed;
    }

    /** GET /users: the whole list, in order, with status 200, even when empty. */
    method List() returns (attempts: seq<Response>)
      ensures attempts == [Response(STATUS_OK, Records(users))]
    {
      attempts := [Response(STATUS_OK, Records(users))];
    }

    /** GET /users/:id. With a match the record is sent with status 200 and a
        404 is attempted after it; without one only the 404 is attempted. */
    method Get(key: Option<int>) returns (attempts: seq<Response>)
      ensures NoMatch(users, key) ==> attempts == [NOT_FOUND]
      ensures !NoMatch(users, key) ==>
        |attempts| == 2 && attempts[1] == NOT_FOUND &&
        exists i :: IsFirstMatch(users, key, i) && attempts[0] == Response(STATUS_OK, Record(users[i]))
    {
      var user := Find(users, key);
      attempts := [];
      if user.Some? {
        attempts := attempts + [Response(STATUS_OK, Record(user.value))];
      }
      attempts := attempts + [NOT_FOUND];
    }

    /** POST /user: appends one record with a fresh string id and answers 201. */
    method Create(now: nat, name: Name) returns (attempts: seq<Response>)
      modifies this
      ensures users == old(users) + [NewUser(now, name)]
      ensures attempts == [CREATED]
    {
      var newUser := NewUser(now, name);
      users := users + [newUser];
      attempts := [CREATED];
    }

    /** PUT /users/:id. With a match the first matching record's name is
        overwritten, the updated record is sent with status 200 and a 404 is
        attempted after it; without one nothing changes and only the 404 is attempted. */
    method Update(key: Option<int>, name: Name) returns (attempts: seq<Response>)
      modifies this
      ensures var i := FindIndex(old(users), key);
        if i == -1 then
          users == old(users) && attempts == [NOT_FOUND]
        else
          users == Rename(old(users), i, name) &&
          attempts == [Response(STATUS_OK, Record(users[i])), NOT_FOUND]
    {
      var i := FindIndex(users, key);
      attempts := [];
      if i != -1 {
        users := Rename(users, i, name);
        attempts := attempts + [Response(STATUS_OK, Record(users[i]))];
      }
      attempts := attempts + [NOT_FOUND];
    }

    /** DELETE /users/:id. With a match the first matching record is removed,
        `{message: "deleted !"}` is sent with status 200 and a 404 is attempted
        after it; without one nothing changes and only the 404 is attempted. */
    method Delete(key: Option<int>) returns (attempts: seq<Response>)
      modifies this
      ensures var i := FindIndex(old(users), key);
        if i == -1 then
          users == old(users) && attempts == [NOT_FOUND]
        else
          users == RemoveAt(old(users), i) && attempts == [DELETED, NOT_FOUND]
    {
      var i := FindIndex(users, key);
      attempts := [];
      if i != -1 {
        users := RemoveAt(users, i);
        attempts := attempts + [DELETED];
      }
      attempts := attempts + [NOT_FOUND];
    }
  }

  /** At creation, appending the new record leaves every lookup's answer as
      it was. */
  lemma CreatedIsInvisible(users: seq<User>, now: nat, name: Name, key: Option<int>)
    ensures FindIndex(users + [NewUser(now, name)], key) == FindIndex(users, key)
    ensures Find(users + [NewUser(now, name)], key) == Find(users, key)
  {
    FindIndexConcat(users, [NewUser(now, name)], key);
    assert NoMatch([NewUser(now, name)], key);
  }

  /** After PUT renames the first match, a GET with the same id finds the
      renamed record, with its id and the new name. */
  lemma UpdateThenGet(users: seq<User>, key: Option<int>, name: Name)
    requires FindIndex(users, key) != -1
    ensures var i := FindIndex(users, key);
      FindIndex(Rename(users, i, name), key) == i &&
      Find(Rename(users, i, name), key) == Some(User(users[i].id, name))
  {
    var i := FindIndex(users, key);
    FindIndexSeesOnlyIds(users, Rename(users, i, name), key);
  }

  /** After DELETE removes the first match, a lookup with the same id finds
      what was the next match, if any: later records with that id remain. */
  lemma DeleteThenFind(users: seq<User>, key: Option<int>)
    requires FindIndex(users, key) != -1
    ensures var i := FindIndex(users, key);
      var j := FindIndex(users[i + 1..], key);
      FindIndex(RemoveAt(users, i), key) == if j == -1 then -1 else i + j
  {
    var i := FindIndex(users, key);
    FindIndexConcat(users[..i], users[i + 1..], key);
  }
}
