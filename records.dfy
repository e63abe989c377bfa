/** User records and the lookups the routes run on the user list:
    `find` and `findIndex` with the test `user.id === parseInt(id)`. */
module UserRecords {

  datatype Option<+T> = None | Some(value: T)

  /** A record id. Seed records carry numbers; records created over HTTP carry
      the string form of a clock reading. */
  datatype Id = IntId(n: int) | StrId(s: string)

  /** A name as it arrives in a request body; `None` is an absent field (undefined). */
  type Name = Option<string>

  datatype User = User(id: Id, name: Name)

  /** JavaScript strict equality between a record id and the result of `parseInt`
      on the path parameter, where `None` stands for NaN: a string never equals a
      number, and NaN equals nothing. */
  predicate StrictEq(id: Id, parsed: Option<int>): (b: bool)
    ensures parsed.None? ==> !b
    ensures id.StrId? ==> !b
    ensures b ==> id == IntId(parsed.value)
  {
    match id
    case IntId(n) => parsed == Some(n)
    case StrId(_) => false
  }

  ghost predicate NoMatch(users: seq<User>, key: Option<int>) {
    forall i :: 0 <= i < |users| ==> !StrictEq(users[i].id, key)
  }

  /** `i` is the position of the first record whose id strictly equals `key`. */
  ghost predicate IsFirstMatch(users: seq<User>, key: Option<int>, i: int) {
    0 <= i < |users| && StrictEq(users[i].id, key) && NoMatch(users[..i], key)
  }

  /** `findIndex`: the position of the first matching record, or -1 when none matches. */
  function FindIndex(users: seq<User>, key: Option<int>): (r: int)
    ensures -1 <= r < |users|
    ensures r == -1 <==> NoMatch(users, key)
    ensures r != -1 ==> IsFirstMatch(users, key, r)
  {
    if |users| == 0 then -1
    else if StrictEq(users[0].id, key) then 0
    else
      var r := FindIndex(users[1..], key);
      assert forall i :: 1 <= i < |users| ==> users[i] == users[1..][i - 1];
      if r == -1 then -1
      else
        assert users[1..][..r] == users[1..r + 1];
        r + 1
  }

  /** `find`: the first matching record, or `None` (undefined) when none matches. */
  function Find(users: seq<User>, key: Option<int>): (r: Option<User>)
    ensures r.None? <==> NoMatch(users, key)
    ensures r.Some? ==> exists i :: IsFirstMatch(users, key, i) && r.value == users[i]
  {
    var i := FindIndex(users, key);
    if i == -1 then None else Some(users[i])
  }

  /** A path parameter that is not a number parses to NaN and finds nothing. */
  lemma NaNMatchesNothing(users: seq<User>)
    ensures FindIndex(users, None) == -1 && Find(users, None) == None
  {
  }

  /** A record with a string id is never the one a lookup finds, wherever it
      sits in the list. */
  lemma StrIdNeverFound(users: seq<User>, key: Option<int>, j: int)
    requires 0 <= j < |users| && users[j].id.StrId?
    ensures FindIndex(users, key) != j
    ensures Find(users, key) != Some(users[j])
  {
  }

  /** A lookup in a concatenation finds the first match of the first part,
      and otherwise the first match of the second part, shifted. */
  lemma {:induction false} FindIndexConcat(a: seq<User>, b: seq<User>, key: Option<int>)
    ensures FindIndex(a + b, key) ==
      if FindIndex(a, key) != -1 then FindIndex(a, key)
      else if FindIndex(b, key) != -1 then |a| + FindIndex(b, key)
      else -1
  {
    if a != [] {
      assert (a + b)[1..] == a[1..] + b;
      FindIndexConcat(a[1..], b, key);
    } else {
      assert a + b == b;
    }
  }

  /** Lookups look only at ids: lists with the same ids at the same positions
      give the same answer whatever the names. */
  lemma {:induction false} FindIndexSeesOnlyIds(a: seq<User>, b: seq<User>, key: Option<int>)
    requires |a| == |b|
    requires forall i :: 0 <= i < |a| ==> a[i].id == b[i].id
    ensures FindIndex(a, key) == FindIndex(b, key)
  {
    if a != [] {
      FindIndexSeesOnlyIds(a[1..], b[1..], key);
    }
  }
}
