/**
 * `resolveUserMap` and `resolveLocationMap` of the second generation: lookup tables
 * filled by one `Map.set` per record, so that a later record with the same key
 * overwrites an earlier one. The user and location lists are inputs (their fetch is
 * not modelled).
 */
module UserMaps {
  import opened Wrappers
  import opened Text
  import opened Seqs

  /** A user record: its id and its display name. */
  datatype User = User(id: string, name: string)

  /** A location record; its id may be missing. */
  datatype Location = Location(id: Option<string>, name: string)

  // ---------------------------------------------------------------------------
  // One `set` per record
  // ---------------------------------------------------------------------------

  /** The map after `items.forEach(x => m.set(key(x), value(x)))` on an empty map. */
  function Assigned<T, V>(items: seq<T>, key: T -> string, value: T -> V): map<string, V>
    decreases |items|
  {
    if items == [] then map[]
    else
      var last := items[|items| - 1];
      Assigned(items[..|items| - 1], key, value)[key(last) := value(last)]
  }

  /** The keys are exactly the keys of the records. */
  lemma {:induction false} AssignedKeys<T, V>(items: seq<T>, key: T -> string, value: T -> V)
    ensures forall k :: k in Assigned(items, key, value) <==> exists j :: 0 <= j < |items| && key(items[j]) == k
    decreases |items|
  {
    if items != [] {
      var pre := items[..|items| - 1];
      AssignedKeys(pre, key, value);
      forall k ensures k in Assigned(items, key, value) <==> exists j :: 0 <= j < |items| && key(items[j]) == k {
        if exists j :: 0 <= j < |pre| && key(pre[j]) == k {
          var j :| 0 <= j < |pre| && key(pre[j]) == k;
          assert items[j] == pre[j];
        }
        if exists j :: 0 <= j < |items| && key(items[j]) == k {
          var j :| 0 <= j < |items| && key(items[j]) == k;
          if j < |pre| {
            assert pre[j] == items[j];
          }
        }
      }
    }
  }

  /** Last write wins: a key holds the value of the last record with that key. */
  lemma {:induction false} AssignedLastWins<T, V>(items: seq<T>, key: T -> string, value: T -> V, j: nat)
    requires j < |items|
    requires forall i :: j < i < |items| ==> key(items[i]) != key(items[j])
    ensures key(items[j]) in Assigned(items, key, value)
    ensures Assigned(items, key, value)[key(items[j])] == value(items[j])
    decreases |items|
  {
    var pre := items[..|items| - 1];
    if j < |items| - 1 {
      assert pre[j] == items[j];
      forall i | j < i < |pre| ensures key(pre[i]) != key(pre[j]) {
        assert pre[i] == items[i];
      }
      AssignedLastWins(pre, key, value, j);
    }
  }

  // ---------------------------------------------------------------------------
  // SupabaseBot/src/utils/resolveUserMap.ts
  // ---------------------------------------------------------------------------

  function UserKey(u: User): string { Lower(u.name) }

  function UserValue(u: User): seq<string> { [u.id] }

  /** `userList.map(u => u.id)`. */
  function AllIds(users: seq<User>): (r: seq<string>)
    ensures |r| == |users| && forall i :: 0 <= i < |users| ==> r[i] == users[i].id
  {
    seq(|users|, i requires 0 <= i < |users| => users[i].id)
  }

  /** The user map: each lowercased name to its user's id, then "both" to every id. */
  function UserMapOf(users: seq<User>): map<string, seq<string>> {
    Assigned(users, UserKey, UserValue)["both" := AllIds(users)]
  }

  /** `resolveUserMap()` once the users are fetched. */
  method ResolveUserMap(users: seq<User>) returns (m: map<string, seq<string>>)
    ensures m == UserMapOf(users)
  {
    m := map[];
    var allIds := AllIds(users);
    var i := 0;
    while i < |users|
      invariant 0 <= i <= |users|
      invariant m == Assigned(users[..i], UserKey, UserValue)
    {
      assert users[..i + 1][..i] == users[..i];
      m := m[Lower(users[i].name) := [users[i].id]];
      i := i + 1;
    }
    assert users[..|users|] == users;
    m := m["both" := allIds];
  }

  /**
   * "both" holds every id in list order (so it overrides a user called "both");
   * the other keys are exactly the lowercased names, each holding one id: that of the
   * last user with the name.
   */
  lemma UserMapSpec(users: seq<User>)
    ensures "both" in UserMapOf(users) && UserMapOf(users)["both"] == AllIds(users)
    ensures users == [] ==> UserMapOf(users) == map["both" := []]
    ensures forall k :: k in UserMapOf(users) <==> k == "both" || exists j :: 0 <= j < |users| && Lower(users[j].name) == k
    ensures forall k :: k in UserMapOf(users) && k != "both" ==> |UserMapOf(users)[k]| == 1
    ensures forall j :: (0 <= j < |users| && Lower(users[j].name) != "both" &&
                        (forall i :: j < i < |users| ==> Lower(users[i].name) != Lower(users[j].name))) ==>
                       UserMapOf(users)[Lower(users[j].name)] == [users[j].id]
  {
    AssignedKeys(users, UserKey, UserValue);
    var named := Assigned(users, UserKey, UserValue);
    forall k | k in named
      ensures |named[k]| == 1
    {
      var j :| 0 <= j < |users| && UserKey(users[j]) == k;
      var last := LastWith(users, UserKey, k, j);
      AssignedLastWins(users, UserKey, UserValue, last);
    }
    forall j | 0 <= j < |users| && Lower(users[j].name) != "both" &&
      (forall i :: j < i < |users| ==> Lower(users[i].name) != Lower(users[j].name))
      ensures UserMapOf(users)[Lower(users[j].name)] == [users[j].id]
    {
      AssignedLastWins(users, UserKey, UserValue, j);
    }
  }

  /** `Array.from(userMap.keys())`: the keys in order of first insertion, "both" last unless a user took it earlier. */
  function KeyOrder(users: seq<User>): seq<string> {
    AddAll([], seq(|users|, i requires 0 <= i < |users| => Lower(users[i].name)) + ["both"])
  }

  /** Every key of the user map is listed exactly once. */
  lemma KeyOrderSpec(users: seq<User>)
    ensures NoDuplicates(KeyOrder(users))
    ensures forall k :: k in KeyOrder(users) <==> k in UserMapOf(users)
  {
    var names := seq(|users|, i requires 0 <= i < |users| => Lower(users[i].name));
    AddAllSpec([], names + ["both"]);
    UserMapSpec(users);
    forall k ensures k in names + ["both"] <==> k in UserMapOf(users) {
      if k in names {
        var i :| 0 <= i < |names| && names[i] == k;
        assert Lower(users[i].name) == k;
      }
      if exists j :: 0 <= j < |users| && Lower(users[j].name) == k {
        var j :| 0 <= j < |users| && Lower(users[j].name) == k;
        assert names[j] == k;
      }
    }
  }

  /** The last position holding a key that some position at or after `from` holds. */
  function LastWith<T>(items: seq<T>, key: T -> string, k: string, from: nat): (j: nat)
    requires from < |items| && key(items[from]) == k
    ensures from <= j < |items| && key(items[j]) == k
    ensures forall i :: j < i < |items| ==> key(items[i]) != k
    decreases |items| - from
  {
    if exists i :: from < i < |items| && key(items[i]) == k then
      var i :| from < i < |items| && key(items[i]) == k;
      LastWith(items, key, k, i)
    else from
  }

  // ---------------------------------------------------------------------------
  // SupabaseBot/src/utils/resolveLocationMap.ts
  // ---------------------------------------------------------------------------

  function LocationKey(l: Location): string { l.name }

  function LocationValue(l: Location): string { l.id.GetOr("") }

  function LocationMapOf(locations: seq<Location>): map<string, string> {
    Assigned(locations, LocationKey, LocationValue)
  }

  /** `resolveLocationMap()` once the locations are fetched. */
  method ResolveLocationMap(locations: seq<Location>) returns (m: map<string, string>)
    ensures m == LocationMapOf(locations)
  {
    m := map[];
    var i := 0;
    while i < |locations|
      invariant 0 <= i <= |locations|
      invariant m == Assigned(locations[..i], LocationKey, LocationValue)
    {
      assert locations[..i + 1][..i] == locations[..i];
      m := m[locations[i].name := locations[i].id.GetOr("")];
      i := i + 1;
    }
    assert locations[..|locations|] == locations;
  }

  /**
   * The keys are exactly the names, as written; a name holds the id of the last
   * location with that name, or "" when that id is missing; no locations, no keys.
   */
  lemma LocationMapSpec(locations: seq<Location>)
    ensures locations == [] ==> LocationMapOf(locations) == map[]
    ensures forall k :: k in LocationMapOf(locations) <==> exists j :: 0 <= j < |locations| && locations[j].name == k
    ensures forall j :: (0 <= j < |locations| && (forall i :: j < i < |locations| ==> locations[i].name != locations[j].name)) ==>
                       LocationMapOf(locations)[locations[j].name] == (if locations[j].id.Some? then locations[j].id.value else "")
  {
    AssignedKeys(locations, LocationKey, LocationValue);
    forall j | 0 <= j < |locations| && (forall i :: j < i < |locations| ==> locations[i].name != locations[j].name)
      ensures LocationMapOf(locations)[locations[j].name] == (if locations[j].id.Some? then locations[j].id.value else "")
    {
      AssignedLastWins(locations, LocationKey, LocationValue, j);
    }
  }
}
