/** Lists of keyed values: the document collections of the database and the slices of the mock.
    `Image` is the map such a list stands for. */
module Collections {
  import opened Order

  ghost predicate Unique<T, K>(s: seq<T>, key: T -> K) {
    forall i, j | 0 <= i < j < |s| :: key(s[i]) != key(s[j])
  }

  ghost function Image<T, K, V>(s: seq<T>, key: T -> K, value: T -> V): map<K, V>
    requires Unique(s, key)
  {
    map i | 0 <= i < |s| :: key(s[i]) := value(s[i])
  }

  /** For lists that stand for themselves. */
  function Self<T>(x: T): T {
    x
  }

  lemma ImageMembers<T(!new), K(!new), V(!new)>(s: seq<T>, key: T -> K, value: T -> V)
    requires Unique(s, key)
    ensures forall x | x in s :: key(x) in Image(s, key, value) && Image(s, key, value)[key(x)] == value(x)
    ensures forall k | k in Image(s, key, value) :: exists x | x in s :: key(x) == k
  {
  }

  /** A map that describes the members describes the list. */
  lemma ImageIs<T(!new), K(!new), V(!new)>(s: seq<T>, key: T -> K, value: T -> V, m: map<K, V>)
    requires Unique(s, key)
    requires forall x | x in s :: key(x) in m && m[key(x)] == value(x)
    requires forall k | k in m :: exists x | x in s :: key(x) == k
    ensures Image(s, key, value) == m
  {
  }

  /** Replaces the first value with this key, or appends. */
  function Upsert<T, K(==)>(s: seq<T>, x: T, key: T -> K): seq<T> {
    if s == [] then [x]
    else if key(s[0]) == key(x) then [x] + s[1..]
    else [s[0]] + Upsert(s[1..], x, key)
  }

  lemma {:induction false} UpsertAt<T, K>(s: seq<T>, x: T, key: T -> K, i: nat)
    requires i < |s| && key(s[i]) == key(x) && forall j | 0 <= j < i :: key(s[j]) != key(x)
    ensures Upsert(s, x, key) == s[i := x]
  {
    if i == 0 {
    } else {
      UpsertAt(s[1..], x, key, i - 1);
    }
  }

  lemma {:induction false} UpsertNew<T, K>(s: seq<T>, x: T, key: T -> K)
    requires forall y | y in s :: key(y) != key(x)
    ensures Upsert(s, x, key) == s + [x]
  {
    if s == [] {
    } else {
      UpsertNew(s[1..], x, key);
    }
  }

  lemma {:induction false} UpsertMembers<T(!new), K(!new)>(s: seq<T>, x: T, key: T -> K)
    requires Unique(s, key)
    ensures Unique(Upsert(s, x, key), key)
    ensures forall y :: y in Upsert(s, x, key) <==> y == x || (y in s && key(y) != key(x))
  {
    if s == [] {
    } else {
      assert s == [s[0]] + s[1..];
      if key(s[0]) != key(x) {
        UpsertMembers(s[1..], x, key);
        var r := Upsert(s[1..], x, key);
        forall j | 0 <= j < |r| ensures key(s[0]) != key(r[j]) {
          assert r[j] in r;
          if r[j] != x {
            assert r[j] in s[1..];
            var i :| 0 < i < |s| && s[i] == r[j];
          }
        }
      }
    }
  }

  lemma UpsertImage<T(!new), K(!new), V(!new)>(s: seq<T>, x: T, key: T -> K, value: T -> V)
    requires Unique(s, key)
    ensures Unique(Upsert(s, x, key), key)
    ensures Image(Upsert(s, x, key), key, value) == Image(s, key, value)[key(x) := value(x)]
  {
    UpsertMembers(s, x, key);
    ImageMembers(s, key, value);
    var m := Image(s, key, value)[key(x) := value(x)];
    var r := Upsert(s, x, key);
    forall y | y in r ensures key(y) in m && m[key(y)] == value(y) { }
    forall k | k in m ensures exists y | y in r :: key(y) == k {
      if k == key(x) {
        assert x in r;
      } else {
        var y :| y in s && key(y) == k;
        assert y in r;
      }
    }
    ImageIs(r, key, value, m);
  }

  function Keep<T(!new)>(s: seq<T>, p: T -> bool): (r: seq<T>)
    ensures forall x :: x in r <==> x in s && p(x)
  {
    if s == [] then [] else (if p(s[0]) then [s[0]] else []) + Keep(s[1..], p)
  }

  lemma {:induction false} KeepUnique<T(!new), K(!new)>(s: seq<T>, p: T -> bool, key: T -> K)
    requires Unique(s, key)
    ensures Unique(Keep(s, p), key)
  {
    if s == [] {
    } else {
      KeepUnique(s[1..], p, key);
      var r := Keep(s[1..], p);
      forall j | 0 <= j < |r| ensures key(s[0]) != key(r[j]) { assert r[j] in s[1..]; }
    }
  }

  /** Keeping values by their key restricts the map. */
  lemma KeepImage<T(!new), K(!new), V(!new)>(s: seq<T>, p: T -> bool, key: T -> K, value: T -> V, keys: set<K>)
    requires Unique(s, key)
    requires forall x | x in s :: p(x) <==> key(x) !in keys
    ensures Unique(Keep(s, p), key)
    ensures Image(Keep(s, p), key, value) == Image(s, key, value) - keys
  {
    KeepUnique(s, p, key);
    ImageMembers(s, key, value);
    var m := Image(s, key, value) - keys;
    forall k | k in m ensures exists x | x in Keep(s, p) :: key(x) == k {
      var x :| x in s && key(x) == k;
      assert x in Keep(s, p);
    }
    ImageIs(Keep(s, p), key, value, m);
  }

  /** Values changed in place under the same keys. */
  lemma ChangeImage<T(!new), K(!new), V(!new)>(s: seq<T>, r: seq<T>, key: T -> K, value: T -> V, m: map<K, V>)
    requires Unique(s, key) && |r| == |s|
    requires forall i | 0 <= i < |s| :: key(r[i]) == key(s[i]) && key(s[i]) in m && m[key(s[i])] == value(r[i])
    requires m.Keys == Image(s, key, value).Keys
    ensures Unique(r, key)
    ensures Image(r, key, value) == m
  {
  }

  /** The order by a string key, ties allowed. */
  function IdOrder<T>(id: T -> string): (T, T) -> bool {
    (x: T, y: T) => !Less(id(y), id(x))
  }

  lemma IdOrderTotal<T(!new)>(id: T -> string)
    ensures TotalOrder(IdOrder(id))
  {
    var le := IdOrder(id);
    forall x, y ensures le(x, y) || le(y, x) {
      if Less(id(y), id(x)) && Less(id(x), id(y)) { LessTransitive(id(x), id(y), id(x)); LessIrreflexive(id(x)); }
    }
    forall x, y, z | le(x, y) && le(y, z) ensures le(x, z) {
      LessTotal(id(x), id(y));
      LessTotal(id(y), id(z));
      if Less(id(z), id(x)) {
        if Less(id(x), id(y)) { LessTransitive(id(z), id(x), id(y)); }
      }
    }
  }

  function Ids<T>(s: seq<T>, id: T -> string): (r: seq<string>)
    ensures |r| == |s| && forall i | 0 <= i < |s| :: r[i] == id(s[i])
  {
    seq(|s|, i requires 0 <= i < |s| => id(s[i]))
  }

  lemma PageOfIds<T>(s: seq<T>, id: T -> string, limit: int, offset: int)
    ensures Ids(Page(s, limit, offset), id) == Page(Ids(s, id), limit, offset)
  {
  }

  lemma {:induction false} SortUnique<T(!new), K(!new)>(s: seq<T>, le: (T, T) -> bool, key: T -> K)
    requires Unique(s, key)
    ensures Unique(Sort(s, le), key)
  {
    if s == [] {
    } else {
      SortUnique(s[1..], le, key);
      SortCorrect(s[1..], le);
      InsertUnique(s[0], Sort(s[1..], le), le, key);
    }
  }

  lemma {:induction false} InsertUnique<T(!new), K(!new)>(x: T, s: seq<T>, le: (T, T) -> bool, key: T -> K)
    requires Unique(s, key) && forall y | y in s :: key(y) != key(x)
    ensures Unique(Insert(x, s, le), key)
  {
    if s != [] && !le(x, s[0]) {
      InsertUnique(x, s[1..], le, key);
      InsertAdds(x, s[1..], le);
      var r := Insert(x, s[1..], le);
      forall j | 0 <= j < |r| ensures key(s[0]) != key(r[j]) {
        assert r[j] in multiset(r);
        assert r[j] == x || r[j] in s[1..];
      }
    }
  }

  /** Sorting values with distinct ids by id: the ids come out as the ascending list of their set. */
  lemma SortedIds<T(!new)>(s: seq<T>, id: T -> string, names: set<string>)
    requires Unique(s, id)
    requires forall x | x in s :: id(x) in names
    requires forall n | n in names :: exists x | x in s :: id(x) == n
    ensures Ids(Sort(s, IdOrder(id)), id) == Sorted(names)
    ensures forall x :: x in Sort(s, IdOrder(id)) <==> x in s
  {
    var le := IdOrder(id);
    var r := Sort(s, le);
    IdOrderTotal(id);
    SortCorrect(s, le);
    SortUnique(s, le, id);
    var ids := Ids(r, id);
    forall i, j | 0 <= i < j < |ids| ensures Less(ids[i], ids[j]) {
      assert le(r[i], r[j]);
      LessTotal(ids[i], ids[j]);
    }
    forall n ensures n in ids <==> n in names {
      if n in ids { var i :| 0 <= i < |ids| && ids[i] == n; assert r[i] in s; }
      if n in names { var x :| x in s && id(x) == n; var i :| 0 <= i < |r| && r[i] == x; assert ids[i] == n; }
    }
    SortedIs(names, ids);
  }
}
