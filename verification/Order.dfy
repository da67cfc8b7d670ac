/** Orders, sorting and paging: what sort.Strings, slices.SortFunc and the database's sort,
    skip and limit do. */
module Order {

  /** strings.Compare(a, b) < 0 */
  predicate Less(a: string, b: string) {
    b != "" && (a == "" || a[0] < b[0] || (a[0] == b[0] && Less(a[1..], b[1..])))
  }

  /** The first place where two strings differ decides; a proper prefix comes first. */
  lemma {:induction false} LessMeans(a: string, b: string)
    ensures Less(a, b) <==>
            exists i: nat :: i <= |a| && i < |b| && a[..i] == b[..i] && (i == |a| || a[i] < b[i])
  {
    if a == "" || b == "" || a[0] != b[0] {
      assert b != "" && (a == "" || a[0] < b[0]) ==> a[..0] == b[..0];
    } else {
      var x, y := a[1..], b[1..];
      LessMeans(x, y);
      if i: nat :| i <= |x| && i < |y| && x[..i] == y[..i] && (i == |x| || x[i] < y[i]) {
        assert a[..i + 1] == [a[0]] + x[..i] && b[..i + 1] == [b[0]] + y[..i];
      }
      if i: nat :| i <= |a| && i < |b| && a[..i] == b[..i] && (i == |a| || a[i] < b[i]) {
        assert i > 0 && x[..i - 1] == a[..i][1..] && y[..i - 1] == b[..i][1..];
      }
    }
  }

  lemma LessIrreflexive(a: string)
    ensures !Less(a, a)
  {
  }

  lemma {:induction false} LessTransitive(a: string, b: string, c: string)
    requires Less(a, b) && Less(b, c)
    ensures Less(a, c)
  {
    if a != "" && a[0] == b[0] == c[0] { LessTransitive(a[1..], b[1..], c[1..]); }
  }

  lemma {:induction false} LessTotal(a: string, b: string)
    ensures a == b || Less(a, b) || Less(b, a)
  {
    if a != "" && b != "" && a[0] == b[0] {
      LessTotal(a[1..], b[1..]);
      assert a == [a[0]] + a[1..] && b == [b[0]] + b[1..];
    }
  }

  /** Strictly ascending, hence free of duplicates. */
  predicate Ascending(s: seq<string>) {
    forall i, j | 0 <= i < j < |s| :: Less(s[i], s[j])
  }

  /** An ascending sequence is determined by its elements. */
  lemma {:induction false} AscendingUnique(a: seq<string>, b: seq<string>)
    requires Ascending(a) && Ascending(b)
    requires forall x :: x in a <==> x in b
    ensures a == b
  {
    if a == [] {
      NonEmptyHasElement(b);
    } else {
      assert a[0] in b && b != [] && b[0] in a;
      assert a[0] == b[0] by {
        var i :| 0 <= i < |a| && a[i] == b[0];
        var j :| 0 <= j < |b| && b[j] == a[0];
        if 0 < i && 0 < j { LessTransitive(a[0], b[0], a[0]); LessIrreflexive(a[0]); }
      }
      forall x ensures x in a[1..] <==> x in b[1..] { TailElements(a, x); TailElements(b, x); }
      AscendingUnique(a[1..], b[1..]);
      assert a == [a[0]] + a[1..] && b == [b[0]] + b[1..];
    }
  }

  lemma NonEmptyHasElement(s: seq<string>)
    ensures s == [] || exists x :: x in s
  {
    if s != [] { assert s[0] in s; }
  }

  lemma TailElements(a: seq<string>, x: string)
    requires a != [] && Ascending(a)
    ensures x in a[1..] <==> x in a && x != a[0]
  {
    assert a == [a[0]] + a[1..];
    if i :| 0 < i < |a| && a[i] == a[0] { LessIrreflexive(a[0]); }
  }

  /** The elements of a set in ascending order. */
  ghost function Sorted(ids: set<string>): (r: seq<string>)
    ensures Ascending(r)
    ensures forall x :: x in r <==> x in ids
  {
    if ids == {} then []
    else
      var x :| x in ids;
      var rest := Sorted(ids - {x});
      InsertIdAscending(x, rest);
      InsertId(x, rest)
  }

  ghost function InsertId(x: string, s: seq<string>): seq<string> {
    if s == [] then [x] else if Less(x, s[0]) then [x] + s else [s[0]] + InsertId(x, s[1..])
  }

  lemma {:induction false} InsertIdAscending(x: string, s: seq<string>)
    requires Ascending(s) && x !in s
    ensures Ascending(InsertId(x, s))
    ensures forall y :: y in InsertId(x, s) <==> y == x || y in s
  {
    if s == [] {
    } else if Less(x, s[0]) {
      forall j | 0 <= j < |s| ensures Less(x, s[j]) {
        if 0 < j { LessTransitive(x, s[0], s[j]); }
      }
    } else {
      InsertIdAscending(x, s[1..]);
      assert s == [s[0]] + s[1..];
      LessTotal(x, s[0]);
      var r := InsertId(x, s[1..]);
      forall j | 0 <= j < |r| ensures Less(s[0], r[j]) {
        assert r[j] in r;
      }
    }
  }

  lemma SortedIs(ids: set<string>, s: seq<string>)
    requires Ascending(s) && forall x :: x in s <==> x in ids
    ensures s == Sorted(ids)
  {
    AscendingUnique(s, Sorted(ids));
  }

  /** A comparison that orders all values, ties allowed. */
  ghost predicate TotalOrder<T(!new)>(le: (T, T) -> bool) {
    && (forall x, y :: le(x, y) || le(y, x))
    && (forall x, y, z :: le(x, y) && le(y, z) ==> le(x, z))
  }

  ghost predicate SortedBy<T>(s: seq<T>, le: (T, T) -> bool) {
    forall i, j | 0 <= i < j < |s| :: le(s[i], s[j])
  }

  function Insert<T>(x: T, s: seq<T>, le: (T, T) -> bool): seq<T> {
    if s == [] then [x] else if le(x, s[0]) then [x] + s else [s[0]] + Insert(x, s[1..], le)
  }

  /** slices.SortFunc. It is not stable; every use here is on values with distinct keys, or its
      order among equal keys does not matter. */
  function Sort<T>(s: seq<T>, le: (T, T) -> bool): seq<T> {
    if s == [] then [] else Insert(s[0], Sort(s[1..], le), le)
  }

  lemma {:induction false} InsertAdds<T>(x: T, s: seq<T>, le: (T, T) -> bool)
    ensures multiset(Insert(x, s, le)) == multiset{x} + multiset(s)
  {
    if s == [] {
    } else {
      assert s == [s[0]] + s[1..];
      InsertAdds(x, s[1..], le);
    }
  }

  lemma {:induction false} InsertSorted<T(!new)>(x: T, s: seq<T>, le: (T, T) -> bool)
    requires TotalOrder(le) && SortedBy(s, le)
    ensures SortedBy(Insert(x, s, le), le)
  {
    if s != [] && !le(x, s[0]) {
      var r := Insert(x, s[1..], le);
      InsertSorted(x, s[1..], le);
      InsertAdds(x, s[1..], le);
      forall j | 0 <= j < |r| ensures le(s[0], r[j]) {
        assert r[j] in multiset(r);
        assert r[j] == x || r[j] in s[1..];
      }
    }
  }

  lemma {:induction false} SortCorrect<T(!new)>(s: seq<T>, le: (T, T) -> bool)
    ensures multiset(Sort(s, le)) == multiset(s)
    ensures |Sort(s, le)| == |s|
    ensures forall x :: x in Sort(s, le) <==> x in s
    ensures TotalOrder(le) ==> SortedBy(Sort(s, le), le)
  {
    if s == [] {
    } else {
      assert s == [s[0]] + s[1..];
      SortCorrect(s[1..], le);
      InsertAdds(s[0], Sort(s[1..], le), le);
      if TotalOrder(le) { InsertSorted(s[0], Sort(s[1..], le), le); }
    }
    assert |multiset(Sort(s, le))| == |multiset(s)|;
    forall x ensures x in Sort(s, le) <==> x in s {
      assert x in multiset(Sort(s, le)) <==> x in multiset(s);
    }
  }

  lemma {:induction false} SortSorted<T(!new)>(s: seq<T>, le: (T, T) -> bool)
    requires SortedBy(s, le)
    ensures Sort(s, le) == s
  {
    if s == [] {
    } else {
      SortSorted(s[1..], le);
      assert s == [s[0]] + s[1..];
    }
  }

  /** The mock's limitOffset. */
  function Page<T>(s: seq<T>, limit: int, offset: int): seq<T> {
    var rest := if offset > 0 then if offset > |s| then [] else s[offset..] else s;
    if 0 < limit < |rest| then rest[..limit] else rest
  }

  lemma PageMembers<T>(s: seq<T>, limit: int, offset: int)
    ensures forall x | x in Page(s, limit, offset) :: x in s
  {
  }

  lemma PageSize<T>(s: seq<T>, limit: nat, offset: nat)
    requires 0 < limit && offset <= |s|
    ensures |Page(s, limit, offset)| == if |s| - offset < limit then |s| - offset else limit
  {
  }

  /** A page starts behind the offset and ends with the list or at the limit; an offset or limit that
      is not positive does not count. */
  lemma PageMeans<T>(s: seq<T>, limit: int, offset: int)
    ensures var start := if offset <= 0 then 0 else if offset > |s| then |s| else offset;
            && |Page(s, limit, offset)| == (if 0 < limit < |s| - start then limit else |s| - start)
            && forall i | 0 <= i < |Page(s, limit, offset)| :: Page(s, limit, offset)[i] == s[start + i]
  {
  }

  /** The server's skip and limit; a limit of 0 is none. */
  function SkipLimit<T>(s: seq<T>, skip: nat, limit: nat): seq<T> {
    var rest := if skip < |s| then s[skip..] else [];
    if limit == 0 || |rest| < limit then rest else rest[..limit]
  }

  /** Options that are not positive are not sent; then both ways of paging agree. */
  lemma SkipLimitIsPage<T>(s: seq<T>, limit: int, offset: int)
    ensures SkipLimit(s, if offset > 0 then offset else 0, if limit > 0 then limit else 0) == Page(s, limit, offset)
  {
  }

  /** Fetching page after page, each of `limit` elements. */
  function Pages<T>(s: seq<T>, limit: int, offset: nat): seq<T>
    requires limit > 0
    decreases |s| - offset
  {
    if offset >= |s| then [] else Page(s, limit, offset) + Pages(s, limit, offset + limit)
  }

  lemma PageThenRest<T>(s: seq<T>, limit: int, offset: nat)
    requires limit > 0 && offset < |s|
    ensures Page(s, limit, offset) + (if offset + limit < |s| then s[offset + limit..] else []) == s[offset..]
  {
    var rest := s[offset..];
    assert limit < |rest| ==> rest == rest[..limit] + rest[limit..] && rest[limit..] == s[offset + limit..];
  }

  /** Pages at offsets 0, limit, 2 * limit, ... put together give the whole list back. */
  lemma {:induction false} PagesRebuild<T>(s: seq<T>, limit: int, offset: nat)
    requires limit > 0
    ensures Pages(s, limit, offset) == if offset >= |s| then [] else s[offset..]
    decreases |s| - offset
  {
    hide Page;
    if offset < |s| {
      PagesRebuild(s, limit, offset + limit);
      PageThenRest(s, limit, offset);
    }
  }
}
