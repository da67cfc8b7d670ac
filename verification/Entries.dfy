/** The stored form of a resource (pkg/database/mongo/permissions.go, update.go, check.go,
    list.go): twelve lists of principals, their encoder and decoder, the check on them and
    the queries compiled for them. */
module Entries {
  import opened Model

  /** The four lists of one kind of principal. */
  datatype Lists = Lists(admin: seq<string>, read: seq<string>, write: seq<string>, execute: seq<string>) {
    /** The list in which the holders of a permission are kept. */
    function Of(p: Permission): seq<string> {
      if p == ADMINISTRATE then admin
      else if p == READ then read
      else if p == WRITE then write
      else if p == EXECUTE then execute
      else []
    }

    /** What the lists mean. */
    function Decoded(): RightsMap {
      map k | k in admin + read + write + execute :: Rights(k in read, k in write, k in execute, k in admin)
    }
  }

  const NO_LISTS := Lists([], [], [], [])

  /** A document of the permissions collection. */
  datatype Doc = Doc(topicId: string, id: string, timestamp: int, synced: bool,
                     users: Lists, groups: Lists, roles: Lists) {
    function Key(): Key {
      Model.Key(topicId, id)
    }

    function Decoded(): Acl {
      Acl(users.Decoded(), groups.Decoded(), roles.Decoded())
    }

    function Resource(): Resource {
      Model.Resource(topicId, id, ToPerms(Decoded()))
    }
  }

  ghost predicate Distinct(s: seq<string>) {
    forall i, j | 0 <= i < j < |s| :: s[i] != s[j]
  }

  /** `after` is `before` followed by the principals of m with right p, each once, in some order. */
  ghost predicate Extends(before: seq<string>, after: seq<string>, m: RightsMap, p: Permission) {
    && before <= after
    && Distinct(after[|before|..])
    && forall k :: k in after[|before|..] <==> k in m && m[k].Has(p)
  }

  ghost predicate ExtendsAll(before: Lists, after: Lists, m: RightsMap) {
    forall p | Known(p) :: Extends(before.Of(p), after.Of(p), m, p)
  }

  /** The document holds these permissions; the order inside its lists is left open. */
  ghost predicate Encodes(d: Doc, p: Perms) {
    && ExtendsAll(NO_LISTS, d.users, p.Plain().users)
    && ExtendsAll(NO_LISTS, d.groups, p.Plain().groups)
    && ExtendsAll(NO_LISTS, d.roles, p.Plain().roles)
  }

  /** Decoding what was encoded gives exactly the normal form, whatever order the maps were walked in. */
  lemma CodecRoundTrip(p: Perms, d: Doc)
    requires Encodes(d, p)
    ensures d.Decoded() == p.Norm()
  {
    ListsRoundTrip(p.Plain().users, d.users);
    ListsRoundTrip(p.Plain().groups, d.groups);
    ListsRoundTrip(p.Plain().roles, d.roles);
  }

  lemma ListsRoundTrip(m: RightsMap, l: Lists)
    requires ExtendsAll(NO_LISTS, l, m)
    ensures l.Decoded() == Clean(m)
  {
    ListedIffGranted(m, l);
    forall k
      ensures k in l.Decoded() <==> k in Clean(m)
      ensures k in Clean(m) ==> l.Decoded()[k] == m[k]
    {
      assert At(m, k).Any() <==> exists p :: Known(p) && At(m, k).Has(p) by {
        var a := At(m, k);
        assert a.Has(READ) == a.read && a.Has(WRITE) == a.write;
        assert a.Has(EXECUTE) == a.execute && a.Has(ADMINISTRATE) == a.administrate;
      }
      assert l.Of(READ) == l.read && l.Of(WRITE) == l.write && l.Of(EXECUTE) == l.execute
          && l.Of(ADMINISTRATE) == l.admin;
    }
  }

  lemma ListedIffGranted(m: RightsMap, l: Lists)
    requires ExtendsAll(NO_LISTS, l, m)
    ensures forall p, k | Known(p) :: k in l.Of(p) <==> At(m, k).Has(p)
    ensures forall k :: k in l.read <==> At(m, k).read
    ensures forall k :: k in l.write <==> At(m, k).write
    ensures forall k :: k in l.execute <==> At(m, k).execute
    ensures forall k :: k in l.admin <==> At(m, k).administrate
  {
    forall p, k | Known(p) ensures k in l.Of(p) <==> At(m, k).Has(p) {
      assert Extends(NO_LISTS.Of(p), l.Of(p), m, p);
      assert l.Of(p)[|NO_LISTS.Of(p)|..] == l.Of(p);
    }
    assert l.Of(READ) == l.read && l.Of(WRITE) == l.write && l.Of(EXECUTE) == l.execute
        && l.Of(ADMINISTRATE) == l.admin;
  }

  /** Encoding a decoded document again gives lists with the same elements. */
  lemma ReEncoding(d: Doc, e: Doc, p: Permission)
    requires Encodes(e, ToPerms(d.Decoded()))
    ensures forall k :: k in e.users.Of(p) <==> k in d.users.Of(p)
    ensures forall k :: k in e.groups.Of(p) <==> k in d.groups.Of(p)
    ensures forall k :: k in e.roles.Of(p) <==> k in d.roles.Of(p)
  {
  }

  lemma ListedAt(l: Lists, k: string, p: Permission)
    ensures At(l.Decoded(), k).Has(p) <==> k in l.Of(p)
  {
  }

  lemma DecodedIsNormal(d: Doc)
    ensures d.Decoded().IsNormal()
  {
  }

  /** The document while it is built or read. The twelve list fields are grouped by kind. */
  class PermissionsEntry {
    var topicId: string
    var id: string
    var timestamp: int
    var synced: bool
    var users: Lists
    var groups: Lists
    var roles: Lists

    constructor (topicId: string, id: string, timestamp: int, synced: bool)
      ensures Document() == Doc(topicId, id, timestamp, synced, NO_LISTS, NO_LISTS, NO_LISTS)
    {
      this.topicId, this.id, this.timestamp, this.synced := topicId, id, timestamp, synced;
      users, groups, roles := NO_LISTS, NO_LISTS, NO_LISTS;
    }

    constructor Load(d: Doc)
      ensures Document() == d
    {
      topicId, id, timestamp, synced := d.topicId, d.id, d.timestamp, d.synced;
      users, groups, roles := d.users, d.groups, d.roles;
    }

    function Document(): Doc
      reads this
    {
      Doc(topicId, id, timestamp, synced, users, groups, roles)
    }

    /** Appends every principal to the list of each right it has. */
    method SetResourcePermissions(p: Perms)
      modifies `users, `groups, `roles
      ensures ExtendsAll(old(users), users, p.Plain().users)
      ensures ExtendsAll(old(groups), groups, p.Plain().groups)
      ensures ExtendsAll(old(roles), roles, p.Plain().roles)
    {
      groups := AppendPrincipals(groups, OrEmpty(p.groups));
      roles := AppendPrincipals(roles, OrEmpty(p.roles));
      users := AppendPrincipals(users, OrEmpty(p.users));
    }

    method ToResource() returns (r: Resource)
      ensures r == Document().Resource()
    {
      var u := GrantLists(users);
      var g := GrantLists(groups);
      var o := GrantLists(roles);
      r := Model.Resource(topicId, id, Perms(Some(u), Some(g), Some(o)));
    }
  }

  /** One of the encoder's three loops; the map is walked in arbitrary order. */
  method AppendPrincipals(lists: Lists, m: RightsMap) returns (r: Lists)
    ensures ExtendsAll(lists, r, m)
  {
    r := lists;
    var todo := m.Keys;
    ghost var done: RightsMap := map[];
    while todo != {}
      invariant todo <= m.Keys
      invariant done == map k | k in m && k !in todo :: m[k]
      invariant ExtendsAll(lists, r, done)
      decreases |todo|
    {
      var k :| k in todo;
      var rights := m[k];
      ghost var before := r;
      if rights.administrate { r := r.(admin := r.admin + [k]); }
      if rights.execute { r := r.(execute := r.execute + [k]); }
      if rights.write { r := r.(write := r.write + [k]); }
      if rights.read { r := r.(read := r.read + [k]); }
      forall p | Known(p) ensures Extends(lists.Of(p), r.Of(p), done[k := rights], p) {
        assert Extends(lists.Of(p), before.Of(p), done, p);
        assert r.Of(p) == if rights.Has(p) then before.Of(p) + [k] else before.Of(p);
        ExtendsStep(lists.Of(p), before.Of(p), r.Of(p), done, k, rights, p);
      }
      todo := todo - {k};
      done := done[k := rights];
    }
    assert done == m;
  }

  lemma ExtendsStep(start: seq<string>, before: seq<string>, after: seq<string>, done: RightsMap, k: string,
                    rights: Rights, p: Permission)
    requires Extends(start, before, done, p) && k !in done
    requires after == if rights.Has(p) then before + [k] else before
    ensures Extends(start, after, done[k := rights], p)
  {
    if rights.Has(p) {
      assert after[|start|..] == before[|start|..] + [k];
    }
  }

  /** Four of the decoder's twelve loops: those of one kind of principal. */
  method GrantLists(lists: Lists) returns (m: RightsMap)
    ensures m == lists.Decoded()
  {
    m := GrantEach(map[], lists.admin, ADMINISTRATE);
    m := GrantEach(m, lists.read, READ);
    m := GrantEach(m, lists.write, WRITE);
    m := GrantEach(m, lists.execute, EXECUTE);
    DecodedIs(lists, m);
  }

  lemma DecodedIs(lists: Lists, m: RightsMap)
    requires m.Keys == set k | k in lists.admin + lists.read + lists.write + lists.execute
    requires forall k :: At(m, k) == Rights(k in lists.read, k in lists.write, k in lists.execute, k in lists.admin)
    ensures m == lists.Decoded()
  {
  }

  method GrantEach(m: RightsMap, names: seq<string>, p: Permission) returns (r: RightsMap)
    ensures r.Keys == m.Keys + set k | k in names
    ensures forall k :: At(r, k) == if k in names then At(m, k).With(p) else At(m, k)
  {
    r := m;
    for i := 0 to |names|
      invariant r.Keys == m.Keys + set k | k in names[..i]
      invariant forall k :: At(r, k) == if k in names[..i] then At(m, k).With(p) else At(m, k)
    {
      assert names[..i + 1] == names[..i] + [names[i]];
      if names[i] !in r { r := r[names[i] := NO_RIGHTS]; }
      r := r[names[i] := r[names[i]].With(p)];
    }
    assert names[..|names|] == names;
  }

  predicate ContainsAny(list: seq<string>, any: seq<string>) {
    exists e | e in any :: e in list
  }

  /** The user, one of its groups or one of its roles stands in the list for p. */
  predicate Listed(d: Doc, t: Token, p: Permission) {
    || t.user in d.users.Of(p)
    || ContainsAny(d.groups.Of(p), t.groups)
    || ContainsAny(d.roles.Of(p), t.roles)
  }

  /** The database's check; runes without a meaning are passed over. */
  predicate CheckPermissions(t: Token, d: Doc, ps: seq<Permission>) {
    forall p | p in ps && Known(p) :: Listed(d, t, p)
  }

  /** The check on the lists is the check on the map they stand for. */
  lemma IndexMeansMap(t: Token, d: Doc, ps: seq<Permission>)
    ensures CheckPermissions(t, d, ps) == GrantsKnown(d.Decoded(), t, ps)
  {
    forall p | Known(p) ensures Listed(d, t, p) == Grants(d.Decoded(), t, p) {
      ListedAt(d.users, t.user, p);
      forall k
        ensures At(d.groups.Decoded(), k).Has(p) <==> k in d.groups.Of(p)
        ensures At(d.roles.Decoded(), k).Has(p) <==> k in d.roles.Of(p)
      {
        ListedAt(d.groups, k, p);
        ListedAt(d.roles, k, p);
      }
    }
  }

  /** The queried fields of a document: scalars and arrays. */
  datatype Field =
    | TopicIdField
    | IdField
    | UsersField(p: Permission)
    | GroupsField(p: Permission)
    | RolesField(p: Permission)

  datatype FieldValue = Scalar(s: string) | Array(a: seq<string>)

  function ValueOf(f: Field, d: Doc): FieldValue {
    match f
    case TopicIdField => Scalar(d.topicId)
    case IdField => Scalar(d.id)
    case UsersField(p) => Array(d.users.Of(p))
    case GroupsField(p) => Array(d.groups.Of(p))
    case RolesField(p) => Array(d.roles.Of(p))
  }

  /** The query operators in use: equality, $in, $and (also implicit), $or, and the two conditions
      on the synced flag and the timestamp. */
  datatype Filter =
    | Is(field: Field, value: string)
    | In(field: Field, values: seq<string>)
    | AllOf(parts: seq<Filter>)
    | AnyOf(parts: seq<Filter>)
    | Synced(flag: bool)
    | Before(time: int)

  /** Equality with an array field means membership, $in means a common element. */
  predicate Accepts(f: Filter, d: Doc) {
    match f
    case Is(field, v) => (match ValueOf(field, d) case Scalar(s) => s == v case Array(a) => v in a)
    case In(field, vs) => (match ValueOf(field, d) case Scalar(s) => s in vs case Array(a) => ContainsAny(a, vs))
    case AllOf(parts) => forall q | q in parts :: Accepts(q, d)
    case AnyOf(parts) => exists q | q in parts :: Accepts(q, d)
    case Synced(flag) => d.synced == flag
    case Before(time) => d.timestamp < time
  }

  /** The server refuses $and and $or with an empty array. */
  predicate WellFormed(f: Filter) {
    match f
    case AllOf(parts) => parts != [] && forall q | q in parts :: WellFormed(q)
    case AnyOf(parts) => parts != [] && forall q | q in parts :: WellFormed(q)
    case _ => true
  }

  function HolderFilter(t: Token, p: Permission): Filter {
    AnyOf([Is(UsersField(p), t.user), In(GroupsField(p), t.groups), In(RolesField(p), t.roles)])
  }

  lemma HolderFilterAccepts(t: Token, p: Permission, d: Doc)
    ensures Accepts(HolderFilter(t, p), d) == Listed(d, t, p)
    ensures WellFormed(HolderFilter(t, p))
  {
    var qs := HolderFilter(t, p).parts;
    assert Accepts(qs[0], d) == (t.user in d.users.Of(p));
    assert Accepts(qs[1], d) == ContainsAny(d.groups.Of(p), t.groups);
    assert Accepts(qs[2], d) == ContainsAny(d.roles.Of(p), t.roles);
    assert qs[0] in qs && qs[1] in qs && qs[2] in qs;
    assert forall q | q in qs :: q == qs[0] || q == qs[1] || q == qs[2];
    assert WellFormed(qs[0]) && WellFormed(qs[1]) && WellFormed(qs[2]);
  }

  /** Compiles a permission list into a query. The query selects by exactly the check that
      CheckPermissions makes; the server accepts it unless the list is empty. */
  method CompileQuery(topicId: string, t: Token, ps: seq<Permission>) returns (r: Option<Filter>)
    ensures r.Some? <==> AllKnown(ps)
    ensures r.Some? ==> (WellFormed(r.value) <==> ps != [])
    ensures r.Some? ==> forall d :: Accepts(r.value, d) <==> d.topicId == topicId && CheckPermissions(t, d, ps)
  {
    var parts: seq<Filter> := [];
    for i := 0 to |ps|
      invariant |parts| == i
      invariant forall j | 0 <= j < i :: Known(ps[j]) && parts[j] == HolderFilter(t, ps[j])
    {
      if !Known(ps[i]) {
        return None;
      }
      parts := parts + [HolderFilter(t, ps[i])];
    }
    r := Some(AllOf([Is(TopicIdField, topicId), AllOf(parts)]));
    CompiledMeaning(topicId, t, ps, parts);
  }

  lemma CompiledMeaning(topicId: string, t: Token, ps: seq<Permission>, parts: seq<Filter>)
    requires |parts| == |ps| && forall j | 0 <= j < |ps| :: Known(ps[j]) && parts[j] == HolderFilter(t, ps[j])
    ensures WellFormed(AllOf([Is(TopicIdField, topicId), AllOf(parts)])) <==> ps != []
    ensures forall d :: Accepts(AllOf([Is(TopicIdField, topicId), AllOf(parts)]), d) <==>
              d.topicId == topicId && CheckPermissions(t, d, ps)
  {
    var both := [Is(TopicIdField, topicId), AllOf(parts)];
    assert both[0] in both && both[1] in both && forall q | q in both :: q == both[0] || q == both[1];
    forall q | q in parts ensures WellFormed(q) {
      var j :| 0 <= j < |ps| && parts[j] == q;
      HolderFilterAccepts(t, ps[j], Doc("", "", 0, false, NO_LISTS, NO_LISTS, NO_LISTS));
    }
    assert WellFormed(both[0]) && (WellFormed(both[1]) <==> parts != []);
    forall d ensures Accepts(AllOf(both), d) <==> d.topicId == topicId && CheckPermissions(t, d, ps) {
      assert Accepts(both[0], d) == (d.topicId == topicId);
      forall j | 0 <= j < |ps| ensures Accepts(parts[j], d) == Listed(d, t, ps[j]) && parts[j] in parts && ps[j] in ps {
        HolderFilterAccepts(t, ps[j], d);
      }
      if CheckPermissions(t, d, ps) {
        forall q | q in parts ensures Accepts(q, d) { var j :| 0 <= j < |ps| && parts[j] == q; }
      } else {
        var p :| p in ps && Known(p) && !Listed(d, t, p);
        var j :| 0 <= j < |ps| && ps[j] == p;
        assert !Accepts(parts[j], d);
      }
      assert Accepts(both[1], d) == CheckPermissions(t, d, ps);
    }
  }
}
