/** The list store (pkg/database/mock): the permission sets themselves, in two slices. */
module MockStore {
  import opened Model
  import opened Order
  import opened Collections
  import opened Store

  datatype Timed = Timed(resource: Resource, time: int)

  function TimedKey(x: Timed): Key {
    KeyOf(x.resource)
  }

  function TimedPerms(x: Timed): Perms {
    x.resource.perms
  }

  /** Every permission of the list is granted; an unknown rune never is. */
  predicate CheckPerms(p: Perms, t: Token, ps: seq<Permission>) {
    forall q | q in ps :: Grants(p.Plain(), t, q)
  }

  datatype MockDb = MockDb(topics: map<string, Topic>, perms: map<Key, Perms>)

  /** The ids held under a topic, those asked for if ids are given. */
  ghost function HeldIds(perms: map<Key, Perms>, topicId: string, ids: Option<seq<string>>): set<string> {
    set k | k in perms && k.topicId == topicId && Chosen(ids, k.id) :: k.id
  }

  /** The resources are the held ones, with the rights they were stored with. */
  ghost predicate AreHeld(perms: map<Key, Perms>, topicId: string, rs: seq<Resource>) {
    forall r | r in rs :: r.topicId == topicId && KeyOf(r) in perms && perms[KeyOf(r)] == r.perms
  }

  ghost function PermittedIds(perms: map<Key, Perms>, topicId: string, t: Token, ps: seq<Permission>): set<string> {
    set k | k in perms && k.topicId == topicId && CheckPerms(perms[k], t, ps) :: k.id
  }

  /** Collecting resources of one topic, sorting them by id: their ids ascend. */
  lemma SortedResources(found: seq<Resource>, topicId: string, names: set<string>)
    requires Unique(found, KeyOf) && forall r | r in found :: r.topicId == topicId
    requires forall r | r in found :: r.id in names
    requires forall n | n in names :: exists r | r in found :: r.id == n
    ensures Ids(Sort(found, IdOrder(ResourceId)), ResourceId) == Sorted(names)
  {
    forall i, j | 0 <= i < j < |found| ensures ResourceId(found[i]) != ResourceId(found[j]) {
      assert KeyOf(found[i]) != KeyOf(found[j]);
      assert found[i] in found && found[j] in found;
    }
    forall n | n in names ensures exists r | r in found :: ResourceId(r) == n {
      var r :| r in found && r.id == n;
      assert ResourceId(r) == n;
    }
    SortedIds(found, ResourceId, names);
  }

  /** The loop of SetResource and of SetTopic: replaces the value with the same key, or appends. */
  method ReplaceOrAppend<T, K(==)>(s: seq<T>, x: T, key: T -> K) returns (r: seq<T>)
    ensures r == Upsert(s, x, key)
  {
    for i := 0 to |s|
      invariant forall j | 0 <= j < i :: key(s[j]) != key(x)
    {
      if key(s[i]) == key(x) {
        UpsertAt(s, x, key, i);
        return s[i := x];
      }
    }
    UpsertNew(s, x, key);
    r := s + [x];
  }

  class Mock {
    var resources: seq<Timed>
    var topics: seq<Topic>

    ghost predicate Valid()
      reads this
    {
      Unique(resources, TimedKey) && Unique(topics, TopicKey)
    }

    ghost function Db(): MockDb
      reads this
      requires Valid()
    {
      MockDb(Image(topics, TopicKey, Self), Image(resources, TimedKey, TimedPerms))
    }

    constructor ()
      ensures Valid() && Db() == MockDb(map[], map[])
    {
      resources, topics := [], [];
    }

    method SetResource(r: Resource, now: int, synced: bool)
      requires Valid()
      modifies `resources
      ensures Valid()
      ensures Db() == old(Db()).(perms := old(Db()).perms[KeyOf(r) := r.perms])
    {
      UpsertImage(resources, Timed(r, now), TimedKey, TimedPerms);
      resources := ReplaceOrAppend(resources, Timed(r, now), TimedKey);
    }

    method DeleteResource(topicId: string, id: string)
      requires Valid()
      modifies `resources
      ensures Valid()
      ensures Db() == old(Db()).(perms := old(Db()).perms - {Key(topicId, id)})
    {
      var other := (x: Timed) => !(x.resource.id == id && x.resource.topicId == topicId);
      KeepImage(resources, other, TimedKey, TimedPerms, {Key(topicId, id)});
      resources := Keep(resources, other);
    }

    method ListResourcesByPermissions(topicId: string, t: Token, options: ListOptions, ps: seq<Permission>)
      returns (rs: seq<Resource>)
      requires Valid()
      ensures Ids(rs, ResourceId) ==
                Page(Sorted(PermittedIds(Db().perms, topicId, t, ps)), options.limit, options.offset)
      ensures AreHeld(Db().perms, topicId, rs)
    {
      rs := ListBy(topicId, (r: Resource) => CheckPerms(r.perms, t, ps), options,
          PermittedIds(Db().perms, topicId, t, ps));
    }

    method AdminListResources(topicId: string, options: ListOptions) returns (rs: seq<Resource>)
      requires Valid()
      ensures Ids(rs, ResourceId) ==
                Page(Sorted(HeldIds(Db().perms, topicId, options.ids)), options.limit, options.offset)
      ensures AreHeld(Db().perms, topicId, rs)
    {
      rs := ListBy(topicId, (r: Resource) => Chosen(options.ids, r.id), options,
          HeldIds(Db().perms, topicId, options.ids));
    }

    /** The part the listings share: collect, sort by id, cut out the page. */
    method ListBy(topicId: string, keep: Resource -> bool, options: ListOptions, ghost names: set<string>)
      returns (rs: seq<Resource>)
      requires Valid()
      requires names ==
               set k | k in Db().perms && k.topicId == topicId && keep(Resource(topicId, k.id, Db().perms[k])) :: k.id
      ensures Ids(rs, ResourceId) == Page(Sorted(names), options.limit, options.offset)
      ensures AreHeld(Db().perms, topicId, rs)
    {
      var found: seq<Resource> := [];
      for i := 0 to |resources|
        invariant forall r | r in found :: exists j | 0 <= j < i ::
                    resources[j].resource == r && r.topicId == topicId && keep(r)
        invariant forall j | 0 <= j < i && resources[j].resource.topicId == topicId && keep(resources[j].resource) ::
                    resources[j].resource in found
        invariant Unique(found, KeyOf)
      {
        var r := resources[i].resource;
        if r.topicId == topicId && keep(r) {
          forall y | y in found ensures KeyOf(y) != KeyOf(r) {
            var j :| 0 <= j < i && resources[j].resource == y;
            assert TimedKey(resources[j]) != TimedKey(resources[i]);
          }
          assert forall j | 0 <= j < |found| :: found[j] in found;
          found := found + [r];
        }
      }
      CollectedIds(resources, found, topicId, keep, names);
      CollectedHeld(resources, found, topicId);
      SortCorrect(found, IdOrder(ResourceId));
      PageOfIds(Sort(found, IdOrder(ResourceId)), ResourceId, options.limit, options.offset);
      rs := Page(Sort(found, IdOrder(ResourceId)), options.limit, options.offset);
      PageMembers(Sort(found, IdOrder(ResourceId)), options.limit, options.offset);
    }

    method ListResourceIdsByPermissions(topicId: string, t: Token, options: ListOptions, ps: seq<Permission>)
      returns (ids: seq<string>)
      requires Valid()
      ensures ids == Page(Sorted(PermittedIds(Db().perms, topicId, t, ps)), options.limit, options.offset)
    {
      var rs := ListResourcesByPermissions(topicId, t, options, ps);
      ids := CollectIds(rs);
    }

    /** The option `ids` is ignored here. */
    method AdminListResourceIds(topicId: string, options: ListOptions) returns (ids: seq<string>)
      requires Valid()
      ensures ids == Page(Sorted(HeldIds(Db().perms, topicId, None)), options.limit, options.offset)
    {
      hide HeldIds, Sorted, Page;
      var found: seq<string> := [];
      for i := 0 to |resources|
        invariant forall id :: id in found <==>
                    exists j | 0 <= j < i :: resources[j].resource.topicId == topicId && resources[j].resource.id == id
        invariant Unique(found, Self)
      {
        var r := resources[i].resource;
        if r.topicId == topicId {
          assert r.id !in found by {
            assert forall j | 0 <= j < i :: TimedKey(resources[j]) != TimedKey(resources[i]);
          }
          assert forall j | 0 <= j < |found| :: found[j] in found;
          found := found + [r.id];
        }
      }
      HeldIffListed(resources, topicId, found);
      SortedIds(found, Self, HeldIds(Db().perms, topicId, None));
      assert Ids(Sort(found, IdOrder(Self)), Self) == Sort(found, IdOrder(Self));
      ids := Page(Sort(found, IdOrder(Self)), options.limit, options.offset);
    }

    method GetResource(topicId: string, id: string, check: Option<(Token, seq<Permission>)>) returns (r: Found)
      requires Valid()
      ensures Key(topicId, id) !in Db().perms ==> r == NotFound
      ensures Key(topicId, id) in Db().perms ==>
                var perms := Db().perms[Key(topicId, id)];
                r == if check.Some? && !CheckPerms(perms, check.value.0, check.value.1) then CheckFailed
                     else Found(Resource(topicId, id, perms))
    {
      ImageMembers(resources, TimedKey, TimedPerms);
      for i := 0 to |resources|
        invariant forall j | 0 <= j < i :: TimedKey(resources[j]) != Key(topicId, id)
      {
        var x := resources[i];
        assert x in resources;
        if x.resource.topicId == topicId && x.resource.id == id {
          assert TimedKey(x) == Key(topicId, id);
          if check.Some? && !CheckPerms(x.resource.perms, check.value.0, check.value.1) {
            return CheckFailed;
          }
          return Found(x.resource);
        }
      }
      r := NotFound;
    }

    method CheckMultipleResourcePermissions(topicId: string, ids: seq<string>, t: Token, ps: seq<Permission>)
      returns (r: map<string, bool>)
      requires Valid()
      ensures forall id :: id in r <==> id in ids && Key(topicId, id) in Db().perms
      ensures forall id | id in r :: r[id] == CheckPerms(Db().perms[Key(topicId, id)], t, ps)
    {
      r := map[];
      for i := 0 to |ids|
        invariant forall id :: id in r <==> id in ids[..i] && Key(topicId, id) in Db().perms
        invariant forall id | id in r :: r[id] == CheckPerms(Db().perms[Key(topicId, id)], t, ps)
      {
        assert ids[..i + 1] == ids[..i] + [ids[i]];
        var found := GetResource(topicId, ids[i], Some((t, ps)));
        match found
        case CheckFailed => r := r[ids[i] := false];
        case NotFound =>
        case Found(_) => r := r[ids[i] := true];
      }
      assert ids[..|ids|] == ids;
    }

    method CheckResourcePermissions(topicId: string, id: string, t: Token, ps: seq<Permission>) returns (access: bool)
      requires Valid()
      ensures access <==> Key(topicId, id) in Db().perms && CheckPerms(Db().perms[Key(topicId, id)], t, ps)
    {
      var found := GetResource(topicId, id, Some((t, ps)));
      access := found.Found?;
    }

    method SetTopic(topic: Topic)
      requires Valid()
      modifies `topics
      ensures Valid()
      ensures Db() == old(Db()).(topics := old(Db()).topics[topic.id := topic])
    {
      UpsertImage(topics, topic, TopicKey, Self);
      topics := ReplaceOrAppend(topics, topic, TopicKey);
    }

    method GetTopic(id: string) returns (r: Option<Topic>)
      requires Valid()
      ensures r == if id in Db().topics then Some(Db().topics[id]) else None
    {
      ImageMembers(topics, TopicKey, Self);
      for i := 0 to |topics|
        invariant forall j | 0 <= j < i :: TopicKey(topics[j]) != id
      {
        if topics[i].id == id {
          assert topics[i] in topics && TopicKey(topics[i]) == id;
          return Some(topics[i]);
        }
      }
      r := None;
    }

    method DeleteTopic(id: string)
      requires Valid()
      modifies this
      ensures Valid()
      ensures Db() == MockDb(old(Db()).topics - {id},
                             map k | k in old(Db()).perms && k.topicId != id :: old(Db()).perms[k])
    {
      var otherTopic := (t: Topic) => t.id != id;
      KeepImage(topics, otherTopic, TopicKey, Self, {id});
      topics := Keep(topics, otherTopic);
      TopicRemoved(resources, id);
      resources := OutsideTopic(resources, id);
    }
  }

  function OutsideTopic(resources: seq<Timed>, topicId: string): seq<Timed> {
    Keep(resources, (x: Timed) => x.resource.topicId != topicId)
  }

  lemma TopicRemoved(resources: seq<Timed>, topicId: string)
    requires Unique(resources, TimedKey)
    ensures Unique(OutsideTopic(resources, topicId), TimedKey)
    ensures var perms := Image(resources, TimedKey, TimedPerms);
            Image(OutsideTopic(resources, topicId), TimedKey, TimedPerms) ==
            map k | k in perms && k.topicId != topicId :: perms[k]
  {
    var perms := Image(resources, TimedKey, TimedPerms);
    var keys := set k | k in perms && k.topicId == topicId;
    ImageMembers(resources, TimedKey, TimedPerms);
    var other := (x: Timed) => x.resource.topicId != topicId;
    forall x | x in resources ensures other(x) <==> TimedKey(x) !in keys { assert TimedKey(x) in perms; }
    KeepImage(resources, other, TimedKey, TimedPerms, keys);
    WithoutTopicKeys(perms, topicId);
  }

  lemma WithoutTopicKeys(perms: map<Key, Perms>, topicId: string)
    ensures perms - (set k | k in perms && k.topicId == topicId) ==
            map k | k in perms && k.topicId != topicId :: perms[k]
  {
  }

  lemma HeldIffListed(resources: seq<Timed>, topicId: string, found: seq<string>)
    requires Unique(resources, TimedKey)
    requires forall id :: id in found <==>
               exists j | 0 <= j < |resources| ::
                 resources[j].resource.topicId == topicId && resources[j].resource.id == id
    ensures forall x | x in found :: Self(x) in HeldIds(Image(resources, TimedKey, TimedPerms), topicId, None)
    ensures forall n | n in HeldIds(Image(resources, TimedKey, TimedPerms), topicId, None) ::
              exists x | x in found :: Self(x) == n
  {
    var perms := Image(resources, TimedKey, TimedPerms);
    ImageMembers(resources, TimedKey, TimedPerms);
    forall x | x in found ensures Self(x) in HeldIds(perms, topicId, None) {
      var j :| 0 <= j < |resources| && resources[j].resource.topicId == topicId && resources[j].resource.id == x;
      assert TimedKey(resources[j]) in perms;
    }
    forall n | n in HeldIds(perms, topicId, None) ensures exists x | x in found :: Self(x) == n {
      var k :| k in perms && k.topicId == topicId && k.id == n;
      var j :| 0 <= j < |resources| && TimedKey(resources[j]) == k;
      assert Self(n) == n;
    }
  }

  lemma CollectedHeld(resources: seq<Timed>, found: seq<Resource>, topicId: string)
    requires Unique(resources, TimedKey)
    requires forall r | r in found :: exists j | 0 <= j < |resources| ::
               resources[j].resource == r && r.topicId == topicId
    ensures AreHeld(Image(resources, TimedKey, TimedPerms), topicId, found)
  {
  }

  /** The resources a loop collected, once sorted, have the ids the predicate selects. */
  lemma CollectedIds(resources: seq<Timed>, found: seq<Resource>, topicId: string, keep: Resource -> bool,
                     names: set<string>)
    requires Unique(resources, TimedKey) && Unique(found, KeyOf)
    requires forall r | r in found :: exists j | 0 <= j < |resources| ::
               resources[j].resource == r && r.topicId == topicId && keep(r)
    requires forall j | 0 <= j < |resources| && resources[j].resource.topicId == topicId
               && keep(resources[j].resource) :: resources[j].resource in found
    requires var perms := Image(resources, TimedKey, TimedPerms);
             names == set k | k in perms && k.topicId == topicId && keep(Resource(topicId, k.id, perms[k])) :: k.id
    ensures Ids(Sort(found, IdOrder(ResourceId)), ResourceId) == Sorted(names)
  {
    var perms := Image(resources, TimedKey, TimedPerms);
    ImageMembers(resources, TimedKey, TimedPerms);
    forall r | r in found ensures r.topicId == topicId && r.id in names {
      var j :| 0 <= j < |resources| && resources[j].resource == r;
      assert resources[j] in resources;
      var k := TimedKey(resources[j]);
      assert k in perms && perms[k] == r.perms && r == Resource(topicId, k.id, perms[k]);
    }
    forall n | n in names ensures exists r | r in found :: r.id == n {
      var k :| k in perms && k.topicId == topicId && keep(Resource(topicId, k.id, perms[k])) && k.id == n;
      var j :| 0 <= j < |resources| && TimedKey(resources[j]) == k;
      assert resources[j] in resources && resources[j].resource == Resource(topicId, k.id, perms[k]);
    }
    SortedResources(found, topicId, names);
  }
}
