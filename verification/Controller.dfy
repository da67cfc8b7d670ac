/** The controller (pkg/controller): its methods call the database and the broker step by step.
    Faults of single operations, the clock, the user management's answer and the remote side of
    a bulk load are parameters. */
module Controller {
  import opened Model
  import opened Order
  import opened Collections
  import opened Store
  import opened Effects
  import opened Rules
  import opened MongoStore

  class Broker {
    var log: seq<Message>

    constructor ()
      ensures log == []
    {
      log := [];
    }

    method SendPermissions(topic: Topic, id: string, p: Perms, f: Fault) returns (ok: bool)
      modifies this
      ensures log == if f == Lost then old(log) else old(log) + [Message(topic.kafka, id, p.Plain())]
      ensures ok == (f == Done)
    {
      if f != Lost {
        log := log + [Message(topic.kafka, id, p.Plain())];
      }
      ok := f == Done;
    }
  }

  datatype ComputedPermissions = ComputedPermissions(id: string, rights: Rights)

  method ComputePermissionsMap(t: Token, acl: Acl, defaults: Acl) returns (r: Rights)
    ensures forall p :: r.Has(p) == EitherGrants(t, acl, defaults, p)
  {
    r := At(acl.users, t.user).Or(At(defaults.users, t.user));
    r := OrEach(r, t.roles, acl.roles, defaults.roles);
    r := OrEach(r, t.groups, acl.groups, defaults.groups);
  }

  /** One of the two loops: adds what these principals have, by default or on the resource. */
  method OrEach(rights: Rights, names: seq<string>, m: RightsMap, defaults: RightsMap) returns (r: Rights)
    ensures forall p :: r.Has(p) == (rights.Has(p) || AnyHas(names, m, p) || AnyHas(names, defaults, p))
  {
    r := rights;
    for i := 0 to |names|
      invariant forall p :: r.Has(p) == (rights.Has(p) || AnyHas(names[..i], m, p) || AnyHas(names[..i], defaults, p))
    {
      assert names[..i + 1] == names[..i] + [names[i]];
      AnyHasMore(names[..i], names[i], m);
      AnyHasMore(names[..i], names[i], defaults);
      r := r.Or(At(defaults, names[i])).Or(At(m, names[i]));
    }
    assert names[..|names|] == names;
  }

  /** The loop over the list; runes without a meaning are passed over. */
  method CheckTopicDefault(t: Token, topic: Topic, ps: seq<Permission>) returns (access: bool)
    ensures access == DefaultGrants(t, topic, ps)
  {
    if t.admin {
      return true;
    }
    for i := 0 to |ps|
      invariant forall j | 0 <= j < i && Known(ps[j]) :: Grants(topic.defaults.Plain(), t, ps[j])
    {
      if Known(ps[i]) && !Grants(topic.defaults.Plain(), t, ps[i]) {
        return false;
      }
    }
    access := true;
  }

  class Controller {
    const config: Config
    const db: Database
    const broker: Broker

    ghost predicate Valid()
      reads this, db
    {
      db.Valid()
    }

    ghost function State(): World
      reads this, db, broker
      requires Valid()
    {
      World(db.Db(), broker.log)
    }

    constructor (config: Config)
      ensures Valid() && State() == EMPTY && this.config == config
      ensures fresh(db) && fresh(broker)
    {
      this.config := config;
      db := new Database();
      broker := new Broker();
    }

    // Decisions

    method CheckTopicDefaultPermission(t: Token, topicId: string, ps: seq<Permission>) returns (r: Result<bool>)
      requires Valid()
      ensures r == DefaultAccess(db.Db(), t, topicId, ps)
    {
      if t.admin {
        return Ok(true);
      }
      var topic := db.GetTopic(topicId);
      if topic.None? {
        return Err(NOT_FOUND);
      }
      var access := CheckTopicDefault(t, topic.value, ps);
      r := Ok(access);
    }

    method CheckPermission(t: Token, topicId: string, id: string, ps: seq<Permission>) returns (access: bool)
      requires Valid()
      ensures access == Check(db.Db(), t, topicId, id, ps)
    {
      var default := CheckTopicDefaultPermission(t, topicId, ps);
      if default.Err? {
        return false;
      }
      if default.value {
        return true;
      }
      access := db.CheckResourcePermissions(topicId, PureId(id), t, ps);
    }

    method GetResource(t: Token, topicId: string, id: string) returns (r: Result<Resource>)
      requires Valid()
      ensures r == Read(db.Db(), t, topicId, id)
    {
      var pure := PureId(id);
      var default := CheckTopicDefaultPermission(t, topicId, [ADMINISTRATE]);
      if default.Err? {
        return Err(default.code);
      }
      var found := db.GetResource(topicId, pure, if default.value then None else Some((t, [ADMINISTRATE])));
      match found
      case CheckFailed => r := Err(FORBIDDEN);
      case NotFound => r := Err(NOT_FOUND);
      case Found(resource) => r := Ok(resource.(id := id));
    }

    /** Pointwise the single check, on exactly the requested ids whose pure id is stored. */
    method CheckMultiplePermissions(t: Token, topicId: string, ids: seq<string>, ps: seq<Permission>)
      returns (r: Result<map<string, bool>>)
      requires Valid()
      ensures r.Ok? <==> t.admin || topicId in db.Db().topics
      ensures r.Err? ==> r.code == NOT_FOUND
      ensures r.Ok? ==> forall id :: id in r.value <==> id in ids && Key(topicId, PureId(id)) in db.Db().entries
      ensures r.Ok? ==> forall id | id in r.value :: r.value[id] == Check(db.Db(), t, topicId, id, ps)
    {
      var pureIds, idsOf := GroupByPureId(ids);
      var default := CheckTopicDefaultPermission(t, topicId, ps);
      if default.Err? {
        return Err(default.code);
      }
      var pureAccess := db.CheckMultipleResourcePermissions(topicId, pureIds, t, if default.value then [] else ps);
      var access := SpreadAccess(pureAccess, idsOf);
      r := Ok(access);
    }

    /** The stored ids the token may use, ascending, one page of them. */
    method ListAccessibleResourceIds(t: Token, topicId: string, options: ListOptions, ps: seq<Permission>)
      returns (r: Result<seq<string>>)
      requires Valid()
      ensures r == Listing(db.Db(), t, topicId, options, ps)
    {
      var default := CheckTopicDefaultPermission(t, topicId, ps);
      if default.Err? {
        return Err(default.code);
      }
      if default.value {
        var ids := db.AdminListResourceIds(topicId, options);
        return Ok(ids);
      }
      var found := db.ListResourceIdsByPermissions(topicId, t, options, ps);
      r := if found.None? then Err(SERVER_ERROR) else Ok(found.value);
    }

    /** First the stored ones among the ids, ascending, with their rights; then every id that is not
        stored, as often and in the order it was asked for, without rights. `at` are the places of
        the latter among the ids. */
    method ListComputedPermissions(t: Token, topicId: string, ids: seq<string>)
      returns (r: Result<seq<ComputedPermissions>>, ghost at: seq<nat>)
      requires Valid()
      ensures r.Ok? <==> topicId in db.Db().topics
      ensures r.Err? ==> r.code == 404
      ensures r.Ok? ==> |at| <= |r.value| && StoredOnes(db.Db(), t, topicId, ids, r.value[..|r.value| - |at|])
      ensures r.Ok? ==> OtherOnes(db.Db(), topicId, ids, r.value[|r.value| - |at|..], at)
      ensures r.Ok? ==> forall c | c in r.value[|r.value| - |at|..] ::
                c.rights == Rights(false, false, false, false) && c.id in ids && Key(topicId, c.id) !in db.Db().entries
    {
      assert db.Valid() && db.Acls() == db.Db().Acls();
      hide *;
      var topic := db.GetTopic(topicId);
      if topic.None? {
        return Err(404), [];
      }
      var resources := db.AdminListResources(topicId, ListOptions(0, 0, Some(ids)));
      var granted, done := ComputeEach(t, resources, topic.value.defaults.Plain());
      var denied;
      denied, at := DenyOthers(ids, done);
      StoredOnesHold(db.Db(), t, topicId, ids, resources, granted);
      OtherOnesHold(db.Db(), topicId, ids, resources, done, denied, at);
      r := Ok(granted + denied);
      assert r.value[..|granted|] == granted && r.value[|granted|..] == denied;
    }

    // Changes

    method PublishPermission(topic: Topic, id: string, p: Perms, f: Fault) returns (ok: bool)
      modifies broker
      ensures broker.log ==
              if topic.Publishes() && f != Lost then old(broker.log) + [Message(topic.kafka, id, p.Plain())]
              else old(broker.log)
      ensures ok == (topic.Publishes() ==> f == Done)
    {
      if topic.kafka == "" || topic.kafka == "-" {
        return true;
      }
      ok := broker.SendPermissions(topic, id, p, f);
    }

    method Write(topic: Topic, r: Resource, now: int, f: WriteFaults) returns (ok: bool)
      requires Valid()
      modifies db, broker
      ensures Valid() && (State(), ok) == Effects.Write(old(State()), topic, r, now, f)
    {
      var publish := topic.kafka != "" && topic.kafka != "-";
      if f.write != Lost {
        db.SetResource(r, now, !publish);
      }
      if f.write != Done {
        return false;
      }
      ok := true;
      if publish {
        var sent := PublishPermission(topic, r.id, r.perms, f.publish);
        if !sent {
          return true;
        }
        if f.mark != Lost {
          db.MarkResourceAsSynced(topic.id, r.id);
        }
        ok := f.mark == Done;
      }
    }

    method CheckEditPermission(t: Token, k: Key, p: Perms, sameGroup: Option<set<string>>) returns (r: Result<Perms>)
      requires Valid()
      ensures r == CheckEdit(config, db.Db(), t, k, p, sameGroup)
    {
      if t.admin {
        return Ok(p);
      }
      var found := db.GetResource(k.topicId, k.id, None);
      var current := if found.Found? then found.resource.perms else Perms(None, None, None);
      assert current == Current(db.Db(), k);
      r := EditAgainst(config, t, current, p, sameGroup);
    }

    method SetPermission(t: Token, topicId: string, id: string, p: Perms, sameGroup: Option<set<string>>, now: int,
                         f: WriteFaults)
      returns (r: Result<Perms>)
      requires Valid()
      modifies db, broker
      ensures Valid() && (State(), r) == Rules.SetPermission(config, old(State()), t, topicId, id, p, sameGroup, now, f)
    {
      hide Effects.Write, CheckEdit;
      var topic := db.GetTopic(topicId);
      if topic.None? {
        return Err(NOT_FOUND);
      }
      var access := CheckTopicDefault(t, topic.value, [ADMINISTRATE]);
      var pure := PureId(id);
      if !access {
        access := db.CheckResourcePermissions(topicId, pure, t, [ADMINISTRATE]);
        if !access {
          return Err(FORBIDDEN);
        }
      }
      if !p.Valid() {
        return Err(BAD_REQUEST);
      }
      var edited := CheckEditPermission(t, Key(topic.value.id, id), p, sameGroup);
      if edited.Err? {
        return Err(edited.code);
      }
      assert DecideEdit(config, db.Db(), t, topicId, id, p, sameGroup) == edited;
      var ok := Write(topic.value, Resource(topic.value.id, pure, edited.value), now, f);
      r := if ok then Ok(edited.value) else Err(SERVER_ERROR);
    }

    method RemoveResource(t: Token, topicId: string, id: string, f: Fault) returns (code: int)
      requires Valid()
      modifies db
      ensures Valid() && (State(), code) == Rules.RemoveResource(old(State()), t, topicId, id, f)
    {
      if !t.admin {
        return FORBIDDEN;
      }
      if f != Lost {
        db.DeleteResource(topicId, id);
      }
      code := if f == Done then OK else SERVER_ERROR;
    }

    method SetTopic(t: Token, topic: Topic, f: Fault) returns (r: Result<(Topic, int)>)
      requires Valid()
      modifies db
      ensures Valid() && (State(), r) == Rules.SetTopic(old(State()), t, topic, f)
    {
      if !t.admin {
        return Err(UNAUTHORIZED);
      }
      var named := topic;
      if named.id == "" {
        named := named.(id := named.kafka);
      }
      if named.Validate().Some? {
        return Err(BAD_REQUEST);
      }
      var current := db.GetTopic(named.id);
      if current.Some? && current.value.Equal(named) {
        return Ok((current.value, ACCEPTED));
      }
      if f != Lost {
        db.SetTopic(named);
      }
      r := if f == Done then Ok((named, OK)) else Err(SERVER_ERROR);
    }

    method RemoveTopic(t: Token, id: string, first: Fault, second: Fault) returns (code: int)
      requires Valid()
      modifies db
      ensures Valid() && (State(), code) == Rules.RemoveTopic(old(State()), t, id, first, second)
    {
      if !t.admin {
        return UNAUTHORIZED;
      }
      var ok := db.DeleteTopic(id, first, second);
      code := if ok then OK else SERVER_ERROR;
    }

    /** One retry pass; `listed` is what the database listed, nothing if the listing failed. */
    method RetryPublishOfUnsyncedResources(bound: int, listOk: bool, faults: nat -> RetryFaults)
      returns (ok: bool, ghost listed: seq<Resource>)
      requires Valid()
      modifies db, broker
      ensures Valid() && State() == RetryAll(old(State()), listed, faults)
      ensures ok == listOk && if listOk then ListsOverdue(old(db.Db()).entries, bound, listed) else listed == []
    {
      if !listOk {
        return false, [];
      }
      var list := db.ListUnsyncedResources(bound);
      listed := list;
      for i := 0 to |list|
        invariant Valid() && State() == RetryAll(old(State()), list[..i], faults)
      {
        assert list[..i + 1][..i] == list[..i];
        RetryOne(list[i], faults(i));
      }
      assert list[..|list|] == list;
      ok := true;
    }

    method RetryOne(e: Resource, f: RetryFaults)
      requires Valid()
      modifies db, broker
      ensures Valid() && State() == Retry(old(State()), e, f)
    {
      if !f.look {
        return;
      }
      var topic := db.GetTopic(e.topicId);
      if topic.None? {
        return;
      }
      var sent := PublishPermission(topic.value, e.id, e.perms, f.publish);
      if !sent {
        return;
      }
      if f.mark != Lost {
        db.MarkResourceAsSynced(topic.value.id, e.id);
      }
    }

    // Export and import

    method Export(t: Token, o: Options) returns (r: Result<ImportExport>)
      requires Valid()
      ensures !t.admin <==> r.Err?
      ensures r.Err? ==> r.code == FORBIDDEN
      ensures r.Ok? ==> r.value == Exported(db.Db(), o)
    {
      if !t.admin {
        return Err(FORBIDDEN);
      }
      var topics: seq<Topic> := [];
      var permissions: seq<Resource> := [];
      if o.topicConfig {
        topics := ListedTopics(o.topics);
      }
      if o.permissions {
        var topicIds: seq<string>;
        if o.topics.Some? {
          topicIds := o.topics.value;
        } else {
          var list := topics;
          if !o.topicConfig {
            list := ListedTopics(o.topics);
          }
          topicIds := Ids(list, TopicKey);
          db.StaysConsistent();
          AllTopicIds(db.Db(), list);
        }
        permissions := CollectResources(topicIds, o.ids);
      }
      db.StaysConsistent();
      SortedTopics(db.Db(), o.topics);
      assert Sort([], IdOrder(TopicKey)) == [] && Sort([], ByKey) == [];
      r := Ok(ImportExport(Sort(topics, IdOrder(TopicKey)), Sort(permissions, ByKey)));
    }

    method ListedTopics(ids: Option<seq<string>>) returns (r: seq<Topic>)
      requires Valid()
      ensures r == TopicsAt(db.Db().topics, Sorted(ChosenTopics(db.Db(), ids)))
    {
      r := db.ListTopics(ListOptions(0, 0, ids));
      TopicsListedAt(db.Db(), ids, r);
    }

    method CollectResources(topicIds: seq<string>, ids: Option<seq<string>>) returns (r: seq<Resource>)
      requires Valid()
      ensures r == AllResources(db.Db().Acls(), topicIds, ids)
    {
      r := [];
      ghost var acls := db.Db().Acls();
      for i := 0 to |topicIds|
        invariant r == AllResources(acls, topicIds[..i], ids)
      {
        assert topicIds[..i + 1][..i] == topicIds[..i];
        var list := db.AdminListResources(topicIds[i], ListOptions(0, 0, ids));
        ListedResources(acls, topicIds[i], ids, list);
        r := r + list;
      }
      assert topicIds[..|topicIds|] == topicIds;
    }

    method Import(t: Token, m: ImportExport, o: Options, faults: nat -> Fault, io: nat -> Io) returns (code: int)
      requires Valid()
      modifies db, broker
      ensures Valid() && (State(), code) == Rules.Import(old(State()), t, m, o, faults, io)
    {
      if !t.admin {
        return FORBIDDEN;
      }
      if o.topicConfig {
        var e := ImportTopicConfig(t, m.topics, o, faults);
        if e.Some? {
          return e.value;
        }
      }
      if o.permissions {
        var e := ImportPermissions(m.permissions, o, io);
        if e.Some? {
          return e.value;
        }
      }
      code := OK;
    }

    method ImportTopicConfig(t: Token, topics: seq<Topic>, o: Options, faults: nat -> Fault) returns (e: Option<int>)
      requires Valid()
      modifies db
      ensures Valid() && (State(), e) == ImportTopics(old(State()), t, topics, o, faults, 0)
    {
      for i := 0 to |topics|
        invariant Valid()
        invariant ImportTopics(old(State()), t, topics, o, faults, 0) == ImportTopics(State(), t, topics, o, faults, i)
      {
        if Chosen(o.topics, topics[i].id) {
          var r := SetTopic(t, topics[i], faults(i));
          if r.Err? {
            return Some(r.code);
          }
        }
      }
      e := None;
    }

    /** The topics that were read are cached; the cache always shows the stored topics. */
    method ImportPermissions(resources: seq<Resource>, o: Options, io: nat -> Io) returns (e: Option<int>)
      requires Valid()
      modifies db, broker
      ensures Valid() && (State(), e) == ImportResources(old(State()), resources, o, io, 0)
    {
      var cache: map<string, Topic> := map[];
      for i := 0 to |resources|
        invariant Valid()
        invariant ImportResources(old(State()), resources, o, io, 0) == ImportResources(State(), resources, o, io, i)
        invariant forall id | id in cache :: id in db.Db().topics && cache[id] == db.Db().topics[id]
      {
        if Imported(o, resources[i]) {
          if !resources[i].perms.Valid() {
            return Some(BAD_REQUEST);
          }
          var topic;
          cache, topic := CachedTopic(cache, resources[i].topicId);
          if topic.None? {
            return Some(BAD_REQUEST);
          }
          ghost var before := State();
          var ok := Write(topic.value, resources[i], io(i).now, io(i).faults);
          TopicsKept(before, topic.value, resources[i], io(i));
          if !ok {
            return Some(SERVER_ERROR);
          }
        }
      }
      e := None;
    }

    method CachedTopic(cache: map<string, Topic>, id: string) returns (r: map<string, Topic>, topic: Option<Topic>)
      requires Valid() && forall x | x in cache :: x in db.Db().topics && cache[x] == db.Db().topics[x]
      ensures forall x | x in r :: x in db.Db().topics && r[x] == db.Db().topics[x]
      ensures topic == if id in db.Db().topics then Some(db.Db().topics[id]) else None
    {
      r := cache;
      if id in r {
        return r, Some(r[id]);
      }
      topic := db.GetTopic(id);
      if topic.Some? {
        r := r[id := topic.value];
      }
    }

    // Bulk load

    /** Pages of 100 elements are fetched until one is not full; the elements are handled in order. */
    method AdminLoadFromPermissionSearch(topicId: string, remote: seq<LoadElement>, overwrite: bool, dryRun: bool,
                                         io: nat -> Io)
      returns (updateCount: nat, code: int)
      requires Valid()
      modifies db, broker
      ensures Valid() && (State(), updateCount, code) == Load(old(State()), topicId, remote, overwrite, dryRun, io)
    {
      updateCount := 0;
      var topic := db.GetTopic(topicId);
      if topic.None? || topic.value.kafka == "" {
        return 0, BAD_REQUEST;
      }
      var count, ok := LoadPages(topic.value, remote, overwrite, dryRun, io);
      return count, if ok then OK else SERVER_ERROR;
    }

    method LoadPages(topic: Topic, remote: seq<LoadElement>, overwrite: bool, dryRun: bool, io: nat -> Io)
      returns (count: nat, ok: bool)
      requires Valid()
      modifies db, broker
      ensures Valid()
      ensures (State(), count, ok) == LoadFirst(old(State()), topic, remote, overwrite, dryRun, io, |remote|)
    {
      hide LoadOne;
      count := 0;
      var limit, offset := 100, 0;
      while true
        invariant Valid() && 0 <= offset <= |remote|
        invariant (State(), count, true) == LoadFirst(old(State()), topic, remote, overwrite, dryRun, io, offset)
        decreases |remote| - offset
      {
        var page := Page(remote, limit, offset);
        PageSize(remote, limit, offset);
        count, ok := HandlePage(topic, page, old(State()), remote, offset, overwrite, dryRun, io, count);
        if !ok {
          return;
        }
        if |page| < limit {
          return;
        }
        offset := offset + limit;
      }
    }

    /** The elements of a page fetched from this offset, in order; stops at the first error. The load
        began in the world `start`. */
    method HandlePage(topic: Topic, page: seq<LoadElement>, ghost start: World, ghost remote: seq<LoadElement>,
                      offset: nat, overwrite: bool, dryRun: bool, io: nat -> Io, n: nat) returns (count: nat, ok: bool)
      requires Valid() && offset + |page| <= |remote| && forall i | 0 <= i < |page| :: page[i] == remote[offset + i]
      requires (State(), n, true) == LoadFirst(start, topic, remote, overwrite, dryRun, io, offset)
      modifies db, broker
      ensures Valid()
      ensures (State(), count, ok) ==
              LoadFirst(start, topic, remote, overwrite, dryRun, io, if ok then offset + |page| else |remote|)
    {
      hide LoadOne;
      count := n;
      for i := 0 to |page|
        invariant Valid()
        invariant (State(), count, true) == LoadFirst(start, topic, remote, overwrite, dryRun, io, offset + i)
      {
        var updated, done := HandleElement(topic, page[i], overwrite, dryRun, io(offset + i));
        if !done {
          assert (State(), count, false) == LoadFirst(start, topic, remote, overwrite, dryRun, io, offset + i + 1);
          LoadEnds(start, topic, remote, overwrite, dryRun, io, offset + i + 1, |remote|);
          return count, false;
        }
        if updated {
          count := count + 1;
        }
      }
      ok := true;
    }

    method HandleElement(topic: Topic, e: LoadElement, overwrite: bool, dryRun: bool, io: Io)
      returns (updated: bool, ok: bool)
      requires Valid()
      modifies db, broker
      ensures Valid()
      ensures (State(), updated, ok) == LoadOne(old(State()), topic, e, overwrite, dryRun, io)
    {
      var found := db.GetResource(topic.id, e.id, None);
      if found.Found? && !overwrite {
        return false, true;
      }
      var current := if found.Found? then found.resource.perms else Perms(None, None, None);
      assert current == Current(db.Db(), Key(topic.id, e.id));
      var users, groups, roles := OrEmpty(current.users), OrEmpty(current.groups), OrEmpty(current.roles);
      users := AddRights(users, e.users);
      roles := AddRights(roles, e.groups);
      if dryRun {
        return true, true;
      }
      ok := Write(topic, Resource(topic.id, e.id, Perms(Some(users), Some(groups), Some(roles))), io.now, io.faults);
      updated := true;
    }
  }

  lemma TopicsKept(w: World, topic: Topic, r: Resource, io: Io)
    ensures Effects.Write(w, topic, r, io.now, io.faults).0.db.topics == w.db.topics
  {
  }

  /** The pure ids, and for each of them the ids it was asked for under. */
  method GroupByPureId(ids: seq<string>) returns (pureIds: seq<string>, idsOf: map<string, seq<string>>)
    ensures forall pure :: pure in idsOf <==> pure in pureIds
    ensures forall id | id in ids :: PureId(id) in pureIds
    ensures forall pure, id | pure in idsOf :: id in idsOf[pure] <==> id in ids && PureId(id) == pure
  {
    pureIds, idsOf := [], map[];
    for i := 0 to |ids|
      invariant forall pure :: pure in idsOf <==> pure in pureIds
      invariant forall id | id in ids[..i] :: PureId(id) in pureIds
      invariant forall pure, id | pure in idsOf :: id in idsOf[pure] <==> id in ids[..i] && PureId(id) == pure
    {
      var pure := PureId(ids[i]);
      assert ids[..i + 1] == ids[..i] + [ids[i]];
      pureIds := pureIds + [pure];
      idsOf := idsOf[pure := (if pure in idsOf then idsOf[pure] else []) + [ids[i]]];
    }
    assert ids[..|ids|] == ids;
  }

  /** Copies the access of every pure id to the ids it was asked for under; walked in any order. */
  method SpreadAccess(pureAccess: map<string, bool>, idsOf: map<string, seq<string>>) returns (r: map<string, bool>)
    requires forall pure | pure in pureAccess :: pure in idsOf
    requires forall pure, id | pure in idsOf && id in idsOf[pure] :: PureId(id) == pure
    ensures forall id :: id in r <==> PureId(id) in pureAccess && id in idsOf[PureId(id)]
    ensures forall id | id in r :: r[id] == pureAccess[PureId(id)]
  {
    r := map[];
    var todo := pureAccess.Keys;
    while todo != {}
      invariant todo <= pureAccess.Keys
      invariant forall id :: id in r <==> PureId(id) in pureAccess && PureId(id) !in todo && id in idsOf[PureId(id)]
      invariant forall id | id in r :: r[id] == pureAccess[PureId(id)]
      decreases |todo|
    {
      var pure :| pure in todo;
      var ids := idsOf[pure];
      todo := todo - {pure};
      for i := 0 to |ids|
        invariant forall id :: id in r <==>
                    && PureId(id) in pureAccess && PureId(id) !in todo && id in idsOf[PureId(id)]
                    && (PureId(id) == pure ==> id in ids[..i])
        invariant forall id | id in r :: r[id] == pureAccess[PureId(id)]
      {
        assert ids[..i + 1] == ids[..i] + [ids[i]];
        assert PureId(ids[i]) == pure;
        r := r[ids[i] := pureAccess[pure]];
      }
      assert ids[..|ids|] == ids;
    }
  }

  method ComputeEach(t: Token, resources: seq<Resource>, defaults: Acl)
    returns (r: seq<ComputedPermissions>, done: set<string>)
    ensures |r| == |resources|
    ensures forall i | 0 <= i < |r| :: r[i].id == resources[i].id
    ensures forall i, p | 0 <= i < |r| && Known(p) ::
              r[i].rights.Has(p) == (t.admin || EitherGrants(t, resources[i].perms.Plain(), defaults, p))
    ensures forall id :: id in done <==> exists i | 0 <= i < |resources| :: resources[i].id == id
  {
    r, done := [], {};
    for i := 0 to |resources|
      invariant |r| == i
      invariant forall j | 0 <= j < i :: r[j].id == resources[j].id
      invariant forall j, p | 0 <= j < i && Known(p) ::
                  r[j].rights.Has(p) == (t.admin || EitherGrants(t, resources[j].perms.Plain(), defaults, p))
      invariant forall id :: id in done <==> exists j | 0 <= j < i :: resources[j].id == id
    {
      if t.admin {
        r := r + [ComputedPermissions(resources[i].id, ALL_RIGHTS)];
      } else {
        var rights := ComputePermissionsMap(t, resources[i].perms.Plain(), defaults);
        r := r + [ComputedPermissions(resources[i].id, rights)];
      }
      done := done + {resources[i].id};
    }
  }

  /** One answer for each of the stored ones among the ids, ascending, with the computed rights. */
  ghost predicate StoredOnes(db: Db, t: Token, topicId: string, ids: seq<string>, r: seq<ComputedPermissions>) {
    && topicId in db.topics
    && (forall c | c in r ::
          && c.id in ids && Key(topicId, c.id) in db.entries
          && forall p | p in "rwxa" :: c.rights.Has(p) == Computed(db, t, topicId, c.id, p))
    && (forall i, j | 0 <= i < j < |r| :: Less(r[i].id, r[j].id))
    && (forall id | id in ids && Key(topicId, id) in db.entries :: exists c | c in r :: c.id == id)
  }

  /** One answer without rights for each place of the ids at which one stands that is not stored, in order. */
  ghost predicate OtherOnes(db: Db, topicId: string, ids: seq<string>, r: seq<ComputedPermissions>, at: seq<nat>) {
    && |r| == |at|
    && (forall i, j | 0 <= i < j < |at| :: at[i] < at[j])
    && (forall i | 0 <= i < |ids| :: i in at <==> Key(topicId, ids[i]) !in db.entries)
    && (forall j | 0 <= j < |at| ::
          at[j] < |ids| && r[j] == ComputedPermissions(ids[at[j]], Rights(false, false, false, false)))
  }

  /** The ids that have an answer are the stored ones. */
  lemma DoneAreStored(acls: map<Key, Acl>, topicId: string, ids: seq<string>, resources: seq<Resource>,
                      done: set<string>)
    requires Ids(resources, ResourceId) == Sorted(ChosenIds(acls, topicId, Some(ids)))
    requires AreStored(acls, topicId, resources)
    requires forall id :: id in done <==> exists i | 0 <= i < |resources| :: resources[i].id == id
    ensures forall id | id in ids :: id in done <==> Key(topicId, id) in acls
  {
    var stored := Sorted(ChosenIds(acls, topicId, Some(ids)));
    forall id | id in ids ensures id in done <==> Key(topicId, id) in acls {
      StoredIff(acls, topicId, id);
      if id in done {
        var i :| 0 <= i < |resources| && resources[i].id == id;
        assert resources[i] in resources;
      }
      if Key(topicId, id) in acls {
        assert id in ChosenIds(acls, topicId, Some(ids)) && id in stored;
        var i :| 0 <= i < |stored| && stored[i] == id;
        assert Ids(resources, ResourceId)[i] == resources[i].id;
      }
    }
  }

  lemma StoredOnesHold(db: Db, t: Token, topicId: string, ids: seq<string>, resources: seq<Resource>,
                       r: seq<ComputedPermissions>)
    requires topicId in db.topics
    requires Ids(resources, ResourceId) == Sorted(ChosenIds(db.Acls(), topicId, Some(ids)))
    requires AreStored(db.Acls(), topicId, resources)
    requires |r| == |resources| && forall i | 0 <= i < |r| :: r[i].id == resources[i].id
    requires forall i, p | 0 <= i < |r| && Known(p) ::
               r[i].rights.Has(p) ==
               (t.admin || EitherGrants(t, resources[i].perms.Plain(), db.topics[topicId].defaults.Plain(), p))
    ensures StoredOnes(db, t, topicId, ids, r)
  {
    var stored := Sorted(ChosenIds(db.Acls(), topicId, Some(ids)));
    assert forall p | p in "rwxa" :: Known(p);
    forall i | 0 <= i < |r|
      ensures stored[i] == r[i].id && r[i].id in ids && Key(topicId, r[i].id) in db.entries
      ensures r[i].id in ids ==> resources[i].perms.Plain() == db.entries[Key(topicId, r[i].id)].acl
    {
      assert resources[i] in resources && Ids(resources, ResourceId)[i] == resources[i].id && stored[i] in stored;
    }
    forall id | id in ids && Key(topicId, id) in db.entries ensures exists c | c in r :: c.id == id {
      StoredIff(db.Acls(), topicId, id);
      assert id in stored;
      var i :| 0 <= i < |stored| && stored[i] == id;
      assert r[i] in r;
    }
  }

  lemma OtherOnesHold(db: Db, topicId: string, ids: seq<string>, resources: seq<Resource>, done: set<string>,
                      r: seq<ComputedPermissions>, at: seq<nat>)
    requires Ids(resources, ResourceId) == Sorted(ChosenIds(db.Acls(), topicId, Some(ids)))
    requires AreStored(db.Acls(), topicId, resources)
    requires forall id :: id in done <==> exists i | 0 <= i < |resources| :: resources[i].id == id
    requires |r| == |at| && DeniedAt(ids, done, r, at)
    ensures OtherOnes(db, topicId, ids, r, at)
    ensures forall c | c in r ::
              c.rights == Rights(false, false, false, false) && c.id in ids && Key(topicId, c.id) !in db.entries
  {
    DoneAreStored(db.Acls(), topicId, ids, resources, done);
    forall i | 0 <= i < |ids| ensures i in at <==> Key(topicId, ids[i]) !in db.entries {
      assert ids[i] in ids && (Key(topicId, ids[i]) in db.Acls() <==> Key(topicId, ids[i]) in db.entries);
    }
    forall c | c in r
      ensures c.rights == Rights(false, false, false, false) && c.id in ids && Key(topicId, c.id) !in db.entries
    {
      var j :| 0 <= j < |r| && r[j] == c;
      assert at[j] in at;
    }
  }

  /** Answers without rights for exactly the places of the ids that are not done. */
  ghost predicate DeniedAt(ids: seq<string>, done: set<string>, r: seq<ComputedPermissions>, at: seq<nat>)
    requires |r| == |at|
  {
    && (forall i, j | 0 <= i < j < |at| :: at[i] < at[j])
    && (forall i | 0 <= i < |ids| :: i in at <==> ids[i] !in done)
    && (forall j | 0 <= j < |at| :: at[j] < |ids| && r[j] == ComputedPermissions(ids[at[j]], NO_RIGHTS))
  }

  method DenyOthers(ids: seq<string>, done: set<string>) returns (r: seq<ComputedPermissions>, ghost at: seq<nat>)
    ensures |r| == |at| && DeniedAt(ids, done, r, at)
  {
    r, at := [], [];
    for i := 0 to |ids|
      invariant |r| == |at| && DeniedAt(ids[..i], done, r, at)
    {
      assert ids[..i + 1] == ids[..i] + [ids[i]];
      if ids[i] !in done {
        r := r + [ComputedPermissions(ids[i], NO_RIGHTS)];
        at := at + [i];
      }
    }
    assert ids[..|ids|] == ids;
  }

  /** The rules for callers without admin rights, against the current rights. */
  method EditAgainst(config: Config, t: Token, stored: Perms, p: Perms, sameGroup: Option<set<string>>)
    returns (r: Result<Perms>)
    ensures r == Edit(config, t, stored, p, sameGroup)
  {
    var current, edited := stored, p;
    if edited.roles.None? && current.roles.Some? {
      edited := edited.(roles := current.roles);
    }
    if current.roles.None? {
      current := current.(roles := Some(map[]));
    }
    if edited.roles.None? {
      edited := edited.(roles := Some(map[]));
    }
    if config.onlyAdminsEditRoles && current.roles != edited.roles {
      return Err(FORBIDDEN);
    }
    var addedUsers := AddedPrincipals(OrEmpty(edited.users), OrEmpty(current.users));
    var addedGroups := AddedPrincipals(OrEmpty(edited.groups), OrEmpty(current.groups));
    for i := 0 to |addedGroups|
      invariant forall j | 0 <= j < i :: addedGroups[j] in t.memberOf
    {
      if addedGroups[i] !in t.memberOf {
        assert addedGroups[i] in addedGroups;
        return Err(BAD_REQUEST);
      }
    }
    assert OrEmpty(p.groups).Keys - OrEmpty(stored.groups).Keys <= t.memberOf;
    if |addedUsers| > 0 && config.userManagement {
      assert addedUsers[0] in addedUsers;
      if sameGroup.None? {
        return Err(SERVER_ERROR);
      }
      for i := 0 to |addedUsers|
        invariant forall j | 0 <= j < i :: addedUsers[j] in sameGroup.value
      {
        if addedUsers[i] !in sameGroup.value {
          assert addedUsers[i] in addedUsers;
          return Err(BAD_REQUEST);
        }
      }
      assert OrEmpty(p.users).Keys - OrEmpty(stored.users).Keys <= sameGroup.value;
    }
    r := Ok(edited);
  }

  /** The keys of one map that the other lacks; walked in any order. */
  method AddedPrincipals(m: RightsMap, current: RightsMap) returns (added: seq<string>)
    ensures forall k :: k in added <==> k in m.Keys - current.Keys
  {
    added := [];
    var todo := m.Keys;
    while todo != {}
      invariant todo <= m.Keys
      invariant forall k :: k in added <==> k in m.Keys - current.Keys - todo
      decreases |todo|
    {
      var k :| k in todo;
      if k !in current {
        added := added + [k];
      }
      todo := todo - {k};
    }
  }

  method AddRights(m: RightsMap, more: RightsMap) returns (r: RightsMap)
    ensures r == m + more
  {
    r := m;
    var todo := more.Keys;
    while todo != {}
      invariant todo <= more.Keys
      invariant r == m + map k | k in more && k !in todo :: more[k]
      decreases |todo|
    {
      var k :| k in todo;
      r := r[k := more[k]];
      todo := todo - {k};
    }
  }

  lemma TopicsListedAt(db: Db, ids: Option<seq<string>>, r: seq<Topic>)
    requires Ids(r, TopicKey) == Sorted(ChosenTopics(db, ids))
    requires forall t | t in r :: t.id in db.topics && db.topics[t.id] == t
    ensures r == TopicsAt(db.topics, Sorted(ChosenTopics(db, ids)))
  {
  }

  lemma AllTopicIds(db: Db, list: seq<Topic>)
    requires Consistent(db) && list == TopicsAt(db.topics, Sorted(ChosenTopics(db, None)))
    ensures Ids(list, TopicKey) == Sorted(db.topics.Keys)
  {
    var names := Sorted(ChosenTopics(db, None));
    assert ChosenTopics(db, None) == db.topics.Keys;
    forall i | 0 <= i < |list| ensures Ids(list, TopicKey)[i] == names[i] {
      assert names[i] in names;
    }
  }

  lemma ListedResources(acls: map<Key, Acl>, topicId: string, ids: Option<seq<string>>, rs: seq<Resource>)
    requires Ids(rs, ResourceId) == Sorted(ChosenIds(acls, topicId, ids)) && AreStored(acls, topicId, rs)
    ensures rs == TopicResources(acls, topicId, ids)
  {
  }

  lemma SortedTopics(db: Db, ids: Option<seq<string>>)
    requires Consistent(db)
    ensures var ts := TopicsAt(db.topics, Sorted(ChosenTopics(db, ids)));
            Sort(ts, IdOrder(TopicKey)) == ts
  {
    var names := Sorted(ChosenTopics(db, ids));
    var ts := TopicsAt(db.topics, names);
    var le := IdOrder(TopicKey);
    forall i, j | 0 <= i < j < |ts| ensures le(ts[i], ts[j]) {
      assert names[i] in names && names[j] in names;
      assert TopicKey(ts[i]) == names[i] && TopicKey(ts[j]) == names[j] && Less(names[i], names[j]);
      if Less(names[j], names[i]) { LessTransitive(names[i], names[j], names[i]); LessIrreflexive(names[i]); }
    }
    SortSorted(ts, le);
  }
}
