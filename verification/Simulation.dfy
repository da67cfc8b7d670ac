/** The two stores behind the same interface: which answers they share. */
module Simulation {
  import opened Model
  import opened Order
  import opened Collections
  import opened Store
  import opened Entries
  import opened MongoStore
  import opened MockStore

  datatype StoreOp =
    | SetResource(r: Resource, now: int, synced: bool)
    | DeleteResource(key: Key)
    | SetTopic(topic: Topic)
    | DeleteTopic(id: string)

  function MongoStep(db: Db, op: StoreOp): Db {
    match op
    case SetResource(r, now, synced) => db.(entries := db.entries[KeyOf(r) := Entry(r.perms.Norm(), now, synced)])
    case DeleteResource(key) => db.(entries := db.entries - {key})
    case SetTopic(topic) => db.(topics := db.topics[topic.id := topic])
    case DeleteTopic(id) => Db(db.topics - {id}, WithoutTopic(db.entries, id))
  }

  function MockStep(db: MockDb, op: StoreOp): MockDb {
    match op
    case SetResource(r, now, synced) => db.(perms := db.perms[KeyOf(r) := r.perms])
    case DeleteResource(key) => db.(perms := db.perms - {key})
    case SetTopic(topic) => db.(topics := db.topics[topic.id := topic])
    case DeleteTopic(id) => MockDb(db.topics - {id}, map k | k in db.perms && k.topicId != id :: db.perms[k])
  }

  /** The entry-list store performs the step, keeping its indexes unique. */
  method PerformMongo(store: Database, op: StoreOp)
    requires store.Valid()
    modifies store
    ensures store.Valid() && store.Db() == MongoStep(old(store.Db()), op)
  {
    match op
    case SetResource(r, now, synced) => store.SetResource(r, now, synced);
    case DeleteResource(key) => store.DeleteResource(key.topicId, key.id);
    case SetTopic(topic) => store.SetTopic(topic);
    case DeleteTopic(id) => var _ := store.DeleteTopic(id, Done, Done);
  }

  /** The list store performs the step, keeping its keys unique. */
  method PerformMock(store: Mock, op: StoreOp)
    requires store.Valid()
    modifies store
    ensures store.Valid() && store.Db() == MockStep(old(store.Db()), op)
  {
    match op
    case SetResource(r, now, synced) => store.SetResource(r, now, synced);
    case DeleteResource(key) => store.DeleteResource(key.topicId, key.id);
    case SetTopic(topic) => store.SetTopic(topic);
    case DeleteTopic(id) => store.DeleteTopic(id);
  }

  function MongoRun(ops: seq<StoreOp>): Db {
    if ops == [] then Db(map[], map[]) else MongoStep(MongoRun(ops[..|ops| - 1]), ops[|ops| - 1])
  }

  function MockRun(ops: seq<StoreOp>): MockDb {
    if ops == [] then MockDb(map[], map[]) else MockStep(MockRun(ops[..|ops| - 1]), ops[|ops| - 1])
  }

  /** Same topics, same keys, and rights that differ only in what storage drops. */
  ghost predicate Same(m: MockDb, d: Db) {
    && m.topics == d.topics
    && m.perms.Keys == d.entries.Keys
    && forall k | k in d.entries :: d.entries[k].acl == m.perms[k].Norm()
  }

  lemma {:induction false} RunsAgree(ops: seq<StoreOp>)
    ensures Same(MockRun(ops), MongoRun(ops))
  {
    if ops == [] {
    } else {
      RunsAgree(ops[..|ops| - 1]);
    }
  }

  /** The checks of the two stores agree, on all stored rights and for all callers, exactly for
      lists of known runes: the entry-list store passes over an unknown rune, the list store denies it. */
  lemma ChecksAgreeIffKnown(ps: seq<Permission>)
    ensures (forall p: Perms, t :: CheckPerms(p, t, ps) == GrantsKnown(p.Norm(), t, ps)) <==> AllKnown(ps)
  {
    if AllKnown(ps) {
      forall p: Perms, t ensures CheckPerms(p, t, ps) == GrantsKnown(p.Norm(), t, ps) {
        KnownChecksAgree(p, t, ps);
      }
    } else {
      var q :| q in ps && !Known(q);
      var p := Perms(Some(map["u" := ALL_RIGHTS]), None, None);
      var t := Token("u", [], [], false, {});
      assert !Grants(p.Plain(), t, q) && !CheckPerms(p, t, ps);
      forall k | k in ps && Known(k) ensures Grants(p.Norm(), t, k) {
        CleanAt(p.Plain().users, "u");
        assert At(p.Norm().users, t.user) == ALL_RIGHTS;
      }
      assert GrantsKnown(p.Norm(), t, ps);
    }
  }

  /** The check on the encoded lists is the list store's check on the plain maps. */
  lemma IndexAgreesWithMap(p: Perms, d: Doc, t: Token, ps: seq<Permission>)
    requires Encodes(d, p) && AllKnown(ps)
    ensures CheckPermissions(t, d, ps) == CheckPerms(p, t, ps)
  {
    CodecRoundTrip(p, d);
    IndexMeansMap(t, d, ps);
    KnownChecksAgree(p, t, ps);
  }

  lemma KnownChecksAgree(p: Perms, t: Token, ps: seq<Permission>)
    requires AllKnown(ps)
    ensures CheckPerms(p, t, ps) == GrantsKnown(p.Norm(), t, ps)
  {
  }

  /** After any calls, single checks, multi checks and id listings of the two stores agree.
      The answers are those the methods of both classes are proved to give. */
  lemma AnswersAgree(ops: seq<StoreOp>, topicId: string, t: Token, ps: seq<Permission>, ids: Option<seq<string>>,
                     limit: int, offset: int)
    requires ps != [] && AllKnown(ps)
    ensures var m := MockRun(ops);
            var d := MongoRun(ops);
            && (forall id :: Key(topicId, id) in m.perms <==> Key(topicId, id) in d.entries)
            && (forall id | Key(topicId, id) in d.entries ::
                 CheckPerms(m.perms[Key(topicId, id)], t, ps) == GrantsKnown(d.entries[Key(topicId, id)].acl, t, ps))
            && Page(Sorted(PermittedIds(m.perms, topicId, t, ps)), limit, offset) ==
                 Page(Sorted(GrantedIds(d.Acls(), topicId, t, ps)), limit, offset)
            && Page(Sorted(HeldIds(m.perms, topicId, ids)), limit, offset) ==
                 Page(Sorted(ChosenIds(d.Acls(), topicId, ids)), limit, offset)
  {
    var m := MockRun(ops);
    var d := MongoRun(ops);
    RunsAgree(ops);
    forall k | k in d.entries ensures CheckPerms(m.perms[k], t, ps) == GrantsKnown(d.entries[k].acl, t, ps) {
      KnownChecksAgree(m.perms[k], t, ps);
    }
    forall id ensures id in HeldIds(m.perms, topicId, ids) <==> id in ChosenIds(d.Acls(), topicId, ids) {
      if id in HeldIds(m.perms, topicId, ids) { assert Key(topicId, id) in d.Acls(); }
      if id in ChosenIds(d.Acls(), topicId, ids) { assert Key(topicId, id) in m.perms; }
    }
    assert HeldIds(m.perms, topicId, ids) == ChosenIds(d.Acls(), topicId, ids);
    forall id ensures id in PermittedIds(m.perms, topicId, t, ps) <==> id in GrantedIds(d.Acls(), topicId, t, ps) {
      if id in PermittedIds(m.perms, topicId, t, ps) { assert Key(topicId, id) in d.Acls(); }
      if id in GrantedIds(d.Acls(), topicId, t, ps) { assert Key(topicId, id) in m.perms; }
    }
    assert PermittedIds(m.perms, topicId, t, ps) == GrantedIds(d.Acls(), topicId, t, ps);
  }

  /** What is asked of a store: single and multi check, listings by permission and by id. */
  datatype Query = Query(topicId: string, id: string, ids: seq<string>, filter: Option<seq<string>>,
                         t: Token, ps: seq<Permission>, limit: int, offset: int)

  datatype Answers = Answers(single: bool, multi: map<string, bool>, permitted: seq<string>, chosen: seq<string>)

  /** The answers that this database gives. */
  ghost predicate MongoAnswers(d: Db, q: Query, a: Answers) {
    && (a.single <==> Key(q.topicId, q.id) in d.entries && GrantsKnown(d.entries[Key(q.topicId, q.id)].acl, q.t, q.ps))
    && (forall id :: id in a.multi <==> id in q.ids && Key(q.topicId, id) in d.entries)
    && (forall id | id in a.multi :: a.multi[id] == GrantsKnown(d.entries[Key(q.topicId, id)].acl, q.t, q.ps))
    && a.permitted == Page(Sorted(GrantedIds(d.Acls(), q.topicId, q.t, q.ps)), q.limit, q.offset)
    && a.chosen == Page(Sorted(ChosenIds(d.Acls(), q.topicId, q.filter)), q.limit, q.offset)
  }

  ghost predicate MockAnswers(m: MockDb, q: Query, a: Answers) {
    && (a.single <==> Key(q.topicId, q.id) in m.perms && CheckPerms(m.perms[Key(q.topicId, q.id)], q.t, q.ps))
    && (forall id :: id in a.multi <==> id in q.ids && Key(q.topicId, id) in m.perms)
    && (forall id | id in a.multi :: a.multi[id] == CheckPerms(m.perms[Key(q.topicId, id)], q.t, q.ps))
    && a.permitted == Page(Sorted(PermittedIds(m.perms, q.topicId, q.t, q.ps)), q.limit, q.offset)
    && a.chosen == Page(Sorted(HeldIds(m.perms, q.topicId, q.filter)), q.limit, q.offset)
  }

  lemma SameAnswers(ops: seq<StoreOp>, q: Query, a: Answers, b: Answers)
    requires q.ps != [] && AllKnown(q.ps)
    requires MongoAnswers(MongoRun(ops), q, a) && MockAnswers(MockRun(ops), q, b)
    ensures a == b
  {
    hide GrantsKnown, CheckPerms, Sorted, Page, GrantedIds, PermittedIds, HeldIds, ChosenIds, MongoRun, MockRun;
    AnswersAgree(ops, q.topicId, q.t, q.ps, q.filter, q.limit, q.offset);
    forall id ensures id in a.multi <==> id in b.multi { }
    forall id | id in a.multi ensures a.multi[id] == b.multi[id] { }
    assert a.multi == b.multi;
  }

  /** The two classes, driven through the same calls and asked the same, answer the same. */
  method CompareStores(ops: seq<StoreOp>, q: Query) returns (a: Answers, b: Answers)
    requires q.ps != [] && AllKnown(q.ps)
    ensures a == b && MongoAnswers(MongoRun(ops), q, a)
  {
    hide MongoAnswers, MockAnswers, MongoRun, MockRun;
    var mongo, mock := DriveStores(ops);
    a := AskMongo(mongo, q);
    b := AskMock(mock, q);
    SameAnswers(ops, q, a, b);
  }

  method DriveStores(ops: seq<StoreOp>) returns (mongo: Database, mock: Mock)
    ensures mongo.Valid() && mongo.Db() == MongoRun(ops)
    ensures mock.Valid() && mock.Db() == MockRun(ops)
  {
    mongo := new Database();
    mock := new Mock();
    for i := 0 to |ops|
      invariant mongo.Valid() && mongo.Db() == MongoRun(ops[..i])
      invariant mock.Valid() && mock.Db() == MockRun(ops[..i])
      invariant fresh(mongo) && fresh(mock)
    {
      assert ops[..i + 1][..i] == ops[..i];
      PerformMongo(mongo, ops[i]);
      PerformMock(mock, ops[i]);
    }
    assert ops[..|ops|] == ops;
  }

  method AskMongo(store: Database, q: Query) returns (a: Answers)
    requires store.Valid() && q.ps != [] && AllKnown(q.ps)
    ensures MongoAnswers(store.Db(), q, a)
  {
    var options := ListOptions(q.limit, q.offset, None);
    var single := store.CheckResourcePermissions(q.topicId, q.id, q.t, q.ps);
    var multi := store.CheckMultipleResourcePermissions(q.topicId, q.ids, q.t, q.ps);
    var permitted := store.ListResourceIdsByPermissions(q.topicId, q.t, options, q.ps);
    var chosen := store.AdminListResources(q.topicId, options.(ids := q.filter));
    a := Answers(single, multi, permitted.value, Ids(chosen, ResourceId));
  }

  method AskMock(store: Mock, q: Query) returns (a: Answers)
    requires store.Valid()
    ensures MockAnswers(store.Db(), q, a)
  {
    var options := ListOptions(q.limit, q.offset, None);
    var single := store.CheckResourcePermissions(q.topicId, q.id, q.t, q.ps);
    var multi := store.CheckMultipleResourcePermissions(q.topicId, q.ids, q.t, q.ps);
    var permitted := store.ListResourceIdsByPermissions(q.topicId, q.t, options, q.ps);
    var chosen := store.AdminListResources(q.topicId, options.(ids := q.filter));
    a := Answers(single, multi, permitted, Ids(chosen, ResourceId));
  }
}
