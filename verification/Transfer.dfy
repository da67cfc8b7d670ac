/** Export and import (pkg/controller/import_export.go): a full export restores the store, and an
    import repeated changes nothing more. Publishes may fail in any way; database calls succeed. */
module Transfer {
  import opened Model
  import opened Order
  import opened Store
  import opened Effects
  import opened Rules
  import opened Runs

  ghost predicate DatabaseWorks(faults: nat -> Fault, io: nat -> Io) {
    && (forall i: nat :: faults(i) == Done)
    && (forall i: nat :: io(i).faults.write == Done && io(i).faults.mark == Done)
  }

  /** A write without database faults stores the rights and reports no error. */
  lemma WriteSucceeds(w: World, topic: Topic, r: Resource, io: Io)
    requires io.faults.write == Done && io.faults.mark == Done
    ensures var (w', ok) := Write(w, topic, r, io.now, io.faults);
            ok && w'.db.topics == w.db.topics && w'.db.Acls() == w.db.Acls()[KeyOf(r) := r.perms.Norm()]
  {
    var w' := Write(w, topic, r, io.now, io.faults).0;
    assert w'.db.entries.Keys == w.db.entries.Keys + {KeyOf(r)};
    assert w'.db.Acls() == w.db.Acls()[KeyOf(r) := r.perms.Norm()];
  }

  // A full export

  lemma ResourcesListed(acls: map<Key, Acl>, topicId: string, r: Resource)
    ensures r in TopicResources(acls, topicId, None) <==>
              r.topicId == topicId && KeyOf(r) in acls && r.perms == ToPerms(acls[KeyOf(r)])
  {
    var ids := Sorted(ChosenIds(acls, topicId, None));
    var rs := TopicResources(acls, topicId, None);
    ChosenStored(acls, topicId, None);
    if r in rs {
      var i :| 0 <= i < |rs| && rs[i] == r;
      assert ids[i] in ids;
    }
    if r.topicId == topicId && KeyOf(r) in acls && r.perms == ToPerms(acls[KeyOf(r)]) {
      assert KeyOf(r).id in StoredIds(acls, topicId);
      assert r.id in ids;
      var i :| 0 <= i < |ids| && ids[i] == r.id;
      assert rs[i] == r;
    }
  }

  lemma {:induction false} AllListed(acls: map<Key, Acl>, topicIds: seq<string>, r: Resource)
    ensures r in AllResources(acls, topicIds, None) <==>
              r.topicId in topicIds && KeyOf(r) in acls && r.perms == ToPerms(acls[KeyOf(r)])
  {
    if topicIds == [] {
    } else {
      var n := |topicIds| - 1;
      assert topicIds == topicIds[..n] + [topicIds[n]];
      AllListed(acls, topicIds[..n], r);
      ResourcesListed(acls, topicIds[n], r);
    }
  }

  lemma {:induction false} AllResourcesSorted(acls: map<Key, Acl>, topicIds: seq<string>)
    requires Ascending(topicIds)
    ensures SortedBy(AllResources(acls, topicIds, None), ByKey)
  {
    if topicIds == [] {
    } else {
      var n := |topicIds| - 1;
      var before, last := AllResources(acls, topicIds[..n], None), TopicResources(acls, topicIds[n], None);
      AllResourcesSorted(acls, topicIds[..n]);
      forall i, j | 0 <= i < |before| && 0 <= j < |last| ensures ByKey(before[i], last[j]) {
        AllListed(acls, topicIds[..n], before[i]);
        assert before[i] in before;
        var m :| 0 <= m < n && topicIds[m] == before[i].topicId;
      }
      var ids := Sorted(ChosenIds(acls, topicIds[n], None));
      ChosenStored(acls, topicIds[n], None);
      forall i, j | 0 <= i < j < |last| ensures ByKey(last[i], last[j]) {
        assert Less(ids[i], ids[j]);
        if Less(ids[j], ids[i]) { LessTransitive(ids[i], ids[j], ids[i]); LessIrreflexive(ids[i]); }
      }
    }
  }

  /** What Controller.Export returns under full options is the full export: sorting changes nothing. */
  lemma FullExportIsSorted(db: Db)
    ensures Exported(db, FULL) == FullExport(db)
  {
    AllResourcesSorted(db.Acls(), Sorted(db.topics.Keys));
    SortSorted(AllResources(db.Acls(), Sorted(db.topics.Keys), None), ByKey);
    assert ChosenTopics(db, None) == db.topics.Keys;
  }

  // Restoring it

  function Prefix(topics: map<string, Topic>, names: seq<string>, i: nat): map<string, Topic>
    requires i <= |names|
  {
    map id | id in topics && id in names[..i] :: topics[id]
  }

  lemma TopicRestored(db: Db, w: World, t: Token, names: seq<string>, i: nat)
    requires Sound(db) && t.admin && i < |names| && Ascending(names) && names[i] in db.topics
    requires w.db.topics == Prefix(db.topics, names, i)
    ensures SetTopic(w, t, db.topics[names[i]], Done) ==
              (w.(db := w.db.(topics := Prefix(db.topics, names, i + 1))), Ok((db.topics[names[i]], OK)))
  {
    var topic := db.topics[names[i]];
    assert topic.id == names[i] && topic.id != "" && Named(topic) == topic;
    assert names[..i + 1] == names[..i] + [names[i]];
    forall j | 0 <= j < i ensures names[j] != names[i] { LessIrreflexive(names[i]); }
    assert names[i] !in names[..i];
    assert Prefix(db.topics, names, i)[names[i] := topic] == Prefix(db.topics, names, i + 1);
  }

  lemma {:induction false} TopicsRestored(db: Db, w: World, t: Token, faults: nat -> Fault, names: seq<string>, i: nat)
    requires Sound(db) && t.admin && forall j: nat :: faults(j) == Done
    requires i <= |names| && names == Sorted(db.topics.Keys) && w.db.topics == Prefix(db.topics, names, i)
    ensures ImportTopics(w, t, TopicsAt(db.topics, names), FULL, faults, i) ==
              (w.(db := w.db.(topics := db.topics)), None)
    decreases |names| - i
  {
    if i == |names| {
      assert names[..i] == names;
      assert w.db.topics == db.topics;
    } else {
      assert names[i] in names;
      TopicRestored(db, w, t, names, i);
      TopicsRestored(db, w.(db := w.db.(topics := Prefix(db.topics, names, i + 1))), t, faults, names, i + 1);
    }
  }

  /** Nothing but these rights. */
  ghost predicate Part(a: map<Key, Acl>, b: map<Key, Acl>) {
    forall k | k in a :: k in b && a[k] == b[k]
  }

  /** The resource passes an import and is stored with these rights. */
  predicate Restorable(topics: map<string, Topic>, acls: map<Key, Acl>, r: Resource) {
    && r.topicId in topics && r.perms.Valid()
    && KeyOf(r) in acls && r.perms.Norm() == acls[KeyOf(r)]
  }

  /** What an import of stored resources writes is part of what is stored. */
  lemma {:induction false} WrittenAreStored(topics: map<string, Topic>, acls: map<Key, Acl>, rs: seq<Resource>, i: nat)
    requires i <= |rs| && forall r | r in rs :: Restorable(topics, acls, r)
    ensures Part(Written(topics, rs, FULL, i), acls)
    ensures forall j | i <= j < |rs| :: KeyOf(rs[j]) in Written(topics, rs, FULL, i)
    decreases |rs| - i
  {
    hide Part, Clean;
    if i == |rs| {
      PartWith(map[], acls, map[]);
    } else {
      var k := KeyOf(rs[i]);
      assert Restorable(topics, acls, rs[i]);
      WrittenAreStored(topics, acls, rs, i + 1);
      PartWith(map[k := acls[k]], acls, Written(topics, rs, FULL, i + 1));
    }
  }

  lemma PartWith(some: map<Key, Acl>, acls: map<Key, Acl>, part: map<Key, Acl>)
    requires (forall k | k in some :: k in acls && some[k] == acls[k]) && (part == map[] || Part(part, acls))
    ensures Part(some + part, acls) && (part == map[] ==> Part(some, acls))
  {
    assert part == map[] ==> some + part == some;
  }

  lemma PartIsAll(a: map<Key, Acl>, b: map<Key, Acl>)
    requires Part(a, b) && forall k | k in b :: k in a
    ensures a == b
  {
  }

  lemma ExportedKey(db: Db, k: Key) returns (j: nat)
    requires Sound(db) && k in db.entries
    ensures j < |FullExport(db).permissions| && KeyOf(FullExport(db).permissions[j]) == k
  {
    var rs := FullExport(db).permissions;
    var r := Resource(k.topicId, k.id, ToPerms(db.Acls()[k]));
    AllListed(db.Acls(), Sorted(db.topics.Keys), r);
    j :| 0 <= j < |rs| && rs[j] == r;
  }

  lemma ExportedAreRestorable(db: Db)
    requires Sound(db) && HaveAdmins(db)
    ensures forall r | r in FullExport(db).permissions :: Restorable(db.topics, db.Acls(), r)
  {
    forall r | r in FullExport(db).permissions ensures Restorable(db.topics, db.Acls(), r) {
      AllListed(db.Acls(), Sorted(db.topics.Keys), r);
      var acl := db.entries[KeyOf(r)].acl;
      assert acl.HasAdminUser() && acl.IsNormal() && r.perms.Plain() == acl;
    }
  }

  lemma NoneRefusedOf(topics: map<string, Topic>, acls: map<Key, Acl>, rs: seq<Resource>)
    requires forall r | r in rs :: Restorable(topics, acls, r)
    ensures NoneRefused(topics, rs, FULL)
  {
  }

  lemma AllWritten(db: Db)
    requires Sound(db) && HaveAdmins(db)
    ensures Written(db.topics, FullExport(db).permissions, FULL, 0) == db.Acls()
    ensures NoneRefused(db.topics, FullExport(db).permissions, FULL)
  {
    var rs := FullExport(db).permissions;
    var written := Written(db.topics, rs, FULL, 0);
    ExportedAreRestorable(db);
    NoneRefusedOf(db.topics, db.Acls(), rs);
    WrittenAreStored(db.topics, db.Acls(), rs, 0);
    hide HaveAdmins, Restorable, NoneRefused, Part, Written;
    forall k | k in db.Acls() ensures k in written {
      var j := ExportedKey(db, k);
    }
    PartIsAll(written, db.Acls());
  }

  lemma AllResourcesRestored(db: Db, log: seq<Message>, io: nat -> Io)
    requires Sound(db) && HaveAdmins(db)
    requires forall j: nat :: io(j).faults.write == Done && io(j).faults.mark == Done
    ensures var (w', e) := ImportResources(World(Db(db.topics, map[]), log), FullExport(db).permissions, FULL, io, 0);
            e == None && w'.db.topics == db.topics && w'.db.Acls() == db.Acls()
  {
    hide Sound, HaveAdmins, FullExport, NoneRefused, Written, ImportResources;
    var w, rs := World(Db(db.topics, map[]), log), FullExport(db).permissions;
    AllWritten(db);
    ImportResourcesWrites(w, rs, FULL, io, 0);
    assert w.db.Acls() == map[] && map[] + db.Acls() == db.Acls() && rs[0..] == rs;
  }

  lemma SameExport(a: Db, b: Db)
    requires a.topics == b.topics && a.Acls() == b.Acls()
    ensures FullExport(a) == FullExport(b)
  {
  }

  /** Importing a full export into an empty store restores topics and rights, and so the same
      export, whatever publishes fail. */
  lemma ExportImportRestores(db: Db, log: seq<Message>, t: Token, faults: nat -> Fault, io: nat -> Io)
    requires Sound(db) && HaveAdmins(db) && t.admin && DatabaseWorks(faults, io)
    ensures var (w', code) := Import(World(EMPTY.db, log), t, FullExport(db), FULL, faults, io);
            && code == OK
            && w'.db.topics == db.topics
            && w'.db.Acls() == db.Acls()
            && FullExport(w'.db) == FullExport(db)
  {
    var w0 := World(EMPTY.db, log);
    var names := Sorted(db.topics.Keys);
    assert Prefix(db.topics, names, 0) == map[];
    TopicsRestored(db, w0, t, faults, names, 0);
    AllResourcesRestored(db, log, io);
    var w' := Import(w0, t, FullExport(db), FULL, faults, io).0;
    SameExport(w'.db, db);
  }

  /** So any state that runs reach, bulk loads and torn topic deletes apart, survives the transfer. */
  lemma ReachableTransfers(cfg: Config, ops: seq<Op>, t: Token, faults: nat -> Fault, io: nat -> Io)
    requires forall op | op in ops :: Completes(op) && !op.LoadOp?
    requires t.admin && DatabaseWorks(faults, io)
    ensures var db := Run(cfg, EMPTY, ops).db;
            FullExport(Import(EMPTY, t, FullExport(db), FULL, faults, io).0.db) == FullExport(db)
  {
    RunKeepsSound(cfg, EMPTY, ops);
    RunKeepsAdmins(cfg, EMPTY, ops);
    ExportImportRestores(Run(cfg, EMPTY, ops).db, [], t, faults, io);
  }

  // Importing twice

  function Step(m: map<string, Topic>, t: Topic): map<string, Topic> {
    if t.id in m && m[t.id].Equal(t) then m else m[t.id := t]
  }

  function Fold(m: map<string, Topic>, ts: seq<Topic>): map<string, Topic> {
    if ts == [] then m else Step(Fold(m, ts[..|ts| - 1]), ts[|ts| - 1])
  }

  /** The topics an import sets: the chosen ones up to the first that is not valid. */
  function Accepted(ts: seq<Topic>, o: Options, i: nat): seq<Topic>
    requires i <= |ts|
    decreases |ts| - i
  {
    if i == |ts| then []
    else if !Chosen(o.topics, ts[i].id) then Accepted(ts, o, i + 1)
    else if Named(ts[i]).Validate().Some? then []
    else [Named(ts[i])] + Accepted(ts, o, i + 1)
  }

  predicate AllAccepted(ts: seq<Topic>, o: Options) {
    forall t | t in ts && Chosen(o.topics, t.id) :: Named(t).Validate().None?
  }

  lemma {:induction false} FoldFront(m: map<string, Topic>, t: Topic, ts: seq<Topic>)
    ensures Fold(Step(m, t), ts) == Fold(m, [t] + ts)
  {
    var all := [t] + ts;
    if ts == [] {
      assert all[..0] == [];
    } else {
      FoldFront(m, t, ts[..|ts| - 1]);
      assert all[..|all| - 1] == [t] + ts[..|ts| - 1];
    }
  }

  lemma {:induction false} ImportTopicsFolds(w: World, t: Token, ts: seq<Topic>, o: Options, faults: nat -> Fault,
                                             i: nat)
    requires i <= |ts| && t.admin && forall j: nat :: faults(j) == Done
    ensures ImportTopics(w, t, ts, o, faults, i) ==
            (w.(db := w.db.(topics := Fold(w.db.topics, Accepted(ts, o, i)))),
             if AllAccepted(ts[i..], o) then None else Some(BAD_REQUEST))
    decreases |ts| - i
  {
    if i == |ts| {
    } else {
      assert ts[i..] == [ts[i]] + ts[i + 1..];
      if !Chosen(o.topics, ts[i].id) {
        ImportTopicsFolds(w, t, ts, o, faults, i + 1);
      } else if Named(ts[i]).Validate().None? {
        var w' := SetTopic(w, t, ts[i], faults(i)).0;
        assert w'.db.topics == Step(w.db.topics, Named(ts[i]));
        ImportTopicsFolds(w', t, ts, o, faults, i + 1);
        FoldFront(w.db.topics, Named(ts[i]), Accepted(ts, o, i + 1));
      } else {
        assert ts[i] in ts[i..];
      }
    }
  }

  predicate AgreeAt(m: map<string, Topic>, n: map<string, Topic>, id: string) {
    (id in m <==> id in n) && (id in m ==> m[id] == n[id])
  }

  lemma AgreeEverywhere(m: map<string, Topic>, n: map<string, Topic>)
    requires forall id :: AgreeAt(m, n, id)
    ensures m == n
  {
    forall id ensures id in m <==> id in n { assert AgreeAt(m, n, id); }
    forall id | id in m ensures m[id] == n[id] { assert AgreeAt(m, n, id); }
  }

  lemma {:induction false} FoldPointwise(m: map<string, Topic>, n: map<string, Topic>, ts: seq<Topic>, id: string)
    requires AgreeAt(m, n, id)
    ensures AgreeAt(Fold(m, ts), Fold(n, ts), id)
  {
    if ts == [] {
    } else {
      FoldPointwise(m, n, ts[..|ts| - 1], id);
    }
  }

  /** After the fold, an id that occurs holds a topic equal to its last occurrence; one that does not
      occur is untouched. */
  lemma {:induction false} FoldLast(m: map<string, Topic>, n: map<string, Topic>, ts: seq<Topic>, id: string)
    ensures if Occurs(ts, id) then id in Fold(m, ts) && id in Fold(n, ts) && Fold(m, ts)[id].Equal(Fold(n, ts)[id])
            else AgreeAt(Fold(m, ts), m, id)
  {
    if ts == [] {
    } else {
      var k := |ts| - 1;
      FoldLast(m, n, ts[..k], id);
      OccursStep(ts, id);
    }
  }

  predicate Occurs(ts: seq<Topic>, id: string) {
    exists t | t in ts :: t.id == id
  }

  lemma OccursStep(ts: seq<Topic>, id: string)
    requires ts != []
    ensures Occurs(ts, id) <==> Occurs(ts[..|ts| - 1], id) || ts[|ts| - 1].id == id
  {
  }

  lemma {:induction false} FoldIdempotent(m: map<string, Topic>, ts: seq<Topic>)
    ensures Fold(Fold(m, ts), ts) == Fold(m, ts)
  {
    if ts == [] {
    } else {
      var k := |ts| - 1;
      var before, t := ts[..k], ts[k];
      FoldIdempotent(m, before);
      var a, b := Fold(m, before), Fold(m, ts);
      var c := Fold(b, before);
      forall id | id != t.id ensures AgreeAt(c, a, id) { FoldPointwise(b, a, before, id); }
      FoldLast(b, m, before, t.id);
      forall id ensures AgreeAt(Step(c, t), b, id) {
        if id != t.id { assert AgreeAt(c, a, id); }
      }
      AgreeEverywhere(Step(c, t), b);
    }
  }

  /** The rights an import writes: those of the imported resources up to the first it refuses. */
  function Written(topics: map<string, Topic>, rs: seq<Resource>, o: Options, i: nat): map<Key, Acl>
    requires i <= |rs|
    decreases |rs| - i
  {
    if i == |rs| then map[]
    else if !Imported(o, rs[i]) then Written(topics, rs, o, i + 1)
    else if !rs[i].perms.Valid() || rs[i].topicId !in topics then map[]
    else map[KeyOf(rs[i]) := rs[i].perms.Norm()] + Written(topics, rs, o, i + 1)
  }

  predicate NoneRefused(topics: map<string, Topic>, rs: seq<Resource>, o: Options) {
    forall r | r in rs && Imported(o, r) :: r.perms.Valid() && r.topicId in topics
  }

  lemma {:induction false} ImportResourcesWrites(w: World, rs: seq<Resource>, o: Options, io: nat -> Io, i: nat)
    requires i <= |rs| && forall j: nat :: io(j).faults.write == Done && io(j).faults.mark == Done
    ensures var (w', e) := ImportResources(w, rs, o, io, i);
            && w'.db.topics == w.db.topics
            && w'.db.Acls() == w.db.Acls() + Written(w.db.topics, rs, o, i)
            && e == if NoneRefused(w.db.topics, rs[i..], o) then None else Some(BAD_REQUEST)
    decreases |rs| - i
  {
    if i < |rs| {
      assert rs[i..] == [rs[i]] + rs[i + 1..];
      if !Imported(o, rs[i]) {
        ImportResourcesWrites(w, rs, o, io, i + 1);
      } else if rs[i].perms.Valid() && rs[i].topicId in w.db.topics {
        var topic := w.db.topics[rs[i].topicId];
        var w' := Write(w, topic, rs[i], io(i).now, io(i).faults).0;
        WriteSucceeds(w, topic, rs[i], io(i));
        ImportResourcesWrites(w', rs, o, io, i + 1);
        OverrideTwice(w.db.Acls(), KeyOf(rs[i]), rs[i].perms.Norm(), Written(w.db.topics, rs, o, i + 1));
      } else {
        assert rs[i] in rs[i..];
        assert w.db.Acls() + map[] == w.db.Acls();
      }
    } else {
      assert w.db.Acls() + map[] == w.db.Acls();
    }
  }

  lemma OverrideTwice(m: map<Key, Acl>, k: Key, acl: Acl, more: map<Key, Acl>)
    ensures m[k := acl] + more == m + (map[k := acl] + more)
  {
  }

  /** Importing anything twice, with whatever filters and even when it is refused half-way, leaves
      the topics and rights that importing it once left, and answers the same. */
  lemma ImportTwiceIsOnce(w: World, t: Token, m: ImportExport, o: Options, f1: nat -> Fault, io1: nat -> Io,
                          f2: nat -> Fault, io2: nat -> Io)
    requires DatabaseWorks(f1, io1) && DatabaseWorks(f2, io2)
    ensures var (w1, code1) := Import(w, t, m, o, f1, io1);
            var (w2, code2) := Import(w1, t, m, o, f2, io2);
            code1 == code2 && w1.db.topics == w2.db.topics && w1.db.Acls() == w2.db.Acls()
  {
    if t.admin {
      var w1 := Import(w, t, m, o, f1, io1).0;
      ImportTopicsFolds(w, t, m.topics, o, f1, 0);
      ImportTopicsFolds(w1, t, m.topics, o, f2, 0);
      FoldIdempotent(w.db.topics, Accepted(m.topics, o, 0));
      var a := if o.topicConfig then ImportTopics(w, t, m.topics, o, f1, 0).0 else w;
      var b := if o.topicConfig then ImportTopics(w1, t, m.topics, o, f2, 0).0 else w1;
      ImportResourcesWrites(a, m.permissions, o, io1, 0);
      ImportResourcesWrites(b, m.permissions, o, io2, 0);
    }
  }
}
