/** The bulk load from permission-search (pkg/controller/load.go). That its paging loop handles every
    remote element once and in order is the contract of Controller.AdminLoadFromPermissionSearch. */
module BulkLoad {
  import opened Model
  import opened Store
  import opened Effects
  import opened Rules

  function LoadedKeys(topicId: string, es: seq<LoadElement>): set<Key> {
    set e | e in es :: Key(topicId, e.id)
  }

  /** `after` keeps every entry of `before` as it is and has n more, so that all these keys are there. */
  ghost predicate Grown(before: Db, after: Db, keys: set<Key>, n: nat) {
    && after.topics == before.topics
    && (forall k | k in before.entries :: k in after.entries && after.entries[k] == before.entries[k])
    && after.entries.Keys == before.entries.Keys + keys
    && |after.entries| == |before.entries| + n
  }

  lemma GrownTrans(a: Db, b: Db, c: Db, keys: set<Key>, more: set<Key>, n: nat, m: nat)
    requires Grown(a, b, keys, n) && Grown(b, c, more, m)
    ensures Grown(a, c, keys + more, n + m)
  {
  }

  lemma GrownByOne(w: World, topic: Topic, r: Resource, io: Io)
    requires r.topicId == topic.id && KeyOf(r) !in w.db.entries && Write(w, topic, r, io.now, io.faults).1
    ensures Grown(w.db, Write(w, topic, r, io.now, io.faults).0.db, {KeyOf(r)}, 1)
  {
    WriteChangesOne(w, topic, r, io.now, io.faults);
    var w1 := Write(w, topic, r, io.now, io.faults).0;
    assert w1.db.entries.Keys == w.db.entries.Keys + {KeyOf(r)};
    assert |w1.db.entries.Keys| == |w.db.entries.Keys| + 1;
  }

  lemma OneLoaded(v: World, topic: Topic, e: LoadElement, io: Io)
    requires LoadOne(v, topic, e, false, false, io).2
    ensures var (v', updated, _) := LoadOne(v, topic, e, false, false, io);
            Grown(v.db, v'.db, {Key(topic.id, e.id)}, if updated then 1 else 0)
  {
    var k := Key(topic.id, e.id);
    if k in v.db.entries {
      assert v.db.entries.Keys + {k} == v.db.entries.Keys;
    } else {
      GrownByOne(v, topic, Merged(v.db, topic.id, e), io);
    }
  }

  lemma KeysOfFirst(topicId: string, es: seq<LoadElement>, i: nat)
    requires 0 < i <= |es|
    ensures LoadedKeys(topicId, es[..i]) == LoadedKeys(topicId, es[..i - 1]) + {Key(topicId, es[i - 1].id)}
  {
    assert es[..i] == es[..i - 1] + [es[i - 1]];
  }

  /** An error-free load without overwriting leaves every stored entry as it is, adds an entry for
      every other id, and counts exactly the entries added, however often an id occurs. */
  lemma {:induction false} LoadAddsOnly(w: World, topic: Topic, es: seq<LoadElement>, io: nat -> Io, i: nat)
    requires i <= |es| && LoadFirst(w, topic, es, false, false, io, i).2
    ensures var (w', n, _) := LoadFirst(w, topic, es, false, false, io, i);
            Grown(w.db, w'.db, LoadedKeys(topic.id, es[..i]), n)
  {
    if i == 0 {
      assert LoadedKeys(topic.id, es[..0]) == {};
    } else {
      var (v, n, _) := LoadFirst(w, topic, es, false, false, io, i - 1);
      var (v', updated, _) := LoadOne(v, topic, es[i - 1], false, false, io(i - 1));
      LoadAddsOnly(w, topic, es, io, i - 1);
      OneLoaded(v, topic, es[i - 1], io(i - 1));
      KeysOfFirst(topic.id, es, i);
      GrownTrans(w.db, v.db, v'.db, LoadedKeys(topic.id, es[..i - 1]), {Key(topic.id, es[i - 1].id)},
                 n, if updated then 1 else 0);
    }
  }

  lemma {:induction false} LoadFindsAll(w: World, topic: Topic, es: seq<LoadElement>, io: nat -> Io, i: nat)
    requires i <= |es| && LoadedKeys(topic.id, es[..i]) <= w.db.entries.Keys
    ensures LoadFirst(w, topic, es, false, false, io, i) == (w, 0, true)
  {
    if i == 0 {
    } else {
      KeysOfFirst(topic.id, es, i);
      LoadFindsAll(w, topic, es, io, i - 1);
    }
  }

  /** An error-free load counts the distinct new ids; a second one counts nothing and changes nothing,
      neither in the database nor in Kafka. */
  lemma SecondLoadIsIdle(w: World, topicId: string, es: seq<LoadElement>, io1: nat -> Io, io2: nat -> Io)
    requires Load(w, topicId, es, false, false, io1).2 == OK
    ensures var (w1, n, _) := Load(w, topicId, es, false, false, io1);
            && n == |LoadedKeys(w.db.topics[topicId].id, es) - w.db.entries.Keys|
            && Load(w1, topicId, es, false, false, io2) == (w1, 0, OK)
  {
    var topic := w.db.topics[topicId];
    var w1 := Load(w, topicId, es, false, false, io1).0;
    LoadAddsOnly(w, topic, es, io1, |es|);
    assert es[..|es|] == es;
    LoadFindsAll(w1, topic, es, io2, |es|);
    GrownSize(w.db, w1.db, LoadedKeys(topic.id, es), Load(w, topicId, es, false, false, io1).1);
  }

  /** What an element that is written leaves under its id: the remote rights for the users it names,
      the remote group rights as roles, and what was stored for everyone else. Groups stay. */
  lemma LoadedRights(v: World, topic: Topic, e: LoadElement, overwrite: bool, io: Io, k: string)
    requires Consistent(v.db) && io.faults.write != Lost
    requires Key(topic.id, e.id) !in v.db.entries || overwrite
    ensures var after := LoadOne(v, topic, e, overwrite, false, io).0.db.entries;
            var before := RightsAt(v.db, Key(topic.id, e.id));
            && Key(topic.id, e.id) in after
            && var acl := after[Key(topic.id, e.id)].acl;
               && At(acl.users, k) == (if k in e.users then e.users[k] else At(before.users, k))
               && At(acl.roles, k) == (if k in e.groups then e.groups[k] else At(before.roles, k))
               && acl.groups == before.groups
  {
    WriteChangesOne(v, topic, Merged(v.db, topic.id, e), io.now, io.faults);
    var before := RightsAt(v.db, Key(topic.id, e.id));
    assert Current(v.db, Key(topic.id, e.id)).Plain() == before && before.IsNormal();
    CleanAt(before.users + e.users, k);
    CleanAt(before.roles + e.groups, k);
  }

  /** After an error-free load without overwriting, every new id holds exactly the users and, as roles,
      the groups of the first element with that id, and no groups. */
  lemma {:induction false} LoadStoresFirst(w: World, topic: Topic, es: seq<LoadElement>, io: nat -> Io, i: nat, n: nat)
    requires i < n <= |es| && LoadFirst(w, topic, es, false, false, io, n).2
    requires Key(topic.id, es[i].id) !in w.db.entries && forall j | 0 <= j < i :: es[j].id != es[i].id
    ensures var k, after := Key(topic.id, es[i].id), LoadFirst(w, topic, es, false, false, io, n).0.db.entries;
            k in after && after[k].acl == Acl(Clean(es[i].users), map[], Clean(es[i].groups))
  {
    hide LoadOne, LoadedKeys, Clean;
    var v := LoadFirst(w, topic, es, false, false, io, n - 1).0;
    if n == i + 1 {
      LoadAddsOnly(w, topic, es, io, i);
      NotLoadedBefore(topic.id, es, i);
      FirstLoaded(v, topic, es[i], io(i));
    } else {
      LoadStoresFirst(w, topic, es, io, i, n - 1);
      OneLoaded(v, topic, es[n - 1], io(n - 1));
    }
  }

  lemma NotLoadedBefore(topicId: string, es: seq<LoadElement>, i: nat)
    requires i < |es| && forall j | 0 <= j < i :: es[j].id != es[i].id
    ensures Key(topicId, es[i].id) !in LoadedKeys(topicId, es[..i])
  {
    forall e | e in es[..i] ensures e.id != es[i].id {
      var j :| 0 <= j < i && es[j] == e;
    }
  }

  lemma FirstLoaded(v: World, topic: Topic, e: LoadElement, io: Io)
    requires Key(topic.id, e.id) !in v.db.entries && LoadOne(v, topic, e, false, false, io).2
    ensures var after := LoadOne(v, topic, e, false, false, io).0.db.entries;
            && Key(topic.id, e.id) in after
            && after[Key(topic.id, e.id)].acl == Acl(Clean(e.users), map[], Clean(e.groups))
  {
    WriteChangesOne(v, topic, Merged(v.db, topic.id, e), io.now, io.faults);
    assert map[] + e.users == e.users && map[] + e.groups == e.groups && Clean(map[]) == map[];
  }

  /** A load is refused for a topic that is not stored or names no Kafka topic; else it ends with status
      500 at the first element that could not be written, having counted what it had added before. */
  lemma LoadAnswers(w: World, topicId: string, es: seq<LoadElement>, io: nat -> Io) returns (i: nat)
    requires Consistent(w.db)
    ensures var (w', n, status) := Load(w, topicId, es, false, false, io);
            && (status == 400 <==> topicId !in w.db.topics || w.db.topics[topicId].kafka == "")
            && (status == 400 ==> w' == w && n == 0)
            && status in {200, 400, 500}
            && (status != 400 ==>
                  && i <= |es| && (status == 200 ==> i == |es|)
                  && (status == 500 ==> i < |es| && Key(topicId, es[i].id) !in w.db.entries)
                  && n == |LoadedKeys(topicId, es[..i]) - w.db.entries.Keys|
                  && forall k | k in w.db.entries :: k in w'.db.entries && w'.db.entries[k] == w.db.entries[k])
  {
    i := 0;
    if topicId in w.db.topics && w.db.topics[topicId].kafka != "" {
      i := LoadStops(w, w.db.topics[topicId], es, io, |es|);
    }
  }

  lemma {:induction false} LoadStops(w: World, topic: Topic, es: seq<LoadElement>, io: nat -> Io, m: nat)
    returns (i: nat)
    requires m <= |es|
    ensures var (w', n, ok) := LoadFirst(w, topic, es, false, false, io, m);
            && i <= m && (ok ==> i == m)
            && (!ok ==> i < m && Key(topic.id, es[i].id) !in w.db.entries)
            && n == |LoadedKeys(topic.id, es[..i]) - w.db.entries.Keys|
            && forall k | k in w.db.entries :: k in w'.db.entries && w'.db.entries[k] == w.db.entries[k]
  {
    assert m == 0 ==> LoadFirst(w, topic, es, false, false, io, m).2;
    hide Grown, LoadFirst, LoadedKeys;
    if LoadFirst(w, topic, es, false, false, io, m).2 {
      i := m;
      LoadCounts(w, topic, es, io, m);
    } else {
      if LoadFirst(w, topic, es, false, false, io, m - 1).2 {
        i := m - 1;
        LoadCounts(w, topic, es, io, m - 1);
        LastFails(w, topic, es, io, m);
      } else {
        LoadEnds(w, topic, es, false, false, io, m - 1, m);
        i := LoadStops(w, topic, es, io, m - 1);
      }
    }
  }

  lemma LoadCounts(w: World, topic: Topic, es: seq<LoadElement>, io: nat -> Io, i: nat)
    requires i <= |es| && LoadFirst(w, topic, es, false, false, io, i).2
    ensures var (w', n, _) := LoadFirst(w, topic, es, false, false, io, i);
            && n == |LoadedKeys(topic.id, es[..i]) - w.db.entries.Keys|
            && forall k | k in w.db.entries :: k in w'.db.entries && w'.db.entries[k] == w.db.entries[k]
  {
    hide LoadFirst, LoadedKeys;
    LoadAddsOnly(w, topic, es, io, i);
    var (w', n, _) := LoadFirst(w, topic, es, false, false, io, i);
    GrownSize(w.db, w'.db, LoadedKeys(topic.id, es[..i]), n);
  }

  /** The first element that is not handled without error is a new one, and does not count. */
  lemma LastFails(w: World, topic: Topic, es: seq<LoadElement>, io: nat -> Io, m: nat)
    requires 0 < m <= |es| && LoadFirst(w, topic, es, false, false, io, m - 1).2
    requires !LoadFirst(w, topic, es, false, false, io, m).2
    ensures var (v, n, _) := LoadFirst(w, topic, es, false, false, io, m - 1);
            var (w', n', _) := LoadFirst(w, topic, es, false, false, io, m);
            && n' == n && Key(topic.id, es[m - 1].id) !in v.db.entries
            && forall k | k in v.db.entries :: k in w'.db.entries && w'.db.entries[k] == v.db.entries[k]
  {
    var v := LoadFirst(w, topic, es, false, false, io, m - 1).0;
    hide LoadOne;
    FailedKeeps(v, topic, es[m - 1], io(m - 1));
  }

  lemma FailedKeeps(v: World, topic: Topic, e: LoadElement, io: Io)
    requires !LoadOne(v, topic, e, false, false, io).2
    ensures Key(topic.id, e.id) !in v.db.entries
    ensures var after := LoadOne(v, topic, e, false, false, io).0.db.entries;
            forall k | k in v.db.entries :: k in after && after[k] == v.db.entries[k]
  {
    if io.faults.write != Lost { WriteChangesOne(v, topic, Merged(v.db, topic.id, e), io.now, io.faults); }
  }

  lemma GrownSize(before: Db, after: Db, keys: set<Key>, n: nat)
    requires Grown(before, after, keys, n)
    ensures n == |keys - before.entries.Keys|
  {
    var added := keys - before.entries.Keys;
    assert after.entries.Keys == before.entries.Keys + added;
    assert |after.entries.Keys| == |before.entries.Keys| + |added|;
  }

  predicate IsNew(db: Db, topicId: string, e: LoadElement) {
    Key(topicId, e.id) !in db.entries
  }

  function NewKeys(db: Db, topicId: string, es: seq<LoadElement>, i: nat): set<Key>
    requires i <= |es|
  {
    LoadedKeys(topicId, es[..i]) - db.entries.Keys
  }

  /** None of the first i elements repeats a new id. */
  ghost predicate NewIdsOnce(db: Db, topicId: string, es: seq<LoadElement>, i: nat)
    requires i <= |es|
  {
    forall a, b | 0 <= a < b < i && IsNew(db, topicId, es[a]) && IsNew(db, topicId, es[b]) :: es[a].id != es[b].id
  }

  lemma NewKeysWith(db: Db, topicId: string, es: seq<LoadElement>, i: nat)
    requires 0 < i <= |es|
    ensures var before := NewKeys(db, topicId, es, i - 1);
            NewKeys(db, topicId, es, i) ==
            if IsNew(db, topicId, es[i - 1]) then before + {Key(topicId, es[i - 1].id)} else before
  {
    KeysOfFirst(topicId, es, i);
  }

  lemma NewKeysStep(db: Db, topicId: string, es: seq<LoadElement>, i: nat)
    requires 0 < i <= |es|
    ensures var k, before := Key(topicId, es[i - 1].id), NewKeys(db, topicId, es, i - 1);
            |NewKeys(db, topicId, es, i)| == |before| + if IsNew(db, topicId, es[i - 1]) && k !in before then 1 else 0
  {
    hide NewKeys;
    NewKeysWith(db, topicId, es, i);
    AddSize(NewKeys(db, topicId, es, i - 1), Key(topicId, es[i - 1].id));
  }

  lemma NewIdsStep(db: Db, topicId: string, es: seq<LoadElement>, i: nat)
    requires 0 < i <= |es|
    ensures NewIdsOnce(db, topicId, es, i) <==>
            && NewIdsOnce(db, topicId, es, i - 1)
            && (IsNew(db, topicId, es[i - 1]) ==> Key(topicId, es[i - 1].id) !in NewKeys(db, topicId, es, i - 1))
  {
    var k := Key(topicId, es[i - 1].id);
    if k in NewKeys(db, topicId, es, i - 1) {
      var e :| e in es[..i - 1] && Key(topicId, e.id) == k;
      var a :| 0 <= a < i - 1 && es[..i - 1][a] == e;
      assert es[a].id == es[i - 1].id;
    }
    forall a | 0 <= a < i - 1 && es[a].id == es[i - 1].id && IsNew(db, topicId, es[a])
      ensures k in NewKeys(db, topicId, es, i - 1)
    {
      assert es[..i - 1][a] == es[a];
    }
  }

  /** How many of the first i elements are not stored. */
  function NewElements(db: Db, topicId: string, es: seq<LoadElement>, i: nat): nat
    requires i <= |es|
  {
    if i == 0 then 0 else NewElements(db, topicId, es, i - 1) + if IsNew(db, topicId, es[i - 1]) then 1 else 0
  }

  lemma {:induction false} DryRunCounts(w: World, topic: Topic, es: seq<LoadElement>, io: nat -> Io, i: nat)
    requires i <= |es|
    ensures LoadFirst(w, topic, es, false, true, io, i) == (w, NewElements(w.db, topic.id, es, i), true)
  {
    if i == 0 {
    } else {
      DryRunCounts(w, topic, es, io, i - 1);
    }
  }

  lemma AddSize<T>(s: set<T>, x: T)
    ensures |s + {x}| == if x in s then |s| else |s| + 1
  {
    if x in s { assert s + {x} == s; }
  }

  lemma {:induction false} NewElementsAreKeysIff(db: Db, topicId: string, es: seq<LoadElement>, i: nat)
    requires i <= |es|
    ensures NewElements(db, topicId, es, i) >= |NewKeys(db, topicId, es, i)|
    ensures NewElements(db, topicId, es, i) == |NewKeys(db, topicId, es, i)| <==> NewIdsOnce(db, topicId, es, i)
  {
    hide NewKeys, NewIdsOnce;
    if i == 0 {
      NoNewKeys(db, topicId, es);
    } else {
      NewElementsAreKeysIff(db, topicId, es, i - 1);
      NewKeysStep(db, topicId, es, i);
      NewIdsStep(db, topicId, es, i);
    }
  }

  lemma NoNewKeys(db: Db, topicId: string, es: seq<LoadElement>)
    ensures NewKeys(db, topicId, es, 0) == {} && NewIdsOnce(db, topicId, es, 0)
  {
  }

  /** A dry run changes nothing; it counts the elements that are not stored, an id that occurs twice
      twice. So it predicts the count of an error-free load exactly when no new id occurs twice. */
  lemma DryRunPredictsIff(w: World, topicId: string, es: seq<LoadElement>, io1: nat -> Io, io2: nat -> Io)
    requires Load(w, topicId, es, false, false, io2).2 == OK
    ensures var (w', n, status) := Load(w, topicId, es, false, true, io1);
            && w' == w && status == OK
            && n >= Load(w, topicId, es, false, false, io2).1
            && (n == Load(w, topicId, es, false, false, io2).1 <==> NewIdsOnce(w.db, w.db.topics[topicId].id, es, |es|))
  {
    var topic := w.db.topics[topicId];
    DryRunCounts(w, topic, es, io1, |es|);
    NewElementsAreKeysIff(w.db, topic.id, es, |es|);
    SecondLoadIsIdle(w, topicId, es, io2, io2);
    assert es[..|es|] == es;
  }

  /** What permission-search has for the resource. */
  function Remote(e: LoadElement): Acl {
    Acl(e.users, map[], e.groups).Normal()
  }

  /** Overwriting is described as forcing the remote state, but it merges: the stored rights become
      the remote ones exactly when nothing is stored for principals the remote side does not name. */
  lemma OverwriteForcesRemoteIff(w: World, topic: Topic, e: LoadElement, now: int, f: WriteFaults)
    requires Consistent(w.db) && Key(topic.id, e.id) in w.db.entries
    requires f.write != Lost
    ensures var stored := w.db.entries[Key(topic.id, e.id)].acl;
            var after := Write(w, topic, Merged(w.db, topic.id, e), now, f).0.db.entries;
            && Key(topic.id, e.id) in after
            && (after[Key(topic.id, e.id)].acl == Remote(e) <==>
                stored.users.Keys <= e.users.Keys && stored.roles.Keys <= e.groups.Keys && stored.groups == map[])
  {
    var stored := w.db.entries[Key(topic.id, e.id)].acl;
    WriteChangesOne(w, topic, Merged(w.db, topic.id, e), now, f);
    MergeReplacesIff(stored.users, e.users);
    MergeReplacesIff(stored.roles, e.groups);
    assert Clean(stored.groups) == stored.groups && Clean(map[]) == map[];
  }

  lemma MergeReplacesIff(stored: RightsMap, remote: RightsMap)
    requires Clean(stored) == stored
    ensures Clean(stored + remote) == Clean(remote) <==> stored.Keys <= remote.Keys
  {
    if k :| k in stored && k !in remote {
      assert k in Clean(stored);
      assert k in Clean(stored + remote) && k !in Clean(remote);
    } else {
      assert stored + remote == remote;
    }
  }

  /** A bulk load does not ask for an admin user: the entry it writes has one exactly when the
      remote side names one or keeps a stored one untouched. */
  lemma LoadedAdminIff(w: World, topic: Topic, e: LoadElement, now: int, f: WriteFaults)
    requires f.write != Lost
    ensures var k := Key(topic.id, e.id);
            var after := Write(w, topic, Merged(w.db, topic.id, e), now, f).0.db.entries;
            && k in after
            && (after[k].acl.HasAdminUser() <==>
                || (exists u | u in e.users :: e.users[u].administrate)
                || (k in w.db.entries && exists u | u in w.db.entries[k].acl.users ::
                    u !in e.users && w.db.entries[k].acl.users[u].administrate))
  {
    var k := Key(topic.id, e.id);
    var r := Merged(w.db, topic.id, e);
    WriteChangesOne(w, topic, r, now, f);
    NormIdempotent(r.perms);
    var users := r.perms.Plain().users;
    if u :| u in e.users && e.users[u].administrate { assert users[u].administrate; }
    if k in w.db.entries {
      var stored := w.db.entries[k].acl.users;
      if u :| u in stored && u !in e.users && stored[u].administrate { assert users[u].administrate; }
    }
  }
}
