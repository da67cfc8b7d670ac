/** What an export lists and what an import takes, for every choice of options and filters. */
module Exchange {
  import opened Model
  import opened Order
  import opened Store
  import opened Effects
  import opened Rules
  import opened Runs
  import opened Access
  import opened Transfer

  /** The filter by topics, and the one by resource ids, let this one pass; no filter lets all pass. */
  predicate Wanted(o: Options, r: Resource) {
    && (o.topics.None? || r.topicId in o.topics.value)
    && (o.ids.None? || r.id in o.ids.value)
  }

  /** The filter by topics compares the id as given, even where an empty one is filled in later. */
  predicate WantedTopic(o: Options, topic: Topic) {
    o.topics.None? || topic.id in o.topics.value
  }

  // Export

  lemma ByKeyOrders()
    ensures TotalOrder(ByKey)
  {
    forall a: Resource, b: Resource ensures ByKey(a, b) || ByKey(b, a) {
      LessTotal(a.topicId, b.topicId);
      LessTotal(a.id, b.id);
      if Less(a.id, b.id) && Less(b.id, a.id) { LessTransitive(a.id, b.id, a.id); LessIrreflexive(a.id); }
    }
    forall a: Resource, b: Resource, c: Resource | ByKey(a, b) && ByKey(b, c) ensures ByKey(a, c) {
      if Less(a.topicId, b.topicId) && Less(b.topicId, c.topicId) {
        LessTransitive(a.topicId, b.topicId, c.topicId);
      }
      if Less(c.id, a.id) {
        LessTotal(a.id, b.id);
        if Less(a.id, b.id) { LessTransitive(c.id, a.id, b.id); }
      }
    }
  }

  /** An ascending list holds nothing twice. */
  lemma {:induction false} AscendingOnce(s: seq<string>, x: string)
    requires Ascending(s)
    ensures multiset(s)[x] == if x in s then 1 else 0
  {
    if s != [] {
      AscendingOnce(s[1..], x);
      TailElements(s, x);
      assert s == [s[0]] + s[1..];
    }
  }

  lemma {:induction false} ListedOnce(acls: map<Key, Acl>, topicId: string, ids: seq<string>, r: Resource)
    requires forall id | id in ids :: Key(topicId, id) in acls
    ensures multiset(ResourcesAt(acls, topicId, ids))[r] ==
            if r.topicId == topicId && KeyOf(r) in acls && r.perms == ToPerms(acls[KeyOf(r)]) then multiset(ids)[r.id]
            else 0
  {
    if ids != [] {
      var rs := ResourcesAt(acls, topicId, ids);
      ListedOnce(acls, topicId, ids[1..], r);
      assert ids == [ids[0]] + ids[1..];
      assert rs == [rs[0]] + ResourcesAt(acls, topicId, ids[1..]);
    }
  }

  /** A stored resource whose id passes is listed as often as its topic. */
  lemma {:induction false} AllListedOften(acls: map<Key, Acl>, topicIds: seq<string>, ids: Option<seq<string>>,
                                          r: Resource)
    ensures multiset(AllResources(acls, topicIds, ids))[r] ==
            if (ids.None? || r.id in ids.value) && KeyOf(r) in acls && r.perms == ToPerms(acls[KeyOf(r)])
            then multiset(topicIds)[r.topicId]
            else 0
  {
    if topicIds != [] {
      var n := |topicIds| - 1;
      var chosen := Sorted(ChosenIds(acls, topicIds[n], ids));
      AllListedOften(acls, topicIds[..n], ids, r);
      ChosenStored(acls, topicIds[n], ids);
      ListedOnce(acls, topicIds[n], chosen, r);
      AscendingOnce(chosen, r.id);
      assert topicIds == topicIds[..n] + [topicIds[n]];
      if r.topicId == topicIds[n] && KeyOf(r) in acls { assert r.id in StoredIds(acls, topicIds[n]); }
    }
  }

  /** The resources of an export: without a filter by topics each stored resource of a stored topic
      once, with one each stored resource as often as the filter names its topic; in either case only
      those with a wanted id. They are ordered by topic and then by id. */
  lemma ExportedResources(db: Db, o: Options, r: Resource)
    ensures var stored := KeyOf(r) in db.entries && r.perms == ToPerms(db.entries[KeyOf(r)].acl);
            multiset(Exported(db, o).permissions)[r] ==
            if !o.permissions || !stored || !Wanted(o, r) then 0
            else if o.topics.Some? then multiset(o.topics.value)[r.topicId]
            else if r.topicId in db.topics then 1 else 0
    ensures SortedBy(Exported(db, o).permissions, (a: Resource, b: Resource) =>
              Less(a.topicId, b.topicId) || (a.topicId == b.topicId && !Less(b.id, a.id)))
  {
    var names := if o.topics.None? then Sorted(db.topics.Keys) else o.topics.value;
    AllListedOften(db.Acls(), names, o.ids, r);
    AscendingOnce(Sorted(db.topics.Keys), r.topicId);
    SortCorrect(AllResources(db.Acls(), names, o.ids), ByKey);
    ByKeyOrders();
  }

  /** The topics of an export: each stored one that is wanted, once, in ascending order of the ids. */
  lemma ExportedTopics(db: Db, o: Options)
    requires Consistent(db)
    ensures var topics := Exported(db, o).topics;
            && (forall t: Topic ::
                  t in topics <==>
                  o.topicConfig && t.id in db.topics && t == db.topics[t.id] && WantedTopic(o, t))
            && forall i, j | 0 <= i < j < |topics| :: Less(topics[i].id, topics[j].id)
  {
    var ids, topics := Sorted(ChosenTopics(db, o.topics)), Exported(db, o).topics;
    assert forall i | 0 <= i < |topics| :: ids[i] in ids && topics[i].id == ids[i];
    forall t: Topic
      ensures t in topics <==> o.topicConfig && t.id in db.topics && t == db.topics[t.id] && WantedTopic(o, t)
    {
      if t in topics {
        var i :| 0 <= i < |topics| && topics[i] == t;
        assert ids[i] in ids;
      }
      if o.topicConfig && t.id in db.topics && t == db.topics[t.id] && WantedTopic(o, t) {
        assert t.id in ids;
        var i :| 0 <= i < |ids| && ids[i] == t.id;
        assert topics[i] == t;
      }
    }
  }

  // Import of resources

  predicate Storable(topics: map<string, Topic>, r: Resource) {
    r.topicId in topics && exists u | u in OrEmpty(r.perms.users) :: OrEmpty(r.perms.users)[u].administrate
  }

  /** The write of a resource of this topic reports no error. */
  predicate Unhindered(topic: Topic, f: WriteFaults) {
    f.write == Done && (topic.kafka == "" || topic.kafka == "-" || f.publish != Done || f.mark == Done)
  }

  /** Nothing wanted between i and j ends the import. */
  ghost predicate Passes(topics: map<string, Topic>, rs: seq<Resource>, o: Options, io: nat -> Io, i: nat, j: nat)
    requires j <= |rs|
  {
    forall n | i <= n < j && Wanted(o, rs[n]) ::
      Storable(topics, rs[n]) && Unhindered(topics[rs[n].topicId], io(n).faults)
  }

  /** The import gets to the resource at j, and its write takes effect. */
  ghost predicate Stores(topics: map<string, Topic>, rs: seq<Resource>, o: Options, io: nat -> Io, i: nat, j: nat)
  {
    && i <= j < |rs| && Wanted(o, rs[j]) && Storable(topics, rs[j]) && io(j).faults.write != Lost
    && Passes(topics, rs, o, io, i, j)
  }

  /** The last one stored under this key. */
  ghost predicate StoresLast(topics: map<string, Topic>, rs: seq<Resource>, o: Options, io: nat -> Io, i: nat, k: Key,
                             j: nat)
  {
    && Stores(topics, rs, o, io, i, j) && KeyOf(rs[j]) == k
    && forall m | j < m < |rs| && Stores(topics, rs, o, io, i, m) :: KeyOf(rs[m]) != k
  }

  ghost predicate SameAt(a: map<Key, Entry>, b: map<Key, Entry>, k: Key) {
    (k in a <==> k in b) && (k in a ==> a[k] == b[k])
  }

  /** What the import leaves under a key: the last resource stored there is there with its rights, and
      where none was stored nothing changes. */
  ghost predicate LeavesAt(topics: map<string, Topic>, before: map<Key, Entry>, after: map<Key, Entry>,
                           rs: seq<Resource>, o: Options, io: nat -> Io, i: nat, k: Key)
  {
    && (forall j: nat | StoresLast(topics, rs, o, io, i, k, j) :: k in after && after[k].acl == rs[j].perms.Norm())
    && ((forall j: nat | Stores(topics, rs, o, io, i, j) :: KeyOf(rs[j]) != k) ==> SameAt(after, before, k))
  }

  lemma PassesStep(topics: map<string, Topic>, rs: seq<Resource>, o: Options, io: nat -> Io, i: nat, j: nat)
    requires i < j <= |rs|
    ensures Passes(topics, rs, o, io, i, j) <==>
            && (Wanted(o, rs[i]) ==> Storable(topics, rs[i]) && Unhindered(topics[rs[i].topicId], io(i).faults))
            && Passes(topics, rs, o, io, i + 1, j)
  {
  }

  lemma StoresStep(topics: map<string, Topic>, rs: seq<Resource>, o: Options, io: nat -> Io, i: nat, next: nat)
    requires i < |rs| && next == i + 1
    ensures forall j: nat | j <= i :: Stores(topics, rs, o, io, i, j) <==>
              j == i && Wanted(o, rs[i]) && Storable(topics, rs[i]) && io(i).faults.write != Lost
    ensures forall j: nat | i < j :: Stores(topics, rs, o, io, i, j) <==>
              && Stores(topics, rs, o, io, next, j)
              && (Wanted(o, rs[i]) ==> Storable(topics, rs[i]) && Unhindered(topics[rs[i].topicId], io(i).faults))
    ensures forall j: nat | Stores(topics, rs, o, io, next, j) :: i < j
  {
    forall j: nat | i < j < |rs|
      ensures Passes(topics, rs, o, io, i, j) <==>
              && (Wanted(o, rs[i]) ==> Storable(topics, rs[i]) && Unhindered(topics[rs[i].topicId], io(i).faults))
              && Passes(topics, rs, o, io, i + 1, j)
    {
      PassesStep(topics, rs, o, io, i, j);
    }
    assert Passes(topics, rs, o, io, i, i);
    hide Passes, Wanted, Storable, Unhindered;
  }

  lemma ImportStep(w: World, rs: seq<Resource>, o: Options, io: nat -> Io, i: nat)
    requires i < |rs|
    ensures ImportResources(w, rs, o, io, i) ==
            if !Wanted(o, rs[i]) then ImportResources(w, rs, o, io, i + 1)
            else if !Storable(w.db.topics, rs[i]) then (w, Some(400))
            else
              var (v, ok) := Write(w, w.db.topics[rs[i].topicId], rs[i], io(i).now, io(i).faults);
              if ok then ImportResources(v, rs, o, io, i + 1) else (v, Some(500))
  {
    hide Write;
  }

  /** The import of resources ends without error if all wanted resources pass, with 400 if the first
      that does not cannot be stored, else with 500. */
  lemma {:induction false} ImportEnds(w: World, rs: seq<Resource>, o: Options, io: nat -> Io, i: nat)
    requires i <= |rs| && forall id | id in w.db.topics :: w.db.topics[id].id == id
    ensures var e := ImportResources(w, rs, o, io, i).1;
            && (e.None? <==> Passes(w.db.topics, rs, o, io, i, |rs|))
            && (e == Some(400) <==>
                  exists n :: i <= n < |rs| && Passes(w.db.topics, rs, o, io, i, n)
                                && Wanted(o, rs[n]) && !Storable(w.db.topics, rs[n]))
            && (e == Some(500) <==>
                  exists n :: i <= n < |rs| && Passes(w.db.topics, rs, o, io, i, n)
                                && Wanted(o, rs[n]) && Storable(w.db.topics, rs[n])
                                && !Unhindered(w.db.topics[rs[n].topicId], io(n).faults))
            && (e.Some? ==> e.value == 400 || e.value == 500)
    decreases |rs| - i
  {
    var topics := w.db.topics;
    assert Passes(topics, rs, o, io, i, i);
    hide Passes, Write, Unhindered;
    if i < |rs| {
      ImportStep(w, rs, o, io, i);
      hide ImportResources, Wanted, Storable;
      forall n | i < n <= |rs|
        ensures Passes(topics, rs, o, io, i, n) <==>
                && (Wanted(o, rs[i]) ==> Storable(topics, rs[i]) && Unhindered(topics[rs[i].topicId], io(i).faults))
                && Passes(topics, rs, o, io, i + 1, n)
      {
        PassesStep(topics, rs, o, io, i, n);
      }
      if !Wanted(o, rs[i]) {
        ImportEnds(w, rs, o, io, i + 1);
      } else if Storable(topics, rs[i]) {
        var topic := topics[rs[i].topicId];
        WriteStores(w, topic, rs[i], io(i).now, io(i).faults);
        ImportEnds(Write(w, topic, rs[i], io(i).now, io(i).faults).0, rs, o, io, i + 1);
      }
    }
  }

  /** The first resource stores nothing, and the others are left as from the next on. */
  lemma LeavesLater(topics: map<string, Topic>, before: map<Key, Entry>, after: map<Key, Entry>, rs: seq<Resource>,
                    o: Options, io: nat -> Io, i: nat, k: Key)
    requires i < |rs| && !Wanted(o, rs[i]) && LeavesAt(topics, before, after, rs, o, io, i + 1, k)
    ensures LeavesAt(topics, before, after, rs, o, io, i, k)
  {
    StoresStep(topics, rs, o, io, i, i + 1);
    hide Stores, SameAt, Wanted;
  }

  /** Just this entry is changed, if anything, to these rights. */
  ghost predicate Stored(before: map<Key, Entry>, after: map<Key, Entry>, r: Resource, stores: bool) {
    && (forall k | !stores || k != KeyOf(r) :: SameAt(after, before, k))
    && (stores ==> KeyOf(r) in after && after[KeyOf(r)].acl == r.perms.Norm())
  }

  lemma WriteStores(w: World, topic: Topic, r: Resource, now: int, f: WriteFaults)
    requires r.topicId == topic.id
    ensures var (w', ok) := Write(w, topic, r, now, f);
            && w'.db.topics == w.db.topics
            && Stored(w.db.entries, w'.db.entries, r, f.write != Lost)
            && (ok <==> Unhindered(topic, f))
  {
    WriteAnswers(w, topic, r, now, f);
    hide Write;
  }

  /** The first resource is stored, if its write takes effect, and the import goes on, if it passes. */
  lemma LeavesNext(topics: map<string, Topic>, before: map<Key, Entry>, between: map<Key, Entry>,
                   after: map<Key, Entry>, rs: seq<Resource>, o: Options, io: nat -> Io, i: nat, k: Key)
    requires i < |rs| && Wanted(o, rs[i])
    requires Stored(before, between, rs[i], Storable(topics, rs[i]) && io(i).faults.write != Lost)
    requires var passes := Storable(topics, rs[i]) && Unhindered(topics[rs[i].topicId], io(i).faults);
             if passes then LeavesAt(topics, between, after, rs, o, io, i + 1, k) else after == between
    ensures LeavesAt(topics, before, after, rs, o, io, i, k)
  {
    StoresStep(topics, rs, o, io, i, i + 1);
    var stores := Storable(topics, rs[i]) && io(i).faults.write != Lost;
    assert if stores && k == KeyOf(rs[i]) then k in between && between[k].acl == rs[i].perms.Norm()
           else SameAt(between, before, k);
    assert SameAt(after, between, k) && SameAt(between, before, k) ==> SameAt(after, before, k);
    assert SameAt(after, between, k) && k in between ==> k in after && after[k] == between[k];
    assert after == between ==> SameAt(after, between, k);
    hide Stores, Stored, SameAt, KeyOf, Storable, Wanted, Unhindered;
  }

  /** It leaves that under every key, whatever fails. */
  lemma {:induction false} ImportLeaves(w: World, rs: seq<Resource>, o: Options, io: nat -> Io, i: nat, k: Key)
    requires i <= |rs| && forall id | id in w.db.topics :: w.db.topics[id].id == id
    ensures var w' := ImportResources(w, rs, o, io, i).0;
            && w'.db.topics == w.db.topics
            && LeavesAt(w.db.topics, w.db.entries, w'.db.entries, rs, o, io, i, k)
    decreases |rs| - i
  {
    var topics := w.db.topics;
    if i < |rs| {
      assert Stored(w.db.entries, w.db.entries, rs[i], false);
      ImportStep(w, rs, o, io, i);
      hide LeavesAt, Write, Stored, Unhindered, ImportResources, Wanted, Storable;
      var w', r, f := ImportResources(w, rs, o, io, i).0, rs[i], io(i).faults;
      if !Wanted(o, r) {
        ImportLeaves(w, rs, o, io, i + 1, k);
        LeavesLater(topics, w.db.entries, w'.db.entries, rs, o, io, i, k);
      } else if Storable(topics, r) {
        var v := Write(w, topics[r.topicId], r, io(i).now, f).0;
        WriteStores(w, topics[r.topicId], r, io(i).now, f);
        if Unhindered(topics[r.topicId], f) {
          ImportLeaves(v, rs, o, io, i + 1, k);
          LeavesNext(topics, w.db.entries, v.db.entries, w'.db.entries, rs, o, io, i, k);
        } else {
          LeavesNext(topics, w.db.entries, v.db.entries, v.db.entries, rs, o, io, i, k);
        }
      } else {
        LeavesNext(topics, w.db.entries, w.db.entries, w.db.entries, rs, o, io, i, k);
      }
    }
  }

  // Import of topics

  /** All topics wanted between i and j are acceptable. */
  ghost predicate AllAcceptable(ts: seq<Topic>, o: Options, i: nat, j: nat)
    requires j <= |ts|
  {
    forall n | i <= n < j && WantedTopic(o, ts[n]) :: Acceptable(ts[n])
  }

  /** The import gets to the topic at j and sets it. */
  ghost predicate Sets(ts: seq<Topic>, o: Options, i: nat, j: nat) {
    i <= j < |ts| && WantedTopic(o, ts[j]) && AllAcceptable(ts, o, i, j + 1)
  }

  ghost predicate SetsLast(ts: seq<Topic>, o: Options, i: nat, id: string, j: nat) {
    && Sets(ts, o, i, j) && StoredId(ts[j]) == id
    && forall m | j < m < |ts| && Sets(ts, o, i, m) :: StoredId(ts[m]) != id
  }

  /** What it leaves under an id: a topic like the last one set there, or what was there. */
  ghost predicate LeavesTopic(before: map<string, Topic>, after: map<string, Topic>, ts: seq<Topic>, o: Options,
                              i: nat, id: string)
  {
    && (forall j: nat | SetsLast(ts, o, i, id, j) :: id in after && Alike(after[id], ts[j]))
    && ((forall j: nat | Sets(ts, o, i, j) :: StoredId(ts[j]) != id) ==> AgreeAt(after, before, id))
  }

  lemma SetsStep(ts: seq<Topic>, o: Options, i: nat, next: nat)
    requires i < |ts| && next == i + 1
    ensures forall j: nat | j <= i :: Sets(ts, o, i, j) <==> j == i && WantedTopic(o, ts[i]) && Acceptable(ts[i])
    ensures forall j: nat | i < j ::
              Sets(ts, o, i, j) <==> Sets(ts, o, next, j) && (WantedTopic(o, ts[i]) ==> Acceptable(ts[i]))
    ensures forall j: nat | Sets(ts, o, next, j) :: i < j
  {
    hide Acceptable, WantedTopic;
  }

  /** The import of topics leaves that under every id; the first wanted topic that is not acceptable
      ends it with 400. */
  lemma {:induction false} TopicsImported(w: World, t: Token, ts: seq<Topic>, o: Options, faults: nat -> Fault,
                                          i: nat, id: string)
    requires i <= |ts| && t.admin && forall j: nat :: faults(j) == Done
    ensures var (w', e) := ImportTopics(w, t, ts, o, faults, i);
            && w'.db.entries == w.db.entries && w'.log == w.log
            && e == (if AllAcceptable(ts, o, i, |ts|) then None else Some(400))
            && LeavesTopic(w.db.topics, w'.db.topics, ts, o, i, id)
    decreases |ts| - i
  {
    if i < |ts| {
      assert AllAcceptable(ts, o, i, |ts|) <==>
             (WantedTopic(o, ts[i]) ==> Acceptable(ts[i])) && AllAcceptable(ts, o, i + 1, |ts|);
      hide AllAcceptable, LeavesTopic, Alike, SetTopic;
      var w' := ImportTopics(w, t, ts, o, faults, i).0;
      if !WantedTopic(o, ts[i]) {
        TopicsImported(w, t, ts, o, faults, i + 1, id);
        TopicLater(w.db.topics, w'.db.topics, ts, o, i, id);
      } else {
        var v := SetTopic(w, t, ts[i], faults(i)).0;
        SetTopicAnswers(w, t, ts[i], faults(i), id);
        if Acceptable(ts[i]) { TopicsImported(v, t, ts, o, faults, i + 1, id); }
        TopicNext(w.db.topics, v.db.topics, w'.db.topics, ts, o, i, id);
      }
    }
  }

  lemma TopicLater(before: map<string, Topic>, after: map<string, Topic>, ts: seq<Topic>, o: Options, i: nat,
                   id: string)
    requires i < |ts| && !WantedTopic(o, ts[i]) && LeavesTopic(before, after, ts, o, i + 1, id)
    ensures LeavesTopic(before, after, ts, o, i, id)
  {
    SetsStep(ts, o, i, i + 1);
    hide Sets, Alike, AgreeAt, StoredId, WantedTopic;
  }

  lemma TopicNext(before: map<string, Topic>, between: map<string, Topic>, after: map<string, Topic>,
                  ts: seq<Topic>, o: Options, i: nat, id: string)
    requires i < |ts| && WantedTopic(o, ts[i])
    requires var sets := Acceptable(ts[i]);
             && (!sets || id != StoredId(ts[i]) ==> AgreeAt(between, before, id))
             && (sets && id == StoredId(ts[i]) ==> id in between && Alike(between[id], ts[i]))
             && if sets then LeavesTopic(between, after, ts, o, i + 1, id) else after == between
    ensures LeavesTopic(before, after, ts, o, i, id)
  {
    SetsStep(ts, o, i, i + 1);
    assert AgreeAt(after, between, id) && AgreeAt(between, before, id) ==> AgreeAt(after, before, id);
    assert AgreeAt(after, between, id) && id in between ==> id in after && after[id] == between[id];
    hide Sets, Acceptable, Alike, AgreeAt, StoredId, WantedTopic;
  }

  predicate AllStorable(topics: map<string, Topic>, rs: seq<Resource>, o: Options) {
    forall r | r in rs && Wanted(o, r) :: Storable(topics, r)
  }

  lemma StorablePass(topics: map<string, Topic>, rs: seq<Resource>, o: Options, io: nat -> Io)
    requires forall j: nat :: io(j).faults.write == Done && io(j).faults.mark == Done
    ensures AllStorable(topics, rs, o) <==> Passes(topics, rs, o, io, 0, |rs|)
  {
  }

  /** A whole import, as long as database calls succeed: admins only; what the options leave out stays;
      a topic that is refused keeps all resources from being imported; and without error exactly if
      nothing wanted is refused. */
  lemma ImportAnswers(w: World, t: Token, m: ImportExport, o: Options, faults: nat -> Fault, io: nat -> Io,
                      id: string, k: Key)
    requires DatabaseWorks(faults, io) && Consistent(w.db)
    ensures var (w', code) := Import(w, t, m, o, faults, io);
            var topicsPass := o.topicConfig ==> AllAcceptable(m.topics, o, 0, |m.topics|);
            && code == (if !t.admin then 403
                        else if topicsPass && (o.permissions ==> AllStorable(w'.db.topics, m.permissions, o)) then 200
                        else 400)
            && (if t.admin && o.topicConfig then LeavesTopic(w.db.topics, w'.db.topics, m.topics, o, 0, id)
                else AgreeAt(w'.db.topics, w.db.topics, id))
            && (if t.admin && o.permissions && topicsPass then
                  LeavesAt(w'.db.topics, w.db.entries, w'.db.entries, m.permissions, o, io, 0, k)
                else w'.db.entries == w.db.entries && w'.log == w.log)
  {
    if t.admin {
      var w1 := if o.topicConfig then ImportTopics(w, t, m.topics, o, faults, 0).0 else w;
      if o.topicConfig {
        TopicsImported(w, t, m.topics, o, faults, 0, id);
        ImportTopicsKeeps(w, t, m.topics, o, faults, 0);
      }
      StorablePass(w1.db.topics, m.permissions, o, io);
      hide ImportTopics, ImportResources, AllAcceptable, LeavesTopic, LeavesAt, Passes, AllStorable;
      ImportEnds(w1, m.permissions, o, io, 0);
      ImportLeaves(w1, m.permissions, o, io, 0, k);
    }
  }
}
