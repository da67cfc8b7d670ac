/** What a retry pass achieves (pkg/controller/controller.go, RetryPublishOfUnsyncedResources),
    whatever fails on the way. */
module RetryPass {
  import opened Model
  import opened Store
  import opened Effects
  import opened Rules

  /** This resource's message went out. */
  predicate Delivers(topics: map<string, Topic>, r: Resource, f: RetryFaults) {
    f.look && r.topicId in topics && topics[r.topicId].Publishes() && f.publish != Lost
  }

  /** This resource's publish succeeded (or had nowhere to go) and its mark took effect. */
  predicate Flags(topics: map<string, Topic>, r: Resource, f: RetryFaults) {
    f.look && r.topicId in topics && (topics[r.topicId].Publishes() ==> f.publish == Done) && f.mark != Lost
  }

  /** Distinct resources whose entries are stored and unsynced. */
  ghost predicate Outstanding(entries: map<Key, Entry>, rs: seq<Resource>) {
    && (forall i, j | 0 <= i < j < |rs| :: KeyOf(rs[i]) != KeyOf(rs[j]))
    && (forall i | 0 <= i < |rs| :: KeyOf(rs[i]) in entries && !entries[KeyOf(rs[i])].synced)
  }

  lemma ListedIsOutstanding(entries: map<Key, Entry>, bound: int, rs: seq<Resource>)
    requires ListsOverdue(entries, bound, rs)
    ensures Outstanding(entries, rs)
  {
  }

  ghost function Unsynced(db: Db): set<Key> {
    set k | k in db.entries && !db.entries[k].synced
  }

  ghost function FlaggedIndexes(topics: map<string, Topic>, rs: seq<Resource>, faults: nat -> RetryFaults): set<nat> {
    set i: nat | i < |rs| && Flags(topics, rs[i], faults(i))
  }

  /** The messages that went out, in listed order: at most one for each listed resource. */
  function Deliveries(topics: map<string, Topic>, rs: seq<Resource>, faults: nat -> RetryFaults): (r: seq<Message>)
    ensures |r| <= |rs|
  {
    if rs == [] then []
    else
      var n := |rs| - 1;
      Deliveries(topics, rs[..n], faults) +
      if Delivers(topics, rs[n], faults(n)) then [Message(topics[rs[n].topicId].kafka, rs[n].id, rs[n].perms.Plain())]
      else []
  }

  /** Rights, timestamps, keys and topics stay; every resource is published at most once, and
      whether it is depends on its own faults alone. */
  lemma {:induction false} PassKeeps(w: World, rs: seq<Resource>, faults: nat -> RetryFaults)
    ensures var w' := RetryAll(w, rs, faults);
            && w'.db.topics == w.db.topics
            && w'.db.entries.Keys == w.db.entries.Keys
            && (forall k | k in w.db.entries :: w'.db.entries[k].(synced := w.db.entries[k].synced) == w.db.entries[k])
            && w'.log == w.log + Deliveries(w.db.topics, rs, faults)
  {
    if rs == [] {
    } else {
      PassKeeps(w, rs[..|rs| - 1], faults);
    }
  }

  lemma LastFlag(w: World, m: World, r: Resource, f: RetryFaults)
    requires Consistent(w.db) && m.db.topics == w.db.topics
    ensures Retry(m, r, f).db.entries ==
            if Flags(w.db.topics, r, f) then Marked(m.db.entries, KeyOf(r)) else m.db.entries
  {
  }

  lemma {:induction false} PassSkips(w: World, rs: seq<Resource>, faults: nat -> RetryFaults, k: Key)
    requires Consistent(w.db) && k in w.db.entries
    requires forall i | 0 <= i < |rs| :: KeyOf(rs[i]) != k
    ensures k in RetryAll(w, rs, faults).db.entries && RetryAll(w, rs, faults).db.entries[k] == w.db.entries[k]
  {
    hide Retry, Flags, Delivers, Deliveries, Consistent;
    if rs == [] {
    } else {
      var n := |rs| - 1;
      assert forall i | 0 <= i < n :: rs[..n][i] == rs[i];
      PassKeeps(w, rs[..n], faults);
      PassSkips(w, rs[..n], faults, k);
      LastFlag(w, RetryAll(w, rs[..n], faults), rs[n], faults(n));
    }
  }

  lemma {:induction false} PassFlag(w: World, rs: seq<Resource>, faults: nat -> RetryFaults, i: nat)
    requires Consistent(w.db) && Outstanding(w.db.entries, rs) && i < |rs|
    ensures KeyOf(rs[i]) in RetryAll(w, rs, faults).db.entries
    ensures RetryAll(w, rs, faults).db.entries[KeyOf(rs[i])].synced == Flags(w.db.topics, rs[i], faults(i))
  {
    var n := |rs| - 1;
    assert forall j | 0 <= j < n :: rs[..n][j] == rs[j];
    assert Outstanding(w.db.entries, rs[..n]);
    assert KeyOf(rs[i]) in w.db.entries && !w.db.entries[KeyOf(rs[i])].synced;
    hide Retry, Flags, Delivers, Deliveries, Consistent;
    PassKeeps(w, rs[..n], faults);
    if i < n { PassFlag(w, rs[..n], faults, i); } else { PassSkips(w, rs[..n], faults, KeyOf(rs[n])); }
    LastFlag(w, RetryAll(w, rs[..n], faults), rs[n], faults(n));
  }

  /** Exactly the flags of the resources published and marked are set, each according to its own
      faults alone: a failure does not stop the pass. */
  lemma PassFlags(w: World, rs: seq<Resource>, faults: nat -> RetryFaults)
    requires Consistent(w.db) && Outstanding(w.db.entries, rs)
    ensures RetryAll(w, rs, faults).db.entries.Keys == w.db.entries.Keys
    ensures forall k | k in w.db.entries && (forall i | 0 <= i < |rs| :: KeyOf(rs[i]) != k) ::
              RetryAll(w, rs, faults).db.entries[k] == w.db.entries[k]
    ensures forall i | 0 <= i < |rs| ::
              RetryAll(w, rs, faults).db.entries[KeyOf(rs[i])].synced == Flags(w.db.topics, rs[i], faults(i))
  {
    hide RetryAll, Flags;
    PassKeeps(w, rs, faults);
    forall k | k in w.db.entries && (forall i | 0 <= i < |rs| :: KeyOf(rs[i]) != k)
      ensures RetryAll(w, rs, faults).db.entries[k] == w.db.entries[k]
    {
      PassSkips(w, rs, faults, k);
    }
    forall i | 0 <= i < |rs|
      ensures RetryAll(w, rs, faults).db.entries[KeyOf(rs[i])].synced == Flags(w.db.topics, rs[i], faults(i))
    {
      PassFlag(w, rs, faults, i);
    }
  }

  lemma IndexesStep(topics: map<string, Topic>, rs: seq<Resource>, faults: nat -> RetryFaults)
    requires rs != []
    ensures |FlaggedIndexes(topics, rs, faults)| ==
            |FlaggedIndexes(topics, rs[..|rs| - 1], faults)| +
            if Flags(topics, rs[|rs| - 1], faults(|rs| - 1)) then 1 else 0
  {
    var n := |rs| - 1;
    var earlier := FlaggedIndexes(topics, rs[..n], faults);
    assert FlaggedIndexes(topics, rs, faults) == if Flags(topics, rs[n], faults(n)) then earlier + {n} else earlier;
  }

  lemma UnsyncedStep(before: Db, after: Db, k: Key)
    requires k in before.entries && !before.entries[k].synced
    requires after.entries == before.entries[k := before.entries[k].(synced := true)]
    ensures |Unsynced(after)| + 1 == |Unsynced(before)|
  {
    assert Unsynced(after) == Unsynced(before) - {k};
  }

  /** The number of unsynced entries falls by exactly the number of resources published and marked. */
  lemma {:induction false} PassCounts(w: World, rs: seq<Resource>, faults: nat -> RetryFaults)
    requires Consistent(w.db) && Outstanding(w.db.entries, rs)
    ensures |Unsynced(RetryAll(w, rs, faults).db)| + |FlaggedIndexes(w.db.topics, rs, faults)| == |Unsynced(w.db)|
  {
    if rs == [] {
      assert FlaggedIndexes(w.db.topics, rs, faults) == {};
    } else {
      var n := |rs| - 1;
      var before, k := rs[..n], KeyOf(rs[n]);
      PassCounts(w, before, faults);
      IndexesStep(w.db.topics, rs, faults);
      var m := RetryAll(w, before, faults);
      assert k in m.db.entries && m.db.entries[k] == w.db.entries[k] && m.db.topics == w.db.topics by {
        assert forall i | 0 <= i < n :: before[i] == rs[i];
        PassSkips(w, before, faults, k);
        PassKeeps(w, before, faults);
      }
      LastFlag(w, m, rs[n], faults(n));
      if Flags(w.db.topics, rs[n], faults(n)) {
        UnsyncedStep(m.db, RetryAll(w, rs, faults).db, k);
      }
    }
  }

  /** A pass without faults flags exactly the entries older than the bound, in existing topics, so that
      nothing overdue is left in them. */
  lemma PassClears(w: World, bound: int, rs: seq<Resource>, faults: nat -> RetryFaults, k: Key)
    requires Consistent(w.db) && ListsOverdue(w.db.entries, bound, rs)
    requires forall i: nat :: faults(i) == RetryFaults(true, Done, Done)
    requires k in w.db.entries
    ensures var before, after := w.db.entries[k], RetryAll(w, rs, faults).db.entries;
            && k in after
            && (after[k].synced <==> before.synced || (before.timestamp < bound && k.topicId in w.db.topics))
  {
    ListedIsOutstanding(w.db.entries, bound, rs);
    PassFlags(w, rs, faults);
    PassKeeps(w, rs, faults);
    if Overdue(w.db.entries[k], bound) {
      var r :| r in rs && KeyOf(r) == k;
      var i :| 0 <= i < |rs| && rs[i] == r;
      assert Flags(w.db.topics, rs[i], faults(i)) <==> k.topicId in w.db.topics;
    } else if i :| 0 <= i < |rs| && KeyOf(rs[i]) == k {
      assert rs[i] in rs;
    }
  }
}
