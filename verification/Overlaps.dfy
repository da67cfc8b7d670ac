/** Which calls may overlap: the condition under which every interleaving of writers, retry passes
    and deletes is safe, and the runs that go wrong without it. */
module Overlaps {
  import opened Model
  import opened Store
  import opened Effects
  import opened Outbox

  /** The step stores topics as configured and begins writes of these resources only. */
  predicate Allowed(ch: Channels, rs: set<Resource>, step: Step) {
    KeepsChannels(ch, step) && (step.BeginWrite? ==> step.r in rs)
  }

  ghost predicate AllowedRun(ch: Channels, rs: set<Resource>, states: seq<State>, steps: seq<Step>) {
    IsRun(states, steps) && forall step | step in steps :: Allowed(ch, rs, step)
  }

  /** Whatever interleaves, fails or crashes, runs that write these resources only are safe. */
  ghost predicate AlwaysSafe(ch: Channels, rs: set<Resource>) {
    forall states: seq<State>, steps: seq<Step> | AllowedRun(ch, rs, states, steps) :: Safe(states[|steps|].w, ch)
  }

  ghost predicate AllAgree(ch: Channels, rs: set<Resource>) {
    forall a, b | a in rs && b in rs :: Agree(ch, a, b)
  }

  // Agreement is enough

  /** These rights were to be written under this key. */
  ghost predicate IsWritten(rs: set<Resource>, k: Key, acl: Acl) {
    exists r | r in rs :: KeyOf(r) == k && r.perms.Norm() == acl
  }

  /** Stored entries and calls in flight carry only what was to be written. */
  ghost predicate OnlyWritten(s: State, rs: set<Resource>) {
    && (forall k | k in s.w.db.entries :: s.w.db.entries[k].acl.IsNormal())
    && (forall k | k in s.w.db.entries :: IsWritten(rs, k, s.w.db.entries[k].acl))
    && (forall c, x | c in s.calls && x in Carried(s.calls[c]) :: IsWritten(rs, KeyOf(x), x.perms.Norm()))
  }

  lemma StoreKeepsOnlyWritten(s: State, rs: set<Resource>, step: Step)
    requires step.Store? && Enabled(s, step) && OnlyWritten(s, rs)
    ensures OnlyWritten(Apply(s, step), rs)
  {
    var s' := Apply(s, step);
    var r := s.calls[step.c].r;
    NormIdempotent(r.perms);
    assert r in Carried(s.calls[step.c]);
    assert IsWritten(rs, KeyOf(r), r.perms.Norm());
    forall c | c in s'.calls ensures Carried(s'.calls[c]) <= Carried(s.calls[c]) { }
  }

  lemma StepKeepsOnlyWritten(s: State, ch: Channels, rs: set<Resource>, step: Step)
    requires Enabled(s, step) && Allowed(ch, rs, step) && OnlyWritten(s, rs)
    ensures OnlyWritten(Apply(s, step), rs)
  {
    if step.Store? {
      StoreKeepsOnlyWritten(s, rs, step);
    } else {
      var s' := Apply(s, step);
      hide IsWritten;
      forall c, x | c in s'.calls && x in Carried(s'.calls[c]) ensures IsWritten(rs, KeyOf(x), x.perms.Norm()) {
        if c in s.calls && x in Carried(s.calls[c]) {
        } else if step.BeginRetry? {
          assert s.w.db.entries[KeyOf(x)].acl == x.perms.Norm();
        } else {
          NewlyWritten(rs, x);
        }
      }
    }
  }

  lemma NewlyWritten(rs: set<Resource>, r: Resource)
    requires r in rs
    ensures IsWritten(rs, KeyOf(r), r.perms.Norm())
  {
  }

  lemma {:induction false} RunOnlyWritten(ch: Channels, rs: set<Resource>, states: seq<State>, steps: seq<Step>, i: nat)
    requires AllowedRun(ch, rs, states, steps) && i < |states|
    ensures OnlyWritten(states[i], rs)
  {
    if i == 0 {
    } else {
      RunOnlyWritten(ch, rs, states, steps, i - 1);
      assert steps[i - 1] in steps;
      StepKeepsOnlyWritten(states[i - 1], ch, rs, steps[i - 1]);
    }
  }

  lemma WrittenAgree(s: State, ch: Channels, rs: set<Resource>)
    requires OnlyWritten(s, rs) && AllAgree(ch, rs)
    ensures Agreeing(s, ch)
  {
    forall c, d, x, y | c in s.calls && d in s.calls && c != d && x in Carried(s.calls[c]) && y in Carried(s.calls[d])
      ensures Agree(ch, x, y)
    {
      assert IsWritten(rs, KeyOf(x), x.perms.Norm()) && IsWritten(rs, KeyOf(y), y.perms.Norm());
      var a :| a in rs && KeyOf(a) == KeyOf(x) && a.perms.Norm() == x.perms.Norm();
      var b :| b in rs && KeyOf(b) == KeyOf(y) && b.perms.Norm() == y.perms.Norm();
      assert Agree(ch, a, b);
    }
  }

  lemma AgreementSuffices(ch: Channels, rs: set<Resource>)
    requires OwnChannels(ch) && AllAgree(ch, rs)
    ensures AlwaysSafe(ch, rs)
  {
    forall states: seq<State>, steps: seq<Step> | AllowedRun(ch, rs, states, steps)
      ensures Safe(states[|steps|].w, ch)
    {
      forall s | s in states ensures Agreeing(s, ch) {
        var i :| 0 <= i < |states| && states[i] == s;
        RunOnlyWritten(ch, rs, states, steps, i);
        WrittenAgree(s, ch, rs);
      }
      OutboxSafety(states, steps, ch, |steps|);
    }
  }

  // Building runs

  /** Extends a run by one step; agreement of calls in flight is kept if the new state has it. */
  lemma RunStep(ch: Channels, rs: set<Resource>, states: seq<State>, steps: seq<Step>, step: Step, s': State)
    returns (states': seq<State>, steps': seq<Step>)
    requires AllowedRun(ch, rs, states, steps) && Allowed(ch, rs, step)
    requires Enabled(states[|steps|], step) && Apply(states[|steps|], step) == s'
    ensures AllowedRun(ch, rs, states', steps') && states'[|steps'|] == s' && steps' == steps + [step]
    ensures (forall x | x in states :: Agreeing(x, ch)) && Agreeing(s', ch) ==>
              forall x | x in states' :: Agreeing(x, ch)
  {
    states' := states + [s'];
    steps' := steps + [step];
  }

  /** One writer, begun and stored. */
  lemma WriterStores(ch: Channels, rs: set<Resource>, states: seq<State>, steps: seq<Step>, s: State, c: nat,
                     r: Resource)
    returns (states': seq<State>, steps': seq<Step>, s': State)
    requires AllowedRun(ch, rs, states, steps) && states[|steps|] == s && r in rs
    requires c !in s.calls && r.topicId in s.w.db.topics && s.w.db.topics[r.topicId].Publishes()
    ensures AllowedRun(ch, rs, states', steps') && states'[|steps'|] == s'
    ensures s' == State(Put(s.w, r, 0, false), s.calls[c := Sending(s.w.db.topics[r.topicId], r, [])])
    ensures steps' == steps + [BeginWrite(c, r), Store(c, 0, Done)]
    ensures s.calls == map[] && (forall x | x in states :: Agreeing(x, ch)) ==>
              forall x | x in states' :: Agreeing(x, ch)
  {
    var topic := s.w.db.topics[r.topicId];
    var m := State(s.w, s.calls[c := Storing(topic, r)]);
    s' := State(Put(s.w, r, 0, false), s.calls[c := Sending(topic, r, [])]);
    states', steps' := RunStep(ch, rs, states, steps, BeginWrite(c, r), m);
    assert m.calls[c := Sending(topic, r, [])] == s'.calls;
    states', steps' := RunStep(ch, rs, states', steps', Store(c, 0, Done), s');
  }

  /** It publishes and marks. */
  lemma WriterSends(ch: Channels, rs: set<Resource>, states: seq<State>, steps: seq<Step>, s: State, c: nat)
    returns (states': seq<State>, steps': seq<Step>, s': State)
    requires AllowedRun(ch, rs, states, steps) && states[|steps|] == s
    requires c in s.calls && s.calls[c].Sending? && s.calls[c].rest == [] && s.calls[c].topic.Publishes()
    ensures AllowedRun(ch, rs, states', steps') && states'[|steps'|] == s'
    ensures var Sending(topic, r, _) := s.calls[c];
            s' == State(Mark(Send(s.w, topic, r.id, r.perms), Key(topic.id, r.id)), s.calls - {c})
    ensures steps' == steps + [Publish(c, Done), MarkSynced(c, Done)]
    ensures s.calls.Keys == {c} && (forall x | x in states :: Agreeing(x, ch)) ==>
              forall x | x in states' :: Agreeing(x, ch)
  {
    var Sending(topic, r, _) := s.calls[c];
    var m := State(Send(s.w, topic, r.id, r.perms), s.calls[c := Marking(topic, r, [])]);
    s' := State(Mark(m.w, Key(topic.id, r.id)), s.calls - {c});
    states', steps' := RunStep(ch, rs, states, steps, Publish(c, Done), m);
    assert m.calls - {c} == s'.calls;
    states', steps' := RunStep(ch, rs, states', steps', MarkSynced(c, Done), s');
  }

  /** A whole write while no other call is in flight. */
  lemma LoneWrite(ch: Channels, rs: set<Resource>, states: seq<State>, steps: seq<Step>, w: World, topic: Topic,
                  r: Resource)
    returns (states': seq<State>, steps': seq<Step>, w': World)
    requires AllowedRun(ch, rs, states, steps) && states[|steps|] == State(w, map[]) && r in rs
    requires forall x | x in states :: Agreeing(x, ch)
    requires r.topicId in w.db.topics && w.db.topics[r.topicId] == topic && topic.Publishes()
    ensures w' == Mark(Send(Put(w, r, 0, false), topic, r.id, r.perms), Key(topic.id, r.id))
    ensures AllowedRun(ch, rs, states', steps') && states'[|steps'|] == State(w', map[])
    ensures forall x | x in states' :: Agreeing(x, ch)
  {
    var s := State(w, map[]);
    states', steps', s := WriterStores(ch, rs, states, steps, s, 0, r);
    states', steps', s := WriterSends(ch, rs, states', steps', s, 0);
    assert s.calls == map[];
    w' := s.w;
  }

  /** The state after a topic was stored in the empty database. */
  function WithOneTopic(topic: Topic): State {
    State(World(Db(map[topic.id := topic], map[]), []), map[])
  }

  lemma RunStart(ch: Channels, rs: set<Resource>, topic: Topic) returns (states: seq<State>, steps: seq<Step>)
    requires Configured(ch, topic) && topic.Validate().None?
    ensures AllowedRun(ch, rs, states, steps) && states[|steps|] == WithOneTopic(topic) && steps == [PutTopic(topic)]
    ensures forall x | x in states :: Agreeing(x, ch)
  {
    states, steps := RunStep(ch, rs, [START], [], PutTopic(topic), WithOneTopic(topic));
    assert steps == [PutTopic(topic)];
  }

  // Runs that go wrong

  /** The steps in which call c writes b while call 1 is about to send something older. */
  function Overtaking(c: nat, b: Resource): seq<Step> {
    [BeginWrite(c, b), Store(c, 0, Done), Publish(c, Done), MarkSynced(c, Done), Publish(1, Done), MarkSynced(1, Done)]
  }

  /** A call about to send rights that a writer overtakes: the entry ends flagged as synced with the
      writer's rights, while its consumers were last told the older ones. */
  lemma StaleSend(ch: Channels, rs: set<Resource>, states: seq<State>, steps: seq<Step>, s: State, stale: Resource,
                  b: Resource)
    returns (states': seq<State>, steps': seq<Step>)
    requires AllowedRun(ch, rs, states, steps) && states[|steps|] == s && b in rs
    requires b.topicId in s.w.db.topics && s.calls == map[1 := Sending(s.w.db.topics[b.topicId], stale, [])]
    requires var topic := s.w.db.topics[b.topicId];
             topic.id == b.topicId && topic.Publishes() && Configured(ch, topic)
    requires KeyOf(stale) == KeyOf(b) && stale.perms.Norm() != b.perms.Norm()
    ensures AllowedRun(ch, rs, states', steps') && !Safe(states'[|steps'|].w, ch)
    ensures steps' == steps + Overtaking(2, b)
  {
    hide Safe, Agreeing, CallsAgree, Apply, Enabled;
    var s' := s;
    var topic := s.w.db.topics[b.topicId];
    states', steps', s' := WriterStores(ch, rs, states, steps, s', 2, b);
    states', steps', s' := WriterSends(ch, rs, states', steps', s', 2);
    assert s'.calls[1] == Sending(topic, stale, []);
    states', steps', s' := WriterSends(ch, rs, states', steps', s', 1);
    UntoldEntry(s'.w, ch, KeyOf(b), stale);
  }

  /** An entry flagged as synced whose consumers were last told other rights. */
  lemma UntoldEntry(w: World, ch: Channels, k: Key, r: Resource)
    requires k in w.db.entries && k.topicId in ch && w.db.entries[k].synced
    requires Last(w.log, ch[k.topicId], k.id) == Some(r.perms.Plain()) && w.db.entries[k].acl != r.perms.Norm()
    ensures !Safe(w, ch)
  {
    assert !Told(w.log, ch[k.topicId], k.id, w.db.entries[k].acl);
  }

  /** Any two overlapping writes of different rights to one resource can end, without any fault,
      with rights flagged as synced that were overwritten in the eyes of their consumers. */
  lemma OverlapBreaksSafety(ch: Channels, topic: Topic, a: Resource, b: Resource)
    returns (states: seq<State>, steps: seq<Step>)
    requires Configured(ch, topic) && topic.Publishes() && topic.Validate().None?
    requires a.topicId == topic.id && KeyOf(a) == KeyOf(b) && a.perms.Norm() != b.perms.Norm()
    ensures AllowedRun(ch, {a, b}, states, steps) && !Safe(states[|steps|].w, ch)
    ensures steps == [PutTopic(topic), BeginWrite(1, a), Store(1, 0, Done)] + Overtaking(2, b)
  {
    states, steps := RunStart(ch, {a, b}, topic);
    var s := WithOneTopic(topic);
    states, steps, s := WriterStores(ch, {a, b}, states, steps, s, 1, a);
    states, steps := StaleSend(ch, {a, b}, states, steps, s, a, b);
  }

  /** A writer that crashed after it stored; the entry waits for a retry pass. */
  lemma CrashedWriter(ch: Channels, rs: set<Resource>, topic: Topic, r: Resource)
    returns (states: seq<State>, steps: seq<Step>, s: State)
    requires Configured(ch, topic) && topic.Publishes() && topic.Validate().None?
    requires r.topicId == topic.id && r in rs
    ensures AllowedRun(ch, rs, states, steps) && states[|steps|] == s
    ensures s == State(Put(WithOneTopic(topic).w, r, 0, false), map[])
    ensures steps == [PutTopic(topic), BeginWrite(0, r), Store(0, 0, Done), Crash(0)]
  {
    states, steps := RunStart(ch, rs, topic);
    states, steps, s := WriterStores(ch, rs, states, steps, WithOneTopic(topic), 0, r);
    var s' := State(s.w, map[]);
    assert s.calls - {0} == s'.calls;
    states, steps := RunStep(ch, rs, states, steps, Crash(0), s');
    s := s';
  }

  /** A retry pass that has listed an entry and read its topic. */
  lemma RetryListed(ch: Channels, rs: set<Resource>, states: seq<State>, steps: seq<Step>, s: State, topic: Topic,
                    r: Resource)
    returns (states': seq<State>, steps': seq<Step>, s': State)
    requires AllowedRun(ch, rs, states, steps) && states[|steps|] == s && s.calls == map[]
    requires r.topicId in s.w.db.topics && s.w.db.topics[r.topicId] == topic
    requires s.w.db.entries.Keys == {KeyOf(r)} && Overdue(s.w.db.entries[KeyOf(r)], 1)
    requires r.perms == ToPerms(s.w.db.entries[KeyOf(r)].acl)
    ensures AllowedRun(ch, rs, states', steps') && states'[|steps'|] == s'
    ensures s' == State(s.w, map[1 := Sending(topic, r, [])])
    ensures steps' == steps + [BeginRetry(1, 1, [r]), Look(1, true)]
  {
    var m := State(s.w, map[1 := Looking([r])]);
    s' := State(s.w, map[1 := Sending(topic, r, [])]);
    assert ListsOverdue(s.w.db.entries, 1, [r]) by { assert [r][0] == r; }
    states', steps' := RunStep(ch, rs, states, steps, BeginRetry(1, 1, [r]), m);
    assert [r][1..] == [];
    assert m.calls[1 := Sending(topic, r, [])] == s'.calls;
    states', steps' := RunStep(ch, rs, states', steps', Look(1, true), s');
  }

  /** A retry pass that listed an entry before a writer replaced its rights by different ones can
      publish the old rights after the writer has published and marked the new ones. The writers
      themselves do not overlap: the first has crashed. */
  lemma RetryBreaksSafety(ch: Channels, topic: Topic, a: Resource, b: Resource)
    returns (states: seq<State>, steps: seq<Step>, listed: Resource)
    requires Configured(ch, topic) && topic.Publishes() && topic.Validate().None?
    requires a.topicId == topic.id && KeyOf(a) == KeyOf(b) && a.perms.Norm() != b.perms.Norm()
    ensures AllowedRun(ch, {a, b}, states, steps) && !Safe(states[|steps|].w, ch)
    ensures steps == [PutTopic(topic), BeginWrite(0, a), Store(0, 0, Done), Crash(0)]
                     + [BeginRetry(1, 1, [listed]), Look(1, true)] + Overtaking(2, b)
  {
    var s;
    listed := a.(perms := ToPerms(a.perms.Norm()));
    NormIdempotent(a.perms);
    states, steps, s := CrashedWriter(ch, {a, b}, topic, a);
    states, steps, s := RetryListed(ch, {a, b}, states, steps, s, topic, listed);
    states, steps := StaleSend(ch, {a, b}, states, steps, s, listed, b);
  }

  /** Safety of every interleaving, decided by what is written: retry passes, faults, crashes and
      deletes included, all runs are safe exactly when no two of the resources to be written give
      different rights to one key of a publishing topic. */
  lemma AlwaysSafeIffAgree(ch: Channels, rs: set<Resource>)
    requires OwnChannels(ch) && ValidChannels(ch)
    ensures AlwaysSafe(ch, rs) <==> AllAgree(ch, rs)
  {
    if AllAgree(ch, rs) {
      AgreementSuffices(ch, rs);
    } else {
      var a, b :| a in rs && b in rs && !Agree(ch, a, b);
      var states, steps := OverlapBreaksSafety(ch, ChannelTopic(ch, a.topicId), a, b);
      assert forall step | step in steps :: Allowed(ch, {a, b}, step) ==> Allowed(ch, rs, step);
      assert AllowedRun(ch, rs, states, steps);
    }
  }

  /** Two writes of one resource are safe in every interleaving exactly when they store the same. */
  lemma TwoWritesSafeIff(ch: Channels, a: Resource, b: Resource)
    requires OwnChannels(ch) && ValidChannels(ch)
    requires KeyOf(a) == KeyOf(b) && a.topicId in ch
    ensures AlwaysSafe(ch, {a, b}) <==> a.perms.Norm() == b.perms.Norm()
  {
    AlwaysSafeIffAgree(ch, {a, b});
    assert AllAgree(ch, {a, b}) <==> Agree(ch, a, b);
  }

  /** Whenever two topics publish to one Kafka topic, a sequential run without any fault can end in
      an unsafe state. */
  lemma SharedChannelBreaksSafety(ch: Channels, topic: Topic, other: Topic, a: Resource, b: Resource)
    returns (states: seq<State>, steps: seq<Step>)
    requires Configured(ch, topic) && topic.Publishes() && topic.Validate().None?
    requires Configured(ch, other) && other.Publishes() && other.Validate().None?
    requires topic.id != other.id && topic.kafka == other.kafka
    requires a.topicId == topic.id && b.topicId == other.id && a.id == b.id && a.perms.Norm() != b.perms.Norm()
    ensures AllowedRun(ch, {a, b}, states, steps) && !Safe(states[|steps|].w, ch)
    ensures forall s | s in states :: Agreeing(s, ch)
  {
    var w := World(Db(map[topic.id := topic, other.id := other], map[]), []);
    states, steps := RunStart(ch, {a, b}, topic);
    assert WithOneTopic(topic).w.db.topics[other.id := other] == w.db.topics;
    states, steps := RunStep(ch, {a, b}, states, steps, PutTopic(other), State(w, map[]));
    states, steps, w := LoneWrite(ch, {a, b}, states, steps, w, topic, a);
    states, steps, w := LoneWrite(ch, {a, b}, states, steps, w, other, b);
    UntoldEntry(w, ch, KeyOf(a), b);
  }

  /** For publishing topics, all runs whose calls in flight agree are safe exactly when no two topics
      share a Kafka topic. */
  lemma SafetyIffOwnChannels(ch: Channels)
    requires ValidChannels(ch)
    ensures OwnChannels(ch) <==>
            forall states: seq<State>, steps: seq<Step> |
              && IsRun(states, steps)
              && (forall step | step in steps :: KeepsChannels(ch, step))
              && (forall s | s in states :: Agreeing(s, ch)) ::
              Safe(states[|steps|].w, ch)
  {
    if OwnChannels(ch) {
      forall states: seq<State>, steps: seq<Step> |
        && IsRun(states, steps)
        && (forall step | step in steps :: KeepsChannels(ch, step))
        && (forall s | s in states :: Agreeing(s, ch))
        ensures Safe(states[|steps|].w, ch)
      {
        OutboxSafety(states, steps, ch, |steps|);
      }
    } else {
      var a, b :| a in ch && b in ch && ch[a] == ch[b] && a != b;
      var none := Perms(None, None, None);
      var admin := Perms(Some(map["u" := ALL_RIGHTS]), None, None);
      assert "u" in admin.Norm().users && "u" !in none.Norm().users;
      var states, steps := SharedChannelBreaksSafety(ch, ChannelTopic(ch, a), ChannelTopic(ch, b),
                                                     Resource(a, "x", admin), Resource(b, "x", none));
    }
  }
}
