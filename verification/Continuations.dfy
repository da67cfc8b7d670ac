/** How a run can go on from a state in which the outbox is in order: what the calls in flight can
    still do to it, and what one further write can. */
module Continuations {
  import opened Model
  import opened Store
  import opened Effects
  import opened Outbox
  import opened Overlaps

  /** A step of one of these calls, which write only these resources, or of storing a topic as configured. */
  predicate Within(ch: Channels, cs: set<nat>, rs: set<Resource>, step: Step) {
    match step
    case BeginWrite(c, r) => c in cs && r in rs
    case Store(c, _, _) => c in cs
    case Publish(c, _) => c in cs
    case MarkSynced(c, _) => c in cs
    case Look(c, _) => c in cs
    case PutTopic(topic) => Configured(ch, topic)
    case _ => false
  }

  ghost predicate Continues(ch: Channels, cs: set<nat>, rs: set<Resource>, s: State, steps: seq<Step>, s': State) {
    Reaches(s, steps, s') && forall step | step in steps :: Within(ch, cs, rs, step)
  }

  lemma OneMore(ch: Channels, cs: set<nat>, rs: set<Resource>, s: State, steps: seq<Step>, m: State, step: Step,
                s': State)
    returns (steps': seq<Step>)
    requires Continues(ch, cs, rs, s, steps, m) && Enabled(m, step) && Apply(m, step) == s' && Within(ch, cs, rs, step)
    ensures Continues(ch, cs, rs, s, steps', s')
  {
    steps' := steps + [step];
    OneStep(m, step);
    ReachesTrans(s, steps, m, [step], s');
  }

  lemma Joined(ch: Channels, cs: set<nat>, rs: set<Resource>, s: State, a: seq<Step>, m: State, b: seq<Step>, s': State)
    requires Continues(ch, cs, rs, s, a, m) && Continues(ch, cs, rs, m, b, s')
    ensures Continues(ch, cs, rs, s, a + b, s')
  {
    ReachesTrans(s, a, m, b, s');
  }

  lemma Widened(ch: Channels, cs: set<nat>, more: set<nat>, rs: set<Resource>, all: set<Resource>,
                s: State, steps: seq<Step>, s': State)
    requires Continues(ch, cs, rs, s, steps, s') && cs <= more && rs <= all
    ensures Continues(ch, more, all, s, steps, s')
  {
  }

  // What a call in flight can still do

  /** A retry pass skips to a resource it listed, and reads its topic. */
  lemma {:induction false} LooksFor(ch: Channels, s: State, c: nat, y: Resource)
    returns (steps: seq<Step>, s': State, rest: seq<Resource>)
    requires c in s.calls && s.calls[c].Looking? && y in s.calls[c].todo && y.topicId in s.w.db.topics
    ensures Continues(ch, {c}, {}, s, steps, s')
    ensures s' == State(s.w, s.calls[c := Sending(s.w.db.topics[y.topicId], y, rest)])
    decreases |s.calls[c].todo|
  {
    var todo := s.calls[c].todo;
    if todo[0] == y {
      rest := todo[1..];
      s' := State(s.w, s.calls[c := Sending(s.w.db.topics[y.topicId], y, rest)]);
      steps := OneMore(ch, {c}, {}, s, [], s, Look(c, true), s');
    } else {
      var m := State(s.w, s.calls[c := Looking(todo[1..])]);
      assert todo == [todo[0]] + todo[1..];
      var first := OneMore(ch, {c}, {}, s, [], s, Look(c, false), m);
      var more;
      more, s', rest := LooksFor(ch, m, c, y);
      Joined(ch, {c}, {}, s, first, m, more, s');
      steps := first + more;
      assert s'.calls == s.calls[c := Sending(s.w.db.topics[y.topicId], y, rest)];
    }
  }

  /** A call whose next publish and mark are lost is back at the rest of its list. */
  lemma Skips(ch: Channels, s: State, c: nat) returns (steps: seq<Step>)
    requires c in s.calls && (s.calls[c].Sending? || s.calls[c].Marking?) && s.calls[c].rest != []
    ensures Continues(ch, {c}, {}, s, steps, State(s.w, s.calls[c := Looking(s.calls[c].rest)]))
  {
    var call := s.calls[c];
    var m, s' := s, State(s.w, s.calls[c := Looking(call.rest)]);
    steps := [];
    if call.Sending? && call.topic.Publishes() {
      steps := OneMore(ch, {c}, {}, s, [], s, Publish(c, Lost), s');
    } else {
      if call.Sending? {
        m := State(s.w, s.calls[c := Marking(call.topic, call.r, call.rest)]);
        steps := OneMore(ch, {c}, {}, s, [], s, Publish(c, Lost), m);
      }
      assert m.calls[c := Looking(call.rest)] == s'.calls;
      steps := OneMore(ch, {c}, {}, s, steps, m, MarkSynced(c, Lost), s');
    }
  }

  /** A call gets to any resource that it may still send. */
  lemma GetsToSend(ch: Channels, s: State, c: nat, y: Resource)
    returns (steps: seq<Step>, s': State, topic: Topic, rest: seq<Resource>)
    requires c in s.calls && y in Outgoing(s.calls[c]) && y.topicId in s.w.db.topics
    ensures Continues(ch, {c}, {}, s, steps, s') && s' == State(s.w, s.calls[c := Sending(topic, y, rest)])
    ensures topic == s.w.db.topics[y.topicId] || (s.calls[c].Sending? && topic == s.calls[c].topic && y == s.calls[c].r)
  {
    var call := s.calls[c];
    if call.Sending? && call.r == y {
      steps, s', topic, rest := [], s, call.topic, call.rest;
      assert s.calls[c := call] == s.calls;
    } else {
      var m := s;
      steps, topic := [], s.w.db.topics[y.topicId];
      if !call.Looking? {
        m := State(s.w, s.calls[c := Looking(call.rest)]);
        steps := Skips(ch, s, c);
      }
      var more;
      more, s', rest := LooksFor(ch, m, c, y);
      Joined(ch, {c}, {}, s, steps, m, more, s');
      steps := steps + more;
      assert s'.calls == s.calls[c := Sending(topic, y, rest)];
    }
  }

  /** The topic is stored under its id, configured like this. */
  predicate StoredAs(ch: Channels, db: Db, topicId: string) {
    topicId in db.topics && db.topics[topicId].id == topicId && Configured(ch, db.topics[topicId])
  }

  /** It sends rights that are not the stored ones of an entry flagged as synced. */
  lemma SendsStale(ch: Channels, s: State, c: nat, y: Resource) returns (steps: seq<Step>, s': State)
    requires c in s.calls && y in Outgoing(s.calls[c]) && StoredAs(ch, s.w.db, y.topicId)
    requires !s.calls[c].Looking? ==> Configured(ch, s.calls[c].topic) && s.calls[c].topic.id == s.calls[c].r.topicId
    requires y.topicId in ch
    requires KeyOf(y) in s.w.db.entries && s.w.db.entries[KeyOf(y)].synced
    requires s.w.db.entries[KeyOf(y)].acl != y.perms.Norm()
    ensures Continues(ch, {c}, {}, s, steps, s') && !Safe(s'.w, ch)
  {
    var m, topic, rest;
    steps, m, topic, rest := GetsToSend(ch, s, c, y);
    s' := State(Send(s.w, topic, y.id, y.perms), m.calls[c := Marking(topic, y, rest)]);
    steps := OneMore(ch, {c}, {}, s, steps, m, Publish(c, Done), s');
    assert Last(s'.w.log, topic.kafka, y.id) == Some(y.perms.Plain());
    UntoldEntry(s'.w, ch, KeyOf(y), y);
  }

  /** A writer that is about to store runs to its end. */
  lemma Finishes(ch: Channels, s: State, e: nat) returns (steps: seq<Step>, s': State)
    requires e in s.calls && s.calls[e].Storing? && s.calls[e].topic.Publishes()
               && s.calls[e].topic.id == s.calls[e].r.topicId
    ensures Continues(ch, {e}, {}, s, steps, s')
    ensures s'.calls == s.calls - {e} && s'.w.db.topics == s.w.db.topics
    ensures var Storing(topic, r) := s.calls[e];
            s'.w.log == s.w.log + [Message(topic.kafka, r.id, r.perms.Plain())]
    ensures var r := s.calls[e].r;
            KeyOf(r) in s'.w.db.entries && s'.w.db.entries[KeyOf(r)] == Entry(r.perms.Norm(), 0, true)
  {
    var Storing(topic, r) := s.calls[e];
    var s1 := State(Put(s.w, r, 0, false), s.calls[e := Sending(topic, r, [])]);
    var s2 := State(Send(s1.w, topic, r.id, r.perms), s.calls[e := Marking(topic, r, [])]);
    s' := State(Mark(s2.w, KeyOf(r)), s.calls - {e});
    steps := OneMore(ch, {e}, {}, s, [], s, Store(e, 0, Done), s1);
    assert s1.calls[e := Marking(topic, r, [])] == s2.calls && s2.calls - {e} == s'.calls;
    steps := OneMore(ch, {e}, {}, s, steps, s1, Publish(e, Done), s2);
    steps := OneMore(ch, {e}, {}, s, steps, s2, MarkSynced(e, Done), s');
  }

  // Calls that disagree

  /** A call that is still to store and another one with different rights for the same key: their own
      steps can end with the outbox unsafe. */
  lemma StoringBreaks(ch: Channels, s: State, e: nat, d: nat, y: Resource) returns (steps: seq<Step>, s': State)
    requires Inv(s, ch) && e in s.calls && d in s.calls && e != d && s.calls[e].Storing?
    requires y in Carried(s.calls[d]) && !Agree(ch, s.calls[e].r, y) && y.topicId in s.w.db.topics
    ensures Continues(ch, {e, d}, {}, s, steps, s') && !Safe(s'.w, ch)
  {
    var Storing(topic, r) := s.calls[e];
    if y in Outgoing(s.calls[d]) {
      steps, s' := WriterThenStale(ch, s, e, d, y);
    } else {
      var m := State(Put(s.w, r, 0, false), s.calls[e := Sending(topic, r, [])]);
      steps := OneMore(ch, {e, d}, {}, s, [], s, Store(e, 0, Done), m);
      if s.calls[d].Storing? {
        var more;
        more, s' := LateWriterThenStale(ch, m, d, e, r);
        Joined(ch, {e, d}, {}, s, steps, m, more, s');
        steps := steps + more;
      } else {
        s' := Apply(m, MarkSynced(d, Done));
        steps := OneMore(ch, {e, d}, {}, s, steps, m, MarkSynced(d, Done), s');
        assert !Told(s'.w.log, ch[y.topicId], y.id, s'.w.db.entries[KeyOf(y)].acl);
      }
    }
  }

  /** The writer finishes; then the other call sends something older. */
  lemma LateWriterThenStale(ch: Channels, s: State, e: nat, d: nat, y: Resource) returns (steps: seq<Step>, s': State)
    requires e in s.calls && d in s.calls && e != d && s.calls[e].Storing? && y in Outgoing(s.calls[d])
    requires Configured(ch, s.calls[e].topic) && s.calls[e].topic.id == s.calls[e].r.topicId
    requires !s.calls[d].Looking? ==> Configured(ch, s.calls[d].topic) && s.calls[d].topic.id == s.calls[d].r.topicId
    requires StoredAs(ch, s.w.db, y.topicId) && !Agree(ch, s.calls[e].r, y)
    ensures Continues(ch, {e, d}, {}, s, steps, s') && !Safe(s'.w, ch)
  {
    var m, more;
    steps, m := Finishes(ch, s, e);
    Widened(ch, {e}, {e, d}, {}, {}, s, steps, m);
    more, s' := SendsStale(ch, m, d, y);
    Widened(ch, {d}, {e, d}, {}, {}, m, more, s');
    Joined(ch, {e, d}, {}, s, steps, m, more, s');
    steps := steps + more;
  }

  lemma WriterThenStale(ch: Channels, s: State, e: nat, d: nat, y: Resource) returns (steps: seq<Step>, s': State)
    requires Inv(s, ch) && e in s.calls && d in s.calls && e != d && s.calls[e].Storing?
    requires y in Outgoing(s.calls[d]) && !Agree(ch, s.calls[e].r, y) && y.topicId in s.w.db.topics
    ensures Continues(ch, {e, d}, {}, s, steps, s') && !Safe(s'.w, ch)
  {
    assert CallInv(s.w, ch, s.calls[e]) && CallInv(s.w, ch, s.calls[d]);
    steps, s' := LateWriterThenStale(ch, s, e, d, y);
  }

  /** A stored topic with this channel, stored again if it was removed. */
  lemma TopicIsStored(ch: Channels, s: State, topicId: string) returns (steps: seq<Step>, s': State)
    requires Inv(s, ch) && ValidChannels(ch) && topicId in ch
    ensures Continues(ch, {}, {}, s, steps, s') && Inv(s', ch) && s'.calls == s.calls && topicId in s'.w.db.topics
  {
    if topicId in s.w.db.topics {
      steps, s' := [], s;
    } else {
      s' := Apply(s, PutTopic(ChannelTopic(ch, topicId)));
      steps := OneMore(ch, {}, {}, s, [], s, PutTopic(ChannelTopic(ch, topicId)), s');
      OtherStepKeepsInv(s, ch, PutTopic(ChannelTopic(ch, topicId)));
    }
  }

  /** Two calls in flight that carry different rights x and y for one key: one further write of that
      key, of whatever rights, can end with the outbox unsafe. */
  lemma DisagreementBreaks(ch: Channels, s: State, c: nat, d: nat, x: Resource, y: Resource, e: nat, z: Resource)
    returns (steps: seq<Step>, s': State)
    requires Inv(s, ch) && ValidChannels(ch) && c in s.calls && d in s.calls && c != d && e !in s.calls
    requires x in Carried(s.calls[c]) && y in Carried(s.calls[d]) && !Agree(ch, x, y) && KeyOf(z) == KeyOf(x)
    ensures Continues(ch, {c, d, e}, {z}, s, steps, s') && !Safe(s'.w, ch)
  {
    var m, more;
    steps, m := TopicIsStored(ch, s, z.topicId);
    Widened(ch, {}, {c, d, e}, {}, {z}, s, steps, m);
    var m' := Apply(m, BeginWrite(e, z));
    OtherStepKeepsInv(m, ch, BeginWrite(e, z));
    steps := OneMore(ch, {c, d, e}, {z}, s, steps, m, BeginWrite(e, z), m');
    if !Agree(ch, z, y) {
      more, s' := StoringBreaks(ch, m', e, d, y);
      Widened(ch, {e, d}, {c, d, e}, {}, {z}, m', more, s');
    } else {
      more, s' := StoringBreaks(ch, m', e, c, x);
      Widened(ch, {e, c}, {c, d, e}, {}, {z}, m', more, s');
    }
    Joined(ch, {c, d, e}, {z}, s, steps, m', more, s');
    steps := steps + more;
  }

  // Letting the calls in flight finish

  /** No call begins, and topics keep their channels. */
  predicate Finishing(ch: Channels, step: Step) {
    !step.BeginWrite? && !step.BeginRetry? && KeepsChannels(ch, step)
  }

  /** However the calls in flight go on, fail or crash, and whatever is deleted, the outbox stays safe. */
  ghost predicate FinishesSafely(ch: Channels, s: State) {
    forall steps: seq<Step>, s': State | Reaches(s, steps, s')
        && (forall step | step in steps :: Finishing(ch, step)) ::
      Safe(s'.w, ch)
  }

  /** No call that is still to store disagrees with another one. */
  ghost predicate StoringAgrees(ch: Channels, s: State) {
    forall e, d | e in s.calls && d in s.calls && e != d && s.calls[e].Storing? ::
        CallsAgree(ch, s.calls[e], s.calls[d])
  }

  /** The resource is stored, or a call is about to store it. */
  ghost predicate Live(s: State, k: Key) {
    k in s.w.db.entries || exists e | e in s.calls && s.calls[e].Storing? :: KeyOf(s.calls[e].r) == k
  }

  ghost predicate FinishingCallInv(ch: Channels, s: State, call: Call) {
    && (!call.Looking? ==> Configured(ch, call.topic) && call.topic.id == call.r.topicId)
    && (!call.Storing? ==> forall x | x in Carried(call) :: Pending(s.w, ch, x))
    && (call.Marking? && call.r.topicId in ch && Live(s, KeyOf(call.r)) ==>
          Told(s.w.log, ch[call.r.topicId], call.r.id, call.r.perms.Norm()))
  }

  ghost predicate FinishingInv(ch: Channels, s: State) {
    && DbInv(s.w.db, ch)
    && Safe(s.w, ch)
    && StoringAgrees(ch, s)
    && forall c | c in s.calls :: FinishingCallInv(ch, s, s.calls[c])
  }

  /** Calls that carry a live key agree on it. */
  lemma LiveAgree(ch: Channels, s: State, c: nat, d: nat, x: Resource, y: Resource)
    requires FinishingInv(ch, s) && c in s.calls && d in s.calls && c != d
    requires x in Carried(s.calls[c]) && y in Carried(s.calls[d]) && KeyOf(x) == KeyOf(y) && Live(s, KeyOf(x))
    ensures Agree(ch, x, y)
  {
    if s.calls[c].Storing? {
      assert CallsAgree(ch, s.calls[c], s.calls[d]);
    } else if s.calls[d].Storing? {
      assert CallsAgree(ch, s.calls[d], s.calls[c]);
    } else if KeyOf(x) in s.w.db.entries {
      assert Pending(s.w, ch, x) && Pending(s.w, ch, y);
    } else {
      var e :| e in s.calls && s.calls[e].Storing? && KeyOf(s.calls[e].r) == KeyOf(x);
      assert CallsAgree(ch, s.calls[e], s.calls[c]) && CallsAgree(ch, s.calls[e], s.calls[d]);
      assert s.calls[e].r in Carried(s.calls[e]);
      assert Agree(ch, s.calls[e].r, x) && Agree(ch, s.calls[e].r, y);
    }
  }

  lemma StoreStaysFinishing(ch: Channels, s: State, step: Step)
    requires step.Store? && Enabled(s, step) && FinishingInv(ch, s)
    ensures FinishingInv(ch, Apply(s, step))
  {
    var s' := Apply(s, step);
    var r := s.calls[step.c].r;
    NormIdempotent(r.perms);
    forall k | Live(s', k) ensures Live(s, k) { assert k == KeyOf(r) ==> Live(s, k); }
    forall c | c in s'.calls ensures FinishingCallInv(ch, s', s'.calls[c]) {
      if c != step.c {
        assert CallsAgree(ch, s.calls[step.c], s.calls[c]);
        forall x | x in Carried(s.calls[c]) && !s.calls[c].Storing? ensures Pending(s'.w, ch, x) {
          assert Pending(s.w, ch, x) && Agree(ch, r, x);
        }
      }
    }
    CarriedStaysFinishing(ch, s, s');
  }

  /** Calls that carry no more than before, and do not turn to storing, still agree. */
  lemma CarriedStaysFinishing(ch: Channels, s: State, s': State)
    requires StoringAgrees(ch, s)
    requires forall c | c in s'.calls :: c in s.calls && Carried(s'.calls[c]) <= Carried(s.calls[c])
    requires forall c | c in s'.calls && s'.calls[c].Storing? :: s.calls[c].Storing?
    ensures StoringAgrees(ch, s')
  {
    forall e, d | e in s'.calls && d in s'.calls && e != d && s'.calls[e].Storing?
      ensures CallsAgree(ch, s'.calls[e], s'.calls[d])
    {
      assert CallsAgree(ch, s.calls[e], s.calls[d]);
    }
  }

  lemma PublishStaysFinishing(ch: Channels, s: State, step: Step)
    requires step.Publish? && Enabled(s, step) && OwnChannels(ch) && FinishingInv(ch, s)
    ensures FinishingInv(ch, Apply(s, step))
  {
    var s' := Apply(s, step);
    var Sending(topic, r, rest) := s.calls[step.c];
    assert r in Carried(s.calls[step.c]);
    if s'.w != s.w { SendKeepsSafe(s.w, ch, topic, r); }
    forall k ensures Live(s', k) ==> Live(s, k) { }
    hide CallsAgree;
    forall c | c in s'.calls ensures FinishingCallInv(ch, s', s'.calls[c]) {
      var call := s.calls[c];
      if c != step.c && call.Marking? && call.r.topicId in ch && Live(s', KeyOf(call.r)) {
        assert call.r in Carried(call) && KeyOf(call.r).topicId in ch;
        if KeyOf(call.r) == KeyOf(r) { LiveAgree(ch, s, step.c, c, r, call.r); }
      }
    }
    CarriedStaysFinishing(ch, s, s');
  }

  lemma MarkStaysFinishing(ch: Channels, s: State, step: Step)
    requires step.MarkSynced? && Enabled(s, step) && FinishingInv(ch, s)
    ensures FinishingInv(ch, Apply(s, step))
  {
    var s' := Apply(s, step);
    var r := s.calls[step.c].r;
    assert r in Carried(s.calls[step.c]) && Pending(s.w, ch, r);
    assert KeyOf(r) in s.w.db.entries ==> Live(s, KeyOf(r));
    hide Agree, CallsAgree, StoringAgrees, Live;
    SameRightsStayFinishing(ch, s, s');
  }

  /** Steps after which calls carry no more, nothing new is stored, and nothing is sent. */
  lemma SameRightsStayFinishing(ch: Channels, s: State, s': State)
    requires FinishingInv(ch, s) && DbInv(s'.w.db, ch) && Safe(s'.w, ch) && s'.w.log == s.w.log
    requires forall k | k in s'.w.db.entries ::
               k in s.w.db.entries && s'.w.db.entries[k].acl == s.w.db.entries[k].acl
    requires forall c | c in s'.calls :: c in s.calls && Carried(s'.calls[c]) <= Carried(s.calls[c])
    requires forall c | c in s'.calls && (s'.calls[c].Storing? || s'.calls[c].Marking?) :: s'.calls[c] == s.calls[c]
    requires forall c | c in s'.calls && s.calls[c].Storing? :: s'.calls[c] == s.calls[c]
    requires forall c | c in s'.calls && s'.calls[c].Sending? ::
               Configured(ch, s'.calls[c].topic) && s'.calls[c].topic.id == s'.calls[c].r.topicId
    ensures FinishingInv(ch, s')
  {
    forall k ensures Live(s', k) ==> Live(s, k) { }
    hide Live, CallsAgree, Agree;
    forall c | c in s'.calls ensures FinishingCallInv(ch, s', s'.calls[c]) {
      forall x | x in Carried(s'.calls[c]) && !s'.calls[c].Storing? ensures Pending(s'.w, ch, x) {
        assert x in Carried(s.calls[c]) && Pending(s.w, ch, x);
      }
    }
    CarriedStaysFinishing(ch, s, s');
  }

  lemma OtherStepStaysFinishing(ch: Channels, s: State, step: Step)
    requires Enabled(s, step) && Finishing(ch, step) && FinishingInv(ch, s)
    requires !step.Store? && !step.Publish? && !step.MarkSynced?
    ensures FinishingInv(ch, Apply(s, step))
  {
    hide Agree, CallsAgree, Live, Pending, Told;
    SameRightsStayFinishing(ch, s, Apply(s, step));
  }

  lemma {:induction false} StaysFinishing(ch: Channels, s: State, steps: seq<Step>, s': State)
    requires OwnChannels(ch) && FinishingInv(ch, s)
    requires Reaches(s, steps, s') && forall step | step in steps :: Finishing(ch, step)
    ensures Safe(s'.w, ch)
    decreases |steps|
  {
    if steps == [] {
    } else {
      assert steps[0] in steps;
      if steps[0].Store? {
        StoreStaysFinishing(ch, s, steps[0]);
      } else if steps[0].Publish? {
        PublishStaysFinishing(ch, s, steps[0]);
      } else if steps[0].MarkSynced? {
        MarkStaysFinishing(ch, s, steps[0]);
      } else {
        OtherStepStaysFinishing(ch, s, steps[0]);
      }
      StaysFinishing(ch, Apply(s, steps[0]), steps[1..], s');
    }
  }

  lemma StoringDisagreementBreaks(ch: Channels, s: State, e: nat, d: nat) returns (steps: seq<Step>, s': State)
    requires Inv(s, ch) && ValidChannels(ch) && e in s.calls && d in s.calls && e != d && s.calls[e].Storing?
    requires !CallsAgree(ch, s.calls[e], s.calls[d])
    ensures Continues(ch, {e, d}, {}, s, steps, s') && !Safe(s'.w, ch)
  {
    var y :| y in Carried(s.calls[d]) && !Agree(ch, s.calls[e].r, y);
    var m, more;
    steps, m := TopicIsStored(ch, s, y.topicId);
    Widened(ch, {}, {e, d}, {}, {}, s, steps, m);
    more, s' := StoringBreaks(ch, m, e, d, y);
    Joined(ch, {e, d}, {}, s, steps, m, more, s');
    steps := steps + more;
  }

  lemma WithinFinishes(ch: Channels, cs: set<nat>, s: State, steps: seq<Step>, s': State)
    requires Continues(ch, cs, {}, s, steps, s')
    ensures Reaches(s, steps, s') && forall step | step in steps :: Finishing(ch, step)
  {
  }

  /** From a state in order, letting the calls in flight finish, fail or crash in any order is safe
      exactly when none that is still to store disagrees with another one. */
  lemma FinishesSafelyIff(ch: Channels, s: State)
    requires Inv(s, ch) && OwnChannels(ch) && ValidChannels(ch)
    ensures FinishesSafely(ch, s) <==> StoringAgrees(ch, s)
  {
    if StoringAgrees(ch, s) {
      assert FinishingInv(ch, s);
      hide FinishingInv, Inv, Safe;
      forall steps: seq<Step>, s': State | Reaches(s, steps, s') && (forall step | step in steps :: Finishing(ch, step))
        ensures Safe(s'.w, ch)
      {
        StaysFinishing(ch, s, steps, s');
      }
    } else {
      hide CallsAgree, Inv, Safe;
      var e, d :| e in s.calls && d in s.calls && e != d && s.calls[e].Storing?
          && !CallsAgree(ch, s.calls[e], s.calls[d]);
      var steps, s' := StoringDisagreementBreaks(ch, s, e, d);
      WithinFinishes(ch, {e, d}, s, steps, s');
    }
  }
}
