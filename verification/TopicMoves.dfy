/** What becomes of resources and of calls in flight when their topic starts to publish or moves to
    another Kafka topic, or when it is removed. */
module TopicMoves {
  import opened Model
  import opened Store
  import opened Effects
  import opened Outbox
  import opened Overlaps
  import opened Continuations

  ghost predicate UnusedKafka(log: seq<Message>, kafka: string) {
    forall m | m in log :: m.kafka != kafka
  }

  /** A flagged entry nobody was told of. */
  lemma NeverTold(w: World, ch: Channels, k: Key)
    requires k in w.db.entries && k.topicId in ch && w.db.entries[k].synced && UnusedKafka(w.log, ch[k.topicId])
    ensures !Safe(w, ch)
  {
    LastUnused(w.log, ch[k.topicId], k.id);
    assert !Told(w.log, ch[k.topicId], k.id, w.db.entries[k].acl);
  }

  /** A call that has read the topic before it moved. */
  ghost predicate ReadBefore(ch: Channels, call: Call) {
    && !call.Looking? && call.topic.id == call.r.topicId && call.topic.id in ch
    && (call.topic.Publishes() ==> call.topic.kafka != ch[call.topic.id])
  }

  /** A writer that has read the topic before it moved stores an entry that ends flagged untold. */
  lemma StaleWriterBreaks(ch: Channels, s: State, c: nat) returns (steps: seq<Step>, s': State)
    requires c in s.calls && s.calls[c].Storing? && ReadBefore(ch, s.calls[c])
    requires UnusedKafka(s.w.log, ch[s.calls[c].topic.id])
    ensures Continues(ch, {c}, {}, s, steps, s') && !Safe(s'.w, ch)
  {
    var Storing(topic, r) := s.calls[c];
    if topic.Publishes() {
      steps, s' := Finishes(ch, s, c);
    } else {
      s' := Apply(s, Store(c, 0, Done));
      steps := OneMore(ch, {c}, {}, s, [], s, Store(c, 0, Done), s');
    }
    NeverTold(s'.w, ch, KeyOf(r));
  }

  /** A call that goes on to publish and mark under the topic it has read flags the entry, if it is stored. */
  lemma StaleMarkBreaks(ch: Channels, s: State, c: nat) returns (steps: seq<Step>, s': State)
    requires c in s.calls && !s.calls[c].Storing? && ReadBefore(ch, s.calls[c])
    requires UnusedKafka(s.w.log, ch[s.calls[c].topic.id]) && KeyOf(s.calls[c].r) in s.w.db.entries
    ensures Continues(ch, {c}, {}, s, steps, s') && !Safe(s'.w, ch)
  {
    var m := s;
    steps := [];
    if s.calls[c].Sending? {
      m := Apply(s, Publish(c, Done));
      steps := OneMore(ch, {c}, {}, s, [], s, Publish(c, Done), m);
    }
    s' := Apply(m, MarkSynced(c, Done));
    steps := OneMore(ch, {c}, {}, s, steps, m, MarkSynced(c, Done), s');
    NeverTold(s'.w, ch, KeyOf(s.calls[c].r));
  }

  /** Whatever it was about to do, a call that has read the topic before it moved can end with the
      outbox unsafe, together with a write of the rights it carries if the entry was deleted. */
  lemma StaleTopicBreaks(ch: Channels, s: State, c: nat, e: nat) returns (steps: seq<Step>, s': State)
    requires c in s.calls && ReadBefore(ch, s.calls[c]) && e !in s.calls
    requires StoredAs(ch, s.w.db, s.calls[c].topic.id) && UnusedKafka(s.w.log, ch[s.calls[c].topic.id])
    ensures Continues(ch, {c, e}, {s.calls[c].r}, s, steps, s') && !Safe(s'.w, ch)
  {
    var r, m := s.calls[c].r, s;
    var more;
    steps := [];
    if s.calls[c].Storing? {
      more, s' := StaleWriterBreaks(ch, s, c);
    } else {
      if KeyOf(r) !in s.w.db.entries {
        var m1 := Apply(s, BeginWrite(e, r));
        m := Apply(m1, Store(e, 0, Done));
        steps := OneMore(ch, {c, e}, {r}, s, [], s, BeginWrite(e, r), m1);
        steps := OneMore(ch, {c, e}, {r}, s, steps, m1, Store(e, 0, Done), m);
      }
      more, s' := StaleMarkBreaks(ch, m, c);
    }
    Widened(ch, {c}, {c, e}, {}, {r}, m, more, s');
    Joined(ch, {c, e}, {r}, s, steps, m, more, s');
    steps := steps + more;
  }

  /** A retry pass that listed what was replaced since publishes and marks it under the moved topic. */
  lemma StaleListingBreaks(ch: Channels, s: State, c: nat, x: Resource) returns (steps: seq<Step>, s': State)
    requires c in s.calls && x in Outgoing(s.calls[c]) && (s.calls[c].Sending? ==> x != s.calls[c].r)
    requires StoredAs(ch, s.w.db, x.topicId) && x.topicId in ch
    requires KeyOf(x) in s.w.db.entries && s.w.db.entries[KeyOf(x)].acl != x.perms.Norm()
    ensures Continues(ch, {c}, {}, s, steps, s') && !Safe(s'.w, ch)
  {
    var m, topic, rest;
    steps, m, topic, rest := GetsToSend(ch, s, c, x);
    var m' := Apply(m, Publish(c, Done));
    steps := OneMore(ch, {c}, {}, s, steps, m, Publish(c, Done), m');
    s' := Apply(m', MarkSynced(c, Done));
    steps := OneMore(ch, {c}, {}, s, steps, m', MarkSynced(c, Done), s');
    assert Last(s'.w.log, topic.kafka, x.id) == Some(x.perms.Plain());
    UntoldEntry(s'.w, ch, KeyOf(x), x);
  }

  /** The condition under which a move keeps the outbox in order is needed: where it fails, the steps
      of one call in flight, and at most one further write of rights that it carries, can end with
      the outbox unsafe. */
  lemma TopicMoveBreaks(ch: Channels, s: State, topic: Topic, e: nat)
    returns (steps: seq<Step>, s': State, cs: set<nat>, rs: set<Resource>)
    requires Inv(s, ch) && Enabled(s, PutTopic(topic)) && Moves(ch, topic) && UnusedKafka(s.w.log, topic.kafka)
    requires e !in s.calls
    requires !NoneSynced(s.w.db, topic.id) || !NotRead(s, topic.id) || !ListedCurrent(s, topic.id)
    ensures Continues(Reconfigured(ch, topic), cs, rs, Apply(s, PutTopic(topic)), steps, s')
    ensures !Safe(s'.w, Reconfigured(ch, topic))
    ensures exists c :: cs <= {c, e} && (cs == {} || (c in s.calls && rs <= Carried(s.calls[c])))
  {
    var m, ch' := Apply(s, PutTopic(topic)), Reconfigured(ch, topic);
    steps, s', cs, rs := [], m, {}, {};
    if !NoneSynced(s.w.db, topic.id) {
      var k :| k in s.w.db.entries && k.topicId == topic.id && s.w.db.entries[k].synced;
      NeverTold(m.w, ch', k);
      assert cs <= {0, e};
    } else if !NotRead(s, topic.id) {
      var c :| c in s.calls && !s.calls[c].Looking? && s.calls[c].topic.id == topic.id;
      assert CallInv(s.w, ch, s.calls[c]);
      cs, rs := {c, e}, {s.calls[c].r};
      steps, s' := StaleTopicBreaks(ch', m, c, e);
    } else {
      var c, x :| c in s.calls && !s.calls[c].Storing? && x in Carried(s.calls[c]) && x.topicId == topic.id &&
                  KeyOf(x) in s.w.db.entries && s.w.db.entries[KeyOf(x)].acl != x.perms.Norm();
      assert CallInv(s.w, ch, s.calls[c]);
      cs := {c};
      steps, s' := StaleListingBreaks(ch', m, c, x);
    }
  }

  // Runs from the empty state

  /** A topic starts to publish between a writer's reading it and its storing. Nothing is stored and
      nothing was sent when the topic moves, no other call is in flight, and no fault occurs. */
  lemma MoveUnderWriter(before: Topic, after: Topic, r: Resource) returns (states: seq<State>, steps: seq<Step>)
    requires before.id == after.id == r.topicId && !before.Publishes() && after.Publishes()
    requires before.Validate().None? && after.Validate().None?
    ensures steps == [PutTopic(before), BeginWrite(0, r), PutTopic(after), Store(0, 0, Done)]
    ensures IsRun(states, steps)
    ensures forall s | s in states :: Agreeing(s, map[after.id := after.kafka])
    ensures states[2].w.db.entries == map[] && states[2].w.log == []
    ensures !Safe(states[4].w, map[after.id := after.kafka])
  {
    var ch := map[after.id := after.kafka];
    var s1 := Apply(START, PutTopic(before));
    var s2 := Apply(s1, BeginWrite(0, r));
    var s3 := Apply(s2, PutTopic(after));
    var s4 := Apply(s3, Store(0, 0, Done));
    steps := [PutTopic(before), BeginWrite(0, r), PutTopic(after), Store(0, 0, Done)];
    states := [START, s1, s2, s3, s4];
    NeverTold(s4.w, ch, KeyOf(r));
  }

  /** A topic starts to publish after a resource was stored. */
  lemma MoveOfSynced(before: Topic, after: Topic, r: Resource) returns (states: seq<State>, steps: seq<Step>)
    requires before.id == after.id == r.topicId && !before.Publishes() && after.Publishes()
    requires before.Validate().None? && after.Validate().None?
    ensures steps == [PutTopic(before), BeginWrite(0, r), Store(0, 0, Done), PutTopic(after)]
    ensures IsRun(states, steps) && states[3].calls == map[]
    ensures !Safe(states[4].w, map[after.id := after.kafka])
  {
    var s1 := Apply(START, PutTopic(before));
    var s2 := Apply(s1, BeginWrite(0, r));
    var s3 := Apply(s2, Store(0, 0, Done));
    var s4 := Apply(s3, PutTopic(after));
    steps := [PutTopic(before), BeginWrite(0, r), Store(0, 0, Done), PutTopic(after)];
    states := [START, s1, s2, s3, s4];
    NeverTold(s4.w, map[after.id := after.kafka], KeyOf(r));
  }

  // Removing a topic

  /** The topic and all its resources are gone. */
  ghost predicate Gone(db: Db, id: string) {
    id !in db.topics && forall k | k in db.entries :: k.topicId != id
  }

  /** No writer that has read the topic is still to store. */
  ghost predicate NoWriter(s: State, id: string) {
    forall c | c in s.calls && s.calls[c].Storing? :: s.calls[c].r.topicId != id
  }

  predicate Recreates(step: Step, id: string) {
    step.PutTopic? && step.topic.id == id
  }

  /** Whatever else happens, the topic stays gone until it is created again. */
  ghost predicate StaysGone(s: State, id: string) {
    forall steps: seq<Step>, s': State | Reaches(s, steps, s')
        && (forall step | step in steps :: !Recreates(step, id)) ::
      Gone(s'.w.db, id)
  }

  /** A removal that completed holds exactly if no writer that has read the topic is still to store;
      such a writer leaves a resource without a topic, which creating the topic again brings back. */
  lemma RemovalHoldsIff(s: State, id: string)
    requires Gone(s.w.db, id)
    ensures StaysGone(s, id) <==> NoWriter(s, id)
  {
    if NoWriter(s, id) {
      forall steps: seq<Step>, s': State | Reaches(s, steps, s')
          && (forall step | step in steps :: !Recreates(step, id))
        ensures Gone(s'.w.db, id)
      {
        GoneWithoutWriter(s, steps, s', id);
      }
    } else {
      var c :| c in s.calls && s.calls[c].Storing? && s.calls[c].r.topicId == id;
      var s' := Apply(s, Store(c, 0, Done));
      OneStep(s, Store(c, 0, Done));
      assert KeyOf(s.calls[c].r) in s'.w.db.entries;
      assert forall step | step in [Store(c, 0, Done)] :: !Recreates(step, id);
    }
  }

  lemma {:induction false} GoneWithoutWriter(s: State, steps: seq<Step>, s': State, id: string)
    requires Gone(s.w.db, id) && NoWriter(s, id)
    requires Reaches(s, steps, s') && forall step | step in steps :: !Recreates(step, id)
    ensures Gone(s'.w.db, id)
    decreases |steps|
  {
    if steps == [] {
    } else {
      assert steps[0] in steps;
      GoneWithoutWriter(Apply(s, steps[0]), steps[1..], s', id);
    }
  }

  /** A writer stores after the topic it has read was removed with all its resources. */
  lemma RemovalUnderWriter(topic: Topic, r: Resource) returns (states: seq<State>, steps: seq<Step>)
    requires topic.Validate().None? && r.topicId == topic.id
    ensures steps == [PutTopic(topic), BeginWrite(0, r), DropTopic(topic.id), DropEntries(topic.id), Store(0, 0, Done)]
    ensures IsRun(states, steps)
    ensures Gone(states[4].w.db, topic.id)
    ensures KeyOf(r) in states[5].w.db.entries && topic.id !in states[5].w.db.topics
  {
    var s1 := Apply(START, PutTopic(topic));
    var s2 := Apply(s1, BeginWrite(0, r));
    var s3 := Apply(s2, DropTopic(topic.id));
    var s4 := Apply(s3, DropEntries(topic.id));
    var s5 := Apply(s4, Store(0, 0, Done));
    steps := [PutTopic(topic), BeginWrite(0, r), DropTopic(topic.id), DropEntries(topic.id), Store(0, 0, Done)];
    states := [START, s1, s2, s3, s4, s5];
  }
}
