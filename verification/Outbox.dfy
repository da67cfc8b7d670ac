/** The publish outbox as a step system: writers, retry passes and deletes interleave at the
    granularity of single database and publish operations, any of which may fail; a call may
    crash between two of them. */
module Outbox {
  import opened Model
  import opened Store
  import opened Effects

  /** A call in flight: a writer is Storing, Sending, then Marking; a retry pass is Looking at the
      first of the resources it listed, then Sending and Marking it. */
  datatype Call =
    | Storing(topic: Topic, r: Resource)
    | Sending(topic: Topic, r: Resource, rest: seq<Resource>)
    | Marking(topic: Topic, r: Resource, rest: seq<Resource>)
    | Looking(todo: seq<Resource>)

  datatype State = State(w: World, calls: map<nat, Call>)

  const START := State(EMPTY, map[])

  datatype Step =
    | BeginWrite(c: nat, r: Resource)
    | Store(c: nat, now: int, fault: Fault)
    | Publish(c: nat, fault: Fault)
    | MarkSynced(c: nat, fault: Fault)
    | BeginRetry(c: nat, bound: int, listed: seq<Resource>)
    | Look(c: nat, ok: bool)
    | Crash(c: nat)
    | Delete(key: Key)
    | PutTopic(topic: Topic)
    | DropTopic(id: string)
    | DropEntries(id: string)

  ghost predicate Enabled(s: State, step: Step) {
    match step
    case BeginWrite(c, r) => c !in s.calls && r.topicId in s.w.db.topics
    case Store(c, _, _) => c in s.calls && s.calls[c].Storing?
    case Publish(c, _) => c in s.calls && s.calls[c].Sending?
    case MarkSynced(c, _) => c in s.calls && s.calls[c].Marking?
    case BeginRetry(c, bound, listed) => c !in s.calls && ListsOverdue(s.w.db.entries, bound, listed)
    case Look(c, _) => c in s.calls && s.calls[c].Looking? && s.calls[c].todo != []
    case Crash(c) => c in s.calls
    case PutTopic(topic) => topic.Validate().None?
    case _ => true
  }

  function Continue(calls: map<nat, Call>, c: nat, rest: seq<Resource>): map<nat, Call> {
    if rest == [] then calls - {c} else calls[c := Looking(rest)]
  }

  ghost function Apply(s: State, step: Step): State
    requires Enabled(s, step)
  {
    var db := s.w.db;
    match step
    case BeginWrite(c, r) => s.(calls := s.calls[c := Storing(db.topics[r.topicId], r)])
    case Store(c, now, fault) =>
      var Storing(topic, r) := s.calls[c];
      State(if fault == Lost then s.w else Put(s.w, r, now, !topic.Publishes()),
            if fault == Done && topic.Publishes() then s.calls[c := Sending(topic, r, [])] else s.calls - {c})
    case Publish(c, fault) =>
      var Sending(topic, r, rest) := s.calls[c];
      State(if !topic.Publishes() || fault == Lost then s.w else Send(s.w, topic, r.id, r.perms),
            if topic.Publishes() && fault != Done then Continue(s.calls, c, rest)
            else s.calls[c := Marking(topic, r, rest)])
    case MarkSynced(c, fault) =>
      var Marking(topic, r, rest) := s.calls[c];
      State(if fault == Lost then s.w else Mark(s.w, Key(topic.id, r.id)), Continue(s.calls, c, rest))
    case BeginRetry(c, _, listed) => s.(calls := Continue(s.calls, c, listed))
    case Look(c, ok) =>
      var r, rest := s.calls[c].todo[0], s.calls[c].todo[1..];
      s.(calls := if ok && r.topicId in db.topics then s.calls[c := Sending(db.topics[r.topicId], r, rest)]
                  else Continue(s.calls, c, rest))
    case Crash(c) => s.(calls := s.calls - {c})
    case Delete(key) => s.(w := s.w.(db := db.(entries := db.entries - {key})))
    case PutTopic(topic) => s.(w := s.w.(db := db.(topics := db.topics[topic.id := topic])))
    case DropTopic(id) => s.(w := s.w.(db := db.(topics := db.topics - {id})))
    case DropEntries(id) => s.(w := s.w.(db := db.(entries := WithoutTopic(db.entries, id))))
  }

  ghost predicate IsRun(states: seq<State>, steps: seq<Step>) {
    && |states| == |steps| + 1
    && states[0] == START
    && forall i | 0 <= i < |steps| :: Enabled(states[i], steps[i]) && states[i + 1] == Apply(states[i], steps[i])
  }

  /** The rights in the last message a consumer of a Kafka topic got for an id. */
  function Last(log: seq<Message>, kafka: string, id: string): Option<Acl> {
    if log == [] then None
    else
      var m := log[|log| - 1];
      if m.kafka == kafka && m.id == id then Some(m.rights) else Last(log[..|log| - 1], kafka, id)
  }

  /** The consumer of this Kafka topic was last told these rights, up to what storage drops. */
  predicate Told(log: seq<Message>, kafka: string, id: string, acl: Acl) {
    var last := Last(log, kafka, id);
    last.Some? && last.value.Normal() == acl
  }

  /** Which topics publish, and to which Kafka topic: one of their own each. */
  type Channels = map<string, string>

  ghost predicate OwnChannels(ch: Channels) {
    forall a, b | a in ch && b in ch && ch[a] == ch[b] :: a == b
  }

  predicate Configured(ch: Channels, topic: Topic) {
    && (topic.Publishes() <==> topic.id in ch)
    && (topic.Publishes() ==> topic.kafka == ch[topic.id])
  }

  /** A topic with this channel. */
  function ChannelTopic(ch: Channels, id: string): Topic
    requires id in ch
  {
    Topic(id, ch[id], false, 0, Perms(None, None, None))
  }

  /** Topics that the service accepts, and that publish. */
  predicate ValidChannels(ch: Channels) {
    forall id | id in ch :: ChannelTopic(ch, id).Publishes() && ChannelTopic(ch, id).Validate().None?
  }

  predicate KeepsChannels(ch: Channels, step: Step) {
    step.PutTopic? ==> Configured(ch, step.topic)
  }

  /** Every entry of a publishing topic that is flagged as synced was published as it is stored. */
  ghost predicate Safe(w: World, ch: Channels) {
    forall k | k in w.db.entries && k.topicId in ch && w.db.entries[k].synced ::
        Told(w.log, ch[k.topicId], k.id, w.db.entries[k].acl)
  }

  /** The resources a call carries: what it stores, sends, has just sent, or listed. */
  function Carried(call: Call): set<Resource> {
    match call
    case Storing(_, r) => {r}
    case Sending(_, r, rest) => {r} + set x | x in rest
    case Marking(_, r, rest) => {r} + set x | x in rest
    case Looking(todo) => set x | x in todo
  }

  /** For a publishing topic, the two resources do not carry different rights under one key. */
  predicate Agree(ch: Channels, a: Resource, b: Resource) {
    KeyOf(a) == KeyOf(b) && a.topicId in ch ==> a.perms.Norm() == b.perms.Norm()
  }

  ghost predicate CallsAgree(ch: Channels, a: Call, b: Call) {
    forall x, y | x in Carried(a) && y in Carried(b) :: Agree(ch, x, y)
  }

  /** Calls in flight may overlap, but not with different rights for one resource. */
  ghost predicate Agreeing(s: State, ch: Channels) {
    forall c, d | c in s.calls && d in s.calls && c != d :: CallsAgree(ch, s.calls[c], s.calls[d])
  }

  // What every step keeps

  /** If the resource is stored under a publishing topic, it is stored with the rights carried. */
  ghost predicate Pending(w: World, ch: Channels, r: Resource) {
    r.topicId in ch && KeyOf(r) in w.db.entries ==> w.db.entries[KeyOf(r)].acl == r.perms.Norm()
  }

  ghost predicate CallInv(w: World, ch: Channels, call: Call) {
    && (!call.Looking? ==> Configured(ch, call.topic) && call.topic.id == call.r.topicId)
    && (!call.Storing? ==> forall x | x in Carried(call) :: Pending(w, ch, x))
    && (call.Marking? && call.r.topicId in ch ==>
          Told(w.log, ch[call.r.topicId], call.r.id, call.r.perms.Norm()))
  }

  ghost predicate DbInv(db: Db, ch: Channels) {
    && (forall id | id in db.topics :: db.topics[id].id == id && Configured(ch, db.topics[id]))
    && (forall k | k in db.entries :: db.entries[k].acl.IsNormal())
  }

  ghost predicate Inv(s: State, ch: Channels) {
    && DbInv(s.w.db, ch)
    && Safe(s.w, ch)
    && forall c | c in s.calls :: CallInv(s.w, ch, s.calls[c])
  }

  lemma LastAfterSend(w: World, ch: Channels, topic: Topic, r: Resource, k: Key)
    requires OwnChannels(ch) && Configured(ch, topic) && topic.Publishes() && topic.id == r.topicId && k.topicId in ch
    ensures Last(Send(w, topic, r.id, r.perms).log, ch[k.topicId], k.id)
         == if k == KeyOf(r) then Some(r.perms.Plain()) else Last(w.log, ch[k.topicId], k.id)
  {
  }

  /** A call keeps its invariant when another one writes or sends a resource they agree on. */
  lemma CallInvFrame(w: World, w': World, ch: Channels, call: Call, r: Resource)
    requires CallInv(w, ch, call) && forall x | x in Carried(call) :: Agree(ch, x, r)
    requires forall k | k in w'.db.entries ::
               || (k in w.db.entries && w'.db.entries[k].acl == w.db.entries[k].acl)
               || (k == KeyOf(r) && w'.db.entries[k].acl == r.perms.Norm())
    requires forall k: Key | k.topicId in ch ::
               || Last(w'.log, ch[k.topicId], k.id) == Last(w.log, ch[k.topicId], k.id)
               || (k == KeyOf(r) && Last(w'.log, ch[k.topicId], k.id) == Some(r.perms.Plain()))
    ensures CallInv(w', ch, call)
  {
    if call.Marking? && call.r.topicId in ch {
      assert call.r in Carried(call);
      assert KeyOf(call.r).topicId in ch;
    }
  }

  lemma StoreKeepsInv(s: State, ch: Channels, step: Step)
    requires step.Store? && Enabled(s, step) && OwnChannels(ch) && Inv(s, ch) && Agreeing(s, ch)
    ensures Inv(Apply(s, step), ch)
  {
    var s' := Apply(s, step);
    var Storing(topic, r) := s.calls[step.c];
    NormIdempotent(r.perms);
    forall c | c in s'.calls ensures CallInv(s'.w, ch, s'.calls[c]) {
      if c != step.c {
        assert CallsAgree(ch, s.calls[c], s.calls[step.c]);
        CallInvFrame(s.w, s'.w, ch, s.calls[c], r);
      }
    }
  }

  lemma PublishKeepsInv(s: State, ch: Channels, step: Step)
    requires step.Publish? && Enabled(s, step) && OwnChannels(ch) && Inv(s, ch) && Agreeing(s, ch)
    ensures Inv(Apply(s, step), ch)
  {
    var s' := Apply(s, step);
    var Sending(topic, r, rest) := s.calls[step.c];
    assert r in Carried(s.calls[step.c]);
    if s'.w != s.w {
      SendKeepsSafe(s.w, ch, topic, r);
    }
    forall c | c in s'.calls ensures CallInv(s'.w, ch, s'.calls[c]) {
      if c != step.c {
        assert CallsAgree(ch, s.calls[c], s.calls[step.c]);
        CallInvFrame(s.w, s'.w, ch, s.calls[c], r);
      }
    }
  }

  /** Sending what is stored keeps the outbox safe. */
  lemma SendKeepsSafe(w: World, ch: Channels, topic: Topic, r: Resource)
    requires OwnChannels(ch) && Configured(ch, topic) && topic.Publishes() && topic.id == r.topicId
    requires Safe(w, ch) && Pending(w, ch, r)
    ensures var w' := Send(w, topic, r.id, r.perms);
            && Safe(w', ch)
            && forall k: Key | k.topicId in ch ::
                 Last(w'.log, ch[k.topicId], k.id) ==
                 if k == KeyOf(r) then Some(r.perms.Plain()) else Last(w.log, ch[k.topicId], k.id)
  {
    var w' := Send(w, topic, r.id, r.perms);
    forall k: Key | k.topicId in ch
      ensures Last(w'.log, ch[k.topicId], k.id) ==
              if k == KeyOf(r) then Some(r.perms.Plain()) else Last(w.log, ch[k.topicId], k.id)
    {
      LastAfterSend(w, ch, topic, r, k);
    }
    forall k | k in w'.db.entries && k.topicId in ch && w'.db.entries[k].synced
      ensures Told(w'.log, ch[k.topicId], k.id, w'.db.entries[k].acl)
    {
      assert Told(w.log, ch[k.topicId], k.id, w.db.entries[k].acl);
    }
  }

  lemma MarkKeepsInv(s: State, ch: Channels, step: Step)
    requires step.MarkSynced? && Enabled(s, step) && Inv(s, ch)
    ensures Inv(Apply(s, step), ch)
  {
    var s' := Apply(s, step);
    var call := s.calls[step.c];
    assert call.r in Carried(call);
    forall c | c in s'.calls ensures CallInv(s'.w, ch, s'.calls[c]) {
      if c != step.c {
        SameRightsKeepCallInv(s.w, s'.w, ch, s.calls[c]);
      } else {
        assert Carried(s'.calls[c]) <= Carried(call);
      }
    }
  }

  lemma SameRightsKeepCallInv(w: World, w': World, ch: Channels, call: Call)
    requires CallInv(w, ch, call) && w'.log == w.log
    requires forall k | k in w'.db.entries :: k in w.db.entries && w'.db.entries[k].acl == w.db.entries[k].acl
    ensures CallInv(w', ch, call)
  {
  }

  lemma OtherStepKeepsInv(s: State, ch: Channels, step: Step)
    requires Enabled(s, step) && KeepsChannels(ch, step) && Inv(s, ch)
    requires !step.Store? && !step.Publish? && !step.MarkSynced?
    ensures Inv(Apply(s, step), ch)
  {
    var s' := Apply(s, step);
    forall c | c in s'.calls ensures CallInv(s'.w, ch, s'.calls[c]) {
      if c in s.calls && s'.calls[c] == s.calls[c] {
        SameRightsKeepCallInv(s.w, s'.w, ch, s.calls[c]);
      } else if step.BeginRetry? {
        forall x | x in step.listed ensures Pending(s.w, ch, x) { }
      }
    }
  }

  lemma StepKeepsInv(s: State, ch: Channels, step: Step)
    requires Enabled(s, step) && OwnChannels(ch) && KeepsChannels(ch, step) && Inv(s, ch) && Agreeing(s, ch)
    ensures Inv(Apply(s, step), ch)
  {
    match step
    case Store(_, _, _) => StoreKeepsInv(s, ch, step);
    case Publish(_, _) => PublishKeepsInv(s, ch, step);
    case MarkSynced(_, _) => MarkKeepsInv(s, ch, step);
    case _ => OtherStepKeepsInv(s, ch, step);
  }

  /** Outbox safety: as long as publishing topics keep a Kafka topic of their own and calls in
      flight do not carry different rights for one resource, no interleaving of writers and retry
      passes with faults, crashes and deletes makes the stored rights of a synced entry differ from
      what its consumers were last told. */
  lemma {:induction false} OutboxSafety(states: seq<State>, steps: seq<Step>, ch: Channels, i: nat)
    requires IsRun(states, steps) && OwnChannels(ch) && i < |states|
    requires forall step | step in steps :: KeepsChannels(ch, step)
    requires forall s | s in states :: Agreeing(s, ch)
    ensures Inv(states[i], ch)
    ensures Safe(states[i].w, ch)
  {
    if i == 0 {
    } else {
      OutboxSafety(states, steps, ch, i - 1);
      var s, step := states[i - 1], steps[i - 1];
      assert s in states && step in steps;
      StepKeepsInv(s, ch, step);
    }
  }

  // Changing how a topic publishes

  function Reconfigured(ch: Channels, topic: Topic): Channels {
    if topic.Publishes() then ch[topic.id := topic.kafka] else ch - {topic.id}
  }

  /** The topic starts to publish, or moves to another Kafka topic. */
  predicate Moves(ch: Channels, topic: Topic) {
    topic.Publishes() && (topic.id !in ch || ch[topic.id] != topic.kafka)
  }

  /** No entry of the topic is flagged as synced. */
  ghost predicate NoneSynced(db: Db, topicId: string) {
    forall k | k in db.entries && k.topicId == topicId :: !db.entries[k].synced
  }

  /** No call in flight has read this topic. */
  ghost predicate NotRead(s: State, topicId: string) {
    forall c | c in s.calls && !s.calls[c].Looking? :: s.calls[c].topic.id != topicId
  }

  /** What calls in flight listed of this topic is still stored as listed, or not at all. */
  ghost predicate ListedCurrent(s: State, topicId: string) {
    forall c, x | c in s.calls && !s.calls[c].Storing? && x in Carried(s.calls[c]) && x.topicId == topicId ::
      KeyOf(x) in s.w.db.entries ==> s.w.db.entries[KeyOf(x)].acl == x.perms.Norm()
  }

  /** Storing a topic touches neither the flags of its resources nor the topics that calls in flight
      have read. When it moves to a Kafka topic that was not used before, the outbox stays in order
      exactly if no entry of the topic is synced, no call in flight has read the topic and none has
      listed anything of it that was replaced since; when it stops to publish, exactly if no call in
      flight has read it; any other update leaves the outbox in order. */
  lemma TopicUpdateInvIff(s: State, ch: Channels, topic: Topic)
    requires Inv(s, ch) && Enabled(s, PutTopic(topic))
    requires Moves(ch, topic) ==> forall m | m in s.w.log :: m.kafka != topic.kafka
    ensures Inv(Apply(s, PutTopic(topic)), Reconfigured(ch, topic)) <==>
            && (Moves(ch, topic) ==> NoneSynced(s.w.db, topic.id) && ListedCurrent(s, topic.id))
            && (Reconfigured(ch, topic) != ch ==> NotRead(s, topic.id))
  {
    if Reconfigured(ch, topic) == ch {
      SameChannelsKeepInv(s, ch, topic);
    } else if Moves(ch, topic) {
      TopicMoveInvIff(s, ch, topic);
    } else {
      TopicStopInvIff(s, ch, topic);
    }
  }

  lemma SameChannelsKeepInv(s: State, ch: Channels, topic: Topic)
    requires Inv(s, ch) && Enabled(s, PutTopic(topic)) && Reconfigured(ch, topic) == ch
    ensures Inv(Apply(s, PutTopic(topic)), ch) && !Moves(ch, topic)
  {
    OtherStepKeepsInv(s, ch, PutTopic(topic));
  }

  lemma TopicStopInvIff(s: State, ch: Channels, topic: Topic)
    requires Inv(s, ch) && Enabled(s, PutTopic(topic)) && !topic.Publishes() && topic.id in ch
    ensures Inv(Apply(s, PutTopic(topic)), ch - {topic.id}) <==> NotRead(s, topic.id)
  {
    var s', ch' := Apply(s, PutTopic(topic)), ch - {topic.id};
    if NotRead(s, topic.id) {
      forall c | c in s.calls ensures CallInv(s'.w, ch', s.calls[c]) {
        forall x | x in Carried(s.calls[c]) && !s.calls[c].Storing? ensures Pending(s'.w, ch', x) {
          assert Pending(s.w, ch, x);
        }
      }
    } else {
      var c :| c in s.calls && !s.calls[c].Looking? && s.calls[c].topic.id == topic.id;
      assert !CallInv(s'.w, ch', s.calls[c]);
    }
  }

  lemma TopicMoveInvIff(s: State, ch: Channels, topic: Topic)
    requires Inv(s, ch) && Enabled(s, PutTopic(topic)) && Moves(ch, topic)
    requires forall m | m in s.w.log :: m.kafka != topic.kafka
    ensures Inv(Apply(s, PutTopic(topic)), ch[topic.id := topic.kafka]) <==>
            NoneSynced(s.w.db, topic.id) && NotRead(s, topic.id) && ListedCurrent(s, topic.id)
  {
    var s', ch' := Apply(s, PutTopic(topic)), ch[topic.id := topic.kafka];
    if !NoneSynced(s.w.db, topic.id) {
      var k :| k in s.w.db.entries && k.topicId == topic.id && s.w.db.entries[k].synced;
      LastUnused(s.w.log, topic.kafka, k.id);
      assert !Told(s.w.log, ch'[k.topicId], k.id, s.w.db.entries[k].acl);
    } else if !NotRead(s, topic.id) {
      var c :| c in s.calls && !s.calls[c].Looking? && s.calls[c].topic.id == topic.id;
      assert !CallInv(s'.w, ch', s.calls[c]);
    } else if !ListedCurrent(s, topic.id) {
      var c, x :| c in s.calls && !s.calls[c].Storing? && x in Carried(s.calls[c]) && x.topicId == topic.id &&
                  KeyOf(x) in s.w.db.entries && s.w.db.entries[KeyOf(x)].acl != x.perms.Norm();
      assert !Pending(s'.w, ch', x) && !CallInv(s'.w, ch', s.calls[c]);
    } else {
      forall c | c in s.calls ensures CallInv(s'.w, ch', s.calls[c]) {
        forall x | x in Carried(s.calls[c]) && !s.calls[c].Storing? ensures Pending(s'.w, ch', x) {
          assert Pending(s.w, ch, x);
        }
      }
    }
  }

  lemma {:induction false} LastUnused(log: seq<Message>, kafka: string, id: string)
    requires forall m | m in log :: m.kafka != kafka
    ensures Last(log, kafka, id) == None
  {
    if log == [] {
    } else {
      assert log[|log| - 1] in log;
      LastUnused(log[..|log| - 1], kafka, id);
    }
  }

  // History, under every interleaving

  ghost predicate WasStored(states: seq<State>, i: nat, k: Key, acl: Acl)
    requires i < |states|
  {
    exists j | 0 <= j <= i :: k in states[j].w.db.entries && states[j].w.db.entries[k].acl == acl
  }

  ghost predicate WasTopic(states: seq<State>, i: nat, id: string, topic: Topic)
    requires i < |states|
  {
    exists j | 0 <= j <= i :: id in states[j].w.db.topics && states[j].w.db.topics[id] == topic
  }

  /** What a call may still send. */
  function Outgoing(call: Call): set<Resource> {
    match call
    case Storing(_, _) => {}
    case Sending(_, r, rest) => {r} + set x | x in rest
    case Marking(_, _, rest) => set x | x in rest
    case Looking(todo) => set x | x in todo
  }

  lemma {:induction false} EntriesNormal(states: seq<State>, steps: seq<Step>, i: nat)
    requires IsRun(states, steps) && i < |states|
    ensures forall k | k in states[i].w.db.entries :: states[i].w.db.entries[k].acl.IsNormal()
  {
    if i == 0 {
    } else {
      EntriesNormal(states, steps, i - 1);
      if steps[i - 1].Store? { NormIdempotent(states[i - 1].calls[steps[i - 1].c].r.perms); }
    }
  }

  lemma {:induction false} OutgoingWasStored(states: seq<State>, steps: seq<Step>, i: nat, c: nat, r: Resource)
    requires IsRun(states, steps) && i < |states|
    requires c in states[i].calls && r in Outgoing(states[i].calls[c])
    ensures WasStored(states, i, KeyOf(r), r.perms.Norm())
  {
    var s, step := states[i - 1], steps[i - 1];
    if c in s.calls && r in Outgoing(s.calls[c]) {
      OutgoingWasStored(states, steps, i - 1, c, r);
    } else if step.Store? {
      assert r == s.calls[c].r && states[i].w.db.entries[KeyOf(r)].acl == r.perms.Norm();
    } else {
      assert step.BeginRetry? && r in step.listed;
      EntriesNormal(states, steps, i - 1);
      assert s.w.db.entries[KeyOf(r)].acl == r.perms.Norm();
    }
  }

  lemma {:induction false} SnapshotWasTopic(states: seq<State>, steps: seq<Step>, i: nat, c: nat)
    requires IsRun(states, steps) && i < |states|
    requires c in states[i].calls && (states[i].calls[c].Storing? || states[i].calls[c].Sending?)
    ensures WasTopic(states, i, states[i].calls[c].r.topicId, states[i].calls[c].topic)
  {
    var s, call := states[i - 1], states[i].calls[c];
    if c in s.calls && (s.calls[c].Storing? || s.calls[c].Sending?) && s.calls[c].topic == call.topic
        && s.calls[c].r == call.r {
      SnapshotWasTopic(states, steps, i - 1, c);
    } else {
      assert call.r.topicId in s.w.db.topics && s.w.db.topics[call.r.topicId] == call.topic;
    }
  }

  /** Only publishing adds a message, the one of the call's resource. */
  lemma NewMessage(s: State, step: Step, n: nat)
    requires Enabled(s, step) && n < |Apply(s, step).w.log|
    ensures n < |s.w.log| ==> Apply(s, step).w.log[n] == s.w.log[n]
    ensures n >= |s.w.log| ==>
              && step.Publish? && s.calls[step.c].topic.Publishes()
              && Apply(s, step).w.log[n] ==
                 Message(s.calls[step.c].topic.kafka, s.calls[step.c].r.id, s.calls[step.c].r.perms.Plain())
  {
  }

  /** Whatever the interleaving, a consumer is only ever told rights that were stored for that
      resource at some earlier step, on a Kafka topic its topic then published to. */
  lemma {:induction false} MessagesWereStored(states: seq<State>, steps: seq<Step>, i: nat, n: nat)
    requires IsRun(states, steps) && i < |states| && n < |states[i].w.log|
    ensures exists k: Key, topic: Topic ::
              && k.id == states[i].w.log[n].id
              && WasStored(states, i, k, states[i].w.log[n].rights.Normal())
              && WasTopic(states, i, k.topicId, topic) && topic.Publishes() && topic.kafka == states[i].w.log[n].kafka
  {
    if i == 0 {
    } else {
      var s, step := states[i - 1], steps[i - 1];
      NewMessage(s, step, n);
      hide Apply;
      forall k, acl | WasStored(states, i - 1, k, acl) ensures WasStored(states, i, k, acl) { }
      forall id, topic | WasTopic(states, i - 1, id, topic) ensures WasTopic(states, i, id, topic) { }
      if n < |s.w.log| {
        MessagesWereStored(states, steps, i - 1, n);
      } else {
        var call := s.calls[step.c];
        OutgoingWasStored(states, steps, i - 1, step.c, call.r);
        SnapshotWasTopic(states, steps, i - 1, step.c);
        assert WasStored(states, i, KeyOf(call.r), call.r.perms.Norm());
        assert WasTopic(states, i, KeyOf(call.r).topicId, call.topic);
      }
    }
  }

  function MarkedKey(call: Call): Key
    requires call.Marking?
  {
    Key(call.topic.id, call.r.id)
  }

  /** At step j, call c published the resource k (or had nothing to publish it to), and until
      state i it has been about to mark it. */
  ghost predicate PublishedBy(states: seq<State>, steps: seq<Step>, j: nat, i: nat, c: nat, k: Key)
    requires IsRun(states, steps) && j < i < |states|
  {
    && steps[j].Publish? && steps[j].c == c
    && (var Sending(topic, r, _) := states[j].calls[c];
        && Key(topic.id, r.id) == k
        && (topic.Publishes() ==>
              && steps[j].fault == Done
              && states[j + 1].w.log == states[j].w.log + [Message(topic.kafka, k.id, r.perms.Plain())]))
    && forall x | j < x <= i :: c in states[x].calls && states[x].calls[c].Marking?
         && MarkedKey(states[x].calls[c]) == k
  }

  lemma {:induction false} MarkingWasPublished(states: seq<State>, steps: seq<Step>, i: nat, c: nat)
    requires IsRun(states, steps) && i < |states|
    requires c in states[i].calls && states[i].calls[c].Marking?
    ensures exists j | 0 <= j < i :: PublishedBy(states, steps, j, i, c, MarkedKey(states[i].calls[c]))
  {
    var s, step, k := states[i - 1], steps[i - 1], MarkedKey(states[i].calls[c]);
    if c in s.calls && s.calls[c].Marking? {
      MarkingWasPublished(states, steps, i - 1, c);
      var j :| 0 <= j < i - 1 && PublishedBy(states, steps, j, i - 1, c, k);
      assert PublishedBy(states, steps, j, i, c, k);
    } else {
      assert PublishedBy(states, steps, i - 1, i, c, k);
    }
  }

  /** Whatever the interleaving, an entry's flag turns to synced only when a writer replaces it under
      a topic that does not publish, or through the mark of a call that has published that resource. */
  lemma FlagNeedsPublish(states: seq<State>, steps: seq<Step>, i: nat, k: Key)
    requires IsRun(states, steps) && i < |steps|
    requires k in states[i].w.db.entries && !states[i].w.db.entries[k].synced
    requires k in states[i + 1].w.db.entries && states[i + 1].w.db.entries[k].synced
    ensures || (steps[i].Store? &&
                !states[i].calls[steps[i].c].topic.Publishes() && KeyOf(states[i].calls[steps[i].c].r) == k)
            || (steps[i].MarkSynced? && exists j | 0 <= j < i :: PublishedBy(states, steps, j, i, steps[i].c, k))
  {
    if steps[i].MarkSynced? {
      MarkingWasPublished(states, steps, i, steps[i].c);
    }
  }

  // The controller's sequential code is a run of these steps

  ghost predicate Reaches(s: State, steps: seq<Step>, s': State)
    decreases |steps|
  {
    if steps == [] then s == s' else Enabled(s, steps[0]) && Reaches(Apply(s, steps[0]), steps[1..], s')
  }

  lemma {:induction false} ReachesTrans(s: State, a: seq<Step>, m: State, b: seq<Step>, s': State)
    requires Reaches(s, a, m) && Reaches(m, b, s')
    ensures Reaches(s, a + b, s')
    decreases |a|
  {
    if a == [] {
      assert a + b == b;
    } else {
      ReachesTrans(Apply(s, a[0]), a[1..], m, b, s');
      assert (a + b)[1..] == a[1..] + b;
    }
  }

  lemma OneStep(s: State, step: Step)
    requires Enabled(s, step)
    ensures Reaches(s, [step], Apply(s, step))
  {
  }

  predicate OfCall(step: Step, c: nat) {
    match step
    case BeginWrite(d, _) => c == d
    case Store(d, _, _) => c == d
    case Publish(d, _) => c == d
    case MarkSynced(d, _) => c == d
    case BeginRetry(d, _, _) => c == d
    case Look(d, _) => c == d
    case Crash(d) => c == d
    case _ => false
  }

  /** A call that runs alone keeps the invariant. */
  lemma {:induction false} LoneCallKeepsInv(s: State, steps: seq<Step>, s': State, c: nat, ch: Channels)
    requires OwnChannels(ch) && Inv(s, ch) && s.calls.Keys <= {c}
    requires Reaches(s, steps, s') && forall step | step in steps :: OfCall(step, c)
    ensures Inv(s', ch)
    decreases |steps|
  {
    if steps == [] {
    } else {
      assert steps[0] in steps;
      StepKeepsInv(s, ch, steps[0]);
      LoneCallKeepsInv(Apply(s, steps[0]), steps[1..], s', c, ch);
    }
  }

  /** A call of setPermission, whatever fails in it, is a run of one writer. */
  lemma WriteIsRun(s: State, c: nat, r: Resource, now: int, f: WriteFaults) returns (steps: seq<Step>)
    requires c !in s.calls && r.topicId in s.w.db.topics && s.w.db.topics[r.topicId].id == r.topicId
    ensures Reaches(s, steps, State(Write(s.w, s.w.db.topics[r.topicId], r, now, f).0, s.calls))
    ensures forall step | step in steps :: OfCall(step, c)
  {
    var topic := s.w.db.topics[r.topicId];
    var s1 := Apply(s, BeginWrite(c, r));
    OneStep(s, BeginWrite(c, r));
    var s2 := Apply(s1, Store(c, now, f.write));
    OneStep(s1, Store(c, now, f.write));
    ReachesTrans(s, [BeginWrite(c, r)], s1, [Store(c, now, f.write)], s2);
    steps := [BeginWrite(c, r)] + [Store(c, now, f.write)];
    assert s1.calls - {c} == s.calls;
    if f.write == Done && topic.Publishes() {
      var s3 := Apply(s2, Publish(c, f.publish));
      OneStep(s2, Publish(c, f.publish));
      ReachesTrans(s, steps, s2, [Publish(c, f.publish)], s3);
      steps := steps + [Publish(c, f.publish)];
      assert s2.calls - {c} == s.calls;
      if f.publish == Done {
        OneStep(s3, MarkSynced(c, f.mark));
        ReachesTrans(s, steps, s3, [MarkSynced(c, f.mark)], Apply(s3, MarkSynced(c, f.mark)));
        steps := steps + [MarkSynced(c, f.mark)];
        assert s3.calls - {c} == s.calls;
      }
    }
  }

  /** An iteration of the retry loop is a run of the pass's call. */
  lemma RetryIsRun(s: State, c: nat, f: RetryFaults) returns (steps: seq<Step>)
    requires c in s.calls && s.calls[c].Looking? && s.calls[c].todo != []
    ensures Reaches(s, steps, State(Retry(s.w, s.calls[c].todo[0], f), Continue(s.calls, c, s.calls[c].todo[1..])))
    ensures forall step | step in steps :: OfCall(step, c)
  {
    var r := s.calls[c].todo[0];
    steps := [Look(c, f.look)];
    var s1 := Apply(s, Look(c, f.look));
    OneStep(s, Look(c, f.look));
    if f.look && r.topicId in s.w.db.topics {
      var s2 := Apply(s1, Publish(c, f.publish));
      OneStep(s1, Publish(c, f.publish));
      ReachesTrans(s, steps, s1, [Publish(c, f.publish)], s2);
      steps := steps + [Publish(c, f.publish)];
      assert Continue(s1.calls, c, s.calls[c].todo[1..]) == Continue(s.calls, c, s.calls[c].todo[1..]);
      if !s1.calls[c].topic.Publishes() || f.publish == Done {
        OneStep(s2, MarkSynced(c, f.mark));
        ReachesTrans(s, steps, s2, [MarkSynced(c, f.mark)], Apply(s2, MarkSynced(c, f.mark)));
        steps := steps + [MarkSynced(c, f.mark)];
        assert Continue(s2.calls, c, s.calls[c].todo[1..]) == Continue(s.calls, c, s.calls[c].todo[1..]);
      }
    }
  }
}
