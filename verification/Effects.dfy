/** What the controller changes: the database and the messages sent to Kafka. Each single
    database or publish operation may fail, with or without having taken effect. */
module Effects {
  import opened Model
  import opened Store

  /** A consumer of a Kafka topic sees the id and the rights; the topic id is not sent. */
  datatype Message = Message(kafka: string, id: string, rights: Acl)

  datatype World = World(db: Db, log: seq<Message>)

  const EMPTY := World(Db(map[], map[]), [])

  function Put(w: World, r: Resource, now: int, synced: bool): World {
    w.(db := w.db.(entries := w.db.entries[KeyOf(r) := Entry(r.perms.Norm(), now, synced)]))
  }

  function Send(w: World, topic: Topic, id: string, p: Perms): World {
    w.(log := w.log + [Message(topic.kafka, id, p.Plain())])
  }

  function Mark(w: World, k: Key): World {
    w.(db := w.db.(entries := Marked(w.db.entries, k)))
  }

  datatype WriteFaults = WriteFaults(write: Fault, publish: Fault, mark: Fault)

  /** setPermission: store as unsynced, publish, mark as synced. A failed publish is not an error;
      a failed mark is. The flag is true when no error is returned. */
  function Write(w: World, topic: Topic, r: Resource, now: int, f: WriteFaults): (World, bool) {
    var stored := if f.write == Lost then w else Put(w, r, now, !topic.Publishes());
    if f.write != Done then (stored, false)
    else if !topic.Publishes() then (stored, true)
    else
      var sent := if f.publish == Lost then stored else Send(stored, topic, r.id, r.perms);
      if f.publish != Done then (sent, true)
      else (if f.mark == Lost then sent else Mark(sent, Key(topic.id, r.id)), f.mark == Done)
  }

  /** A write that reaches the database changes the one entry, to these rights. */
  lemma WriteChangesOne(w: World, topic: Topic, r: Resource, now: int, f: WriteFaults)
    requires r.topicId == topic.id && f.write != Lost
    ensures var db' := Write(w, topic, r, now, f).0.db;
            && KeyOf(r) in db'.entries
            && db'.entries[KeyOf(r)].acl == r.perms.Norm()
            && db' == w.db.(entries := w.db.entries[KeyOf(r) := db'.entries[KeyOf(r)]])
  {
  }

  /** What a write leaves and reports. Under a topic that names no Kafka topic, or "-", the entry is
      flagged at once and nothing is sent; under any other it is flagged if message and mark got
      through, and a failed publish alone is no error. */
  lemma WriteAnswers(w: World, topic: Topic, r: Resource, now: int, f: WriteFaults)
    requires r.topicId == topic.id
    ensures var (w', ok) := Write(w, topic, r, now, f);
            var silent := topic.kafka == "" || topic.kafka == "-";
            && w'.db.topics == w.db.topics
            && (forall k | k != KeyOf(r) ::
                  (k in w'.db.entries <==> k in w.db.entries)
                      && (k in w.db.entries ==> w'.db.entries[k] == w.db.entries[k]))
            && (if f.write == Lost then w' == w && !ok
                else
                  && KeyOf(r) in w'.db.entries
                  && w'.db.entries[KeyOf(r)] ==
                     Entry(r.perms.Norm(), now,
                           silent || (f.write == Done && f.publish == Done && f.mark != Lost)))
            && w'.log == w.log + (if silent || f.write != Done || f.publish == Lost then []
                                  else [Message(topic.kafka, r.id, r.perms.Plain())])
            && (ok <==> f.write == Done && (silent || f.publish != Done || f.mark == Done))
  {
  }

  datatype RetryFaults = RetryFaults(look: bool, publish: Fault, mark: Fault)

  /** The body of the retry loop: publish again, then mark; every failure moves on to the next. */
  function Retry(w: World, r: Resource, f: RetryFaults): World {
    if !f.look || r.topicId !in w.db.topics then w
    else
      var topic := w.db.topics[r.topicId];
      var sent := if !topic.Publishes() || f.publish == Lost then w else Send(w, topic, r.id, r.perms);
      if (topic.Publishes() && f.publish != Done) || f.mark == Lost then sent
      else Mark(sent, Key(topic.id, r.id))
  }
}
