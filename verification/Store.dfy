/** The database as the controller sees it: topics, and rights with a timestamp and a synced
    flag under each (topic, id). Also the meaning of the queries. */
module Store {
  import opened Model
  import opened Order
  import opened Collections

  /** Done: took effect. Lost: failed without effect. Unconfirmed: took effect, but an error
      (a timeout, say) was reported. */
  datatype Fault = Done | Lost | Unconfirmed

  datatype Entry = Entry(acl: Acl, timestamp: int, synced: bool)

  datatype Db = Db(topics: map<string, Topic>, entries: map<Key, Entry>) {
    /** The rights alone. */
    function Acls(): map<Key, Acl> {
      map k | k in entries :: entries[k].acl
    }
  }

  /** Topics are stored under their id, rights in normal form. */
  ghost predicate Consistent(db: Db) {
    && (forall id | id in db.topics :: db.topics[id].id == id)
    && (forall k | k in db.entries :: db.entries[k].acl.IsNormal())
  }

  datatype ListOptions = ListOptions(limit: int, offset: int, ids: Option<seq<string>>)

  predicate Chosen(ids: Option<seq<string>>, id: string) {
    ids.Some? ==> id in ids.value
  }

  ghost function StoredIds(acls: map<Key, Acl>, topicId: string): set<string> {
    set k | k in acls && k.topicId == topicId :: k.id
  }

  ghost function ChosenIds(acls: map<Key, Acl>, topicId: string, ids: Option<seq<string>>): set<string> {
    set id | id in StoredIds(acls, topicId) && Chosen(ids, id)
  }

  /** The stored ids whose own rights grant the list to the token. */
  ghost function GrantedIds(acls: map<Key, Acl>, topicId: string, t: Token, ps: seq<Permission>): set<string> {
    set id | id in StoredIds(acls, topicId) && GrantsKnown(acls[Key(topicId, id)], t, ps)
  }

  function TopicKey(t: Topic): string {
    t.id
  }

  /** The rights stored under exactly this key. */
  function RightsAt(db: Db, k: Key): Acl {
    if k in db.entries then db.entries[k].acl else NO_ACL
  }

  function ResourceId(r: Resource): string {
    r.id
  }

  /** The loop that both stores end an id listing with. */
  method CollectIds(rs: seq<Resource>) returns (ids: seq<string>)
    ensures ids == Ids(rs, ResourceId)
  {
    ids := [];
    for i := 0 to |rs|
      invariant |ids| == i && forall j | 0 <= j < i :: ids[j] == rs[j].id
    {
      ids := ids + [rs[i].id];
    }
  }

  /** The resources are the stored ones. */
  ghost predicate AreStored(acls: map<Key, Acl>, topicId: string, rs: seq<Resource>) {
    forall r | r in rs :: r.topicId == topicId && Key(topicId, r.id) in acls
        && r.perms == ToPerms(acls[Key(topicId, r.id)])
  }

  /** Unsynced and older than `bound`. */
  predicate Overdue(e: Entry, bound: int) {
    !e.synced && e.timestamp < bound
  }

  function KeyOf(r: Resource): Key {
    Key(r.topicId, r.id)
  }

  /** The list holds every overdue resource once. */
  ghost predicate ListsOverdue(entries: map<Key, Entry>, bound: int, rs: seq<Resource>) {
    && (forall i, j | 0 <= i < j < |rs| :: KeyOf(rs[i]) != KeyOf(rs[j]))
    && (forall r | r in rs :: KeyOf(r) in entries && Overdue(entries[KeyOf(r)], bound)
         && r.perms == ToPerms(entries[KeyOf(r)].acl))
    && (forall k | k in entries && Overdue(entries[k], bound) :: exists r | r in rs :: KeyOf(r) == k)
  }

  /** An update that sets the flag of the entry, if there is one. */
  function Marked(entries: map<Key, Entry>, k: Key): map<Key, Entry> {
    if k in entries then entries[k := entries[k].(synced := true)] else entries
  }

  function WithoutTopic(entries: map<Key, Entry>, topicId: string): map<Key, Entry> {
    map k | k in entries && k.topicId != topicId :: entries[k]
  }

  /** Two deletes, topics first; the second is not tried when the first reports a failure. */
  function WithTopicDeleted(db: Db, id: string, first: Fault, second: Fault): (Db, bool) {
    if first == Lost then (db, false)
    else
      var topicGone := db.(topics := db.topics - {id});
      if first == Unconfirmed || second == Lost then (topicGone, false)
      else (topicGone.(entries := WithoutTopic(db.entries, id)), second == Done)
  }

  datatype Found = Found(resource: Resource) | NotFound | CheckFailed
}
