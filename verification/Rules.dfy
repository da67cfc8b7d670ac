/** What the controller's operations decide and how they change the world, as functions. The
    methods of class Controller are proved to do exactly this; the other modules prove what
    follows from it. */
module Rules {
  import opened Model
  import opened Order
  import opened Collections
  import opened Store
  import opened Effects

  const OK := 200
  const ACCEPTED := 202
  const BAD_REQUEST := 400
  const UNAUTHORIZED := 401
  const FORBIDDEN := 403
  const NOT_FOUND := 404
  const SERVER_ERROR := 500

  // Decisions

  predicate DefaultGrants(t: Token, topic: Topic, ps: seq<Permission>) {
    t.admin || GrantsKnown(topic.defaults.Plain(), t, ps)
  }

  /** The topic's defaults grant the list; 404 for an unknown topic, unless the caller is an admin. */
  function DefaultAccess(db: Db, t: Token, topicId: string, ps: seq<Permission>): Result<bool> {
    if t.admin then Ok(true)
    else if topicId !in db.topics then Err(NOT_FOUND)
    else Ok(DefaultGrants(t, db.topics[topicId], ps))
  }

  predicate ResourceGrants(db: Db, t: Token, k: Key, ps: seq<Permission>) {
    k in db.entries && GrantsKnown(db.entries[k].acl, t, ps)
  }

  /** The single check: defaults alone or the resource alone grant the whole list. */
  predicate Check(db: Db, t: Token, topicId: string, id: string, ps: seq<Permission>) {
    match DefaultAccess(db, t, topicId, ps)
    case Err(_) => false
    case Ok(access) => access || ResourceGrants(db, t, Key(topicId, PureId(id)), ps)
  }

  /** Reading a resource needs the right to administrate it; the answer bears the id as given. */
  function Read(db: Db, t: Token, topicId: string, id: string): Result<Resource> {
    match DefaultAccess(db, t, topicId, [ADMINISTRATE])
    case Err(code) => Err(code)
    case Ok(access) =>
      var k := Key(topicId, PureId(id));
      if k !in db.entries then Err(NOT_FOUND)
      else if !access && !ResourceGrants(db, t, k, [ADMINISTRATE]) then Err(FORBIDDEN)
      else Ok(Resource(topicId, id, ToPerms(db.entries[k].acl)))
  }

  /** One bit of the computed rights: some principal of the token has it, by default or on the resource. */
  predicate EitherGrants(t: Token, acl: Acl, defaults: Acl, p: Permission) {
    Grants(defaults, t, p) || Grants(acl, t, p)
  }

  /** A computed bit of a stored resource. */
  predicate Computed(db: Db, t: Token, topicId: string, id: string, p: Permission)
    requires topicId in db.topics && Key(topicId, id) in db.entries
  {
    t.admin || EitherGrants(t, db.entries[Key(topicId, id)].acl, db.topics[topicId].defaults.Plain(), p)
  }

  /** All stored ids, or those among the ids, for whom the defaults grant the list; else the ids whose
      own rights grant it, whatever ids are given. */
  ghost function AccessibleIds(db: Db, t: Token, topicId: string, ids: Option<seq<string>>,
                               ps: seq<Permission>): set<string> {
    if DefaultAccess(db, t, topicId, ps) == Ok(true) then ChosenIds(db.Acls(), topicId, ids)
    else GrantedIds(db.Acls(), topicId, t, ps)
  }

  /** One page of them; a rune without a meaning is refused unless the defaults grant the list. */
  ghost function Listing(db: Db, t: Token, topicId: string, options: ListOptions,
                         ps: seq<Permission>): Result<seq<string>> {
    match DefaultAccess(db, t, topicId, ps)
    case Err(code) => Err(code)
    case Ok(access) =>
      if !access && !AllKnown(ps) then Err(SERVER_ERROR)
      else Ok(Page(Sorted(AccessibleIds(db, t, topicId, options.ids, ps)), options.limit, options.offset))
  }

  // Changes

  datatype Config = Config(onlyAdminsEditRoles: bool, userManagement: bool)

  /** The rights stored under exactly this id, or none. */
  function Current(db: Db, k: Key): Perms {
    if k in db.entries then ToPerms(db.entries[k].acl) else Perms(None, None, None)
  }

  /** checkEditPermission for a caller without admin rights, given the current rights. `sameGroup`
      is the user management's answer, None if it failed. */
  function Edit(cfg: Config, t: Token, current: Perms, p: Perms, sameGroup: Option<set<string>>): Result<Perms> {
    var roles := if p.roles.None? then OrEmpty(current.roles) else p.roles.value;
    var addedUsers := OrEmpty(p.users).Keys - OrEmpty(current.users).Keys;
    var addedGroups := OrEmpty(p.groups).Keys - OrEmpty(current.groups).Keys;
    if cfg.onlyAdminsEditRoles && OrEmpty(current.roles) != roles then Err(FORBIDDEN)
    else if !(addedGroups <= t.memberOf) then Err(BAD_REQUEST)
    else if addedUsers != {} && cfg.userManagement && sameGroup.None? then Err(SERVER_ERROR)
    else if addedUsers != {} && cfg.userManagement && !(addedUsers <= sameGroup.value) then Err(BAD_REQUEST)
    else Ok(p.(roles := Some(roles)))
  }

  function CheckEdit(cfg: Config, db: Db, t: Token, k: Key, p: Perms, sameGroup: Option<set<string>>): Result<Perms> {
    if t.admin then Ok(p) else Edit(cfg, t, Current(db, k), p, sameGroup)
  }

  /** Whether a change of rights is accepted, and with which rights. Note the two ids: access
      concerns the pure id, the comparison with the current rights the id as given. */
  function DecideEdit(cfg: Config, db: Db, t: Token, topicId: string, id: string, p: Perms,
                      sameGroup: Option<set<string>>): Result<Perms> {
    if topicId !in db.topics then Err(NOT_FOUND)
    else if
      !DefaultGrants(t, db.topics[topicId], [ADMINISTRATE]) &&
      !ResourceGrants(db, t, Key(topicId, PureId(id)), [ADMINISTRATE])
    then Err(FORBIDDEN)
    else if !p.Valid() then Err(BAD_REQUEST)
    else CheckEdit(cfg, db, t, Key(db.topics[topicId].id, id), p, sameGroup)
  }

  /** An accepted change is written under the pure id. */
  function SetPermission(cfg: Config, w: World, t: Token, topicId: string, id: string, p: Perms,
                         sameGroup: Option<set<string>>, now: int, f: WriteFaults): (World, Result<Perms>) {
    match DecideEdit(cfg, w.db, t, topicId, id, p, sameGroup)
    case Err(code) => (w, Err(code))
    case Ok(edited) =>
      var topic := w.db.topics[topicId];
      var (w', ok) := Write(w, topic, Resource(topic.id, PureId(id), edited), now, f);
      (w', if ok then Ok(edited) else Err(SERVER_ERROR))
  }

  function RemoveResource(w: World, t: Token, topicId: string, id: string, f: Fault): (World, int) {
    if !t.admin then (w, FORBIDDEN)
    else
      (if f == Lost then w else w.(db := w.db.(entries := w.db.entries - {Key(topicId, id)})),
       if f == Done then OK else SERVER_ERROR)
  }

  function Named(topic: Topic): Topic {
    if topic.id == "" then topic.(id := topic.kafka) else topic
  }

  /** The topic and the status; an equal topic is not stored again. */
  function SetTopic(w: World, t: Token, topic: Topic, f: Fault): (World, Result<(Topic, int)>) {
    var named := Named(topic);
    if !t.admin then (w, Err(UNAUTHORIZED))
    else if named.Validate().Some? then (w, Err(BAD_REQUEST))
    else if named.id in w.db.topics && w.db.topics[named.id].Equal(named) then
      (w, Ok((w.db.topics[named.id], ACCEPTED)))
    else
      (if f == Lost then w else w.(db := w.db.(topics := w.db.topics[named.id := named])),
       if f == Done then Ok((named, OK)) else Err(SERVER_ERROR))
  }

  function RemoveTopic(w: World, t: Token, id: string, first: Fault, second: Fault): (World, int) {
    if !t.admin then (w, UNAUTHORIZED)
    else
      var (db', ok) := WithTopicDeleted(w.db, id, first, second);
      (w.(db := db'), if ok then OK else SERVER_ERROR)
  }

  /** The retry pass over the listed resources. */
  function RetryAll(w: World, listed: seq<Resource>, faults: nat -> RetryFaults): World {
    if listed == [] then w
    else Retry(RetryAll(w, listed[..|listed| - 1], faults), listed[|listed| - 1], faults(|listed| - 1))
  }

  // Export and import

  datatype ImportExport = ImportExport(topics: seq<Topic>, permissions: seq<Resource>)

  datatype Options = Options(topicConfig: bool, permissions: bool,
                             topics: Option<seq<string>>, ids: Option<seq<string>>)

  const FULL := Options(true, true, None, None)

  /** Time and faults of one write. */
  datatype Io = Io(now: int, faults: WriteFaults)

  /** The order of exported resources: by topic, then by id. */
  function ByKey(a: Resource, b: Resource): bool {
    Less(a.topicId, b.topicId) || (a.topicId == b.topicId && !Less(b.id, a.id))
  }

  ghost function ResourcesAt(acls: map<Key, Acl>, topicId: string, ids: seq<string>): seq<Resource>
    requires forall id | id in ids :: Key(topicId, id) in acls
  {
    seq(|ids|, i requires 0 <= i < |ids| => Resource(topicId, ids[i], ToPerms(acls[Key(topicId, ids[i])])))
  }

  lemma ChosenStored(acls: map<Key, Acl>, topicId: string, ids: Option<seq<string>>)
    ensures forall id | id in Sorted(ChosenIds(acls, topicId, ids)) :: Key(topicId, id) in acls
  {
  }

  ghost function TopicResources(acls: map<Key, Acl>, topicId: string, ids: Option<seq<string>>): seq<Resource> {
    ChosenStored(acls, topicId, ids);
    ResourcesAt(acls, topicId, Sorted(ChosenIds(acls, topicId, ids)))
  }

  ghost function AllResources(acls: map<Key, Acl>, topicIds: seq<string>, ids: Option<seq<string>>): seq<Resource> {
    if topicIds == [] then []
    else AllResources(acls, topicIds[..|topicIds| - 1], ids) + TopicResources(acls, topicIds[|topicIds| - 1], ids)
  }

  ghost function TopicsAt(topics: map<string, Topic>, ids: seq<string>): seq<Topic>
    requires forall id | id in ids :: id in topics
  {
    seq(|ids|, i requires 0 <= i < |ids| => topics[ids[i]])
  }

  ghost function ChosenTopics(db: Db, ids: Option<seq<string>>): set<string> {
    set id | id in db.topics && Chosen(ids, id)
  }

  ghost function Exported(db: Db, o: Options): ImportExport {
    var topicIds := if o.topics.None? then Sorted(db.topics.Keys) else o.topics.value;
    ImportExport(if o.topicConfig then TopicsAt(db.topics, Sorted(ChosenTopics(db, o.topics))) else [],
                 if o.permissions then Sort(AllResources(db.Acls(), topicIds, o.ids), ByKey) else [])
  }

  /** A full export: every topic by id, and the resources of every topic, by topic and id. */
  ghost function FullExport(db: Db): ImportExport {
    ImportExport(TopicsAt(db.topics, Sorted(db.topics.Keys)), AllResources(db.Acls(), Sorted(db.topics.Keys), None))
  }

  function ImportTopics(w: World, t: Token, ts: seq<Topic>, o: Options, faults: nat -> Fault, i: nat)
    : (World, Option<int>)
    requires i <= |ts|
    decreases |ts| - i
  {
    if i == |ts| then (w, None)
    else if !Chosen(o.topics, ts[i].id) then ImportTopics(w, t, ts, o, faults, i + 1)
    else
      var (w', r) := SetTopic(w, t, ts[i], faults(i));
      match r
      case Err(code) => (w', Some(code))
      case Ok(_) => ImportTopics(w', t, ts, o, faults, i + 1)
  }

  predicate Imported(o: Options, r: Resource) {
    Chosen(o.topics, r.topicId) && Chosen(o.ids, r.id)
  }

  function ImportResources(w: World, rs: seq<Resource>, o: Options, io: nat -> Io, i: nat): (World, Option<int>)
    requires i <= |rs|
    decreases |rs| - i
  {
    if i == |rs| then (w, None)
    else if !Imported(o, rs[i]) then ImportResources(w, rs, o, io, i + 1)
    else if !rs[i].perms.Valid() || rs[i].topicId !in w.db.topics then (w, Some(BAD_REQUEST))
    else
      var (w', ok) := Write(w, w.db.topics[rs[i].topicId], rs[i], io(i).now, io(i).faults);
      if !ok then (w', Some(SERVER_ERROR)) else ImportResources(w', rs, o, io, i + 1)
  }

  /** Topics first, then resources; the first error ends the import and stays as far as it got. */
  function Import(w: World, t: Token, m: ImportExport, o: Options, faults: nat -> Fault, io: nat -> Io): (World, int) {
    if !t.admin then (w, FORBIDDEN)
    else
      var (w1, e1) := if o.topicConfig then ImportTopics(w, t, m.topics, o, faults, 0) else (w, None);
      if e1.Some? then (w1, e1.value)
      else
        var (w2, e2) := if o.permissions then ImportResources(w1, m.permissions, o, io, 0) else (w1, None);
        (w2, if e2.Some? then e2.value else OK)
  }

  // Bulk load from permission-search

  datatype LoadElement = LoadElement(id: string, users: RightsMap, groups: RightsMap)

  /** The remote groups become roles; rights already stored for other principals stay. */
  function Merged(db: Db, topicId: string, e: LoadElement): Resource {
    var current := Current(db, Key(topicId, e.id)).Plain();
    Resource(topicId, e.id, ToPerms(Acl(current.users + e.users, current.groups, current.roles + e.groups)))
  }

  predicate Loads(db: Db, topicId: string, e: LoadElement, overwrite: bool) {
    Key(topicId, e.id) !in db.entries || overwrite
  }

  /** One element: the world it leaves, whether it counts, and whether it was handled without error. */
  function LoadOne(w: World, topic: Topic, e: LoadElement, overwrite: bool, dryRun: bool, io: Io): (World, bool, bool) {
    if !Loads(w.db, topic.id, e, overwrite) then (w, false, true)
    else if dryRun then (w, true, true)
    else
      var (w', ok) := Write(w, topic, Merged(w.db, topic.id, e), io.now, io.faults);
      (w', true, ok)
  }

  /** The first i elements, in order; the first error ends the load. The count is of those handled. */
  function LoadFirst(w: World, topic: Topic, es: seq<LoadElement>, overwrite: bool, dryRun: bool, io: nat -> Io, i: nat)
    : (World, nat, bool)
    requires i <= |es|
  {
    if i == 0 then (w, 0, true)
    else
      var (v, n, ok) := LoadFirst(w, topic, es, overwrite, dryRun, io, i - 1);
      if !ok then (v, n, false)
      else
        var (v', updated, done) := LoadOne(v, topic, es[i - 1], overwrite, dryRun, io(i - 1));
        (v', if updated && done then n + 1 else n, done)
  }

  /** What is left after an error is where the load ends. */
  lemma {:induction false} LoadEnds(w: World, topic: Topic, es: seq<LoadElement>, overwrite: bool, dryRun: bool,
                                    io: nat -> Io, i: nat, j: nat)
    requires i <= j <= |es| && !LoadFirst(w, topic, es, overwrite, dryRun, io, i).2
    ensures LoadFirst(w, topic, es, overwrite, dryRun, io, j) == LoadFirst(w, topic, es, overwrite, dryRun, io, i)
  {
    if i == j {
    } else {
      LoadEnds(w, topic, es, overwrite, dryRun, io, i, j - 1);
    }
  }

  /** The count of handled elements, and the status. */
  function Load(w: World, topicId: string, es: seq<LoadElement>, overwrite: bool, dryRun: bool, io: nat -> Io)
    : (World, nat, int)
  {
    if topicId !in w.db.topics || w.db.topics[topicId].kafka == "" then (w, 0, BAD_REQUEST)
    else
      var (w', n, ok) := LoadFirst(w, w.db.topics[topicId], es, overwrite, dryRun, io, |es|);
      (w', n, if ok then OK else SERVER_ERROR)
  }
}
