/** The controller's operations as steps of sequential runs, and what whole runs keep. */
module Runs {
  import opened Model
  import opened Store
  import opened Effects
  import opened Rules
  import opened Outbox
  import opened RetryPass

  datatype Op =
    | SetPermissionOp(t: Token, topicId: string, id: string, p: Perms, sameGroup: Option<set<string>>,
                      now: int, f: WriteFaults)
    | RemoveResourceOp(t: Token, topicId: string, id: string, fault: Fault)
    | SetTopicOp(t: Token, topic: Topic, fault: Fault)
    | RemoveTopicOp(t: Token, id: string, first: Fault, second: Fault)
    | ImportOp(t: Token, m: ImportExport, o: Options, faults: nat -> Fault, io: nat -> Io)
    | LoadOp(topicId: string, es: seq<LoadElement>, overwrite: bool, dryRun: bool, io: nat -> Io)
    | RetryOp(bound: int, listed: seq<Resource>, retries: nat -> RetryFaults)

  function Exec(cfg: Config, w: World, op: Op): World {
    match op
    case SetPermissionOp(t, topicId, id, p, sameGroup, now, f) =>
      SetPermission(cfg, w, t, topicId, id, p, sameGroup, now, f).0
    case RemoveResourceOp(t, topicId, id, fault) => RemoveResource(w, t, topicId, id, fault).0
    case SetTopicOp(t, topic, fault) => SetTopic(w, t, topic, fault).0
    case RemoveTopicOp(t, id, first, second) => RemoveTopic(w, t, id, first, second).0
    case ImportOp(t, m, o, faults, io) => Import(w, t, m, o, faults, io).0
    case LoadOp(topicId, es, overwrite, dryRun, io) => Load(w, topicId, es, overwrite, dryRun, io).0
    case RetryOp(_, listed, retries) => RetryAll(w, listed, retries)
  }

  /** A retry pass works on what the database lists. */
  ghost predicate CanExec(w: World, op: Op) {
    op.RetryOp? ==> ListsOverdue(w.db.entries, op.bound, op.listed)
  }

  function Run(cfg: Config, w: World, ops: seq<Op>): World {
    if ops == [] then w else Exec(cfg, Run(cfg, w, ops[..|ops| - 1]), ops[|ops| - 1])
  }

  ghost predicate CanRun(cfg: Config, w: World, ops: seq<Op>) {
    ops == [] || (CanRun(cfg, w, ops[..|ops| - 1]) && CanExec(Run(cfg, w, ops[..|ops| - 1]), ops[|ops| - 1]))
  }

  // What writing operations do to the stored entries

  /** Topics stay, and every entry has its old rights or new ones in normal form, stored under an
      existing topic, with an admin user if `admins`. */
  ghost predicate Rewrites(db: Db, db': Db, admins: bool) {
    && db'.topics == db.topics
    && forall k | k in db'.entries ::
         || (k in db.entries && db'.entries[k].acl == db.entries[k].acl)
         || (k.topicId in db.topics && db'.entries[k].acl.IsNormal() && (admins ==> db'.entries[k].acl.HasAdminUser()))
  }

  lemma WriteRewrites(w: World, topic: Topic, r: Resource, now: int, f: WriteFaults, admins: bool)
    requires r.topicId in w.db.topics && (admins ==> r.perms.Valid())
    ensures Rewrites(w.db, Write(w, topic, r, now, f).0.db, admins)
  {
    var stored := Put(w, r, now, !topic.Publishes());
    PutRewrites(w, r, now, !topic.Publishes(), admins);
    MarkRewrites(w.db, stored, Key(topic.id, r.id), admins);
    MarkRewrites(w.db, Send(stored, topic, r.id, r.perms), Key(topic.id, r.id), admins);
  }

  lemma PutRewrites(w: World, r: Resource, now: int, synced: bool, admins: bool)
    requires r.topicId in w.db.topics && (admins ==> r.perms.Valid())
    ensures Rewrites(w.db, Put(w, r, now, synced).db, admins)
  {
    NormIdempotent(r.perms);
  }

  lemma MarkRewrites(db: Db, w: World, k: Key, admins: bool)
    requires Rewrites(db, w.db, admins)
    ensures Rewrites(db, Mark(w, k).db, admins)
  {
  }

  lemma {:induction false} ImportRewrites(w: World, rs: seq<Resource>, o: Options, io: nat -> Io, i: nat)
    requires i <= |rs|
    ensures Rewrites(w.db, ImportResources(w, rs, o, io, i).0.db, true)
    decreases |rs| - i
  {
    if i == |rs| {
    } else {
      if Imported(o, rs[i]) && rs[i].perms.Valid() && rs[i].topicId in w.db.topics {
        var w' := Write(w, w.db.topics[rs[i].topicId], rs[i], io(i).now, io(i).faults).0;
        WriteRewrites(w, w.db.topics[rs[i].topicId], rs[i], io(i).now, io(i).faults, true);
        ImportRewrites(w', rs, o, io, i + 1);
      } else {
        ImportRewrites(w, rs, o, io, i + 1);
      }
    }
  }

  lemma {:induction false} LoadRewrites(w: World, topic: Topic, es: seq<LoadElement>, overwrite: bool, dryRun: bool,
                                        io: nat -> Io, i: nat)
    requires i <= |es| && topic.id in w.db.topics
    ensures Rewrites(w.db, LoadFirst(w, topic, es, overwrite, dryRun, io, i).0.db, false)
  {
    if i == 0 {
    } else {
      var v := LoadFirst(w, topic, es, overwrite, dryRun, io, i - 1).0;
      LoadRewrites(w, topic, es, overwrite, dryRun, io, i - 1);
      WriteRewrites(v, topic, Merged(v.db, topic.id, es[i - 1]), io(i - 1).now, io(i - 1).faults, false);
    }
  }

  lemma {:induction false} RetryRewrites(w: World, rs: seq<Resource>, faults: nat -> RetryFaults)
    ensures Rewrites(w.db, RetryAll(w, rs, faults).db, true)
  {
    if rs == [] {
    } else {
      var n := |rs| - 1;
      var before := RetryAll(w, rs[..n], faults);
      RetryRewrites(w, rs[..n], faults);
      var k := RetryMarks(before, rs[n], faults(n));
      MarkRewrites(w.db, before, k, true);
    }
  }

  /** Retrying marks at most one entry. */
  lemma RetryMarks(w: World, r: Resource, f: RetryFaults) returns (k: Key)
    ensures Retry(w, r, f).db == w.db || Retry(w, r, f).db == Mark(w, k).db
  {
    k := if r.topicId in w.db.topics then Key(w.db.topics[r.topicId].id, r.id) else KeyOf(r);
  }

  lemma EditKeepsUsers(cfg: Config, db: Db, t: Token, topicId: string, id: string, p: Perms,
                       sameGroup: Option<set<string>>)
    requires DecideEdit(cfg, db, t, topicId, id, p, sameGroup).Ok?
    ensures DecideEdit(cfg, db, t, topicId, id, p, sameGroup).value.Valid()
  {
  }

  lemma EditRewrites(cfg: Config, w: World, t: Token, topicId: string, id: string, p: Perms,
                     sameGroup: Option<set<string>>, now: int, f: WriteFaults)
    requires Consistent(w.db)
    ensures Rewrites(w.db, SetPermission(cfg, w, t, topicId, id, p, sameGroup, now, f).0.db, true)
  {
    var edited := DecideEdit(cfg, w.db, t, topicId, id, p, sameGroup);
    if edited.Ok? {
      EditKeepsUsers(cfg, w.db, t, topicId, id, p, sameGroup);
      WriteRewrites(w, w.db.topics[topicId], Resource(topicId, PureId(id), edited.value), now, f, true);
    }
  }

  // Invariants of runs

  /** Topics are stored under their id and were validated; every resource's topic exists. */
  ghost predicate Sound(db: Db) {
    && Consistent(db)
    && (forall id | id in db.topics :: db.topics[id].Validate().None?)
    && (forall k | k in db.entries :: k.topicId in db.topics)
  }

  ghost predicate HaveAdmins(db: Db) {
    forall k | k in db.entries :: db.entries[k].acl.HasAdminUser()
  }

  /** The two deletes behind the removal of a topic both take effect, or the first does not. */
  predicate Completes(op: Op) {
    op.RemoveTopicOp? && op.first != Lost ==> op.first == Done && op.second != Lost
  }

  lemma {:induction false} ImportTopicsKeeps(w: World, t: Token, ts: seq<Topic>, o: Options, faults: nat -> Fault,
                                             i: nat)
    requires i <= |ts| && Consistent(w.db)
    ensures var w' := ImportTopics(w, t, ts, o, faults, i).0;
            && Consistent(w'.db)
            && (Sound(w.db) ==> Sound(w'.db))
            && w'.db.entries == w.db.entries
    decreases |ts| - i
  {
    if i == |ts| {
    } else {
      if Chosen(o.topics, ts[i].id) {
        var w1 := SetTopic(w, t, ts[i], faults(i)).0;
        SetTopicKeeps(w, t, ts[i], faults(i));
        ImportTopicsKeeps(w1, t, ts, o, faults, i + 1);
      } else {
        ImportTopicsKeeps(w, t, ts, o, faults, i + 1);
      }
    }
  }

  lemma SetTopicKeeps(w: World, t: Token, topic: Topic, fault: Fault)
    requires Consistent(w.db)
    ensures var w' := SetTopic(w, t, topic, fault).0;
            && Consistent(w'.db)
            && (Sound(w.db) ==> Sound(w'.db))
            && w'.db.entries == w.db.entries
  {
  }

  /** What an operation does to entries and topics, whatever fails in it. */
  lemma ExecKeepsConsistent(cfg: Config, w: World, op: Op)
    requires Consistent(w.db)
    ensures Consistent(Exec(cfg, w, op).db)
    ensures HaveAdmins(w.db) && !op.LoadOp? ==> HaveAdmins(Exec(cfg, w, op).db)
    ensures Sound(w.db) && Completes(op) ==> Sound(Exec(cfg, w, op).db)
  {
    hide SetPermission, SetTopic, Import, LoadFirst, RetryAll;
    match op
    case SetPermissionOp(t, topicId, id, p, sameGroup, now, f) =>
      EditRewrites(cfg, w, t, topicId, id, p, sameGroup, now, f);
    case ImportOp(t, m, o, faults, io) => ImportKeepsConsistent(w, t, m, o, faults, io);
    case LoadOp(topicId, es, overwrite, dryRun, io) =>
      if topicId in w.db.topics { LoadRewrites(w, w.db.topics[topicId], es, overwrite, dryRun, io, |es|); }
    case RetryOp(_, listed, retries) => RetryRewrites(w, listed, retries);
    case SetTopicOp(t, topic, fault) => SetTopicKeeps(w, t, topic, fault);
    case _ =>
  }

  lemma ImportKeepsConsistent(w: World, t: Token, m: ImportExport, o: Options, faults: nat -> Fault, io: nat -> Io)
    requires Consistent(w.db)
    ensures var db' := Import(w, t, m, o, faults, io).0.db;
            Consistent(db') && (HaveAdmins(w.db) ==> HaveAdmins(db')) && (Sound(w.db) ==> Sound(db'))
  {
    if t.admin {
      var w1 := if o.topicConfig then ImportTopics(w, t, m.topics, o, faults, 0).0 else w;
      if o.topicConfig { ImportTopicsKeeps(w, t, m.topics, o, faults, 0); }
      ImportRewrites(w1, m.permissions, o, io, 0);
    }
  }

  /** Referential integrity: every resource's topic exists, in every run whose topic deletes complete. */
  lemma {:induction false} RunKeepsSound(cfg: Config, w: World, ops: seq<Op>)
    requires Sound(w.db) && forall op | op in ops :: Completes(op)
    ensures Sound(Run(cfg, w, ops).db)
  {
    if ops == [] {
    } else {
      assert forall op | op in ops[..|ops| - 1] :: op in ops;
      RunKeepsSound(cfg, w, ops[..|ops| - 1]);
      ExecKeepsConsistent(cfg, Run(cfg, w, ops[..|ops| - 1]), ops[|ops| - 1]);
    }
  }

  /** Bulk loads apart, every stored resource keeps an admin user, whatever fails on the way. */
  lemma {:induction false} RunKeepsAdmins(cfg: Config, w: World, ops: seq<Op>)
    requires Consistent(w.db) && HaveAdmins(w.db) && forall op | op in ops :: !op.LoadOp?
    ensures Consistent(Run(cfg, w, ops).db) && HaveAdmins(Run(cfg, w, ops).db)
  {
    if ops == [] {
    } else {
      assert forall op | op in ops[..|ops| - 1] :: op in ops;
      RunKeepsAdmins(cfg, w, ops[..|ops| - 1]);
      ExecKeepsConsistent(cfg, Run(cfg, w, ops[..|ops| - 1]), ops[|ops| - 1]);
    }
  }

  /** Removing a topic keeps every resource's topic in place exactly when the deletes complete or
      there was nothing left to orphan. */
  lemma RemovalKeepsReferencesIff(w: World, t: Token, id: string, first: Fault, second: Fault)
    requires Sound(w.db) && t.admin
    ensures Sound(RemoveTopic(w, t, id, first, second).0.db) <==>
            first == Lost || (first == Done && second != Lost) || forall k | k in w.db.entries :: k.topicId != id
  {
  }

  /** A topic that was removed and is created again has no resources. */
  lemma RecreatedTopicIsEmpty(w: World, t: Token, topic: Topic, second: Fault, fault: Fault)
    requires Sound(w.db) && t.admin && second != Lost
    ensures var w' := SetTopic(RemoveTopic(w, t, Named(topic).id, Done, second).0, t, topic, fault).0;
            StoredIds(w'.db.Acls(), Named(topic).id) == {}
  {
  }

  // Who may create and delete

  /** The caller is no admin, and for a change of rights the topic's defaults do not make it one. */
  predicate Unprivileged(db: Db, op: Op) {
    match op
    case SetPermissionOp(t, topicId, _, _, _, _, _) =>
      !t.admin && (topicId in db.topics ==> !DefaultGrants(t, db.topics[topicId], [ADMINISTRATE]))
    case LoadOp(_, _, _, _, _) => false
    case RetryOp(_, _, _) => true
    case _ => !op.t.admin
  }

  /** Only admins create and delete: runs of other callers keep the set of resources and the topics. */
  lemma {:induction false} KeysNeedAdmin(cfg: Config, w: World, ops: seq<Op>)
    requires Consistent(w.db) && forall op | op in ops :: Unprivileged(w.db, op)
    ensures var db' := Run(cfg, w, ops).db;
            db'.entries.Keys == w.db.entries.Keys && db'.topics == w.db.topics && Consistent(db')
  {
    if ops == [] {
    } else {
      assert forall op | op in ops[..|ops| - 1] :: op in ops;
      KeysNeedAdmin(cfg, w, ops[..|ops| - 1]);
      var op := ops[|ops| - 1];
      assert op in ops;
      UnprivilegedKeepsKeys(cfg, Run(cfg, w, ops[..|ops| - 1]), op);
    }
  }

  /** Who edits by virtue of the resource's own rights edits a resource that exists. */
  lemma UnprivilegedEditKeepsKeys(cfg: Config, w: World, t: Token, topicId: string, id: string, p: Perms,
                                  sameGroup: Option<set<string>>, now: int, f: WriteFaults)
    requires Consistent(w.db) && (topicId in w.db.topics ==> !DefaultGrants(t, w.db.topics[topicId], [ADMINISTRATE]))
    ensures var db' := SetPermission(cfg, w, t, topicId, id, p, sameGroup, now, f).0.db;
            db'.entries.Keys == w.db.entries.Keys && db'.topics == w.db.topics && Consistent(db')
  {
    var edited := DecideEdit(cfg, w.db, t, topicId, id, p, sameGroup);
    EditRewrites(cfg, w, t, topicId, id, p, sameGroup, now, f);
    if edited.Ok? && f.write != Lost {
      WriteChangesOne(w, w.db.topics[topicId], Resource(topicId, PureId(id), edited.value), now, f);
    }
  }

  lemma UnprivilegedKeepsKeys(cfg: Config, w: World, op: Op)
    requires Consistent(w.db) && Unprivileged(w.db, op)
    ensures var db' := Exec(cfg, w, op).db;
            db'.entries.Keys == w.db.entries.Keys && db'.topics == w.db.topics && Consistent(db')
  {
    match op
    case SetPermissionOp(t, topicId, id, p, sameGroup, now, f) =>
      UnprivilegedEditKeepsKeys(cfg, w, t, topicId, id, p, sameGroup, now, f);
    case RetryOp(_, listed, retries) =>
      RetryKeepsKeys(w, listed, retries);
      RetryRewrites(w, listed, retries);
    case _ =>
  }

  lemma {:induction false} RetryKeepsKeys(w: World, rs: seq<Resource>, faults: nat -> RetryFaults)
    ensures RetryAll(w, rs, faults).db.entries.Keys == w.db.entries.Keys
  {
    if rs == [] {
    } else {
      RetryKeepsKeys(w, rs[..|rs| - 1], faults);
    }
  }

  // Reading what was written

  /** Once an accepted change of rights is stored, every check under any id with the same pure id
      answers by these rights or the defaults, whatever the call then reports. */
  lemma SetThenCheck(cfg: Config, w: World, t: Token, topicId: string, id: string, p: Perms,
                     sameGroup: Option<set<string>>, now: int, f: WriteFaults,
                     u: Token, id': string, ps: seq<Permission>)
    requires Consistent(w.db) && DecideEdit(cfg, w.db, t, topicId, id, p, sameGroup).Ok? && f.write != Lost
    requires PureId(id') == PureId(id)
    ensures var edited := DecideEdit(cfg, w.db, t, topicId, id, p, sameGroup).value;
            var w' := SetPermission(cfg, w, t, topicId, id, p, sameGroup, now, f).0;
            Check(w'.db, u, topicId, id', ps) <==>
            DefaultGrants(u, w.db.topics[topicId], ps) || GrantsKnown(edited.Plain(), u, ps)
  {
    var edited := DecideEdit(cfg, w.db, t, topicId, id, p, sameGroup).value;
    WriteChangesOne(w, w.db.topics[topicId], Resource(topicId, PureId(id), edited), now, f);
    GrantsKnownNormal(edited.Plain(), u, ps);
  }

  /** Whoever may administrate the resource then reads, under any id with the same pure id, the
      rights written, less what storage drops; everyone else is refused. */
  lemma SetThenRead(cfg: Config, w: World, t: Token, topicId: string, id: string, p: Perms,
                    sameGroup: Option<set<string>>, now: int, f: WriteFaults, u: Token, id': string)
    requires Consistent(w.db) && DecideEdit(cfg, w.db, t, topicId, id, p, sameGroup).Ok? && f.write != Lost
    requires PureId(id') == PureId(id)
    ensures var edited := DecideEdit(cfg, w.db, t, topicId, id, p, sameGroup).value;
            var w' := SetPermission(cfg, w, t, topicId, id, p, sameGroup, now, f).0;
            Read(w'.db, u, topicId, id') ==
            if Check(w'.db, u, topicId, id', [ADMINISTRATE]) then Ok(Resource(topicId, id', ToPerms(edited.Norm())))
            else Err(FORBIDDEN)
  {
    var edited := DecideEdit(cfg, w.db, t, topicId, id, p, sameGroup).value;
    WriteChangesOne(w, w.db.topics[topicId], Resource(topicId, PureId(id), edited), now, f);
  }

  /** A removal under a pure id leaves the defaults; under an id with a modifier it changes no check,
      because such an id is looked up as it is while checks drop the modifier. */
  lemma RemoveThenCheck(w: World, t: Token, topicId: string, id: string, f: Fault, u: Token, id': string,
                        ps: seq<Permission>)
    requires t.admin && topicId in w.db.topics && f != Lost
    ensures var db' := RemoveResource(w, t, topicId, id, f).0.db;
            Check(db', u, topicId, id', ps) <==>
            if PureId(id') == id then DefaultGrants(u, w.db.topics[topicId], ps) else Check(w.db, u, topicId, id', ps)
  {
  }

  // Confinement of role and group rights

  /** With role rights reserved to admins, an accepted edit by anyone else stores under the pure id
      the roles found under the id as given, none if nothing is stored there. */
  lemma RolesStored(cfg: Config, w: World, t: Token, topicId: string, id: string, p: Perms,
                    sameGroup: Option<set<string>>, now: int, f: WriteFaults)
    requires Consistent(w.db) && cfg.onlyAdminsEditRoles && !t.admin
    requires DecideEdit(cfg, w.db, t, topicId, id, p, sameGroup).Ok? && f.write != Lost
    ensures var w' := SetPermission(cfg, w, t, topicId, id, p, sameGroup, now, f).0;
            var pure := Key(topicId, PureId(id));
            pure in w'.db.entries && w'.db.entries[pure].acl.roles == RightsAt(w.db, Key(topicId, id)).roles
  {
    var edited := DecideEdit(cfg, w.db, t, topicId, id, p, sameGroup).value;
    WriteChangesOne(w, w.db.topics[topicId], Resource(topicId, PureId(id), edited), now, f);
    EditStores(cfg, w.db, t, Key(topicId, id), p, sameGroup);
  }

  /** A change of rights by a caller without admin rights, under an id without modifier. */
  predicate PlainEdit(op: Op) {
    op.SetPermissionOp? && !op.t.admin && IsPure(op.id)
  }

  /** The groups of which some caller of the run is a member. */
  function CallersGroups(ops: seq<Op>): set<string> {
    if ops == [] then {}
    else
      var op := ops[|ops| - 1];
      CallersGroups(ops[..|ops| - 1]) + if op.SetPermissionOp? then op.t.memberOf else {}
  }

  /** The users the user management named, in answer to some caller of the run. */
  function CallersColleagues(ops: seq<Op>): set<string> {
    if ops == [] then {}
    else
      var op := ops[|ops| - 1];
      CallersColleagues(ops[..|ops| - 1]) + if op.SetPermissionOp? then Colleagues(op.sameGroup) else {}
  }

  /** With role rights reserved to admins, no run of edits by other callers changes the role rights of
      a stored resource; group rights spread only to groups of those callers, and where a user
      management is configured, user rights only to users it named to them. */
  lemma {:induction false} RolesAndGroupsConfined(cfg: Config, w: World, ops: seq<Op>, k: Key)
    requires Consistent(w.db) && cfg.onlyAdminsEditRoles
    requires forall op | op in ops :: PlainEdit(op)
    ensures var w' := Run(cfg, w, ops);
            && Consistent(w'.db)
            && (k in w.db.entries ==> k in w'.db.entries)
            && RightsAt(w'.db, k).roles == RightsAt(w.db, k).roles
            && RightsAt(w'.db, k).groups.Keys <= RightsAt(w.db, k).groups.Keys + CallersGroups(ops)
            && (cfg.userManagement ==>
                  RightsAt(w'.db, k).users.Keys <= RightsAt(w.db, k).users.Keys + CallersColleagues(ops))
  {
    if ops == [] {
    } else {
      assert forall op | op in ops[..|ops| - 1] :: op in ops;
      RolesAndGroupsConfined(cfg, w, ops[..|ops| - 1], k);
      assert ops[|ops| - 1] in ops;
      EditConfined(cfg, Run(cfg, w, ops[..|ops| - 1]), ops[|ops| - 1], k);
    }
  }

  function Colleagues(sameGroup: Option<set<string>>): set<string> {
    if sameGroup.Some? then sameGroup.value else {}
  }

  /** What an accepted edit stores: the current roles, no group beyond the current ones and the
      caller's, no user beyond the current ones and the caller's colleagues. */
  lemma EditStores(cfg: Config, db: Db, t: Token, k: Key, p: Perms, sameGroup: Option<set<string>>)
    requires Consistent(db) && cfg.onlyAdminsEditRoles && !t.admin && CheckEdit(cfg, db, t, k, p, sameGroup).Ok?
    ensures var stored := CheckEdit(cfg, db, t, k, p, sameGroup).value.Norm();
            && stored.roles == RightsAt(db, k).roles
            && stored.groups.Keys <= RightsAt(db, k).groups.Keys + t.memberOf
            && (cfg.userManagement ==> stored.users.Keys <= RightsAt(db, k).users.Keys + Colleagues(sameGroup))
  {
    assert RightsAt(db, k).IsNormal();
    var current := RightsAt(db, k);
    assert Current(db, k).Plain() == current;
    if cfg.userManagement {
      var stored := CheckEdit(cfg, db, t, k, p, sameGroup).value.Norm();
      var added := OrEmpty(p.users).Keys - current.users.Keys;
      assert added <= Colleagues(sameGroup);
      assert stored.users.Keys <= OrEmpty(p.users).Keys;
    }
  }

  lemma EditConfined(cfg: Config, w: World, op: Op, k: Key)
    requires Consistent(w.db) && cfg.onlyAdminsEditRoles && PlainEdit(op)
    ensures var w' := Exec(cfg, w, op);
            && Consistent(w'.db)
            && (k in w.db.entries ==> k in w'.db.entries)
            && RightsAt(w'.db, k).roles == RightsAt(w.db, k).roles
            && RightsAt(w'.db, k).groups.Keys <= RightsAt(w.db, k).groups.Keys + op.t.memberOf
            && (cfg.userManagement ==>
                  RightsAt(w'.db, k).users.Keys <= RightsAt(w.db, k).users.Keys + Colleagues(op.sameGroup))
  {
    PureIdFixed(op.id);
    var (w', result) := SetPermission(cfg, w, op.t, op.topicId, op.id, op.p, op.sameGroup, op.now, op.f);
    if w' != w {
      var key := Key(op.topicId, op.id);
      var edited := DecideEdit(cfg, w.db, op.t, op.topicId, op.id, op.p, op.sameGroup);
      EditStores(cfg, w.db, op.t, key, op.p, op.sameGroup);
      var topic, r := w.db.topics[op.topicId], Resource(op.topicId, op.id, edited.value);
      assert w' == Write(w, topic, r, op.now, op.f).0;
      WriteStores(w, topic, r, op.now, op.f, k);
    }
  }

  lemma WriteStores(w: World, topic: Topic, r: Resource, now: int, f: WriteFaults, k: Key)
    requires Consistent(w.db) && r.topicId == topic.id
    ensures var db' := Write(w, topic, r, now, f).0.db;
            && Consistent(db')
            && (k in w.db.entries ==> k in db'.entries)
            && (RightsAt(db', k) == RightsAt(w.db, k) || (k == KeyOf(r) && RightsAt(db', k) == r.perms.Norm()))
  {
    NormIdempotent(r.perms);
    if f.write != Lost { WriteChangesOne(w, topic, r, now, f); }
  }

  // The outbox in sequential runs

  /** Topic configurations that the operation may store keep to the channels. */
  predicate StoresConfigured(ch: Channels, op: Op) {
    match op
    case SetTopicOp(_, topic, _) => Configured(ch, Named(topic))
    case ImportOp(_, m, _, _, _) => forall topic | topic in m.topics :: Configured(ch, Named(topic))
    case _ => true
  }

  /** No call in flight, and the outbox is in order. */
  ghost predicate InOrder(w: World, ch: Channels) {
    Inv(State(w, map[]), ch)
  }

  lemma WriteInOrder(w: World, topic: Topic, r: Resource, now: int, f: WriteFaults, ch: Channels)
    requires OwnChannels(ch) && InOrder(w, ch) && r.topicId in w.db.topics && w.db.topics[r.topicId] == topic
    ensures InOrder(Write(w, topic, r, now, f).0, ch)
    ensures Write(w, topic, r, now, f).0.db.topics == w.db.topics
  {
    var s := State(w, map[]);
    var steps := WriteIsRun(s, 0, r, now, f);
    LoneCallKeepsInv(s, steps, State(Write(w, topic, r, now, f).0, map[]), 0, ch);
  }

  lemma {:induction false} ImportInOrder(w: World, rs: seq<Resource>, o: Options, io: nat -> Io, i: nat, ch: Channels)
    requires i <= |rs| && OwnChannels(ch) && InOrder(w, ch)
    ensures InOrder(ImportResources(w, rs, o, io, i).0, ch)
    decreases |rs| - i
  {
    if i == |rs| {
    } else {
      if Imported(o, rs[i]) && rs[i].perms.Valid() && rs[i].topicId in w.db.topics {
        var topic := w.db.topics[rs[i].topicId];
        WriteInOrder(w, topic, rs[i], io(i).now, io(i).faults, ch);
        ImportInOrder(Write(w, topic, rs[i], io(i).now, io(i).faults).0, rs, o, io, i + 1, ch);
      } else {
        ImportInOrder(w, rs, o, io, i + 1, ch);
      }
    }
  }

  lemma SetTopicInOrder(w: World, t: Token, topic: Topic, fault: Fault, ch: Channels)
    requires OwnChannels(ch) && InOrder(w, ch) && Configured(ch, Named(topic))
    ensures InOrder(SetTopic(w, t, topic, fault).0, ch)
  {
  }

  lemma {:induction false} ImportTopicsInOrder(w: World, t: Token, ts: seq<Topic>, o: Options, faults: nat -> Fault,
                                               i: nat, ch: Channels)
    requires i <= |ts| && OwnChannels(ch) && InOrder(w, ch)
    requires forall topic | topic in ts :: Configured(ch, Named(topic))
    ensures InOrder(ImportTopics(w, t, ts, o, faults, i).0, ch)
    decreases |ts| - i
  {
    if i == |ts| {
    } else {
      if Chosen(o.topics, ts[i].id) {
        assert ts[i] in ts;
        SetTopicInOrder(w, t, ts[i], faults(i), ch);
        ImportTopicsInOrder(SetTopic(w, t, ts[i], faults(i)).0, t, ts, o, faults, i + 1, ch);
      } else {
        ImportTopicsInOrder(w, t, ts, o, faults, i + 1, ch);
      }
    }
  }

  lemma {:induction false} LoadInOrder(w: World, topic: Topic, es: seq<LoadElement>, overwrite: bool, dryRun: bool,
                                       io: nat -> Io, i: nat, ch: Channels)
    requires i <= |es| && OwnChannels(ch) && InOrder(w, ch) && topic.id in w.db.topics && w.db.topics[topic.id] == topic
    ensures var w' := LoadFirst(w, topic, es, overwrite, dryRun, io, i).0;
            InOrder(w', ch) && w'.db.topics == w.db.topics
  {
    if i == 0 {
    } else {
      var v := LoadFirst(w, topic, es, overwrite, dryRun, io, i - 1).0;
      LoadInOrder(w, topic, es, overwrite, dryRun, io, i - 1, ch);
      WriteInOrder(v, topic, Merged(v.db, topic.id, es[i - 1]), io(i - 1).now, io(i - 1).faults, ch);
    }
  }

  lemma {:induction false} RetryInOrder(w: World, bound: int, rs: seq<Resource>, faults: nat -> RetryFaults, i: nat,
                                        ch: Channels)
    requires i <= |rs| && OwnChannels(ch) && InOrder(w, ch) && ListsOverdue(w.db.entries, bound, rs)
    ensures Inv(State(RetryAll(w, rs[..i], faults), Continue(map[], 0, rs[i..])), ch)
  {
    if i == 0 {
      var s := State(w, map[]);
      assert rs[..0] == [] && rs[0..] == rs;
      OtherStepKeepsInv(s, ch, BeginRetry(0, bound, rs));
    } else {
      RetryInOrder(w, bound, rs, faults, i - 1, ch);
      var s := State(RetryAll(w, rs[..i - 1], faults), Continue(map[], 0, rs[i - 1..]));
      var steps := RetryIsRun(s, 0, faults(i - 1));
      assert rs[i - 1..][1..] == rs[i..] && rs[..i][..i - 1] == rs[..i - 1];
      assert Continue(s.calls, 0, rs[i..]) == Continue(map[], 0, rs[i..]);
      LoneCallKeepsInv(s, steps, State(RetryAll(w, rs[..i], faults), Continue(map[], 0, rs[i..])), 0, ch);
    }
  }

  /** What the outbox is for: from a world in order, a pass without faults leaves the consumers of
      every existing publishing topic told, as stored, of every entry older than the bound. */
  lemma FaultlessPassInforms(w: World, bound: int, rs: seq<Resource>, faults: nat -> RetryFaults, ch: Channels, k: Key)
    requires OwnChannels(ch) && InOrder(w, ch) && ListsOverdue(w.db.entries, bound, rs)
    requires forall i: nat :: faults(i) == RetryFaults(true, Done, Done)
    requires k in w.db.entries && w.db.entries[k].timestamp < bound && k.topicId in w.db.topics && k.topicId in ch
    ensures var w' := RetryAll(w, rs, faults);
            && k in w'.db.entries && w'.db.entries[k].acl == w.db.entries[k].acl
            && Told(w'.log, ch[k.topicId], k.id, w.db.entries[k].acl)
  {
    var w' := RetryAll(w, rs, faults);
    PassKeeps(w, rs, faults);
    PassClears(w, bound, rs, faults, k);
    RetryInOrder(w, bound, rs, faults, |rs|, ch);
    assert rs[..|rs|] == rs;
    assert w'.db.entries[k].(synced := w.db.entries[k].synced) == w.db.entries[k];
    assert Safe(w', ch);
  }

  lemma ExecInOrder(cfg: Config, w: World, op: Op, ch: Channels)
    requires OwnChannels(ch) && InOrder(w, ch) && CanExec(w, op) && StoresConfigured(ch, op)
    ensures InOrder(Exec(cfg, w, op), ch)
  {
    hide Write, LoadFirst, ImportTopics, ImportResources, RetryAll, CheckEdit;
    var s := State(w, map[]);
    match op
    case SetPermissionOp(t, topicId, id, p, sameGroup, now, f) =>
      if topicId in w.db.topics {
        var edited := CheckEdit(cfg, w.db, t, Key(topicId, id), p, sameGroup);
        if edited.Ok? {
          WriteInOrder(w, w.db.topics[topicId], Resource(topicId, PureId(id), edited.value), now, f, ch);
        }
      }
    case RemoveResourceOp(t, topicId, id, _) => OtherStepKeepsInv(s, ch, Delete(Key(topicId, id)));
    case SetTopicOp(t, topic, fault) => SetTopicInOrder(w, t, topic, fault, ch);
    case RemoveTopicOp(t, id, _, _) =>
      OtherStepKeepsInv(s, ch, DropTopic(id));
      OtherStepKeepsInv(Apply(s, DropTopic(id)), ch, DropEntries(id));
    case ImportOp(t, m, o, faults, io) =>
      if o.topicConfig { ImportTopicsInOrder(w, t, m.topics, o, faults, 0, ch); }
      var w1 := if o.topicConfig then ImportTopics(w, t, m.topics, o, faults, 0).0 else w;
      ImportInOrder(w1, m.permissions, o, io, 0, ch);
    case LoadOp(topicId, es, overwrite, dryRun, io) =>
      if topicId in w.db.topics { LoadInOrder(w, w.db.topics[topicId], es, overwrite, dryRun, io, |es|, ch); }
    case RetryOp(bound, listed, retries) =>
      RetryInOrder(w, bound, listed, retries, |listed|, ch);
      assert listed[..|listed|] == listed && listed[|listed|..] == [];
      assert Continue(map[], 0, []) == map[];
  }

  /** Run after run of controller operations, whatever fails in them: what is flagged as synced is
      what the consumers were last told. */
  lemma {:induction false} SequentialOutboxSafety(cfg: Config, ops: seq<Op>, ch: Channels)
    requires OwnChannels(ch) && CanRun(cfg, EMPTY, ops) && forall op | op in ops :: StoresConfigured(ch, op)
    ensures InOrder(Run(cfg, EMPTY, ops), ch) && Safe(Run(cfg, EMPTY, ops), ch)
  {
    if ops == [] {
    } else {
      assert forall op | op in ops[..|ops| - 1] :: op in ops;
      SequentialOutboxSafety(cfg, ops[..|ops| - 1], ch);
      assert ops[|ops| - 1] in ops;
      ExecInOrder(cfg, Run(cfg, EMPTY, ops[..|ops| - 1]), ops[|ops| - 1], ch);
    }
  }
}
