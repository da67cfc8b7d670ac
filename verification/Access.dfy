/** Who may see and change what, said in terms of the rights that are held: what the checks, reads,
    edits and removals of module Rules answer and leave, for every state, caller and argument. */
module Access {
  import opened Model
  import opened Store
  import opened Effects
  import opened Rules
  import opened Runs

  /** Some principal of the caller stands in the maps with a right that has this property. */
  predicate Held(a: Acl, t: Token, has: Rights -> bool) {
    || (t.user in a.users && has(a.users[t.user]))
    || (exists r | r in t.roles :: r in a.roles && has(a.roles[r]))
    || (exists g | g in t.groups :: g in a.groups && has(a.groups[g]))
  }

  /** The four runes and the rights they stand for; no other rune stands for any. */
  lemma RunesMean(a: Acl, t: Token, p: Permission)
    ensures Known(p) <==> p in "rwxa"
    ensures Grants(a, t, 'r') <==> Held(a, t, (x: Rights) => x.read)
    ensures Grants(a, t, 'w') <==> Held(a, t, (x: Rights) => x.write)
    ensures Grants(a, t, 'x') <==> Held(a, t, (x: Rights) => x.execute)
    ensures Grants(a, t, 'a') <==> Held(a, t, (x: Rights) => x.administrate)
    ensures p !in "rwxa" ==> !Grants(a, t, p)
  {
  }

  /** The stored rights, alone, grant every permission of the list that has a meaning. */
  predicate AllHeld(a: Acl, t: Token, ps: seq<Permission>) {
    forall p | p in ps && p in "rwxa" :: Grants(a, t, p)
  }

  // Checks and reads

  /** A check by an admin always succeeds. Any other succeeds exactly if the topic is stored and either
      its defaults or the resource of the pure id grant the whole list. */
  lemma CheckAnswers(db: Db, t: Token, topicId: string, id: string, ps: seq<Permission>)
    ensures Check(db, t, topicId, id, ps) <==>
            || t.admin
            || (topicId in db.topics &&
                (|| AllHeld(db.topics[topicId].defaults.Plain(), t, ps)
                 || (Key(topicId, PureId(id)) in db.entries
                     && AllHeld(db.entries[Key(topicId, PureId(id))].acl, t, ps))))
  {
    assert forall p :: Known(p) <==> p in "rwxa";
  }

  /** Under a topic that is not stored everybody but an admin is denied, whatever is asked. */
  lemma UnknownTopicDenies(db: Db, t: Token, topicId: string, id: string, ps: seq<Permission>)
    requires !t.admin && topicId !in db.topics
    ensures !Check(db, t, topicId, id, ps)
  {
  }

  /** So it is after a topic was removed, be the removal completed or torn after its first delete. */
  lemma RemovedTopicDenies(w: World, admin: Token, topicId: string, first: Fault, second: Fault,
                           t: Token, id: string, ps: seq<Permission>)
    requires admin.admin && !t.admin && first != Lost
    ensures !Check(RemoveTopic(w, admin, topicId, first, second).0.db, t, topicId, id, ps)
  {
  }

  /** The caller may administrate the resource of the pure id, in a topic that is stored. */
  predicate Administers(db: Db, t: Token, topicId: string, id: string) {
    && topicId in db.topics
    && (|| t.admin
        || Grants(db.topics[topicId].defaults.Plain(), t, 'a')
        || (Key(topicId, PureId(id)) in db.entries && Grants(db.entries[Key(topicId, PureId(id))].acl, t, 'a')))
  }

  /** A read answers 404 for an unknown topic, unless to an admin, and for a resource that is not
      stored, 403 to whoever may not administrate the resource, and else its rights. */
  lemma ReadAnswers(db: Db, t: Token, topicId: string, id: string)
    ensures Read(db, t, topicId, id) ==
            var k := Key(topicId, PureId(id));
            if (!t.admin && topicId !in db.topics) || k !in db.entries then Err(404)
            else if !t.admin && !Administers(db, t, topicId, id) then Err(403)
            else Ok(Resource(topicId, id, ToPerms(db.entries[k].acl)))
  {
    assert ADMINISTRATE in [ADMINISTRATE];
  }

  // Edits

  /** The right that an edit needs: whatever it answers otherwise, one that changes anything or is
      accepted comes from a caller who may administrate the resource. */
  lemma EditNeedsRight(cfg: Config, w: World, t: Token, topicId: string, id: string, p: Perms,
                       sameGroup: Option<set<string>>, now: int, f: WriteFaults)
    requires var (w', r) := SetPermission(cfg, w, t, topicId, id, p, sameGroup, now, f); w' != w || r.Ok?
    ensures Administers(w.db, t, topicId, id)
  {
    assert ADMINISTRATE in [ADMINISTRATE];
  }

  /** An operation whose caller lacks the right it needs: to administrate the resource for an edit, to
      be an admin for everything else. */
  predicate Powerless(db: Db, op: Op) {
    match op
    case SetPermissionOp(t, topicId, id, _, _, _, _) => !Administers(db, t, topicId, id)
    case RemoveResourceOp(t, _, _, _) => !t.admin
    case SetTopicOp(t, _, _) => !t.admin
    case RemoveTopicOp(t, _, _, _) => !t.admin
    case ImportOp(t, _, _, _, _) => !t.admin
    case _ => false
  }

  /** Runs of such operations change nothing, neither in the database nor in Kafka. */
  lemma {:induction false} PowerlessChangeNothing(cfg: Config, w: World, ops: seq<Op>)
    requires forall op | op in ops :: Powerless(w.db, op)
    ensures Run(cfg, w, ops) == w
  {
    if ops == [] {
    } else {
      var n := |ops| - 1;
      assert forall op | op in ops[..n] :: op in ops;
      PowerlessChangeNothing(cfg, w, ops[..n]);
      PowerlessChangesNothing(cfg, w, ops[n]);
    }
  }

  lemma PowerlessChangesNothing(cfg: Config, w: World, op: Op)
    requires Powerless(w.db, op)
    ensures Exec(cfg, w, op) == w
  {
    if op.SetPermissionOp? {
      var SetPermissionOp(t, topicId, id, p, sameGroup, now, f) := op;
      if Exec(cfg, w, op) != w { EditNeedsRight(cfg, w, t, topicId, id, p, sameGroup, now, f); }
    }
  }

  /** What a caller without admin rights may change: roles only if they are not reserved to admins, no
      group added but its own, and with a user management no user added but those it named. */
  predicate MayChange(cfg: Config, t: Token, stored: Acl, p: Perms, sameGroup: Option<set<string>>) {
    && (cfg.onlyAdminsEditRoles && p.roles.Some? ==> p.roles.value == stored.roles)
    && (forall g | g in OrEmpty(p.groups) :: g in stored.groups || g in t.memberOf)
    && (cfg.userManagement ==>
          forall u | u in OrEmpty(p.users) :: u in stored.users || (sameGroup.Some? && u in sameGroup.value))
  }

  /** The rights as given; for a caller without admin rights missing roles are the stored ones. */
  function Completed(t: Token, stored: Acl, p: Perms): Perms {
    if t.admin || p.roles.Some? then p else Perms(p.users, p.groups, Some(stored.roles))
  }

  /** Reserved roles are refused with 403, foreign groups with 400, foreign users with 400 or, if the
      user management gave no answer, 500. */
  function Refusal(cfg: Config, t: Token, stored: Acl, p: Perms, sameGroup: Option<set<string>>): int {
    if cfg.onlyAdminsEditRoles && p.roles.Some? && p.roles.value != stored.roles then 403
    else if exists g | g in OrEmpty(p.groups) :: g !in stored.groups && g !in t.memberOf then 400
    else if sameGroup.None? then 500
    else 400
  }

  /** What an edit answers and leaves. The stored rights that limit it are those of the id as given;
      the entry that is written is the one of the pure id. */
  lemma EditAnswers(cfg: Config, w: World, t: Token, topicId: string, id: string, p: Perms,
                    sameGroup: Option<set<string>>, now: int, f: WriteFaults)
    requires Consistent(w.db)
    ensures var (w', r) := SetPermission(cfg, w, t, topicId, id, p, sameGroup, now, f);
            var stored, given := RightsAt(w.db, Key(topicId, id)), Completed(t, RightsAt(w.db, Key(topicId, id)), p);
            if topicId !in w.db.topics then
              w' == w && r == Err(404)
            else if !Administers(w.db, t, topicId, id) then
              w' == w && r == Err(403)
            else if forall u | u in OrEmpty(p.users) :: !OrEmpty(p.users)[u].administrate then
              w' == w && r == Err(400)
            else if !t.admin && !MayChange(cfg, t, stored, p, sameGroup) then
              w' == w && r == Err(Refusal(cfg, t, stored, p, sameGroup))
            else
              var (written, ok) := Write(w, w.db.topics[topicId], Resource(topicId, PureId(id), given), now, f);
              w' == written && r == if ok then Ok(given) else Err(500)
  {
    hide Write;
    if topicId in w.db.topics { EditAccess(w.db, t, topicId, id); }
    if topicId in w.db.topics && Administers(w.db, t, topicId, id) && p.Valid() && !t.admin {
      EditDecision(cfg, w.db, t, topicId, id, p, sameGroup);
    }
  }

  lemma EditAccess(db: Db, t: Token, topicId: string, id: string)
    requires topicId in db.topics
    ensures Administers(db, t, topicId, id) <==>
            || DefaultGrants(t, db.topics[topicId], [ADMINISTRATE])
            || ResourceGrants(db, t, Key(topicId, PureId(id)), [ADMINISTRATE])
  {
    assert ADMINISTRATE in [ADMINISTRATE];
  }

  lemma EditDecision(cfg: Config, db: Db, t: Token, topicId: string, id: string, p: Perms,
                     sameGroup: Option<set<string>>)
    requires Consistent(db) && !t.admin
    ensures var stored := RightsAt(db, Key(topicId, id));
            CheckEdit(cfg, db, t, Key(topicId, id), p, sameGroup) ==
            if MayChange(cfg, t, stored, p, sameGroup) then Ok(Completed(t, stored, p))
            else Err(Refusal(cfg, t, stored, p, sameGroup))
  {
    var stored, current := RightsAt(db, Key(topicId, id)), Current(db, Key(topicId, id));
    assert current.Plain() == stored;
    var addedGroups := OrEmpty(p.groups).Keys - stored.groups.Keys;
    var addedUsers := OrEmpty(p.users).Keys - stored.users.Keys;
    assert addedGroups <= t.memberOf <==> forall g | g in OrEmpty(p.groups) :: g in stored.groups || g in t.memberOf;
    assert (forall u | u in OrEmpty(p.users) :: u in stored.users || (sameGroup.Some? && u in sameGroup.value)) <==>
           addedUsers == {} || (sameGroup.Some? && addedUsers <= sameGroup.value) by {
      if u :| u in addedUsers { assert u in OrEmpty(p.users) && u !in stored.users; }
      forall u | u in OrEmpty(p.users) && u !in stored.users ensures u in addedUsers { }
    }
    if g :| g in addedGroups && g !in t.memberOf { assert g in OrEmpty(p.groups) && g !in stored.groups; }
  }

  // Removals

  lemma RemoveResourceAnswers(w: World, t: Token, topicId: string, id: string, f: Fault, k: Key)
    ensures var (w', code) := RemoveResource(w, t, topicId, id, f);
            && w'.log == w.log && w'.db.topics == w.db.topics
            && code == (if !t.admin then 403 else if f == Done then 200 else 500)
            && (k in w'.db.entries <==> k in w.db.entries && (t.admin && f != Lost ==> k != Key(topicId, id)))
            && (k in w'.db.entries ==> w'.db.entries[k] == w.db.entries[k])
  {
  }

  lemma RemoveTopicAnswers(w: World, t: Token, id: string, first: Fault, second: Fault, topicId: string, k: Key)
    ensures var (w', code) := RemoveTopic(w, t, id, first, second);
            && w'.log == w.log
            && code == (if !t.admin then 401 else if first == Done && second == Done then 200 else 500)
            && (topicId in w'.db.topics <==> topicId in w.db.topics && (t.admin && first != Lost ==> topicId != id))
            && (topicId in w'.db.topics ==> w'.db.topics[topicId] == w.db.topics[topicId])
            && (k in w'.db.entries <==>
                  k in w.db.entries && (t.admin && first == Done && second != Lost ==> k.topicId != id))
            && (k in w'.db.entries ==> w'.db.entries[k] == w.db.entries[k])
  {
  }

  // Topics

  /** Two topics that publish alike and whose defaults give everybody the same. */
  ghost predicate Alike(a: Topic, b: Topic) {
    && a.kafka == b.kafka && a.ensureInit == b.ensureInit && a.partitions == b.partitions
    && (forall k :: At(OrEmpty(a.defaults.users), k) == At(OrEmpty(b.defaults.users), k))
    && (forall k :: At(OrEmpty(a.defaults.groups), k) == At(OrEmpty(b.defaults.groups), k))
    && (forall k :: At(OrEmpty(a.defaults.roles), k) == At(OrEmpty(b.defaults.roles), k))
  }

  /** The id a topic is stored under: its own, or else the name of its Kafka topic. */
  function StoredId(topic: Topic): string {
    if topic.id == "" then topic.kafka else topic.id
  }

  predicate Acceptable(topic: Topic) {
    StoredId(topic) != "" && forall c | c in topic.kafka ::
        'a' <= c <= 'z' || 'A' <= c <= 'Z' || '0' <= c <= '9' || c in "._-"
  }

  lemma AcceptableIsValid(topic: Topic)
    ensures Acceptable(topic) <==> Named(topic).Validate().None?
  {
    ValidateAccepts(Named(topic));
    assert forall c :: LegalChar(c) <==> 'a' <= c <= 'z' || 'A' <= c <= 'Z' || '0' <= c <= '9' || c in "._-";
  }

  /** After a topic was set with success, what is stored under its id behaves as the topic given; other
      topics and all resources stay. Refused are callers without admin rights and illegal topics. */
  lemma SetTopicAnswers(w: World, t: Token, topic: Topic, f: Fault, other: string)
    ensures var (w', r) := SetTopic(w, t, topic, f);
            && w'.log == w.log && w'.db.entries == w.db.entries
            && (other != StoredId(topic) ==> (other in w'.db.topics <==> other in w.db.topics))
            && (other != StoredId(topic) && other in w.db.topics ==> w'.db.topics[other] == w.db.topics[other])
            && (!t.admin ==> w' == w && r == Err(401))
            && (t.admin && !Acceptable(topic) ==> w' == w && r == Err(400))
            && (t.admin && Acceptable(topic) && f == Done ==> r.Ok?)
            && (r.Err? && t.admin && Acceptable(topic) ==> r.code == 500)
            && (r.Ok? ==>
                  && StoredId(topic) in w'.db.topics
                  && r.value.0 == w'.db.topics[StoredId(topic)]
                  && Alike(w'.db.topics[StoredId(topic)], topic))
            && (r.Ok? ==> (r.value.1 == 202 && w' == w) || (r.value.1 == 200 && f == Done))
  {
    AcceptableIsValid(topic);
  }

  /** Setting what is stored, with nil maps or empty ones, is accepted without storing anything. */
  lemma SetTopicAgain(w: World, t: Token, topic: Topic, f: Fault)
    requires t.admin && Acceptable(topic) && Consistent(w.db) && StoredId(topic) in w.db.topics
    requires var stored := w.db.topics[StoredId(topic)];
             && topic.kafka == stored.kafka && topic.ensureInit == stored.ensureInit
                  && topic.partitions == stored.partitions
             && topic.defaults.Plain() == stored.defaults.Plain()
    ensures SetTopic(w, t, topic, f) == (w, Ok((w.db.topics[StoredId(topic)], 202)))
  {
    AcceptableIsValid(topic);
  }

  /** Then every check by defaults answers by the rights given. */
  lemma AlikeDefaults(a: Topic, b: Topic, t: Token, ps: seq<Permission>)
    requires Alike(a, b)
    ensures DefaultGrants(t, a, ps) == DefaultGrants(t, b, ps)
  {
    assert forall p :: Grants(a.defaults.Plain(), t, p) == Grants(b.defaults.Plain(), t, p);
  }

  lemma SetTopicThenCheck(w: World, admin: Token, topic: Topic, f: Fault, t: Token, id: string, ps: seq<Permission>)
    requires SetTopic(w, admin, topic, f).1.Ok? && !t.admin
    ensures var k := Key(StoredId(topic), PureId(id));
            Check(SetTopic(w, admin, topic, f).0.db, t, StoredId(topic), id, ps) <==>
            AllHeld(topic.defaults.Plain(), t, ps) || (k in w.db.entries && AllHeld(w.db.entries[k].acl, t, ps))
  {
    var db' := SetTopic(w, admin, topic, f).0.db;
    SetTopicAnswers(w, admin, topic, f, "");
    AlikeDefaults(db'.topics[StoredId(topic)], topic, t, ps);
    CheckAnswers(db', t, StoredId(topic), id, ps);
    assert forall p :: Known(p) <==> p in "rwxa";
  }
}
