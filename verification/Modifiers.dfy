/** What ids with a modifier do. Access concerns the pure part of such an id, but the comparison
    with the current rights, a removal and an import use the id as it is. */
module Modifiers {
  import opened Model
  import opened Store
  import opened Effects
  import opened Rules
  import opened Decisions
  import opened Runs

  /** In every state, no edit under this id by a caller without admin rights changes the roles of
      the entry it writes. */
  ghost predicate RolesProtected(id: string) {
    forall cfg: Config, w: World, t: Token, topicId: string, p: Perms, sameGroup: Option<set<string>>, now: int,
        f: WriteFaults |
      Consistent(w.db) && cfg.onlyAdminsEditRoles && !t.admin ::
      var w' := SetPermission(cfg, w, t, topicId, id, p, sameGroup, now, f).0;
      RightsAt(w'.db, Key(topicId, PureId(id))).roles == RightsAt(w.db, Key(topicId, PureId(id))).roles
  }

  /** The reservation of role rights to admins protects exactly the ids without a modifier. */
  lemma RolesProtectedIff(id: string)
    ensures RolesProtected(id) <==> IsPure(id)
  {
    if IsPure(id) { PureIdProtected(id); } else { ModifierUnprotected(id); }
  }

  lemma PureIdProtected(id: string)
    requires IsPure(id)
    ensures RolesProtected(id)
  {
    PureIdFixed(id);
    forall cfg: Config, w: World, t: Token, topicId: string, p: Perms, sameGroup: Option<set<string>>, now: int,
        f: WriteFaults |
      Consistent(w.db) && cfg.onlyAdminsEditRoles && !t.admin
      ensures var w' := SetPermission(cfg, w, t, topicId, id, p, sameGroup, now, f).0;
              RightsAt(w'.db, Key(topicId, PureId(id))).roles == RightsAt(w.db, Key(topicId, PureId(id))).roles
    {
      if DecideEdit(cfg, w.db, t, topicId, id, p, sameGroup).Ok? && f.write != Lost {
        RolesStored(cfg, w, t, topicId, id, p, sameGroup, now, f);
      } else {
        assert SetPermission(cfg, w, t, topicId, id, p, sameGroup, now, f).0 == w;
      }
    }
  }

  lemma ModifierUnprotected(id: string)
    requires !IsPure(id)
    ensures !RolesProtected(id)
  {
    var cfg, ops := RolesWiped(id);
    var w := Run(cfg, EMPTY, ops[..2]);
    var SetPermissionOp(t, topicId, _, p, sameGroup, now, f) := ops[2];
    assert ops[..|ops| - 1] == ops[..2];
    var w' := SetPermission(cfg, w, t, topicId, id, p, sameGroup, now, f).0;
    assert Run(cfg, EMPTY, ops) == w';
    assert "r" in ROLE_ALL;
    assert RightsAt(w'.db, Key(topicId, PureId(id))).roles != RightsAt(w.db, Key(topicId, PureId(id))).roles;
  }

  // Runs that show what ids with a modifier do

  const ADMIN := Token("admin", [], [], true, {})
  const USER := Token("u", [], [], false, {})
  const PLAIN_TOPIC := Topic("t", "", false, 0, Perms(None, None, None))
  const USER_ALL: RightsMap := map["u" := ALL_RIGHTS]
  const ROLE_ALL: RightsMap := map["r" := ALL_RIGHTS]
  const WORKING := WriteFaults(Done, Done, Done)

  /** An admin creates a topic and, under the pure part of the id, a resource that a user and a role
      may administrate. */
  function Setup(id: string): seq<Op> {
    [SetTopicOp(ADMIN, PLAIN_TOPIC, Done),
     SetPermissionOp(ADMIN, "t", PureId(id), Perms(Some(USER_ALL), None, Some(ROLE_ALL)), None, 0, WORKING)]
  }

  function AfterSetup(id: string): World {
    World(Db(map["t" := PLAIN_TOPIC], map[Key("t", PureId(id)) := Entry(Acl(USER_ALL, map[], ROLE_ALL), 0, true)]), [])
  }

  lemma SetupRuns(cfg: Config, id: string)
    ensures Run(cfg, EMPTY, Setup(id)) == AfterSetup(id)
  {
    var ops := Setup(id);
    var w1 := World(Db(map["t" := PLAIN_TOPIC], map[]), []);
    assert ops[..1][..0] == [] && ops[..|ops| - 1] == ops[..1];
    assert Run(cfg, EMPTY, ops[..1]) == Exec(cfg, EMPTY, ops[0]) == w1;
    PureIdFixed(id);
    PureIdFixed(PureId(id));
    assert "u" in USER_ALL && USER_ALL["u"].administrate;
    assert Clean(USER_ALL) == USER_ALL && Clean(ROLE_ALL) == ROLE_ALL && Clean(map[]) == map[];
    assert Exec(cfg, w1, ops[1]) == AfterSetup(id);
  }

  /** Under any id with a modifier the user, who is no admin, wipes the roles of the resource. */
  lemma RolesWiped(id: string) returns (cfg: Config, ops: seq<Op>)
    requires !IsPure(id)
    ensures cfg.onlyAdminsEditRoles
    ensures ops == Setup(id) + [SetPermissionOp(USER, "t", id, Perms(Some(USER_ALL), None, None), None, 0, WORKING)]
    ensures var k := Key("t", PureId(id));
            && RightsAt(Run(cfg, EMPTY, ops[..2]).db, k).roles == ROLE_ALL
            && RightsAt(Run(cfg, EMPTY, ops).db, k).roles == map[]
            && Consistent(Run(cfg, EMPTY, ops[..2]).db)
  {
    cfg := Config(true, false);
    var p := Perms(Some(USER_ALL), None, None);
    ops := Setup(id) + [SetPermissionOp(USER, "t", id, p, None, 0, WORKING)];
    SetupRuns(cfg, id);
    assert ops[..2] == Setup(id) && ops[..|ops| - 1] == Setup(id);
    var w := AfterSetup(id);
    PureIdFixed(id);
    assert Clean(USER_ALL) == USER_ALL && Clean(ROLE_ALL) == ROLE_ALL && Clean(map[]) == map[];
    assert "u" in USER_ALL && USER_ALL["u"].administrate;
    assert ResourceGrants(w.db, USER, Key("t", PureId(id)), [ADMINISTRATE]);
    assert Key("t", id) !in w.db.entries;
    assert DecideEdit(cfg, w.db, USER, "t", id, p, None) == Ok(p.(roles := Some(map[])));
    RolesStored(cfg, w, USER, "t", id, p, None, 0, WORKING);
  }

  /** Under any id with a modifier an admin removes nothing: the removal succeeds, and the user still
      passes the check of that id. */
  lemma RemovalMisses(cfg: Config, id: string)
    requires !IsPure(id)
    ensures var w := Run(cfg, EMPTY, Setup(id));
            && RemoveResource(w, ADMIN, "t", id, Done) == (w, OK)
            && Check(w.db, USER, "t", id, [ADMINISTRATE])
  {
    SetupRuns(cfg, id);
    PureIdFixed(id);
    var w := AfterSetup(id);
    assert w.db.entries - {Key("t", id)} == w.db.entries;
    assert "u" in USER_ALL && USER_ALL["u"].administrate;
  }

  /** The import of a resource under an id with a modifier, for another user. */
  function ImportsModifier(id: string): Op {
    var r := Resource("t", id, Perms(Some(map["v" := ALL_RIGHTS]), None, None));
    ImportOp(ADMIN, ImportExport([], [r]), FULL, (_: nat) => Done, (_: nat) => Io(0, WORKING))
  }

  const OTHER_ACL := Acl(map["v" := ALL_RIGHTS], map[], map[])

  lemma ImportStores(cfg: Config, id: string)
    requires !IsPure(id)
    ensures var db := Run(cfg, EMPTY, Setup(id) + [ImportsModifier(id)]).db;
            db == AfterSetup(id).db.(entries := AfterSetup(id).db.entries[Key("t", id) := Entry(OTHER_ACL, 0, true)])
  {
    var ops := Setup(id) + [ImportsModifier(id)];
    var w, op := AfterSetup(id), ImportsModifier(id);
    SetupRuns(cfg, id);
    assert ops[..|ops| - 1] == Setup(id);
    assert "v" in OTHER_ACL.users && OTHER_ACL.users["v"].administrate;
    assert Clean(OTHER_ACL.users) == OTHER_ACL.users && Clean(map[]) == map[];
    assert ImportTopics(w, ADMIN, [], FULL, op.faults, 0) == (w, None);
    assert ImportResources(w, op.m.permissions, FULL, op.io, 0).0 ==
        Write(w, PLAIN_TOPIC, op.m.permissions[0], 0, WORKING).0;
  }

  /** An imported id with a modifier is listed for its user, who is denied every check of it. */
  lemma ImportedModifierIsListed(cfg: Config, id: string)
    requires !IsPure(id)
    ensures var db := Run(cfg, EMPTY, Setup(id) + [ImportsModifier(id)]).db;
            var v := Token("v", [], [], false, {});
            && "t" in db.topics
            && id in AccessibleIds(db, v, "t", None, [READ])
            && !Check(db, v, "t", id, [READ])
  {
    var v := Token("v", [], [], false, {});
    var db := Run(cfg, EMPTY, Setup(id) + [ImportsModifier(id)]).db;
    ImportStores(cfg, id);
    hide Run, Setup, ImportsModifier;
    PureIdFixed(id);
    assert Key("t", id) in db.Acls() && Key("t", id).id == id;
    assert READ in [READ] && !Grants(NO_ACL, v, READ) && !Grants(Acl(USER_ALL, map[], ROLE_ALL), v, READ);
    assert GrantsKnown(OTHER_ACL, v, [READ]);
  }
}
