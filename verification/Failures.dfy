/** Short runs from the empty store in which properties fail that hold under a condition only: a torn
    removal of a topic, and bulk loads. */
module Failures {
  import opened Model
  import opened Store
  import opened Effects
  import opened Rules
  import opened Runs
  import opened BulkLoad
  import opened Modifiers

  /** The second delete behind a removal is lost: a resource is left without its topic. */
  lemma TornRemovalOrphans(cfg: Config)
    ensures Sound(Run(cfg, EMPTY, Setup("x")).db)
    ensures var db := Run(cfg, EMPTY, Setup("x") + [RemoveTopicOp(ADMIN, "t", Done, Lost)]).db;
            Key("t", "x") in db.entries && "t" !in db.topics && !Sound(db)
  {
    var ops := Setup("x") + [RemoveTopicOp(ADMIN, "t", Done, Lost)];
    SetupRuns(cfg, "x");
    PureIdFixed("x");
    assert ops[..|ops| - 1] == Setup("x");
    assert Clean(USER_ALL) == USER_ALL && Clean(ROLE_ALL) == ROLE_ALL && Clean(map[]) == map[];
  }

  // Bulk loads

  const LOAD_TOPIC := Topic("t", "-", false, 0, Perms(None, None, None))
  const STORE_TOPIC := SetTopicOp(ADMIN, LOAD_TOPIC, Done)
  const READ_ONLY := Rights(true, false, false, false)
  const CLOCK: nat -> Io := (_: nat) => Io(0, WORKING)

  function Loaded(e: LoadElement, overwrite: bool): Op {
    LoadOp("t", [e], overwrite, false, CLOCK)
  }

  /** The world in which the topic and these entries are stored. */
  function Holding(entries: map<Key, Entry>): World {
    World(Db(map["t" := LOAD_TOPIC], entries), [])
  }

  lemma TopicStored(cfg: Config)
    ensures Run(cfg, EMPTY, [STORE_TOPIC]) == Holding(map[])
  {
    assert [STORE_TOPIC][..0] == [];
    assert Exec(cfg, EMPTY, STORE_TOPIC) == Holding(map[]);
  }

  /** One element loaded, new or overwritten. */
  lemma OneIsLoaded(cfg: Config, w: World, e: LoadElement, overwrite: bool)
    requires "t" in w.db.topics && w.db.topics["t"] == LOAD_TOPIC && Loads(w.db, "t", e, overwrite)
    ensures Exec(cfg, w, Loaded(e, overwrite)) == Put(w, Merged(w.db, "t", e), 0, true)
  {
    assert LoadFirst(w, LOAD_TOPIC, [e], overwrite, false, CLOCK, 0) == (w, 0, true);
  }

  /** A load without an administrating user stores an entry without one. */
  lemma LoadWithoutAdmin(cfg: Config)
    ensures var e := LoadElement("x", map["u" := READ_ONLY], map[]);
            var db := Run(cfg, EMPTY, [STORE_TOPIC, Loaded(e, false)]).db;
            Key("t", "x") in db.entries && !HaveAdmins(db)
  {
    var e := LoadElement("x", map["u" := READ_ONLY], map[]);
    var ops := [STORE_TOPIC, Loaded(e, false)];
    TopicStored(cfg);
    assert ops[..|ops| - 1] == [STORE_TOPIC];
    OneIsLoaded(cfg, Holding(map[]), e, false);
  }

  /** Overwriting keeps the rights of a user that the remote side does not name. */
  lemma OverwriteMerges(cfg: Config)
    ensures var e, later := LoadElement("x", USER_ALL, map[]), LoadElement("x", map["v" := ALL_RIGHTS], map[]);
            var db := Run(cfg, EMPTY, [STORE_TOPIC, Loaded(e, false), Loaded(later, true)]).db;
            && Key("t", "x") in db.entries
            && "u" in db.entries[Key("t", "x")].acl.users && "u" !in Remote(later).users
  {
    var e, later := LoadElement("x", USER_ALL, map[]), LoadElement("x", map["v" := ALL_RIGHTS], map[]);
    var two, three := [STORE_TOPIC, Loaded(e, false)], [STORE_TOPIC, Loaded(e, false), Loaded(later, true)];
    TopicStored(cfg);
    assert two[..|two| - 1] == [STORE_TOPIC] && three[..|three| - 1] == two;
    OneIsLoaded(cfg, Holding(map[]), e, false);
    var w := Run(cfg, EMPTY, two);
    assert w == Put(Holding(map[]), Merged(Holding(map[]).db, "t", e), 0, true);
    assert "u" in w.db.entries[Key("t", "x")].acl.users;
    OneIsLoaded(cfg, w, later, true);
  }

  /** A dry run counts an id that occurs twice twice, the load once. */
  lemma DryRunMiscounts(cfg: Config)
    ensures var w, e := Run(cfg, EMPTY, [STORE_TOPIC]), LoadElement("x", USER_ALL, map[]);
            Load(w, "t", [e, e], false, true, CLOCK).1 == 2 && Load(w, "t", [e, e], false, false, CLOCK).1 == 1
  {
    var w, e := Holding(map[]), LoadElement("x", USER_ALL, map[]);
    TopicStored(cfg);
    assert LoadFirst(w, LOAD_TOPIC, [e, e], false, true, CLOCK, 1) == (w, 1, true);
    var once := Put(w, Merged(w.db, "t", e), 0, true);
    assert LoadFirst(w, LOAD_TOPIC, [e, e], false, false, CLOCK, 1) == (once, 1, true);
    assert Key("t", "x") in once.db.entries;
  }
}
