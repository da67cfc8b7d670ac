/** How the four ways of asking for access relate: single check, multi check, computed rights and
    the list of accessible ids. (That the multi check is the single check, id by id, is the
    contract of Controller.CheckMultiplePermissions.) */
module Decisions {
  import opened Model
  import opened Order
  import opened Store
  import opened Rules

  // Computed rights against checks

  predicate AllComputed(db: Db, t: Token, topicId: string, id: string, ps: seq<Permission>)
    requires topicId in db.topics && Key(topicId, id) in db.entries
  {
    forall p | p in ps && Known(p) :: Computed(db, t, topicId, id, p)
  }

  lemma CheckImpliesComputed(db: Db, t: Token, topicId: string, id: string, ps: seq<Permission>)
    requires topicId in db.topics && Key(topicId, id) in db.entries && IsPure(id)
    requires Check(db, t, topicId, id, ps)
    ensures AllComputed(db, t, topicId, id, ps)
  {
    PureIdFixed(id);
  }

  ghost predicate ComputedDecides(ps: seq<Permission>) {
    forall db: Db, t: Token, topicId, id | topicId in db.topics && Key(topicId, id) in db.entries && IsPure(id) ::
      Check(db, t, topicId, id, ps) == AllComputed(db, t, topicId, id, ps)
  }

  /** The computed rights decide the check of a list, for every state and caller, exactly when the
      list names at most one permission: defaults and resource may each grant a part of a longer one. */
  lemma ComputedDecidesIff(ps: seq<Permission>)
    ensures ComputedDecides(ps) <==> forall p, q | p in ps && q in ps && Known(p) && Known(q) :: p == q
  {
    if forall p, q | p in ps && q in ps && Known(p) && Known(q) :: p == q {
      forall db: Db, t: Token, topicId, id | topicId in db.topics && Key(topicId, id) in db.entries && IsPure(id)
        ensures Check(db, t, topicId, id, ps) == AllComputed(db, t, topicId, id, ps)
      {
        PureIdFixed(id);
        if p :| p in ps && Known(p) {
          assert AllComputed(db, t, topicId, id, ps) == Computed(db, t, topicId, id, p);
        }
      }
    } else {
      var p, q :| p in ps && q in ps && Known(p) && Known(q) && p != q;
      SplitGrant(ps, p, q);
    }
  }

  lemma SplitGrant(ps: seq<Permission>, p: Permission, q: Permission)
    requires p in ps && q in ps && Known(p) && Known(q) && p != q
    ensures !ComputedDecides(ps)
  {
    var byDefault := NO_RIGHTS.With(p);
    var byResource := Rights(p != READ, p != WRITE, p != EXECUTE, p != ADMINISTRATE);
    var t := Token("u", [], [], false, {});
    var topic := Topic("t", "", false, 0, Perms(Some(map["u" := byDefault]), None, None));
    var acl := Acl(map["u" := byResource], map[], map[]);
    var db := Db(map["t" := topic], map[Key("t", "x") := Entry(acl, 0, true)]);
    PureIdFixed("x");
    assert !Grants(topic.defaults.Plain(), t, q) && !Grants(acl, t, p);
    assert !Check(db, t, "t", "x", ps);
    forall r | r in ps && Known(r) ensures Computed(db, t, "t", "x", r) {
      assert At(topic.defaults.Plain().users, "u").Has(r) || At(acl.users, "u").Has(r);
    }
    assert AllComputed(db, t, "t", "x", ps);
  }

  // Listing against checks

  ghost function CheckedIds(db: Db, t: Token, topicId: string, ps: seq<Permission>): set<string> {
    set id | id in StoredIds(db.Acls(), topicId) && Check(db, t, topicId, id, ps)
  }

  /** When all stored ids are pure, the listing is the ascending list of exactly the stored ids for
      which the check succeeds; its pages put together give it back. */
  lemma ListingIsChecking(db: Db, t: Token, topicId: string, ps: seq<Permission>, limit: int, offset: int)
    requires topicId in db.topics && AllKnown(ps)
    requires forall id | id in StoredIds(db.Acls(), topicId) :: IsPure(id)
    ensures var checked := Sorted(CheckedIds(db, t, topicId, ps));
            && Listing(db, t, topicId, ListOptions(0, 0, None), ps) == Ok(checked)
            && Listing(db, t, topicId, ListOptions(limit, offset, None), ps) == Ok(Page(checked, limit, offset))
            && (limit > 0 ==> Pages(checked, limit, 0) == checked)
  {
    forall id | id in StoredIds(db.Acls(), topicId)
      ensures id in AccessibleIds(db, t, topicId, None, ps) <==> Check(db, t, topicId, id, ps)
    {
      PureIdFixed(id);
      var k :| k in db.Acls() && k.topicId == topicId && k.id == id;
      assert k == Key(topicId, id);
    }
    assert AccessibleIds(db, t, topicId, None, ps) == CheckedIds(db, t, topicId, ps);
    if limit > 0 { PagesRebuild(Sorted(CheckedIds(db, t, topicId, ps)), limit, 0); }
  }

  /** The defaults of a stored topic grant every permission of the list, or the caller is an admin. */
  predicate ByDefault(db: Db, t: Token, topicId: string, ps: seq<Permission>) {
    t.admin || (topicId in db.topics && forall p | p in ps && p in "rwxa" ::
        Grants(db.topics[topicId].defaults.Plain(), t, p))
  }

  /** Who is listed what: an unknown topic is refused to all but admins. Where the defaults grant the
      list, the ids asked for are listed; elsewhere a rune without a meaning is refused, and the ids
      are listed whose own rights grant the list, whichever are asked for. */
  lemma ListingAnswers(db: Db, t: Token, topicId: string, options: ListOptions, ps: seq<Permission>)
    returns (all: seq<string>)
    ensures Ascending(all)
    ensures forall id :: id in all <==>
              && Key(topicId, id) in db.entries
              && (if ByDefault(db, t, topicId, ps) then options.ids.None? || id in options.ids.value
                  else forall p | p in ps && p in "rwxa" :: Grants(db.entries[Key(topicId, id)].acl, t, p))
    ensures Listing(db, t, topicId, options, ps) ==
            if !t.admin && topicId !in db.topics then Err(404)
            else if !ByDefault(db, t, topicId, ps) && (exists p :: p in ps && p !in "rwxa") then Err(500)
            else Ok(Page(all, options.limit, options.offset))
  {
    var ids := AccessibleIds(db, t, topicId, options.ids, ps);
    all := Sorted(ids);
    assert forall p :: Known(p) <==> p in "rwxa";
    forall id ensures Key(topicId, id) in db.entries <==> id in StoredIds(db.Acls(), topicId) {
      assert Key(topicId, id) in db.entries ==> Key(topicId, id) in db.Acls() && Key(topicId, id).id == id;
    }
  }

  /** Every stored id has the rights of its pure id. */
  ghost predicate ModifiersAgree(db: Db, topicId: string) {
    forall id | id in StoredIds(db.Acls(), topicId) ::
        RightsAt(db, Key(topicId, PureId(id))) == RightsAt(db, Key(topicId, id))
  }

  function WithDefaults(db: Db, topic: Topic, topicId: string): Db {
    db.(topics := db.topics[topicId := topic])
  }

  ghost predicate ListingDecides(db: Db, topicId: string) {
    forall t: Token, topic: Topic, ps | AllKnown(ps) ::
      var db' := WithDefaults(db, topic, topicId);
      AccessibleIds(db', t, topicId, None, ps) == CheckedIds(db', t, topicId, ps)
  }

  /** Imports and bulk loads store ids as they are, with a modifier if they have one, while checks
      drop it. Listing and checking agree, for all callers, defaults and lists of known permissions,
      exactly when every
      stored id carries the rights of its pure id. */
  lemma ListingDecidesIff(db: Db, topicId: string)
    requires Consistent(db)
    ensures ListingDecides(db, topicId) <==> ModifiersAgree(db, topicId)
  {
    if ModifiersAgree(db, topicId) {
      forall t: Token, topic: Topic, ps | AllKnown(ps)
        ensures var db' := WithDefaults(db, topic, topicId);
                AccessibleIds(db', t, topicId, None, ps) == CheckedIds(db', t, topicId, ps)
      {
        AgreementLists(db, topicId, t, topic, ps);
      }
    } else {
      var id :| id in StoredIds(db.Acls(), topicId)
          && RightsAt(db, Key(topicId, PureId(id))) != RightsAt(db, Key(topicId, id));
      DisagreementShows(db, topicId, id);
    }
  }

  lemma AgreementLists(db: Db, topicId: string, t: Token, topic: Topic, ps: seq<Permission>)
    requires ModifiersAgree(db, topicId)
    ensures var db' := WithDefaults(db, topic, topicId);
            AccessibleIds(db', t, topicId, None, ps) == CheckedIds(db', t, topicId, ps)
  {
    var db' := WithDefaults(db, topic, topicId);
    forall id | id in StoredIds(db.Acls(), topicId)
      ensures id in AccessibleIds(db', t, topicId, None, ps) <==> Check(db', t, topicId, id, ps)
    {
      var k :| k in db.Acls() && k.topicId == topicId && k.id == id;
      assert k == Key(topicId, id);
      assert RightsAt(db, Key(topicId, PureId(id))) == RightsAt(db, Key(topicId, id));
      if GrantsKnown(NO_ACL, t, ps) { assert forall p | p in ps && Known(p) :: Grants(NO_ACL, t, p); }
    }
  }

  lemma DisagreementShows(db: Db, topicId: string, id: string)
    requires Consistent(db) && id in StoredIds(db.Acls(), topicId)
    requires RightsAt(db, Key(topicId, PureId(id))) != RightsAt(db, Key(topicId, id))
    ensures !ListingDecides(db, topicId)
  {
    var a, b := RightsAt(db, Key(topicId, PureId(id))), RightsAt(db, Key(topicId, id));
    assert NO_ACL.IsNormal();
    var t, p := Distinguish(a, b);
    var topic := Topic(topicId, "", false, 0, Perms(None, None, None));
    CheckWithoutDefaults(db, topic, topicId, id, t, p);
    ListedWithoutDefaults(db, topic, topicId, id, t, p);
  }

  lemma CheckWithoutDefaults(db: Db, topic: Topic, topicId: string, id: string, t: Token, p: Permission)
    requires !t.admin && Known(p) && topic.defaults.Plain() == NO_ACL
    ensures Check(WithDefaults(db, topic, topicId), t, topicId, id, [p]) ==
              Grants(RightsAt(db, Key(topicId, PureId(id))), t, p)
  {
  }

  lemma ListedWithoutDefaults(db: Db, topic: Topic, topicId: string, id: string, t: Token, p: Permission)
    requires !t.admin && Known(p) && topic.defaults.Plain() == NO_ACL && id in StoredIds(db.Acls(), topicId)
    ensures id in AccessibleIds(WithDefaults(db, topic, topicId), t, topicId, None, [p]) <==>
              Grants(RightsAt(db, Key(topicId, id)), t, p)
  {
  }

  /** Different stored rights can be told apart by some caller. */
  lemma Distinguish(a: Acl, b: Acl) returns (t: Token, p: Permission)
    requires a.IsNormal() && b.IsNormal() && a != b
    ensures !t.admin && Known(p) && Grants(a, t, p) != Grants(b, t, p)
  {
    CleanExtensional(a.users, b.users);
    CleanExtensional(a.groups, b.groups);
    CleanExtensional(a.roles, b.roles);
    if a.users != b.users {
      var k :| At(a.users, k) != At(b.users, k);
      p := DifferingBit(At(a.users, k), At(b.users, k));
      t := Token(k, [], [], false, {});
    } else {
      var user := FreshName(a.users.Keys + b.users.Keys);
      if a.groups != b.groups {
        var k :| At(a.groups, k) != At(b.groups, k);
        p := DifferingBit(At(a.groups, k), At(b.groups, k));
        t := Token(user, [], [k], false, {});
        AnyOfOne(k, a.groups, p);
        AnyOfOne(k, b.groups, p);
      } else {
        var k :| At(a.roles, k) != At(b.roles, k);
        p := DifferingBit(At(a.roles, k), At(b.roles, k));
        t := Token(user, [k], [], false, {});
        AnyOfOne(k, a.roles, p);
        AnyOfOne(k, b.roles, p);
      }
    }
  }

  lemma AnyOfOne(k: string, m: RightsMap, p: Permission)
    ensures AnyHas([k], m, p) == At(m, k).Has(p)
  {
  }

  lemma DifferingBit(a: Rights, b: Rights) returns (p: Permission)
    requires a != b
    ensures Known(p) && a.Has(p) != b.Has(p)
  {
    p := if a.read != b.read then READ
         else if a.write != b.write then WRITE
         else if a.execute != b.execute then EXECUTE
         else ADMINISTRATE;
  }

  lemma FreshName(names: set<string>) returns (s: string)
    ensures s !in names
  {
    var n := Longest(names);
    s := seq(n + 1, _ => 'x');
  }

  lemma Longest(names: set<string>) returns (n: nat)
    ensures forall s | s in names :: |s| <= n
    decreases |names|
  {
    n := 0;
    if names != {} {
      var s :| s in names;
      var m := Longest(names - {s});
      n := if |s| > m then |s| else m;
      forall x | x in names ensures |x| <= n { if x != s { assert x in names - {s}; } }
    }
  }
}
