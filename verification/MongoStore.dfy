/** The entry-list store (pkg/database/mongo): two collections of documents, and the methods
    that read and write them through queries. */
module MongoStore {
  import opened Model
  import opened Order
  import opened Collections
  import opened Entries
  import opened Store

  function DocKey(d: Doc): Key {
    d.Key()
  }

  function DocId(d: Doc): string {
    d.id
  }

  function EntryOf(d: Doc): Entry {
    Entry(d.Decoded(), d.timestamp, d.synced)
  }

  ghost function EntriesOf(docs: seq<Doc>): map<Key, Entry>
    requires Unique(docs, DocKey)
  {
    Image(docs, DocKey, EntryOf)
  }

  lemma DocAt(docs: seq<Doc>, k: Key) returns (d: Doc)
    requires Unique(docs, DocKey) && k in EntriesOf(docs)
    ensures d in docs && d.topicId == k.topicId && d.id == k.id && EntriesOf(docs)[k] == EntryOf(d)
  {
    ImageMembers(docs, DocKey, EntryOf);
    d :| d in docs && DocKey(d) == k;
  }

  lemma EntryAt(docs: seq<Doc>, d: Doc)
    requires Unique(docs, DocKey) && d in docs
    ensures Key(d.topicId, d.id) in EntriesOf(docs)
    ensures EntriesOf(docs)[Key(d.topicId, d.id)] == EntryOf(d)
  {
  }

  lemma DecodedConsistent(docs: seq<Doc>, topics: seq<Topic>)
    requires Unique(docs, DocKey) && Unique(topics, TopicKey)
    ensures Consistent(Store.Db(Image(topics, TopicKey, Self), EntriesOf(docs)))
  {
    var index := Image(topics, TopicKey, Self);
    ImageMembers(topics, TopicKey, Self);
    forall id | id in index ensures index[id].id == id {
      var t :| t in topics && TopicKey(t) == id;
    }
    forall k | k in EntriesOf(docs) ensures EntriesOf(docs)[k].acl.IsNormal() {
      var d := DocAt(docs, k);
      DecodedIsNormal(d);
    }
  }

  function Matching(docs: seq<Doc>, f: Filter): seq<Doc> {
    Keep(docs, (d: Doc) => Accepts(f, d))
  }

  lemma MatchingUnique(docs: seq<Doc>, f: Filter, topicId: string)
    requires Unique(docs, DocKey) && forall d :: Accepts(f, d) ==> d.topicId == topicId
    ensures Unique(Matching(docs, f), DocId)
  {
    var found := Matching(docs, f);
    KeepUnique(docs, (d: Doc) => Accepts(f, d), DocKey);
    forall i, j | 0 <= i < j < |found| ensures DocId(found[i]) != DocId(found[j]) {
      assert DocKey(found[i]) != DocKey(found[j]);
      assert found[i] in found && found[j] in found;
    }
  }

  /** A query confined to one topic, sorted by id, lists the matching ids in ascending order. */
  lemma SortedMatches(docs: seq<Doc>, f: Filter, topicId: string, names: set<string>)
    requires Unique(docs, DocKey) && Selects(docs, f, topicId, names)
    ensures Ids(Sort(Matching(docs, f), IdOrder(DocId)), DocId) == Sorted(names)
    ensures forall d :: d in Sort(Matching(docs, f), IdOrder(DocId)) <==> d in docs && Accepts(f, d)
  {
    var found := Matching(docs, f);
    MatchingUnique(docs, f, topicId);
    forall n | n in names ensures exists d | d in found :: DocId(d) == n {
      var d :| d in docs && Accepts(f, d) && d.id == n;
      assert d in found && DocId(d) == n;
    }
    SortedIds(found, DocId, names);
  }

  function Deleted(docs: seq<Doc>, key: Key): seq<Doc> {
    Keep(docs, (d: Doc) => DocKey(d) != key)
  }

  lemma DeletedEntries(docs: seq<Doc>, key: Key)
    requires Unique(docs, DocKey)
    ensures Unique(Deleted(docs, key), DocKey)
    ensures EntriesOf(Deleted(docs, key)) == EntriesOf(docs) - {key}
  {
    KeepImage(docs, (d: Doc) => DocKey(d) != key, DocKey, EntryOf, {key});
  }

  function DeletedTopic(docs: seq<Doc>, topicId: string): seq<Doc> {
    Keep(docs, (d: Doc) => DocKey(d).topicId != topicId)
  }

  lemma DeletedTopicEntries(docs: seq<Doc>, topicId: string)
    requires Unique(docs, DocKey)
    ensures Unique(DeletedTopic(docs, topicId), DocKey)
    ensures EntriesOf(DeletedTopic(docs, topicId)) == WithoutTopic(EntriesOf(docs), topicId)
  {
    var keys := set k | k in EntriesOf(docs) && k.topicId == topicId;
    forall d | d in docs ensures DocKey(d).topicId != topicId <==> DocKey(d) !in keys { EntryAt(docs, d); }
    KeepImage(docs, (d: Doc) => DocKey(d).topicId != topicId, DocKey, EntryOf, keys);
  }

  function Flagged(docs: seq<Doc>, key: Key): (r: seq<Doc>)
    ensures |r| == |docs| && forall i | 0 <= i < |docs| ::
              r[i] == if docs[i].Key() == key then docs[i].(synced := true) else docs[i]
  {
    seq(|docs|, i requires 0 <= i < |docs| => if docs[i].Key() == key then docs[i].(synced := true) else docs[i])
  }

  lemma FlaggedEntries(docs: seq<Doc>, key: Key)
    requires Unique(docs, DocKey)
    ensures Unique(Flagged(docs, key), DocKey)
    ensures EntriesOf(Flagged(docs, key)) == Marked(EntriesOf(docs), key)
  {
    ImageMembers(docs, DocKey, EntryOf);
    var r := Flagged(docs, key);
    var m := Marked(EntriesOf(docs), key);
    forall i | 0 <= i < |docs|
      ensures DocKey(r[i]) == DocKey(docs[i]) && DocKey(docs[i]) in m && m[DocKey(docs[i])] == EntryOf(r[i])
    {
      assert docs[i] in docs;
    }
    ChangeImage(docs, r, DocKey, EntryOf, m);
  }

  function UnsyncedBefore(bound: int): Filter {
    AllOf([Synced(false), Before(bound)])
  }

  /** The query for overdue entries, sorted by id, lists each of them once. */
  lemma OverdueMatches(docs: seq<Doc>, bound: int)
    requires Unique(docs, DocKey)
    ensures WellFormed(UnsyncedBefore(bound))
    ensures var found := Sort(Matching(docs, UnsyncedBefore(bound)), IdOrder(DocId));
            && Unique(found, DocKey)
            && SortedBy(found, IdOrder(DocId))
            && forall d :: d in found <==> d in docs && Overdue(EntryOf(d), bound)
  {
    var f := UnsyncedBefore(bound);
    var parts := [Synced(false), Before(bound)];
    assert parts[0] in parts && parts[1] in parts && forall q | q in parts :: q == parts[0] || q == parts[1];
    assert forall d :: Accepts(f, d) <==> Overdue(EntryOf(d), bound);
    KeepUnique(docs, (d: Doc) => Accepts(f, d), DocKey);
    SortUnique(Matching(docs, f), IdOrder(DocId), DocKey);
    SortCorrect(Matching(docs, f), IdOrder(DocId));
    IdOrderTotal(DocId);
  }

  lemma OverdueResources(docs: seq<Doc>, bound: int, found: seq<Doc>, rs: seq<Resource>)
    requires Unique(docs, DocKey) && Unique(found, DocKey)
    requires forall d :: d in found <==> d in docs && Overdue(EntryOf(d), bound)
    requires |rs| == |found| && forall i | 0 <= i < |found| :: rs[i] == found[i].Resource()
    requires SortedBy(found, IdOrder(DocId))
    ensures ListsOverdue(EntriesOf(docs), bound, rs) && SortedBy(rs, IdOrder(ResourceId))
  {
    forall i, j | 0 <= i < j < |rs| ensures IdOrder(ResourceId)(rs[i], rs[j]) {
      assert IdOrder(DocId)(found[i], found[j]);
      assert ResourceId(rs[i]) == DocId(found[i]) && ResourceId(rs[j]) == DocId(found[j]);
    }
    forall i, j | 0 <= i < j < |rs| ensures KeyOf(rs[i]) != KeyOf(rs[j]) {
      assert DocKey(found[i]) != DocKey(found[j]);
    }
    forall r | r in rs
      ensures KeyOf(r) in EntriesOf(docs) && Overdue(EntriesOf(docs)[KeyOf(r)], bound)
              && r.perms == ToPerms(EntriesOf(docs)[KeyOf(r)].acl)
    {
      var i :| 0 <= i < |rs| && rs[i] == r;
      assert found[i] in found;
      EntryAt(docs, found[i]);
    }
    forall k | k in EntriesOf(docs) && Overdue(EntriesOf(docs)[k], bound) ensures exists r | r in rs :: KeyOf(r) == k {
      var d := DocAt(docs, k);
      var i :| 0 <= i < |rs| && found[i] == d;
      assert KeyOf(rs[i]) == k;
    }
  }

  /** A query for one key finds its document, if there is one. */
  lemma KeyMatches(docs: seq<Doc>, key: Key)
    requires Unique(docs, DocKey)
    ensures var f := AllOf([Is(TopicIdField, key.topicId), Is(IdField, key.id)]);
            && WellFormed(f)
            && (Matching(docs, f) == [] <==> key !in EntriesOf(docs))
            && (Matching(docs, f) != [] ==>
                 EntryOf(Matching(docs, f)[0]) == EntriesOf(docs)[key] && Matching(docs, f)[0].Key() == key)
  {
    var f := AllOf([Is(TopicIdField, key.topicId), Is(IdField, key.id)]);
    var parts := f.parts;
    assert parts[0] in parts && parts[1] in parts && forall q | q in parts :: q == parts[0] || q == parts[1];
    assert forall d :: Accepts(f, d) <==> d.Key() == key;
    var found := Matching(docs, f);
    if key in EntriesOf(docs) {
      var d := DocAt(docs, key);
      assert d in found;
    }
    if found != [] {
      assert found[0] in found;
      EntryAt(docs, found[0]);
    }
  }

  /** A query for a list of ids finds the document of each stored one. */
  lemma IdsMatch(docs: seq<Doc>, topicId: string, ids: seq<string>)
    requires Unique(docs, DocKey)
    ensures var found := Matching(docs, AllOf([Is(TopicIdField, topicId), In(IdField, ids)]));
            && WellFormed(AllOf([Is(TopicIdField, topicId), In(IdField, ids)]))
            && Unique(found, DocId)
            && (forall d | d in found :: d.id in ids && Key(topicId, d.id) in EntriesOf(docs)
                 && EntriesOf(docs)[Key(topicId, d.id)] == EntryOf(d))
            && (forall id | id in ids && Key(topicId, id) in EntriesOf(docs) :: exists d | d in found :: d.id == id)
  {
    IdsFilter(topicId, ids);
    var f := AllOf([Is(TopicIdField, topicId), In(IdField, ids)]);
    MatchingUnique(docs, f, topicId);
    forall d | d in Matching(docs, f)
      ensures Key(topicId, d.id) in EntriesOf(docs) && EntriesOf(docs)[Key(topicId, d.id)] == EntryOf(d)
    {
      EntryAt(docs, d);
    }
    forall id | id in ids && Key(topicId, id) in EntriesOf(docs)
      ensures exists d | d in Matching(docs, f) :: d.id == id
    {
      var d := DocAt(docs, Key(topicId, id));
      assert d in Matching(docs, f);
    }
  }

  /** The answers given for the found documents are the checks of the requested ids. */
  lemma IdsChecked(docs: seq<Doc>, topicId: string, ids: seq<string>, r: map<string, bool>, t: Token,
                   ps: seq<Permission>)
    requires Unique(docs, DocKey)
    requires var found := Matching(docs, AllOf([Is(TopicIdField, topicId), In(IdField, ids)]));
             && (forall id :: id in r <==> exists d | d in found :: d.id == id)
             && (forall d | d in found :: r[d.id] == CheckPermissions(t, d, ps))
    ensures forall id :: id in r <==> id in ids && Key(topicId, id) in EntriesOf(docs)
    ensures forall id | id in r :: r[id] == GrantsKnown(EntriesOf(docs)[Key(topicId, id)].acl, t, ps)
  {
    IdsMatch(docs, topicId, ids);
    var found := Matching(docs, AllOf([Is(TopicIdField, topicId), In(IdField, ids)]));
    forall id | id in r
      ensures id in ids && Key(topicId, id) in EntriesOf(docs)
              && r[id] == GrantsKnown(EntriesOf(docs)[Key(topicId, id)].acl, t, ps)
    {
      var d :| d in found && d.id == id;
      IndexMeansMap(t, d, ps);
    }
  }

  lemma IdsFilter(topicId: string, ids: seq<string>)
    ensures var f := AllOf([Is(TopicIdField, topicId), In(IdField, ids)]);
            WellFormed(f) && forall d :: Accepts(f, d) <==> d.topicId == topicId && d.id in ids
  {
    var parts := [Is(TopicIdField, topicId), In(IdField, ids)];
    assert parts[0] in parts && parts[1] in parts && forall q | q in parts :: q == parts[0] || q == parts[1];
  }

  function ChosenQuery(topicId: string, ids: Option<seq<string>>): Filter {
    AllOf([Is(TopicIdField, topicId)] + if ids.None? then [] else [In(IdField, ids.value)])
  }

  /** The query f on this collection selects the ids `names` of one topic. */
  ghost predicate Selects(docs: seq<Doc>, f: Filter, topicId: string, names: set<string>) {
    && (forall d :: Accepts(f, d) ==> d.topicId == topicId)
    && (forall d | d in docs && Accepts(f, d) :: d.id in names)
    && (forall n | n in names :: exists d | d in docs && Accepts(f, d) :: d.id == n)
  }

  ghost function AclsOf(docs: seq<Doc>): map<Key, Acl>
    requires Unique(docs, DocKey)
  {
    Db(map[], EntriesOf(docs)).Acls()
  }

  lemma StoredIff(acls: map<Key, Acl>, topicId: string, id: string)
    ensures id in StoredIds(acls, topicId) <==> Key(topicId, id) in acls
  {
  }

  lemma ChosenMatches(docs: seq<Doc>, topicId: string, ids: Option<seq<string>>)
    requires Unique(docs, DocKey)
    ensures WellFormed(ChosenQuery(topicId, ids))
    ensures Selects(docs, ChosenQuery(topicId, ids), topicId, ChosenIds(AclsOf(docs), topicId, ids))
  {
    var f := ChosenQuery(topicId, ids);
    if ids.Some? {
      IdsFilter(topicId, ids.value);
      assert f.parts == [Is(TopicIdField, topicId), In(IdField, ids.value)];
    } else {
      assert f.parts == [Is(TopicIdField, topicId)];
      assert f.parts[0] in f.parts;
    }
    assert forall d :: Accepts(f, d) <==> d.topicId == topicId && Chosen(ids, d.id);
    forall n | n in ChosenIds(AclsOf(docs), topicId, ids) ensures exists d | d in docs && Accepts(f, d) :: d.id == n {
      StoredIff(AclsOf(docs), topicId, n);
      var d := DocAt(docs, Key(topicId, n));
    }
    forall d | d in docs && Accepts(f, d) ensures d.id in ChosenIds(AclsOf(docs), topicId, ids) {
      EntryAt(docs, d);
      StoredIff(AclsOf(docs), topicId, d.id);
    }
  }

  lemma GrantedMatches(docs: seq<Doc>, f: Filter, topicId: string, t: Token, ps: seq<Permission>)
    requires Unique(docs, DocKey)
    requires forall d :: Accepts(f, d) <==> d.topicId == topicId && CheckPermissions(t, d, ps)
    ensures Selects(docs, f, topicId, GrantedIds(AclsOf(docs), topicId, t, ps))
  {
    forall n | n in GrantedIds(AclsOf(docs), topicId, t, ps)
      ensures exists d | d in docs && Accepts(f, d) :: d.id == n
    {
      StoredIff(AclsOf(docs), topicId, n);
      var d := DocAt(docs, Key(topicId, n));
      IndexMeansMap(t, d, ps);
    }
    forall d | d in docs && Accepts(f, d) ensures d.id in GrantedIds(AclsOf(docs), topicId, t, ps) {
      EntryAt(docs, d);
      IndexMeansMap(t, d, ps);
      StoredIff(AclsOf(docs), topicId, d.id);
    }
  }

  /** Finding in id order with skip and limit, then decoding. */
  lemma PagedMatches(docs: seq<Doc>, f: Filter, topicId: string, names: set<string>, limit: int, offset: int,
                     found: seq<Doc>, rs: seq<Resource>)
    requires Unique(docs, DocKey) && Selects(docs, f, topicId, names)
    requires found == SkipLimit(Sort(Matching(docs, f), IdOrder(DocId)),
                                if offset > 0 then offset else 0, if limit > 0 then limit else 0)
    requires |rs| == |found| && forall i | 0 <= i < |found| :: rs[i] == found[i].Resource()
    ensures Ids(rs, ResourceId) == Page(Sorted(names), limit, offset)
    ensures AreStored(AclsOf(docs), topicId, rs)
  {
    var all := Sort(Matching(docs, f), IdOrder(DocId));
    SortedMatches(docs, f, topicId, names);
    SkipLimitIsPage(all, limit, offset);
    PageOfIds(all, DocId, limit, offset);
    assert Ids(rs, ResourceId) == Ids(found, DocId);
    forall i | 0 <= i < |rs|
      ensures rs[i].topicId == topicId && Key(topicId, rs[i].id) in AclsOf(docs)
              && rs[i].perms == ToPerms(AclsOf(docs)[Key(topicId, rs[i].id)])
    {
      PageMembers(all, limit, offset);
      EntryAt(docs, found[i]);
    }
  }

  function TopicsExcept(topics: seq<Topic>, id: string): seq<Topic> {
    Keep(topics, (t: Topic) => t.id != id)
  }

  lemma TopicsExceptIndex(topics: seq<Topic>, id: string)
    requires Unique(topics, TopicKey)
    ensures Unique(TopicsExcept(topics, id), TopicKey)
    ensures Image(TopicsExcept(topics, id), TopicKey, Self) == Image(topics, TopicKey, Self) - {id}
  {
    KeepImage(topics, (t: Topic) => t.id != id, TopicKey, Self, {id});
  }

  function TopicsChosen(topics: seq<Topic>, ids: Option<seq<string>>): seq<Topic> {
    Keep(topics, (t: Topic) => Chosen(ids, t.id))
  }

  lemma TopicsListed(topics: seq<Topic>, ids: Option<seq<string>>, limit: int, offset: int)
    requires Unique(topics, TopicKey)
    ensures var index := Image(topics, TopicKey, Self);
            var r := Page(Sort(TopicsChosen(topics, ids), IdOrder(TopicKey)), limit, offset);
            && Ids(r, TopicKey) == Page(Sorted(set id | id in index && Chosen(ids, id)), limit, offset)
            && forall t | t in r :: t.id in index && index[t.id] == t
  {
    var index := Image(topics, TopicKey, Self);
    var found := TopicsChosen(topics, ids);
    var all := Sort(found, IdOrder(TopicKey));
    KeepUnique(topics, (t: Topic) => Chosen(ids, t.id), TopicKey);
    ImageMembers(topics, TopicKey, Self);
    var names := set id | id in index && Chosen(ids, id);
    forall t | t in found ensures TopicKey(t) in names { assert TopicKey(t) in index; }
    forall n | n in names ensures exists t | t in found :: TopicKey(t) == n {
      assert TopicKey(index[n]) == n && index[n] in found;
    }
    SortedIds(found, TopicKey, names);
    PageOfIds(all, TopicKey, limit, offset);
    forall t | t in Page(all, limit, offset) ensures t.id in index && index[t.id] == t {
      PageMembers(all, limit, offset);
      assert TopicKey(t) in index;
    }
  }

  method DecodeAll(docs: seq<Doc>) returns (rs: seq<Resource>)
    ensures |rs| == |docs| && forall i | 0 <= i < |docs| :: rs[i] == docs[i].Resource()
  {
    rs := [];
    for n := 0 to |docs|
      invariant |rs| == n && forall i | 0 <= i < n :: rs[i] == docs[i].Resource()
    {
      var e := new PermissionsEntry.Load(docs[n]);
      var r := e.ToResource();
      rs := rs + [r];
    }
  }

  class Database {
    var docs: seq<Doc>
    var topics: seq<Topic>

    /** The unique indexes on (topic, id) and on the topic id. */
    ghost predicate Valid()
      reads this
    {
      Unique(docs, DocKey) && Unique(topics, TopicKey)
    }

    ghost function Db(): Db
      reads this
      requires Valid()
    {
      Store.Db(Image(topics, TopicKey, Self), EntriesOf(docs))
    }

    lemma StaysConsistent()
      requires Valid()
      ensures Consistent(Db())
    {
      DecodedConsistent(docs, topics);
    }

    ghost function Acls(): map<Key, Acl>
      reads this
      requires Valid()
      ensures Acls() == AclsOf(docs)
    {
      Db().Acls()
    }

    constructor ()
      ensures Valid() && Db() == Store.Db(map[], map[])
    {
      docs, topics := [], [];
    }

    method Find(f: Filter) returns (r: Option<seq<Doc>>)
      ensures r == if WellFormed(f) then Some(Matching(docs, f)) else None
    {
      r := if WellFormed(f) then Some(Matching(docs, f)) else None;
    }

    method FindSorted(f: Filter, skip: nat, limit: nat) returns (r: Option<seq<Doc>>)
      ensures r == if WellFormed(f) then Some(SkipLimit(Sort(Matching(docs, f), IdOrder(DocId)), skip, limit)) else None
    {
      r := if WellFormed(f) then Some(SkipLimit(Sort(Matching(docs, f), IdOrder(DocId)), skip, limit)) else None;
    }

    method SetResource(r: Resource, now: int, synced: bool)
      requires Valid()
      modifies `docs
      ensures Valid()
      ensures Db() == old(Db()).(entries := old(Db()).entries[KeyOf(r) := Entry(r.perms.Norm(), now, synced)])
    {
      var e := new PermissionsEntry(r.topicId, r.id, now, synced);
      e.SetResourcePermissions(r.perms);
      var d := e.Document();
      CodecRoundTrip(r.perms, d);
      UpsertImage(docs, d, DocKey, EntryOf);
      docs := Upsert(docs, d, DocKey);
    }

    method DeleteResource(topicId: string, id: string)
      requires Valid()
      modifies `docs
      ensures Valid()
      ensures Db() == old(Db()).(entries := old(Db()).entries - {Key(topicId, id)})
    {
      DeletedEntries(docs, Key(topicId, id));
      docs := Deleted(docs, Key(topicId, id));
    }

    /** Sets the flag of a stored entry; a missing entry stays missing. */
    method MarkResourceAsSynced(topicId: string, id: string)
      requires Valid()
      modifies `docs
      ensures Valid()
      ensures Db() == old(Db()).(entries := Marked(old(Db()).entries, Key(topicId, id)))
    {
      FlaggedEntries(docs, Key(topicId, id));
      docs := Flagged(docs, Key(topicId, id));
    }

    /** The overdue entries, sorted by id. */
    method ListUnsyncedResources(bound: int) returns (rs: seq<Resource>)
      requires Valid()
      ensures ListsOverdue(Db().entries, bound, rs) && SortedBy(rs, IdOrder(ResourceId))
    {
      OverdueMatches(docs, bound);
      var found := FindSorted(UnsyncedBefore(bound), 0, 0);
      rs := DecodeAll(found.value);
      OverdueResources(docs, bound, found.value, rs);
    }

    method GetResource(topicId: string, id: string, check: Option<(Token, seq<Permission>)>) returns (r: Found)
      requires Valid()
      ensures Key(topicId, id) !in Db().entries ==> r == NotFound
      ensures Key(topicId, id) in Db().entries ==>
                var acl := Db().entries[Key(topicId, id)].acl;
                r == if check.Some? && !GrantsKnown(acl, check.value.0, check.value.1) then CheckFailed
                     else Found(Resource(topicId, id, ToPerms(acl)))
    {
      KeyMatches(docs, Key(topicId, id));
      var found := Find(AllOf([Is(TopicIdField, topicId), Is(IdField, id)]));
      if found.value == [] {
        return NotFound;
      }
      var e := new PermissionsEntry.Load(found.value[0]);
      if check.Some? {
        IndexMeansMap(check.value.0, found.value[0], check.value.1);
        if !CheckPermissions(check.value.0, e.Document(), check.value.1) {
          return CheckFailed;
        }
      }
      var resource := e.ToResource();
      r := Found(resource);
    }

    /** An entry for every requested id that is stored, none for the others. */
    method CheckMultipleResourcePermissions(topicId: string, ids: seq<string>, t: Token, ps: seq<Permission>)
      returns (r: map<string, bool>)
      requires Valid()
      ensures forall id :: id in r <==> id in ids && Key(topicId, id) in Db().entries
      ensures forall id | id in r :: r[id] == GrantsKnown(Db().entries[Key(topicId, id)].acl, t, ps)
    {
      IdsMatch(docs, topicId, ids);
      var found := Find(AllOf([Is(TopicIdField, topicId), In(IdField, ids)]));
      r := CheckEach(topicId, found.value, t, ps);
      IdsChecked(docs, topicId, ids, r, t, ps);
    }

    method CheckResourcePermissions(topicId: string, id: string, t: Token, ps: seq<Permission>) returns (access: bool)
      requires Valid()
      ensures access <==> Key(topicId, id) in Db().entries && GrantsKnown(Db().entries[Key(topicId, id)].acl, t, ps)
    {
      var m := CheckMultipleResourcePermissions(topicId, [id], t, ps);
      access := id in m && m[id];
    }

    method AdminListResources(topicId: string, options: ListOptions) returns (rs: seq<Resource>)
      requires Valid()
      ensures Ids(rs, ResourceId) ==
                Page(Sorted(ChosenIds(Acls(), topicId, options.ids)), options.limit, options.offset)
      ensures AreStored(Acls(), topicId, rs)
    {
      var f := ChosenQuery(topicId, options.ids);
      ChosenMatches(docs, topicId, options.ids);
      rs := ListBy(f, topicId, options, ChosenIds(Acls(), topicId, options.ids));
    }

    method AdminListResourceIds(topicId: string, options: ListOptions) returns (ids: seq<string>)
      requires Valid()
      ensures ids == Page(Sorted(ChosenIds(Acls(), topicId, options.ids)), options.limit, options.offset)
    {
      var rs := AdminListResources(topicId, options);
      ids := Ids(rs, ResourceId);
    }

    /** Refused for an empty list and for one with an unknown rune. */
    method ListResourcesByPermissions(topicId: string, t: Token, options: ListOptions, ps: seq<Permission>)
      returns (r: Option<seq<Resource>>)
      requires Valid()
      ensures r.Some? <==> ps != [] && AllKnown(ps)
      ensures r.Some? ==>
                Ids(r.value, ResourceId) ==
                Page(Sorted(GrantedIds(Acls(), topicId, t, ps)), options.limit, options.offset)
      ensures r.Some? ==> AreStored(Acls(), topicId, r.value)
    {
      var f := CompileQuery(topicId, t, ps);
      if f.None? || !WellFormed(f.value) {
        return None;
      }
      GrantedMatches(docs, f.value, topicId, t, ps);
      var rs := ListBy(f.value, topicId, options, GrantedIds(Acls(), topicId, t, ps));
      r := Some(rs);
    }

    method ListResourceIdsByPermissions(topicId: string, t: Token, options: ListOptions, ps: seq<Permission>)
      returns (r: Option<seq<string>>)
      requires Valid()
      ensures r == if ps == [] || !AllKnown(ps) then None
                   else Some(Page(Sorted(GrantedIds(Acls(), topicId, t, ps)), options.limit, options.offset))
    {
      var rs := ListResourcesByPermissions(topicId, t, options, ps);
      if rs.None? {
        return None;
      }
      var ids := CollectIds(rs.value);
      r := Some(ids);
    }

    /** The part the listings share: find in id order, skip, limit, decode. */
    method ListBy(f: Filter, topicId: string, options: ListOptions, ghost names: set<string>)
      returns (rs: seq<Resource>)
      requires Valid() && WellFormed(f)
      requires Selects(docs, f, topicId, names)
      ensures Ids(rs, ResourceId) == Page(Sorted(names), options.limit, options.offset)
      ensures AreStored(AclsOf(docs), topicId, rs)
    {
      var found := FindSorted(f, if options.offset > 0 then options.offset else 0,
                                 if options.limit > 0 then options.limit else 0);
      rs := DecodeAll(found.value);
      PagedMatches(docs, f, topicId, names, options.limit, options.offset, found.value, rs);
    }

    method SetTopic(topic: Topic)
      requires Valid()
      modifies `topics
      ensures Valid()
      ensures Db() == old(Db()).(topics := old(Db()).topics[topic.id := topic])
    {
      UpsertImage(topics, topic, TopicKey, Self);
      topics := Upsert(topics, topic, TopicKey);
    }

    method GetTopic(id: string) returns (r: Option<Topic>)
      requires Valid()
      ensures r == if id in Db().topics then Some(Db().topics[id]) else None
    {
      ImageMembers(topics, TopicKey, Self);
      var found := Keep(topics, (t: Topic) => t.id == id);
      assert id in Image(topics, TopicKey, Self) ==> Image(topics, TopicKey, Self)[id] in found;
      if found == [] {
        return None;
      }
      assert found[0] in found && TopicKey(found[0]) == id;
      r := Some(found[0]);
    }

    method ListTopics(options: ListOptions) returns (r: seq<Topic>)
      requires Valid()
      ensures Ids(r, TopicKey) ==
              Page(Sorted(set id | id in Db().topics && Chosen(options.ids, id)), options.limit, options.offset)
      ensures forall t | t in r :: t.id in Db().topics && Db().topics[t.id] == t
    {
      var all := Sort(TopicsChosen(topics, options.ids), IdOrder(TopicKey));
      r := SkipLimit(all, if options.offset > 0 then options.offset else 0,
                          if options.limit > 0 then options.limit else 0);
      SkipLimitIsPage(all, options.limit, options.offset);
      TopicsListed(topics, options.ids, options.limit, options.offset);
    }

    /** Deletes the topic, then its resources; stops when the first delete fails. */
    method DeleteTopic(id: string, first: Fault, second: Fault) returns (ok: bool)
      requires Valid()
      modifies this
      ensures Valid()
      ensures (Db(), ok) == WithTopicDeleted(old(Db()), id, first, second)
    {
      if first == Lost {
        return false;
      }
      TopicsExceptIndex(topics, id);
      topics := TopicsExcept(topics, id);
      if first == Unconfirmed || second == Lost {
        return false;
      }
      DeletedTopicEntries(docs, id);
      docs := DeletedTopic(docs, id);
      ok := second == Done;
    }
  }

  method CheckEach(topicId: string, cursor: seq<Doc>, t: Token, ps: seq<Permission>) returns (r: map<string, bool>)
    requires Unique(cursor, DocId)
    ensures forall id :: id in r <==> exists d | d in cursor :: d.id == id
    ensures forall d | d in cursor :: r[d.id] == CheckPermissions(t, d, ps)
  {
    r := map[];
    for i := 0 to |cursor|
      invariant forall id :: id in r <==> exists j | 0 <= j < i :: cursor[j].id == id
      invariant forall j | 0 <= j < i :: r[cursor[j].id] == CheckPermissions(t, cursor[j], ps)
    {
      assert forall j | 0 <= j < i :: DocId(cursor[j]) != DocId(cursor[i]);
      r := r[cursor[i].id := CheckPermissions(t, cursor[i], ps)];
    }
  }
}
