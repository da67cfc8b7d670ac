/** The entities of pkg/model: rights, permission sets, topics, tokens and the pure
    part of a resource id. */
module Model {

  datatype Option<+T> = None | Some(value: T)

  /** The outcome of an operation: a value, or the HTTP status it is refused with. */
  datatype Result<+T> = Ok(value: T) | Err(code: int)

  /** A permission is a rune; four of them have a meaning. */
  type Permission = char

  const READ: Permission := 'r'
  const WRITE: Permission := 'w'
  const EXECUTE: Permission := 'x'
  const ADMINISTRATE: Permission := 'a'

  predicate Known(p: Permission) {
    p == READ || p == WRITE || p == EXECUTE || p == ADMINISTRATE
  }

  predicate AllKnown(ps: seq<Permission>) {
    forall p | p in ps :: Known(p)
  }

  datatype Rights = Rights(read: bool, write: bool, execute: bool, administrate: bool) {
    predicate Has(p: Permission) {
      || (p == READ && read)
      || (p == WRITE && write)
      || (p == EXECUTE && execute)
      || (p == ADMINISTRATE && administrate)
    }

    predicate Any() {
      read || write || execute || administrate
    }

    function With(p: Permission): Rights {
      Rights(read || p == READ, write || p == WRITE, execute || p == EXECUTE, administrate || p == ADMINISTRATE)
    }

    function Or(other: Rights): Rights {
      Rights(read || other.read, write || other.write, execute || other.execute, administrate || other.administrate)
    }
  }

  const NO_RIGHTS := Rights(false, false, false, false)
  const ALL_RIGHTS := Rights(true, true, true, true)

  type RightsMap = map<string, Rights>

  /** A lookup in a Go map: a missing key has the zero value. */
  function At(m: RightsMap, k: string): Rights {
    if k in m then m[k] else NO_RIGHTS
  }

  /** What storage keeps of a map: the principals that have some right. */
  function Clean(m: RightsMap): RightsMap {
    map k | k in m && m[k].Any() :: m[k]
  }

  lemma CleanAt(m: RightsMap, k: string)
    ensures At(Clean(m), k) == At(m, k)
    ensures Clean(Clean(m)) == Clean(m)
  {
  }

  /** Two maps are stored alike exactly when every lookup in them agrees. */
  lemma CleanExtensional(m: RightsMap, n: RightsMap)
    ensures Clean(m) == Clean(n) <==> forall k :: At(m, k) == At(n, k)
  {
    if Clean(m) == Clean(n) {
      forall k ensures At(m, k) == At(n, k) { CleanAt(m, k); CleanAt(n, k); }
    }
    if forall k :: At(m, k) == At(n, k) {
      forall k
        ensures k in Clean(m) <==> k in Clean(n)
        ensures k in Clean(m) ==> Clean(m)[k] == Clean(n)[k]
      {
        assert At(m, k) == At(n, k);
      }
      assert Clean(m) == Clean(n);
    }
  }

  /** Rights of the three kinds of principals. */
  datatype Acl = Acl(users: RightsMap, groups: RightsMap, roles: RightsMap) {
    function Normal(): Acl {
      Acl(Clean(users), Clean(groups), Clean(roles))
    }

    predicate IsNormal() {
      Normal() == this
    }

    predicate HasAdminUser() {
      exists u | u in users :: users[u].administrate
    }
  }

  const NO_ACL := Acl(map[], map[], map[])

  function OrEmpty(m: Option<RightsMap>): RightsMap {
    match m
    case None => map[]
    case Some(v) => v
  }

  /** A permission set as the API carries it: each map may be nil. */
  datatype Perms = Perms(users: Option<RightsMap>, groups: Option<RightsMap>, roles: Option<RightsMap>) {
    function Plain(): Acl {
      Acl(OrEmpty(users), OrEmpty(groups), OrEmpty(roles))
    }

    /** The form that survives storage: nil maps become empty, principals without rights vanish. */
    function Norm(): Acl {
      Plain().Normal()
    }

    /** At least one user is an administrator. */
    predicate Valid() {
      Plain().HasAdminUser()
    }
  }

  function ToPerms(a: Acl): Perms {
    Perms(Some(a.users), Some(a.groups), Some(a.roles))
  }

  lemma NormIdempotent(p: Perms)
    ensures p.Norm().IsNormal()
    ensures ToPerms(p.Norm()).Norm() == p.Norm()
    ensures p.Norm().HasAdminUser() <==> p.Valid()
  {
    var m := p.Plain().users;
    if u :| u in m && m[u].administrate {
      assert u in Clean(m) && Clean(m)[u].administrate;
    }
  }

  /** The caller, after its token was parsed. `memberOf` holds the groups for which HasGroup is true. */
  datatype Token = Token(user: string, roles: seq<string>, groups: seq<string>, admin: bool, memberOf: set<string>)

  /** Some of these principals has the right p. */
  predicate AnyHas(names: seq<string>, m: RightsMap, p: Permission) {
    exists k | k in names :: At(m, k).Has(p)
  }

  lemma AnyHasMore(names: seq<string>, name: string, m: RightsMap)
    ensures forall p :: AnyHas(names + [name], m, p) <==> AnyHas(names, m, p) || At(m, name).Has(p)
  {
  }

  /** Some principal of the token has the right p. */
  predicate Grants(a: Acl, t: Token, p: Permission) {
    At(a.users, t.user).Has(p) || AnyHas(t.roles, a.roles, p) || AnyHas(t.groups, a.groups, p)
  }

  /** Every permission of the list that has a meaning is granted. */
  predicate GrantsKnown(a: Acl, t: Token, ps: seq<Permission>) {
    forall p | p in ps && Known(p) :: Grants(a, t, p)
  }

  lemma GrantsKnownNormal(a: Acl, t: Token, ps: seq<Permission>)
    ensures GrantsKnown(a.Normal(), t, ps) == GrantsKnown(a, t, ps)
  {
  }

  datatype Key = Key(topicId: string, id: string)

  datatype Resource = Resource(topicId: string, id: string, perms: Perms)

  datatype TopicError = IdRequired | OuterSpace | IllegalCharacter

  datatype Topic = Topic(id: string, kafka: string, ensureInit: bool, partitions: int, defaults: Perms) {
    predicate Publishes() {
      kafka != "" && kafka != "-"
    }

    function Validate(): Option<TopicError> {
      if id == "" then Some(IdRequired)
      else if HasOuterSpace(kafka) then Some(OuterSpace)
      else if kafka != "" && !LegalName(kafka) then Some(IllegalCharacter)
      else None
    }

    /** The comparison that ignores the timestamp and treats a nil map like an empty one. */
    predicate Equal(other: Topic) {
      && id == other.id
      && kafka == other.kafka
      && ensureInit == other.ensureInit
      && partitions == other.partitions
      && defaults.Plain() == other.defaults.Plain()
    }
  }

  /** unicode.IsSpace */
  predicate IsSpace(c: char) {
    || c in {'\t', '\n', '\U{0B}', '\U{0C}', '\r', ' ', '\U{85}', '\U{A0}', '\U{1680}'}
    || '\U{2000}' <= c <= '\U{200A}'
    || c in {'\U{2028}', '\U{2029}', '\U{202F}', '\U{205F}', '\U{3000}'}
  }

  predicate HasOuterSpace(s: string) {
    s != "" && (IsSpace(s[0]) || IsSpace(s[|s| - 1]))
  }

  predicate LegalChar(c: char) {
    'a' <= c <= 'z' || 'A' <= c <= 'Z' || '0' <= c <= '9' || c in {'.', '_', '-'}
  }

  predicate LegalName(s: string) {
    s != "" && forall c | c in s :: LegalChar(c)
  }

  /** The test for surrounding space never decides: the character test subsumes it. */
  lemma ValidateAccepts(t: Topic)
    ensures t.Validate().None? <==> t.id != "" && (forall c | c in t.kafka :: LegalChar(c))
  {
    if t.kafka != "" {
      assert t.kafka[0] in t.kafka && t.kafka[|t.kafka| - 1] in t.kafka;
    }
  }

  /** The part of an id in front of the first '$'. */
  function PureId(id: string): (pure: string)
    ensures '$' !in pure
    ensures pure <= id
    ensures |pure| < |id| ==> id[|pure|] == '$'
  {
    if id == "" || id[0] == '$' then "" else [id[0]] + PureId(id[1..])
  }

  predicate IsPure(id: string) {
    '$' !in id
  }

  lemma PureIdFixed(id: string)
    ensures PureId(id) == id <==> IsPure(id)
    ensures PureId(PureId(id)) == PureId(id)
  {
  }
}
