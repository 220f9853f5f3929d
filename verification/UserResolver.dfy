/**
  Entra users to sys_user records: an ordered list of keys, batched and chunked lookups, and
  a cache. Against a server that answers honestly the batch agrees with looking each user up
  alone; whatever the server answers, an assignment is the only record with the user's value.
 */
module UserResolver {
  import opened EncodedQuery
  import opened Sequences
  import opened Text
  import opened Wrappers

  datatype MatchKey = EmployeeNumber | Email | UserName | EntraId

  /** "" stands for Python's None in every field. */
  datatype User = User(objectId: string, userPrincipalName: string, mail: string, employeeId: string)

  datatype SysUser = SysUser(sysId: string, userName: string, email: string, employeeNumber: string,
                             entraId: string, active: bool)

  datatype Ref = Ref(record: SysUser, matchedOn: MatchKey)

  /** An arbitrary lower-casing. */
  type Lower = string -> string

  function FieldOf(key: MatchKey, r: SysUser): string {
    match key
    case EmployeeNumber => r.employeeNumber
    case Email => r.email
    case UserName => r.userName
    case EntraId => r.entraId
  }

  /** The part before the first '@'; "" when there is none. */
  function LocalPart(upn: string): string {
    if '@' in upn then Split(upn, '@')[0] else ""
  }

  function ValuesFor(key: MatchKey, u: User): seq<string> {
    match key
    case EmployeeNumber => [u.employeeId]
    case Email => [if u.mail != "" then u.mail else u.userPrincipalName]
    case UserName => [u.userPrincipalName, LocalPart(u.userPrincipalName)]
    case EntraId => [u.objectId]
  }

  /** The user's own values that can go into a query, trimmed, in order of preference. */
  function Own(key: MatchKey, u: User): seq<string> {
    Filter(Map(ValuesFor(key, u), Strip), IsQuerySafe)
  }

  // ---- Candidates: what a batch asks for -----------------------------------------

  /** One entry of the insertion-ordered dictionary: folded value, value as sent, who brought it. */
  datatype Candidate = Candidate(folded: string, original: string, ids: seq<string>)

  predicate Has(cs: seq<Candidate>, folded: string) { exists i | 0 <= i < |cs| :: cs[i].folded == folded }

  /** The position of a folded value, or the length of the list. */
  function IndexOf(cs: seq<Candidate>, folded: string): (i: nat)
    ensures i <= |cs| && (i < |cs| ==> cs[i].folded == folded) && (i < |cs| <==> Has(cs, folded))
    ensures forall j | 0 <= j < i :: cs[j].folded != folded
  {
    if cs == [] then 0
    else if cs[0].folded == folded then 0
    else
      assert forall j | 0 < j < |cs| :: cs[j] == cs[1..][j - 1];
      1 + IndexOf(cs[1..], folded)
  }

  function Insert(lower: Lower, cs: seq<Candidate>, value: string, id: string): seq<Candidate> {
    var i := IndexOf(cs, lower(value));
    if i < |cs| then cs[i := cs[i].(ids := cs[i].ids + [id])] else cs + [Candidate(lower(value), value, [id])]
  }

  function InsertAll(lower: Lower, cs: seq<Candidate>, values: seq<string>, id: string): seq<Candidate> {
    if values == [] then cs
    else Insert(lower, InsertAll(lower, cs, values[..|values| - 1], id), values[|values| - 1], id)
  }

  function CandidatesOf(lower: Lower, key: MatchKey, users: seq<User>): seq<Candidate> {
    if users == [] then []
    else
      var u := users[|users| - 1];
      InsertAll(lower, CandidatesOf(lower, key, users[..|users| - 1]), Own(key, u), u.objectId)
  }

  // ---- Matching --------------------------------------------------------------------

  function RowsFor(lower: Lower, key: MatchKey, rows: seq<SysUser>, folded: string): seq<SysUser> {
    Filter(rows, (r: SysUser) => Fold(lower, FieldOf(key, r)) == folded)
  }

  /** The one record carrying a value. More than one is no match, and so is one without a sys_id. */
  function Hit(lower: Lower, key: MatchKey, rows: seq<SysUser>, folded: string): Option<Ref> {
    var rs := if folded == "" then [] else RowsFor(lower, key, rows, folded);
    if |rs| == 1 && rs[0].sysId != "" then Some(Ref(rs[0], key)) else None
  }

  /** Every id that brought a value keeps the first match it is given. */
  function Matched(lower: Lower, key: MatchKey, cs: seq<Candidate>, rows: seq<SysUser>): map<string, Ref> {
    if cs == [] then map[]
    else
      var before := Matched(lower, key, cs[..|cs| - 1], rows);
      var c := cs[|cs| - 1];
      match Hit(lower, key, rows, c.folded)
      case None => before
      case Some(ref) => before + (map id | id in c.ids && id !in before :: ref)
  }

  function MatchedByKey(lower: Lower, key: MatchKey, users: seq<User>, rows: seq<SysUser>): map<string, Ref> {
    Matched(lower, key, CandidatesOf(lower, key, users), rows)
  }

  /** The users whose ids are not among those given. */
  function Without(users: seq<User>, ids: set<string>): seq<User> {
    if users == [] then [] else (if users[0].objectId in ids then [] else [users[0]]) + Without(users[1..], ids)
  }

  /** Key after key, each over the users the earlier keys left; rows[i] is what key i was answered. */
  function ResolveInOrder(lower: Lower, order: seq<MatchKey>, users: seq<User>, rows: seq<seq<SysUser>>): map<string, Ref>
    requires |rows| == |order|
    decreases |order|
  {
    if order == [] || users == [] then map[]
    else
      var m := MatchedByKey(lower, order[0], users, rows[0]);
      m + ResolveInOrder(lower, order[1..], Without(users, m.Keys), rows[1..])
  }

  // ---- The naive specification -------------------------------------------------------

  function FirstHit(lower: Lower, key: MatchKey, rows: seq<SysUser>, values: seq<string>): Option<Ref> {
    if values == [] then None
    else match Hit(lower, key, rows, lower(values[0]))
      case Some(ref) => Some(ref)
      case None => FirstHit(lower, key, rows, values[1..])
  }

  /** One user alone against the whole table: the first of their values, in key order, that hits. */
  function Alone(lower: Lower, order: seq<MatchKey>, table: seq<SysUser>, u: User): Option<Ref> {
    if order == [] then None
    else match FirstHit(lower, order[0], table, Own(order[0], u))
      case Some(ref) => Some(ref)
      case None => Alone(lower, order[1..], table, u)
  }

  // ---- What the candidate dictionary holds --------------------------------------------

  ghost predicate DistinctIds(users: seq<User>) {
    forall i, j | 0 <= i < j < |users| :: users[i].objectId != users[j].objectId
  }

  ghost predicate DistinctKeys(cs: seq<Candidate>) {
    forall i, j | 0 <= i < j < |cs| :: cs[i].folded != cs[j].folded
  }

  function FoldedOwn(lower: Lower, key: MatchKey, u: User): seq<string> { Map(Own(key, u), lower) }

  /** cs' is cs with `id` brought under the folded value, which is appended if it is new. */
  ghost predicate Inserted(lower: Lower, cs: seq<Candidate>, cs': seq<Candidate>, value: string, id: string) {
    && |cs| <= |cs'| && DistinctKeys(cs')
    && (forall i | 0 <= i < |cs| :: cs'[i].folded == cs[i].folded && cs'[i].original == cs[i].original)
    && (forall i | 0 <= i < |cs| :: forall x :: x in cs'[i].ids <==> x in cs[i].ids || (x == id && cs[i].folded == lower(value)))
    && (if Has(cs, lower(value)) then |cs'| == |cs|
        else |cs'| == |cs| + 1 && cs'[|cs|] == Candidate(lower(value), value, [id]))
  }

  lemma InsertMeans(lower: Lower, cs: seq<Candidate>, value: string, id: string)
    requires DistinctKeys(cs)
    ensures Inserted(lower, cs, Insert(lower, cs, value, id), value, id)
  {}

  /** The dictionary of a batch: one entry per folded own value, holding exactly the ids that brought it. */
  ghost predicate Describes(lower: Lower, key: MatchKey, cs: seq<Candidate>, users: seq<User>) {
    && DistinctKeys(cs) && (forall i | 0 <= i < |cs| :: cs[i].ids != [])
    && (forall i | 0 <= i < |cs| :: cs[i].folded == lower(cs[i].original) && IsQuerySafe(cs[i].original) && Trimmed(cs[i].original))
    && (forall u | u in users :: forall v | v in FoldedOwn(lower, key, u) :: Has(cs, v))
    && (forall i | 0 <= i < |cs| :: forall id :: id in cs[i].ids <==> BroughtBy(lower, key, users, id, cs[i].folded))
  }

  ghost predicate BroughtBy(lower: Lower, key: MatchKey, users: seq<User>, id: string, folded: string) {
    exists u | u in users :: u.objectId == id && folded in FoldedOwn(lower, key, u)
  }

  lemma {:induction false} OwnAreSafe(key: MatchKey, u: User, v: string)
    requires v in Own(key, u)
    ensures IsQuerySafe(v) && Trimmed(v)
  {
    FilterMember(Map(ValuesFor(key, u), Strip), IsQuerySafe, v);
    var i :| 0 <= i < |ValuesFor(key, u)| && Map(ValuesFor(key, u), Strip)[i] == v;
    StripTrims(ValuesFor(key, u)[i]);
  }

  /** cs' is cs followed by new entries, which hold given values under keys of their own. */
  ghost predicate Extends(lower: Lower, cs: seq<Candidate>, cs': seq<Candidate>, values: seq<string>) {
    && |cs| <= |cs'| && DistinctKeys(cs')
    && (forall i | 0 <= i < |cs| :: cs'[i].folded == cs[i].folded && cs'[i].original == cs[i].original)
    && (forall i | |cs| <= i < |cs'| :: cs'[i].original in values && cs'[i].folded == lower(cs'[i].original))
    && (forall v | v in values :: Has(cs', lower(v)))
  }

  /** The entry lists whom it listed, and `id` when one of the values folds to it. */
  ghost predicate Owners(lower: Lower, cs: seq<Candidate>, c: Candidate, i: nat, values: seq<string>, id: string) {
    forall x :: x in c.ids <==> (i < |cs| && x in cs[i].ids) || (x == id && exists v | v in values :: lower(v) == c.folded)
  }

  /** cs' is cs after one user's values, inserted one after another. */
  ghost predicate Grown(lower: Lower, cs: seq<Candidate>, cs': seq<Candidate>, values: seq<string>, id: string) {
    && Extends(lower, cs, cs', values)
    && (forall i | 0 <= i < |cs'| :: Owners(lower, cs, cs'[i], i, values, id))
  }

  lemma GrownByOne(lower: Lower, cs: seq<Candidate>, mid: seq<Candidate>, cs': seq<Candidate>, front: seq<string>, v: string, id: string)
    requires Grown(lower, cs, mid, front, id) && Inserted(lower, mid, cs', v, id)
    ensures Grown(lower, cs, cs', front + [v], id)
  {
    ExtendedByOne(lower, cs, mid, cs', front, v, id);
    forall i | 0 <= i < |cs'| ensures Owners(lower, cs, cs'[i], i, front + [v], id) {
      OwnersByOne(lower, cs, mid, cs', front, v, id, i);
    }
  }

  lemma ExtendedByOne(lower: Lower, cs: seq<Candidate>, mid: seq<Candidate>, cs': seq<Candidate>, front: seq<string>, v: string, id: string)
    requires Extends(lower, cs, mid, front) && Inserted(lower, mid, cs', v, id)
    ensures Extends(lower, cs, cs', front + [v])
  {
    var values := front + [v];
    assert values[|front|] == v && forall w | w in front :: w in values;
    forall w | w in values ensures Has(cs', lower(w)) {
      if w in front {
        var i :| 0 <= i < |mid| && mid[i].folded == lower(w);
        assert cs'[i].folded == lower(w);
      }
    }
  }

  lemma OwnersByOne(lower: Lower, cs: seq<Candidate>, mid: seq<Candidate>, cs': seq<Candidate>,
                    front: seq<string>, v: string, id: string, i: nat)
    requires |cs| <= |mid| && Inserted(lower, mid, cs', v, id) && i < |cs'|
    requires i < |mid| ==> Owners(lower, cs, mid[i], i, front, id)
    requires i == |mid| ==> forall w | w in front :: Has(mid, lower(w))
    ensures Owners(lower, cs, cs'[i], i, front + [v], id)
  {
    var values := front + [v];
    assert (exists w | w in values :: lower(w) == cs'[i].folded)
           <==> lower(v) == cs'[i].folded || exists w | w in front :: lower(w) == cs'[i].folded;
  }

  lemma InsertAllExtends(lower: Lower, cs: seq<Candidate>, values: seq<string>, id: string)
    requires DistinctKeys(cs)
    ensures Extends(lower, cs, InsertAll(lower, cs, values, id), values)
  {
    InsertAllMeans(lower, cs, values, id);
  }

  lemma {:induction false} InsertAllMeans(lower: Lower, cs: seq<Candidate>, values: seq<string>, id: string)
    requires DistinctKeys(cs)
    ensures Grown(lower, cs, InsertAll(lower, cs, values, id), values, id)
  {
    if values != [] {
      var front, v := values[..|values| - 1], values[|values| - 1];
      assert values == front + [v];
      InsertAllMeans(lower, cs, front, id);
      var mid := InsertAll(lower, cs, front, id);
      InsertMeans(lower, mid, v, id);
      GrownByOne(lower, cs, mid, InsertAll(lower, cs, values, id), front, v, id);
    }
  }

  lemma DescribesMore(lower: Lower, key: MatchKey, cs: seq<Candidate>, cs': seq<Candidate>, front: seq<User>, u: User)
    requires Describes(lower, key, cs, front) && Grown(lower, cs, cs', Own(key, u), u.objectId)
    ensures Describes(lower, key, cs', front + [u])
  {
    forall i | 0 <= i < |cs'|
      ensures cs'[i].folded == lower(cs'[i].original) && IsQuerySafe(cs'[i].original) && Trimmed(cs'[i].original)
    {
      if i >= |cs| { OwnAreSafe(key, u, cs'[i].original); }
    }
    forall i | 0 <= i < |cs'| ensures cs'[i].ids != [] {
      if i < |cs| { assert cs[i].ids[0] in cs'[i].ids; } else { assert u.objectId in cs'[i].ids; }
    }
    forall f ensures Has(cs, f) ==> Has(cs', f) {
      if Has(cs, f) { assert cs'[IndexOf(cs, f)].folded == f; }
    }
    forall f ensures f in FoldedOwn(lower, key, u) <==> exists v | v in Own(key, u) :: lower(v) == f {
      FoldedOwnMember(lower, key, u, f);
    }
    forall i, id | 0 <= i < |cs'| ensures id in cs'[i].ids <==> BroughtBy(lower, key, front + [u], id, cs'[i].folded) {
      BroughtBySnoc(lower, key, front, u, id, cs'[i].folded);
    }
  }

  lemma FoldedOwnMember(lower: Lower, key: MatchKey, u: User, f: string)
    ensures f in FoldedOwn(lower, key, u) <==> exists v | v in Own(key, u) :: lower(v) == f
  {
    if v :| v in Own(key, u) && lower(v) == f {
      var j :| 0 <= j < |Own(key, u)| && Own(key, u)[j] == v;
      assert FoldedOwn(lower, key, u)[j] == f;
    }
  }

  lemma BroughtBySnoc(lower: Lower, key: MatchKey, front: seq<User>, u: User, id: string, f: string)
    ensures BroughtBy(lower, key, front + [u], id, f)
            <==> BroughtBy(lower, key, front, id, f) || (u.objectId == id && f in FoldedOwn(lower, key, u))
  {
    assert forall w :: w in front + [u] <==> w in front || w == u;
  }

  lemma {:induction false} CandidatesDescribe(lower: Lower, key: MatchKey, users: seq<User>)
    ensures Describes(lower, key, CandidatesOf(lower, key, users), users)
  {
    if users != [] {
      var front, u := users[..|users| - 1], users[|users| - 1];
      assert users == front + [u];
      CandidatesDescribe(lower, key, front);
      var cs := CandidatesOf(lower, key, front);
      InsertAllMeans(lower, cs, Own(key, u), u.objectId);
      DescribesMore(lower, key, cs, InsertAll(lower, cs, Own(key, u), u.objectId), front, u);
    }
  }

  // ---- Which match an id is given ---------------------------------------------------------

  /** The first entry that brought an id and hits. */
  function FirstFor(lower: Lower, key: MatchKey, cs: seq<Candidate>, rows: seq<SysUser>, id: string): Option<Ref> {
    if cs == [] then None
    else
      var before := FirstFor(lower, key, cs[..|cs| - 1], rows, id);
      if before.Some? || id !in cs[|cs| - 1].ids then before else Hit(lower, key, rows, cs[|cs| - 1].folded)
  }

  lemma {:induction false} MatchedIsFirst(lower: Lower, key: MatchKey, cs: seq<Candidate>, rows: seq<SysUser>, id: string)
    ensures var m := Matched(lower, key, cs, rows);
            FirstFor(lower, key, cs, rows, id) == if id in m then Some(m[id]) else None
  {
    if cs != [] { MatchedIsFirst(lower, key, cs[..|cs| - 1], rows, id); }
  }

  lemma {:induction false} FirstForMeans(lower: Lower, key: MatchKey, cs: seq<Candidate>, rows: seq<SysUser>, id: string)
    ensures FirstFor(lower, key, cs, rows, id).None? ==>
              forall i | 0 <= i < |cs| && id in cs[i].ids :: Hit(lower, key, rows, cs[i].folded).None?
    ensures FirstFor(lower, key, cs, rows, id).Some? ==>
              exists i | 0 <= i < |cs| :: id in cs[i].ids && Hit(lower, key, rows, cs[i].folded) == FirstFor(lower, key, cs, rows, id)
                && forall j | 0 <= j < i && id in cs[j].ids :: Hit(lower, key, rows, cs[j].folded).None?
  {
    if cs != [] {
      var front := cs[..|cs| - 1];
      FirstForMeans(lower, key, front, rows, id);
      var f := FirstFor(lower, key, front, rows, id);
      if f.Some? {
        var i :| 0 <= i < |front| && id in front[i].ids && Hit(lower, key, rows, front[i].folded) == f
                 && forall j | 0 <= j < i && id in front[j].ids :: Hit(lower, key, rows, front[j].folded).None?;
        assert cs[i] == front[i] && forall j | 0 <= j < i :: cs[j] == front[j];
      } else {
        assert forall i | 0 <= i < |front| :: front[i] == cs[i];
      }
    }
  }

  /** A user's second value never stands before the first in the dictionary. */
  predicate InOrder(cs: seq<Candidate>, values: seq<string>) {
    |values| == 2 ==> IndexOf(cs, values[0]) <= IndexOf(cs, values[1])
  }

  lemma OwnAreFew(lower: Lower, key: MatchKey, u: User)
    ensures |FoldedOwn(lower, key, u)| == |Own(key, u)| <= 2
    ensures key != UserName ==> |Own(key, u)| <= 1
  {
    FilterMember(Map(ValuesFor(key, u), Strip), IsQuerySafe, "");
  }

  /** For one key: if a user's values stand in order, the batch gives what looking the user up alone gives. */
  lemma BatchIsFirstHit(lower: Lower, key: MatchKey, users: seq<User>, rows: seq<SysUser>, u: User)
    requires DistinctIds(users) && u in users
    requires InOrder(CandidatesOf(lower, key, users), FoldedOwn(lower, key, u))
    ensures var m := MatchedByKey(lower, key, users, rows);
            FirstHit(lower, key, rows, Own(key, u)) == if u.objectId in m then Some(m[u.objectId]) else None
  {
    var cs := CandidatesOf(lower, key, users);
    CandidatesDescribe(lower, key, users);
    MatchedIsFirst(lower, key, cs, rows, u.objectId);
    forall i | 0 <= i < |cs| ensures u.objectId in cs[i].ids <==> cs[i].folded in FoldedOwn(lower, key, u) {
      OnlyOwn(lower, key, users, u, cs[i].folded);
    }
    OwnAreFew(lower, key, u);
    FirstForOwn(lower, key, cs, rows, u.objectId, Own(key, u));
  }

  lemma OnlyOwn(lower: Lower, key: MatchKey, users: seq<User>, u: User, f: string)
    requires DistinctIds(users) && u in users
    ensures BroughtBy(lower, key, users, u.objectId, f) <==> f in FoldedOwn(lower, key, u)
  {}

  lemma {:induction false} FirstForAt(lower: Lower, key: MatchKey, cs: seq<Candidate>, rows: seq<SysUser>, id: string, i: nat)
    requires i < |cs| && id in cs[i].ids && Hit(lower, key, rows, cs[i].folded).Some?
    requires forall j | 0 <= j < i && id in cs[j].ids :: Hit(lower, key, rows, cs[j].folded).None?
    ensures FirstFor(lower, key, cs, rows, id) == Hit(lower, key, rows, cs[i].folded)
  {
    FirstForMeans(lower, key, cs, rows, id);
  }

  lemma {:induction false} FirstForOwn(lower: Lower, key: MatchKey, cs: seq<Candidate>, rows: seq<SysUser>, id: string, own: seq<string>)
    requires DistinctKeys(cs) && |own| <= 2 && InOrder(cs, Map(own, lower))
    requires forall v | v in Map(own, lower) :: Has(cs, v)
    requires forall i | 0 <= i < |cs| :: id in cs[i].ids <==> cs[i].folded in Map(own, lower)
    ensures FirstFor(lower, key, cs, rows, id) == FirstHit(lower, key, rows, own)
  {
    var vs := Map(own, lower);
    FirstHitOfFew(lower, key, rows, own);
    if |own| >= 1 && Hit(lower, key, rows, vs[0]).Some? {
      FirstOfOwnHits(lower, key, cs, rows, id, vs);
    } else if |own| == 2 && Hit(lower, key, rows, vs[1]).Some? {
      SecondOfOwnHits(lower, key, cs, rows, id, vs);
    } else {
      NoHitNoneFor(lower, key, cs, rows, id, vs);
    }
  }

  ghost predicate ListedUnder(cs: seq<Candidate>, id: string, vs: seq<string>) {
    && (forall v | v in vs :: Has(cs, v))
    && forall i | 0 <= i < |cs| :: id in cs[i].ids <==> cs[i].folded in vs
  }

  lemma FirstOfOwnHits(lower: Lower, key: MatchKey, cs: seq<Candidate>, rows: seq<SysUser>, id: string, vs: seq<string>)
    requires ListedUnder(cs, id, vs) && 1 <= |vs| <= 2 && InOrder(cs, vs) && Hit(lower, key, rows, vs[0]).Some?
    ensures FirstFor(lower, key, cs, rows, id) == Hit(lower, key, rows, vs[0])
  {
    assert vs[0] in vs;
    var i := IndexOf(cs, vs[0]);
    forall j: nat | j < i ensures id !in cs[j].ids {
      if id in cs[j].ids { NotListedBefore(cs, id, vs, j); }
    }
    FirstForAt(lower, key, cs, rows, id, i);
  }

  /** An entry that lists the user is not before the first of the user's values. */
  lemma NotListedBefore(cs: seq<Candidate>, id: string, vs: seq<string>, j: nat)
    requires ListedUnder(cs, id, vs) && 1 <= |vs| <= 2 && InOrder(cs, vs) && j < |cs| && id in cs[j].ids
    ensures IndexOf(cs, vs[0]) <= j
  {
    IndexIsFirst(cs, j);
    OneOf(vs, cs[j].folded);
  }

  lemma OneOf(vs: seq<string>, v: string)
    requires v in vs && |vs| <= 2
    ensures v == vs[0] || (|vs| == 2 && v == vs[1])
  {}

  lemma {:induction false} IndexIsFirst(cs: seq<Candidate>, j: nat)
    requires j < |cs|
    ensures IndexOf(cs, cs[j].folded) <= j
  {
    if j > 0 { IndexIsFirst(cs[1..], j - 1); }
  }

  lemma SecondOfOwnHits(lower: Lower, key: MatchKey, cs: seq<Candidate>, rows: seq<SysUser>, id: string, vs: seq<string>)
    requires ListedUnder(cs, id, vs) && |vs| == 2 && Hit(lower, key, rows, vs[0]).None? && Hit(lower, key, rows, vs[1]).Some?
    ensures FirstFor(lower, key, cs, rows, id) == Hit(lower, key, rows, vs[1])
  {
    assert vs[1] in vs;
    var i := IndexOf(cs, vs[1]);
    forall j | 0 <= j < i && id in cs[j].ids ensures Hit(lower, key, rows, cs[j].folded).None? {
      assert cs[j].folded == vs[0];
    }
    FirstForAt(lower, key, cs, rows, id, i);
  }

  lemma NoHitNoneFor(lower: Lower, key: MatchKey, cs: seq<Candidate>, rows: seq<SysUser>, id: string, vs: seq<string>)
    requires ListedUnder(cs, id, vs) && forall v | v in vs :: Hit(lower, key, rows, v).None?
    ensures FirstFor(lower, key, cs, rows, id).None?
  {
    FirstForMeans(lower, key, cs, rows, id);
  }

  lemma FirstHitOfFew(lower: Lower, key: MatchKey, rows: seq<SysUser>, own: seq<string>)
    requires |own| <= 2
    ensures FirstHit(lower, key, rows, own)
            == if |own| >= 1 && Hit(lower, key, rows, lower(own[0])).Some? then Hit(lower, key, rows, lower(own[0]))
               else if |own| == 2 then Hit(lower, key, rows, lower(own[1])) else None
  {
    if |own| >= 1 {
      assert |own| == 2 ==> own[1..] == [own[1]];
    }
  }

  // ---- Honest answers ------------------------------------------------------------------------

  /** The records a case-insensitive server finds for a list of values. */
  function Matching(lower: Lower, key: MatchKey, table: seq<SysUser>, values: seq<string>): seq<SysUser> {
    Filter(table, (r: SysUser) => Fold(lower, FieldOf(key, r)) in Map(values, lower))
  }

  /** An untruncated answer: those records, in any order. */
  predicate Honest(lower: Lower, key: MatchKey, table: seq<SysUser>, values: seq<string>, page: seq<SysUser>) {
    multiset(page) == multiset(Matching(lower, key, table, values))
  }

  lemma {:induction false} FilterCount<T>(xs: seq<T>, p: T -> bool, x: T)
    ensures multiset(Filter(xs, p))[x] == if p(x) then multiset(xs)[x] else 0
  {
    if xs != [] {
      FilterCount(xs[1..], p, x);
      assert xs == [xs[0]] + xs[1..];
    }
  }

  ghost predicate DistinctFolds(lower: Lower, values: seq<string>) {
    forall i, j | 0 <= i < j < |values| :: lower(values[i]) != lower(values[j])
  }

  lemma MapMember(lower: Lower, a: seq<string>, b: seq<string>, v: string)
    ensures v in Map(a + b, lower) <==> v in Map(a, lower) || v in Map(b, lower)
  {
    assert Map(a + b, lower) == Map(a, lower) + Map(b, lower);
  }

  /** Asking chunk by chunk counts every record once, because no folded value is in two chunks. */
  lemma {:induction false} ChunksAnswerTogether(lower: Lower, key: MatchKey, table: seq<SysUser>,
                                                chunks: seq<seq<string>>, pages: seq<seq<SysUser>>, r: SysUser)
    requires |chunks| == |pages| && DistinctFolds(lower, Flatten(chunks))
    requires forall i | 0 <= i < |chunks| :: Honest(lower, key, table, chunks[i], pages[i])
    ensures multiset(Flatten(pages))[r]
            == if Fold(lower, FieldOf(key, r)) in Map(Flatten(chunks), lower) then multiset(table)[r] else 0
  {
    if chunks != [] {
      var rest := Flatten(chunks[1..]);
      DistinctSplits(lower, chunks[0], rest);
      ChunksAnswerTogether(lower, key, table, chunks[1..], pages[1..], r);
      FilterCount(table, (x: SysUser) => Fold(lower, FieldOf(key, x)) in Map(chunks[0], lower), r);
      MapMember(lower, chunks[0], rest, Fold(lower, FieldOf(key, r)));
      assert Honest(lower, key, table, chunks[0], pages[0]);
    }
  }

  lemma DistinctSplits(lower: Lower, a: seq<string>, b: seq<string>)
    requires DistinctFolds(lower, a + b)
    ensures DistinctFolds(lower, b)
    ensures forall v | v in Map(a, lower) :: v !in Map(b, lower)
  {
    var s := a + b;
    assert forall i | 0 <= i < |a| :: s[i] == a[i];
    assert forall j | 0 <= j < |b| :: s[|a| + j] == b[j];
    forall i, j | 0 <= i < |a| && 0 <= j < |b| ensures lower(a[i]) != lower(b[j]) {
      assert lower(s[i]) != lower(s[|a| + j]);
    }
    forall i, j | 0 <= i < j < |b| ensures lower(b[i]) != lower(b[j]) {
      assert lower(s[|a| + i]) != lower(s[|a| + j]);
    }
  }

  /** Whatever was asked around it, a value's records are the table's. */
  ghost predicate AgreesOn(lower: Lower, key: MatchKey, table: seq<SysUser>, rows: seq<SysUser>, folded: string) {
    multiset(RowsFor(lower, key, rows, folded)) == multiset(RowsFor(lower, key, table, folded))
  }

  lemma HonestRowsAgree(lower: Lower, key: MatchKey, table: seq<SysUser>, chunks: seq<seq<string>>, pages: seq<seq<SysUser>>, v: string)
    requires |chunks| == |pages| && DistinctFolds(lower, Flatten(chunks)) && v in Flatten(chunks)
    requires forall i | 0 <= i < |chunks| :: Honest(lower, key, table, chunks[i], pages[i])
    ensures AgreesOn(lower, key, table, Flatten(pages), lower(v))
  {
    var i :| 0 <= i < |Flatten(chunks)| && Flatten(chunks)[i] == v;
    assert Map(Flatten(chunks), lower)[i] == lower(v);
    var p := (r: SysUser) => Fold(lower, FieldOf(key, r)) == lower(v);
    forall r: SysUser ensures multiset(Filter(Flatten(pages), p))[r] == multiset(Filter(table, p))[r] {
      FilterCount(Flatten(pages), p, r);
      FilterCount(table, p, r);
      ChunksAnswerTogether(lower, key, table, chunks, pages, r);
    }
    assert multiset(Filter(Flatten(pages), p)) == multiset(Filter(table, p));
  }

  lemma AgreementGivesTheHit(lower: Lower, key: MatchKey, table: seq<SysUser>, rows: seq<SysUser>, folded: string)
    requires AgreesOn(lower, key, table, rows, folded)
    ensures Hit(lower, key, rows, folded) == Hit(lower, key, table, folded)
  {
    var a, b := RowsFor(lower, key, rows, folded), RowsFor(lower, key, table, folded);
    SameSingleton(a, b);
  }

  lemma SameSingleton<T>(a: seq<T>, b: seq<T>)
    requires multiset(a) == multiset(b)
    ensures |a| == |b| && (|a| == 1 ==> a == b)
  {
    assert |multiset(a)| == |a| && |multiset(b)| == |b|;
    if |a| == 1 {
      assert a == [a[0]] && b == [b[0]];
      assert a[0] in multiset(b);
    }
  }

  // ---- The user_name key -----------------------------------------------------------------------

  /** Looking w up before u cannot bring u's local part in ahead of u's own UPN. */
  ghost predicate Harmless(lower: Lower, w: User, u: User) {
    var ws, vs := FoldedOwn(lower, UserName, w), FoldedOwn(lower, UserName, u);
    |vs| == 2 && vs[1] in ws ==> ws[0] == vs[0]
  }

  ghost predicate NeverLocalFirst(lower: Lower, users: seq<User>) {
    users == [] || ((forall w | w in users[1..] :: Harmless(lower, users[0], w)) && NeverLocalFirst(lower, users[1..]))
  }

  lemma {:induction false} NeverLocalFirstSnoc(lower: Lower, front: seq<User>, u: User)
    requires NeverLocalFirst(lower, front + [u])
    ensures NeverLocalFirst(lower, front) && forall w | w in front :: Harmless(lower, w, u)
  {
    if front != [] {
      assert (front + [u])[1..] == front[1..] + [u];
      NeverLocalFirstSnoc(lower, front[1..], u);
      assert u in (front + [u])[1..];
      assert forall w | w in front[1..] :: w in (front + [u])[1..];
    }
  }

  lemma {:induction false} CleanUsersStandInOrder(lower: Lower, key: MatchKey, users: seq<User>, u: User)
    requires u in users && (key == UserName ==> NeverLocalFirst(lower, users))
    ensures InOrder(CandidatesOf(lower, key, users), FoldedOwn(lower, key, u))
    decreases |users|, 1
  {
    OwnAreFew(lower, key, u);
    if key == UserName && |FoldedOwn(lower, key, u)| == 2 {
      var front, last := users[..|users| - 1], users[|users| - 1];
      assert users == front + [last];
      NeverLocalFirstSnoc(lower, front, last);
      CandidatesDescribe(lower, key, front);
      var cs := CandidatesOf(lower, key, front);
      InsertAllMeans(lower, cs, Own(key, last), last.objectId);
      if u in front {
        CleanUsersStandInOrder(lower, key, front, u);
        StaysInOrder(lower, cs, CandidatesOf(lower, key, users), FoldedOwn(lower, key, u));
      } else {
        if Has(cs, FoldedOwn(lower, key, u)[1]) {
          UpnCameFirst(lower, front, u);
          StaysInOrder(lower, cs, CandidatesOf(lower, key, users), FoldedOwn(lower, key, u));
        } else {
          LastInOrder(lower, cs, Own(key, u), u.objectId);
        }
      }
    }
  }

  lemma StaysInOrder(lower: Lower, cs: seq<Candidate>, cs': seq<Candidate>, vs: seq<string>)
    requires |cs| <= |cs'| && forall i | 0 <= i < |cs| :: cs'[i].folded == cs[i].folded
    requires InOrder(cs, vs) && (|vs| == 2 ==> Has(cs, vs[1]))
    ensures InOrder(cs', vs)
  {
    if |vs| == 2 {
      var i := IndexOf(cs, vs[0]);
      assert cs'[i].folded == vs[0];
    }
  }

  lemma UpnCameFirst(lower: Lower, front: seq<User>, u: User)
    requires |FoldedOwn(lower, UserName, u)| == 2 && NeverLocalFirst(lower, front)
    requires forall w | w in front :: Harmless(lower, w, u)
    requires Has(CandidatesOf(lower, UserName, front), FoldedOwn(lower, UserName, u)[1])
    ensures InOrder(CandidatesOf(lower, UserName, front), FoldedOwn(lower, UserName, u))
    decreases |front|, 2
  {
    var vs := FoldedOwn(lower, UserName, u);
    var w := SomeoneBrought(lower, UserName, front, vs[1]);
    var ws := FoldedOwn(lower, UserName, w);
    assert ws[0] == vs[0];
    OwnAreFew(lower, UserName, w);
    if |ws| == 2 {
      CleanUsersStandInOrder(lower, UserName, front, w);
    }
  }

  lemma SomeoneBrought(lower: Lower, key: MatchKey, users: seq<User>, v: string) returns (w: User)
    requires Has(CandidatesOf(lower, key, users), v)
    ensures w in users && v in FoldedOwn(lower, key, w)
  {
    var cs := CandidatesOf(lower, key, users);
    CandidatesDescribe(lower, key, users);
    var i := IndexOf(cs, v);
    var id := cs[i].ids[0];
    assert id in cs[i].ids;
    w :| w in users && w.objectId == id && v in FoldedOwn(lower, key, w);
  }

  lemma LastInOrder(lower: Lower, cs: seq<Candidate>, own: seq<string>, id: string)
    requires DistinctKeys(cs) && |own| == 2 && !Has(cs, lower(own[1]))
    ensures InOrder(InsertAll(lower, cs, own, id), Map(own, lower))
  {
    assert own[..1] == [own[0]] && [own[0]][..0] == [];
    var mid := Insert(lower, cs, own[0], id);
    assert InsertAll(lower, cs, own[..1], id) == mid;
    InsertMeans(lower, cs, own[0], id);
    InsertMeans(lower, mid, own[1], id);
    var i := IndexOf(mid, lower(own[0]));
    assert mid[IndexOf(cs, lower(own[0]))].folded == lower(own[0]);
    assert Insert(lower, mid, own[1], id)[i].folded == lower(own[0]);
  }

  // ---- When a batch agrees, in terms of the users -----------------------------------------

  /** Whoever brings b comes after somebody who brings a, or brings a first. */
  predicate BroughtFirst(lower: Lower, key: MatchKey, users: seq<User>, a: string, b: string) {
    var i, j := FirstCarrier(lower, key, users, a), FirstCarrier(lower, key, users, b);
    a == b || j == |users| || i < j || (i == j && FoldedOwn(lower, key, users[j])[0] == a)
  }

  /** The position of the first user with `v` among the folded own values, |users| when there is none. */
  function FirstCarrier(lower: Lower, key: MatchKey, users: seq<User>, v: string): (i: nat)
    ensures i <= |users|
    ensures i < |users| ==> v in FoldedOwn(lower, key, users[i])
    ensures forall j | 0 <= j < i :: v !in FoldedOwn(lower, key, users[j])
  {
    if users == [] then 0
    else
      var n := |users| - 1;
      var i := FirstCarrier(lower, key, users[..n], v);
      assert forall j | 0 <= j < n :: users[..n][j] == users[j];
      if i < n || v in FoldedOwn(lower, key, users[n]) then i else n + 1
  }

  /** No user's local part is brought into the batch before that user's own UPN. */
  ghost predicate UpnsComeFirst(lower: Lower, users: seq<User>) {
    forall u | u in users && |FoldedOwn(lower, UserName, u)| == 2 ::
      BroughtFirst(lower, UserName, users, FoldedOwn(lower, UserName, u)[0], FoldedOwn(lower, UserName, u)[1])
  }

  lemma HasIff(lower: Lower, key: MatchKey, users: seq<User>, v: string)
    ensures Has(CandidatesOf(lower, key, users), v) <==> FirstCarrier(lower, key, users, v) < |users|
  {
    CandidatesDescribe(lower, key, users);
    assert forall j | 0 <= j < |users| :: users[j] in users;
    if Has(CandidatesOf(lower, key, users), v) {
      var w := SomeoneBrought(lower, key, users, v);
      var j :| 0 <= j < |users| && users[j] == w;
    }
  }

  lemma IndexKept(cs: seq<Candidate>, cs': seq<Candidate>, v: string)
    requires |cs| <= |cs'| && forall i | 0 <= i < |cs| :: cs'[i].folded == cs[i].folded
    ensures if Has(cs, v) then IndexOf(cs', v) == IndexOf(cs, v) < |cs| else IndexOf(cs', v) >= |cs|
  {
    var i, j := IndexOf(cs, v), IndexOf(cs', v);
    if i < |cs| { assert cs'[i].folded == v; }
    if j < |cs| { assert cs[j].folded == v; }
  }

  /** Two values nobody brought before stand in the order in which u brings them. */
  lemma {:induction false} NewcomersInOrder(lower: Lower, key: MatchKey, cs: seq<Candidate>, u: User, a: string, b: string)
    requires DistinctKeys(cs) && a != b && !Has(cs, a) && !Has(cs, b)
    ensures var cs' := InsertAll(lower, cs, Own(key, u), u.objectId); var vs := FoldedOwn(lower, key, u);
            IndexOf(cs', a) <= IndexOf(cs', b) <==> (b in vs ==> a in vs && vs[0] == a)
  {
    var vs := FoldedOwn(lower, key, u);
    NewIffOwn(lower, key, cs, u, a);
    NewIffOwn(lower, key, cs, u, b);
    if a in vs && b in vs {
      OwnAreFew(lower, key, u);
      OneOfTwo(vs, a);
      OneOfTwo(vs, b);
      BothNew(lower, cs, Own(key, u), u.objectId);
    }
  }

  lemma BothNew(lower: Lower, cs: seq<Candidate>, own: seq<string>, id: string)
    requires DistinctKeys(cs) && |own| == 2 && lower(own[0]) != lower(own[1]) && !Has(cs, lower(own[1]))
    ensures var cs' := InsertAll(lower, cs, own, id); IndexOf(cs', lower(own[0])) < IndexOf(cs', lower(own[1]))
  {
    var cs' := InsertAll(lower, cs, own, id);
    LastInOrder(lower, cs, own, id);
    InsertedHas(lower, cs, own, id, own[0]);
    StrictlyBefore(cs', lower(own[0]), lower(own[1]));
  }

  lemma InsertedHas(lower: Lower, cs: seq<Candidate>, values: seq<string>, id: string, v: string)
    requires DistinctKeys(cs) && v in values
    ensures Has(InsertAll(lower, cs, values, id), lower(v))
  {
    InsertAllExtends(lower, cs, values, id);
  }

  lemma StrictlyBefore(cs: seq<Candidate>, a: string, b: string)
    requires Has(cs, a) && a != b && IndexOf(cs, a) <= IndexOf(cs, b)
    ensures IndexOf(cs, a) < IndexOf(cs, b)
  {}

  lemma NewIffOwn(lower: Lower, key: MatchKey, cs: seq<Candidate>, u: User, v: string)
    requires DistinctKeys(cs) && !Has(cs, v)
    ensures Has(InsertAll(lower, cs, Own(key, u), u.objectId), v) <==> v in FoldedOwn(lower, key, u)
  {
    var cs' := InsertAll(lower, cs, Own(key, u), u.objectId);
    InsertAllExtends(lower, cs, Own(key, u), u.objectId);
    FoldedOwnMember(lower, key, u, v);
    if Has(cs', v) {
      var i :| 0 <= i < |cs'| && cs'[i].folded == v;
      assert i >= |cs|;
      assert cs'[i].original in Own(key, u) && lower(cs'[i].original) == v;
    }
  }

  /** The order of the candidates is the order in which the users bring them. */
  lemma {:induction false} CandidateOrderIff(lower: Lower, key: MatchKey, users: seq<User>, a: string, b: string)
    ensures IndexOf(CandidatesOf(lower, key, users), a) <= IndexOf(CandidatesOf(lower, key, users), b)
            <==> BroughtFirst(lower, key, users, a, b)
  {
    if users != [] && a != b {
      var n := |users| - 1;
      var front := users[..n];
      HasIff(lower, key, front, a);
      HasIff(lower, key, front, b);
      CandidateOrderIff(lower, key, front, a, b);
      LastInserted(lower, key, users, a, b);
      LastBringer(lower, key, users, a, b);
    }
  }

  lemma {:induction false} LastInserted(lower: Lower, key: MatchKey, users: seq<User>, a: string, b: string)
    requires users != [] && a != b
    ensures var n := |users| - 1;
            var cs, vs := CandidatesOf(lower, key, users[..n]), FoldedOwn(lower, key, users[n]);
            IndexOf(CandidatesOf(lower, key, users), a) <= IndexOf(CandidatesOf(lower, key, users), b)
            <==> if Has(cs, b) then Has(cs, a) && IndexOf(cs, a) <= IndexOf(cs, b)
                 else Has(cs, a) || (b in vs ==> a in vs && vs[0] == a)
  {
    var n := |users| - 1;
    var u := users[n];
    var cs, cs' := CandidatesOf(lower, key, users[..n]), CandidatesOf(lower, key, users);
    CandidatesDescribe(lower, key, users[..n]);
    InsertAllExtends(lower, cs, Own(key, u), u.objectId);
    IndexKept(cs, cs', a);
    IndexKept(cs, cs', b);
    if !Has(cs, a) && !Has(cs, b) { NewcomersInOrder(lower, key, cs, u, a, b); }
  }

  lemma {:induction false} LastBringer(lower: Lower, key: MatchKey, users: seq<User>, a: string, b: string)
    requires users != [] && a != b
    ensures var n := |users| - 1;
            var front, vs := users[..n], FoldedOwn(lower, key, users[n]);
            var i, j := FirstCarrier(lower, key, front, a), FirstCarrier(lower, key, front, b);
            BroughtFirst(lower, key, users, a, b)
            <==> if j < n then i < n && BroughtFirst(lower, key, front, a, b)
                 else i < n || (b in vs ==> a in vs && vs[0] == a)
  {
  }

  /** A user stands in order iff nobody brings the local part before somebody brings the UPN. */
  lemma {:induction false} StandsInOrderIff(lower: Lower, users: seq<User>, u: User)
    ensures InOrder(CandidatesOf(lower, UserName, users), FoldedOwn(lower, UserName, u))
            <==> (|FoldedOwn(lower, UserName, u)| == 2 ==>
                    BroughtFirst(lower, UserName, users, FoldedOwn(lower, UserName, u)[0], FoldedOwn(lower, UserName, u)[1]))
  {
    var vs := FoldedOwn(lower, UserName, u);
    if |vs| == 2 { CandidateOrderIff(lower, UserName, users, vs[0], vs[1]); }
  }

  /**
    For the two-valued key a batch agrees with looking every user up alone, whatever records
    there are, exactly when no local part is brought in before its owner's UPN.
   */
  lemma UserNameBatchAgreesIff(lower: Lower, users: seq<User>)
    requires Folds(lower) && DistinctIds(users)
    ensures (forall rows, u | u in users :: AgreesAlone(lower, users, rows, u)) <==> UpnsComeFirst(lower, users)
  {
    forall u ensures InOrder(CandidatesOf(lower, UserName, users), FoldedOwn(lower, UserName, u))
                     <==> (|FoldedOwn(lower, UserName, u)| == 2 ==>
                             BroughtFirst(lower, UserName, users, FoldedOwn(lower, UserName, u)[0], FoldedOwn(lower, UserName, u)[1])) {
      StandsInOrderIff(lower, users, u);
    }
    forall rows, u | u in users && InOrder(CandidatesOf(lower, UserName, users), FoldedOwn(lower, UserName, u))
      ensures AgreesAlone(lower, users, rows, u)
    {
      BatchIsFirstHit(lower, UserName, users, rows, u);
    }
    forall u | u in users && !InOrder(CandidatesOf(lower, UserName, users), FoldedOwn(lower, UserName, u))
      ensures exists rows :: !AgreesAlone(lower, users, rows, u)
    {
      LocalFirstMisassigns(lower, users, u);
      var own := Own(UserName, u);
      assert !AgreesAlone(lower, users, [Person("A", own[0]), Person("B", own[1])], u);
    }
  }

  lemma OwnOfAddress(id: string, local: string, domain: string)
    requires var upn := local + ['@'] + domain;
             local != "" && '@' !in local && Trimmed(local) && Trimmed(upn) && '^' !in upn
    ensures Own(UserName, User(id, local + ['@'] + domain, "", "")) == [local + ['@'] + domain, local]
  {
    var upn := local + ['@'] + domain;
    assert upn[|local|] == '@';
    SplitConcat(local, domain, '@');
    SplitWhole(local, '@');
    assert LocalPart(upn) == local;
    StripTrims(upn);
    StripTrims(local);
    assert forall i | 0 <= i < |local| :: upn[i] == local[i];
    FilterTwo(upn, local, IsQuerySafe);
    assert Map([upn, local], Strip) == [upn, local];
  }

  /** A batch that goes wrong: the second user's local part is the first user's. */
  const HOMONYMS: seq<User> := [User("1", "b@o", "", ""), User("2", "b@x", "", "")]

  lemma HomonymsGoWrong()
    ensures DistinctIds(HOMONYMS) && !UpnsComeFirst(s => s, HOMONYMS)
  {
    var lower: Lower := s => s;
    HomonymsOwn(lower);
    var second := HOMONYMS[1];
    assert second in HOMONYMS && |FoldedOwn(lower, UserName, second)| == 2;
    assert FirstCarrier(lower, UserName, HOMONYMS, "b") == 0;
    assert FirstCarrier(lower, UserName, HOMONYMS, "b@x") == 1;
  }

  lemma HomonymsOwn(lower: Lower)
    requires lower == (s => s)
    ensures FoldedOwn(lower, UserName, HOMONYMS[0]) == ["b@o", "b"]
    ensures FoldedOwn(lower, UserName, HOMONYMS[1]) == ["b@x", "b"]
    ensures "b" in ["b@o", "b"] && "b@x" !in ["b@o", "b"] && "b@x" in ["b@x", "b"]
  {
    assert "b@x"[2] == 'x' && "b@o"[2] == 'o';
    ShortAddress("1", "b@o", "o");
    ShortAddress("2", "b@x", "x");
  }

  lemma ShortAddress(id: string, upn: string, domain: string)
    requires |domain| == 1 && !IsSpace(domain[0]) && domain[0] != '^' && upn == "b@" + domain
    ensures Own(UserName, User(id, upn, "", "")) == [upn, "b"]
  {
    OwnOfAddress(id, "b", domain);
    assert "b" + ['@'] + domain == upn;
  }

  /** The batch's user_name answer for u is what the table gives u alone. */
  ghost predicate AgreesAlone(lower: Lower, users: seq<User>, rows: seq<SysUser>, u: User) {
    FirstHit(lower, UserName, rows, Own(UserName, u)) == Given(MatchedByKey(lower, UserName, users, rows), u.objectId)
  }

  function Given(m: map<string, Ref>, id: string): Option<Ref> { if id in m then Some(m[id]) else None }

  function Person(sysId: string, userName: string): SysUser { SysUser(sysId, userName, "", "", "", true) }

  /** The failing family: with both records in the table, the batch picks the local part's. */
  lemma LocalFirstMisassigns(lower: Lower, users: seq<User>, u: User)
    requires Folds(lower) && DistinctIds(users) && u in users
    requires !InOrder(CandidatesOf(lower, UserName, users), FoldedOwn(lower, UserName, u))
    ensures var own := Own(UserName, u); var rows := [Person("A", own[0]), Person("B", own[1])];
            && FirstHit(lower, UserName, rows, own) == Some(Ref(rows[0], UserName))
            && Given(MatchedByKey(lower, UserName, users, rows), u.objectId) == Some(Ref(rows[1], UserName))
  {
    var own, vs := Own(UserName, u), FoldedOwn(lower, UserName, u);
    var rows := [Person("A", own[0]), Person("B", own[1])];
    var cs := CandidatesOf(lower, UserName, users);
    CandidatesDescribe(lower, UserName, users);
    OwnAreFew(lower, UserName, u);
    assert own[0] in own && own[1] in own && vs[1] in vs;
    OwnFolds(lower, UserName, u, own[0]); OwnFolds(lower, UserName, u, own[1]);
    HitsOfTwo(lower, rows[0], rows[1]);
    FirstHitOfFew(lower, UserName, rows, own);
    MatchedIsFirst(lower, UserName, cs, rows, u.objectId);
    LocalComesFirst(lower, users, u, rows, IndexOf(cs, vs[1]));
  }

  lemma OwnFolds(lower: Lower, key: MatchKey, u: User, v: string)
    requires Folds(lower) && v in Own(key, u)
    ensures Fold(lower, v) == lower(v) != ""
  {
    OwnAreSafe(key, u, v);
    StripTrims(v);
  }

  lemma OneOfTwo(vs: seq<string>, v: string)
    requires |vs| == 2
    ensures v in vs <==> v == vs[0] || v == vs[1]
  {}

  lemma NotBefore(cs: seq<Candidate>, folded: string, j: nat)
    requires j < IndexOf(cs, folded)
    ensures j < |cs| && cs[j].folded != folded
  {}

  lemma LocalComesFirst(lower: Lower, users: seq<User>, u: User, rows: seq<SysUser>, i: nat)
    requires DistinctIds(users) && u in users
    requires var cs, vs := CandidatesOf(lower, UserName, users), FoldedOwn(lower, UserName, u);
             && |vs| == 2 && Has(cs, vs[1]) && i == IndexOf(cs, vs[1]) < IndexOf(cs, vs[0])
             && Hit(lower, UserName, rows, vs[1]).Some?
    ensures var cs, vs := CandidatesOf(lower, UserName, users), FoldedOwn(lower, UserName, u);
            FirstFor(lower, UserName, cs, rows, u.objectId) == Hit(lower, UserName, rows, vs[1])
  {
    var cs, vs := CandidatesOf(lower, UserName, users), FoldedOwn(lower, UserName, u);
    forall j | 0 <= j <= i ensures u.objectId in cs[j].ids <==> j == i {
      IdsAreOwn(lower, UserName, users, u, j);
      OneOfTwo(vs, cs[j].folded);
      if j < i {
        NotBefore(cs, vs[0], j);
        NotBefore(cs, vs[1], j);
      }
    }
    FirstForAt(lower, UserName, cs, rows, u.objectId, i);
  }

  lemma IdsAreOwn(lower: Lower, key: MatchKey, users: seq<User>, u: User, j: nat)
    requires DistinctIds(users) && u in users && j < |CandidatesOf(lower, key, users)|
    ensures var c := CandidatesOf(lower, key, users)[j];
            u.objectId in c.ids <==> c.folded in FoldedOwn(lower, key, u)
  {
    CandidatesDescribe(lower, key, users);
    OnlyOwn(lower, key, users, u, CandidatesOf(lower, key, users)[j].folded);
  }

  lemma HitsOfTwo(lower: Lower, a: SysUser, b: SysUser)
    requires Fold(lower, a.userName) != Fold(lower, b.userName) && a.sysId != "" && b.sysId != ""
    requires Fold(lower, a.userName) != "" && Fold(lower, b.userName) != ""
    ensures Hit(lower, UserName, [a, b], Fold(lower, a.userName)) == Some(Ref(a, UserName))
    ensures Hit(lower, UserName, [a, b], Fold(lower, b.userName)) == Some(Ref(b, UserName))
  {
    FilterTwo(a, b, (r: SysUser) => Fold(lower, FieldOf(UserName, r)) == Fold(lower, a.userName));
    FilterTwo(a, b, (r: SysUser) => Fold(lower, FieldOf(UserName, r)) == Fold(lower, b.userName));
  }

  lemma FilterTwo<T>(a: T, b: T, p: T -> bool)
    ensures Filter([a, b], p) == (if p(a) then [a] else []) + (if p(b) then [b] else [])
  {
    assert [a, b][1..] == [b] && [b][1..] == [];
    assert Filter([b], p) == (if p(b) then [b] else []);
  }

  // ---- Over all keys -----------------------------------------------------------------------------

  /** The records returned for everything these users asked are the table's. */
  ghost predicate AgreesOnAll(lower: Lower, key: MatchKey, table: seq<SysUser>, users: seq<User>, rows: seq<SysUser>) {
    forall c | c in CandidatesOf(lower, key, users) :: AgreesOn(lower, key, table, rows, c.folded)
  }

  /** At every key, the records returned for what was asked are the table's. */
  ghost predicate HonestThroughout(lower: Lower, order: seq<MatchKey>, users: seq<User>, rows: seq<seq<SysUser>>, table: seq<SysUser>)
    requires |rows| == |order|
    decreases |order|
  {
    order == [] || users == [] ||
    (&& AgreesOnAll(lower, order[0], table, users, rows[0])
     && HonestThroughout(lower, order[1..],
                         Without(users, MatchedByKey(lower, order[0], users, rows[0]).Keys), rows[1..], table))
  }

  lemma {:induction false} WithoutKeeps(lower: Lower, users: seq<User>, ids: set<string>)
    ensures DistinctIds(users) ==> DistinctIds(Without(users, ids))
    ensures NeverLocalFirst(lower, users) ==> NeverLocalFirst(lower, Without(users, ids))
    ensures forall u :: u in Without(users, ids) <==> u in users && u.objectId !in ids
  {
    WithoutMember(users, ids);
    if users != [] {
      var rest := Without(users[1..], ids);
      WithoutKeeps(lower, users[1..], ids);
      WithoutMember(users[1..], ids);
      assert DistinctIds(users) ==> forall w | w in users[1..] :: w.objectId != users[0].objectId;
      if users[0].objectId !in ids {
        assert Without(users, ids) == [users[0]] + rest && Without(users, ids)[1..] == rest;
      } else {
        assert Without(users, ids) == rest;
      }
    }
  }

  lemma {:induction false} WithoutMember(users: seq<User>, ids: set<string>)
    ensures forall u :: u in Without(users, ids) <==> u in users && u.objectId !in ids
  {
    if users != [] {
      WithoutMember(users[1..], ids);
      assert users == [users[0]] + users[1..];
    }
  }

  lemma MatchedIdsWereAsked(lower: Lower, key: MatchKey, users: seq<User>, rows: seq<SysUser>, id: string)
    requires id in MatchedByKey(lower, key, users, rows)
    ensures exists u, v | u in users && v in FoldedOwn(lower, key, u) ::
              u.objectId == id && Hit(lower, key, rows, v) == Some(MatchedByKey(lower, key, users, rows)[id])
  {
    var cs := CandidatesOf(lower, key, users);
    CandidatesDescribe(lower, key, users);
    MatchedIsFirst(lower, key, cs, rows, id);
    FirstForMeans(lower, key, cs, rows, id);
    var i :| 0 <= i < |cs| && id in cs[i].ids && Hit(lower, key, rows, cs[i].folded) == FirstFor(lower, key, cs, rows, id);
    var u :| u in users && u.objectId == id && cs[i].folded in FoldedOwn(lower, key, u);
  }

  /** Exactly one returned record carries one of the values of the user with this id. */
  ghost predicate OnlyRecord(lower: Lower, key: MatchKey, users: seq<User>, rows: seq<SysUser>, id: string, ref: Ref) {
    exists u, v | u in users && v in FoldedOwn(lower, key, u) ::
      u.objectId == id && ref.matchedOn == key && ref.record.sysId != "" && RowsFor(lower, key, rows, v) == [ref.record]
  }

  lemma {:induction false} MatchIsSound(lower: Lower, key: MatchKey, users: seq<User>, rows: seq<SysUser>, id: string)
    requires id in MatchedByKey(lower, key, users, rows)
    ensures OnlyRecord(lower, key, users, rows, id, MatchedByKey(lower, key, users, rows)[id])
  {
    var ref := MatchedByKey(lower, key, users, rows)[id];
    MatchedIdsWereAsked(lower, key, users, rows, id);
    var u, v :| u in users && v in FoldedOwn(lower, key, u) && u.objectId == id && Hit(lower, key, rows, v) == Some(ref);
    HitIsOnly(lower, key, rows, v);
  }

  lemma HitIsOnly(lower: Lower, key: MatchKey, rows: seq<SysUser>, v: string)
    ensures var h := Hit(lower, key, rows, v);
            h.Some? ==> RowsFor(lower, key, rows, v) == [h.value.record] && h.value.record.sysId != "" && h.value.matchedOn == key
  {}

  /**
    Whatever the server returns: an assigned record is the only returned one whose field
    equals one of that user's own values for the key it matched on.
   */
  lemma {:induction false} AssignmentsAreSound(lower: Lower, order: seq<MatchKey>, users: seq<User>, rows: seq<seq<SysUser>>, id: string)
    requires |rows| == |order| && id in ResolveInOrder(lower, order, users, rows)
    ensures exists k | 0 <= k < |order| ::
              OnlyRecord(lower, order[k], users, rows[k], id, ResolveInOrder(lower, order, users, rows)[id])
    decreases |order|
  {
    var m := MatchedByKey(lower, order[0], users, rows[0]);
    var rest := Without(users, m.Keys);
    var later := ResolveInOrder(lower, order[1..], rest, rows[1..]);
    if id in later {
      AssignmentsAreSound(lower, order[1..], rest, rows[1..], id);
      var k :| 0 <= k < |order[1..]| && OnlyRecord(lower, order[1..][k], rest, rows[1..][k], id, later[id]);
      WithoutKeeps(lower, users, m.Keys);
      assert OnlyRecord(lower, order[k + 1], users, rows[k + 1], id, later[id]);
    } else {
      MatchIsSound(lower, order[0], users, rows[0], id);
    }
  }

  /** u stands in order at every key the batch tries while u is still without a match. */
  ghost predicate StandsThroughout(lower: Lower, order: seq<MatchKey>, users: seq<User>, rows: seq<seq<SysUser>>, u: User)
    requires |rows| == |order|
    decreases |order|
  {
    order == [] ||
    (var m := MatchedByKey(lower, order[0], users, rows[0]);
     && InOrder(CandidatesOf(lower, order[0], users), FoldedOwn(lower, order[0], u))
     && (u.objectId in m || StandsThroughout(lower, order[1..], Without(users, m.Keys), rows[1..], u)))
  }

  /** Without the two-valued key, or where no local part is another user's, everyone always stands in order. */
  lemma {:induction false} CleanUsersStandThroughout(lower: Lower, order: seq<MatchKey>, users: seq<User>, rows: seq<seq<SysUser>>, u: User)
    requires |rows| == |order| && u in users && (UserName in order ==> NeverLocalFirst(lower, users))
    ensures StandsThroughout(lower, order, users, rows, u)
    decreases |order|
  {
    if order != [] {
      var m := MatchedByKey(lower, order[0], users, rows[0]);
      CleanUsersStandInOrder(lower, order[0], users, u);
      WithoutKeeps(lower, users, m.Keys);
      assert UserName in order[1..] ==> UserName in order;
      if u.objectId !in m { CleanUsersStandThroughout(lower, order[1..], Without(users, m.Keys), rows[1..], u); }
    }
  }

  /**
    Against an honest server the batch gives every user exactly what looking that user up
    alone would: other users in the batch, chunk boundaries and row order play no part.
   */
  lemma {:induction false} BatchIsAlone(lower: Lower, order: seq<MatchKey>, users: seq<User>, rows: seq<seq<SysUser>>,
                                        table: seq<SysUser>, u: User)
    requires |rows| == |order| && DistinctIds(users) && u in users
    requires HonestThroughout(lower, order, users, rows, table) && StandsThroughout(lower, order, users, rows, u)
    ensures Given(ResolveInOrder(lower, order, users, rows), u.objectId) == Alone(lower, order, table, u)
    decreases |order|
  {
    if order != [] {
      var m := MatchedByKey(lower, order[0], users, rows[0]);
      var rest := Without(users, m.Keys);
      WithoutKeeps(lower, users, m.Keys);
      BatchIsFirstHit(lower, order[0], users, rows[0], u);
      FirstHitAgrees(lower, order[0], users, rows[0], table, u);
      ResolvedWereAsked(lower, order[1..], rest, rows[1..], u.objectId);
      if u.objectId !in m {
        BatchIsAlone(lower, order[1..], rest, rows[1..], table, u);
      }
    }
  }

  lemma ResolvedWereAsked(lower: Lower, order: seq<MatchKey>, users: seq<User>, rows: seq<seq<SysUser>>, id: string)
    requires |rows| == |order|
    ensures id in ResolveInOrder(lower, order, users, rows) ==> exists u | u in users :: u.objectId == id
  {
    if id in ResolveInOrder(lower, order, users, rows) {
      AssignmentsAreSound(lower, order, users, rows, id);
    }
  }

  lemma FirstHitAgrees(lower: Lower, key: MatchKey, users: seq<User>, rows: seq<SysUser>, table: seq<SysUser>, u: User)
    requires u in users && AgreesOnAll(lower, key, table, users, rows)
    ensures FirstHit(lower, key, rows, Own(key, u)) == FirstHit(lower, key, table, Own(key, u))
  {
    var cs := CandidatesOf(lower, key, users);
    CandidatesDescribe(lower, key, users);
    OwnAreFew(lower, key, u);
    forall i | 0 <= i < |Own(key, u)|
      ensures Hit(lower, key, rows, lower(Own(key, u)[i])) == Hit(lower, key, table, lower(Own(key, u)[i]))
    {
      var v := FoldedOwn(lower, key, u)[i];
      assert v in FoldedOwn(lower, key, u);
      assert cs[IndexOf(cs, v)] in cs;
      AgreementGivesTheHit(lower, key, table, rows, v);
    }
    FirstHitOfFew(lower, key, rows, Own(key, u));
    FirstHitOfFew(lower, key, table, Own(key, u));
  }

  // ---- The resolver object -----------------------------------------------------------------------

  lemma {:induction false} WithoutTwice(users: seq<User>, a: set<string>, b: set<string>)
    ensures Without(Without(users, a), b) == Without(users, a + b)
    ensures Without(users, {}) == users
  {
    if users != [] {
      WithoutTwice(users[1..], a, b);
      var rest := Without(users[1..], a);
      if users[0].objectId !in a { assert Without(users, a) == [users[0]] + rest && ([users[0]] + rest)[1..] == rest; }
      else { assert Without(users, a) == rest; }
    }
  }

  lemma ResolveCons(lower: Lower, key: MatchKey, order: seq<MatchKey>, users: seq<User>, r: seq<SysUser>, rows: seq<seq<SysUser>>)
    requires |rows| == |order|
    ensures var m := MatchedByKey(lower, key, users, r);
            ResolveInOrder(lower, [key] + order, users, [r] + rows)
            == m + ResolveInOrder(lower, order, Without(users, m.Keys), rows)
  {
    assert ([key] + order)[1..] == order && ([r] + rows)[1..] == rows;
    if users == [] { assert MatchedByKey(lower, key, users, r) == map[]; }
  }

  /** One key more, seen from the back: it works on the users that are still without a match. */
  lemma {:induction false} ResolveSnoc(lower: Lower, order: seq<MatchKey>, key: MatchKey, users: seq<User>,
                                       rows: seq<seq<SysUser>>, more: seq<SysUser>)
    requires |rows| == |order|
    ensures ResolveInOrder(lower, order + [key], users, rows + [more])
            == ResolveInOrder(lower, order, users, rows)
               + MatchedByKey(lower, key, Without(users, ResolveInOrder(lower, order, users, rows).Keys), more)
    decreases |order|
  {
    if order == [] {
      WithoutTwice(users, {}, {});
      ResolveCons(lower, key, [], users, more, []);
      assert order + [key] == [key] + [] && rows + [more] == [more] + [];
      var m := MatchedByKey(lower, key, users, more);
      assert map[] + m == m && m + map[] == m;
      assert ResolveInOrder(lower, order, users, rows) == map[];
      assert Without(users, ResolveInOrder(lower, order, users, rows).Keys) == users by {
        assert ResolveInOrder(lower, order, users, rows).Keys == {};
      }
    } else {
      var k0, ks, r0, rs := order[0], order[1..], rows[0], rows[1..];
      var m0 := MatchedByKey(lower, k0, users, r0);
      var left0 := Without(users, m0.Keys);
      var m1 := ResolveInOrder(lower, ks, left0, rs);
      assert order == [k0] + ks && rows == [r0] + rs;
      ConcatAssociates([k0], ks, [key]);
      ConcatAssociates([r0], rs, [more]);
      ResolveCons(lower, k0, ks, users, r0, rs);
      ResolveCons(lower, k0, ks + [key], users, r0, rs + [more]);
      ResolveSnoc(lower, ks, key, left0, rs, more);
      WithoutTwice(users, m0.Keys, m1.Keys);
      MergeTwice(m0, m1, MatchedByKey(lower, key, Without(left0, m1.Keys), more));
    }
  }

  lemma MergeTwice(a: map<string, Ref>, b: map<string, Ref>, c: map<string, Ref>)
    ensures a + (b + c) == (a + b) + c
    ensures (a + b).Keys == a.Keys + b.Keys
  {}

  lemma HonestCons(lower: Lower, key: MatchKey, order: seq<MatchKey>, users: seq<User>, r: seq<SysUser>, rows: seq<seq<SysUser>>, table: seq<SysUser>)
    requires |rows| == |order| && users != []
    ensures HonestThroughout(lower, [key] + order, users, [r] + rows, table)
            <==> AgreesOnAll(lower, key, table, users, r)
                 && HonestThroughout(lower, order, Without(users, MatchedByKey(lower, key, users, r).Keys), rows, table)
  {
    assert ([key] + order)[1..] == order && ([r] + rows)[1..] == rows;
  }

  /** Whom the first key and then the others leave unmatched is whom they leave unmatched together. */
  lemma LeftAfterCons(lower: Lower, key: MatchKey, order: seq<MatchKey>, users: seq<User>, r: seq<SysUser>, rows: seq<seq<SysUser>>)
    requires |rows| == |order|
    ensures var left := Without(users, MatchedByKey(lower, key, users, r).Keys);
            Without(users, ResolveInOrder(lower, [key] + order, users, [r] + rows).Keys)
            == Without(left, ResolveInOrder(lower, order, left, rows).Keys)
  {
    var m0 := MatchedByKey(lower, key, users, r);
    var m1 := ResolveInOrder(lower, order, Without(users, m0.Keys), rows);
    ResolveCons(lower, key, order, users, r, rows);
    WithoutTwice(users, m0.Keys, m1.Keys);
    MergeTwice(m0, m1, map[]);
  }

  lemma HonestAlone(lower: Lower, key: MatchKey, users: seq<User>, more: seq<SysUser>, table: seq<SysUser>)
    requires users != [] && AgreesOnAll(lower, key, table, Without(users, ResolveInOrder(lower, [], users, []).Keys), more)
    ensures HonestThroughout(lower, [key], users, [more], table)
  {
    WithoutTwice(users, {}, {});
    assert ResolveInOrder(lower, [], users, []).Keys == {};
    HonestCons(lower, key, [], users, more, [], table);
    assert [key] == [key] + [] && [more] == [more] + [];
  }

  lemma HonestFirst(lower: Lower, key: MatchKey, order: seq<MatchKey>, users: seq<User>, r: seq<SysUser>, rows: seq<seq<SysUser>>,
                    table: seq<SysUser>, last: MatchKey, more: seq<SysUser>)
    requires |rows| == |order| && users != [] && HonestThroughout(lower, [key] + order, users, [r] + rows, table)
    requires HonestThroughout(lower, order + [last], Without(users, MatchedByKey(lower, key, users, r).Keys), rows + [more], table)
    ensures HonestThroughout(lower, [key] + order + [last], users, [r] + rows + [more], table)
  {
    ConcatAssociates([key], order, [last]);
    ConcatAssociates([r], rows, [more]);
    HonestCons(lower, key, order, users, r, rows, table);
    HonestCons(lower, key, order + [last], users, r, rows + [more], table);
  }

  lemma {:induction false} HonestSnoc(lower: Lower, order: seq<MatchKey>, key: MatchKey, users: seq<User>,
                                      rows: seq<seq<SysUser>>, more: seq<SysUser>, table: seq<SysUser>)
    requires |rows| == |order| && HonestThroughout(lower, order, users, rows, table)
    requires AgreesOnAll(lower, key, table, Without(users, ResolveInOrder(lower, order, users, rows).Keys), more)
    ensures HonestThroughout(lower, order + [key], users, rows + [more], table)
    decreases |order|, 0
  {
    if users == [] {
    } else if order == [] {
      assert rows == [] && order + [key] == [key] && rows + [more] == [more];
      HonestAlone(lower, key, users, more, table);
    } else {
      assert order == [order[0]] + order[1..] && rows == [rows[0]] + rows[1..];
      HonestSnocStep(lower, order[0], order[1..], key, users, rows[0], rows[1..], more, table);
    }
  }

  lemma {:induction false} HonestSnocStep(lower: Lower, k0: MatchKey, ks: seq<MatchKey>, key: MatchKey, users: seq<User>,
                                          r0: seq<SysUser>, rs: seq<seq<SysUser>>, more: seq<SysUser>, table: seq<SysUser>)
    requires |rs| == |ks| && users != [] && HonestThroughout(lower, [k0] + ks, users, [r0] + rs, table)
    requires AgreesOnAll(lower, key, table, Without(users, ResolveInOrder(lower, [k0] + ks, users, [r0] + rs).Keys), more)
    ensures HonestThroughout(lower, [k0] + ks + [key], users, [r0] + rs + [more], table)
    decreases |ks|, 1
  {
    LeftAfterCons(lower, k0, ks, users, r0, rs);
    HonestCons(lower, k0, ks, users, r0, rs, table);
    HonestSnoc(lower, ks, key, Without(users, MatchedByKey(lower, k0, users, r0).Keys), rs, more, table);
    HonestFirst(lower, k0, ks, users, r0, rs, table, key, more);
  }

  /** Users not yet cached, one per object id: the last description of an id wins. */
  function Put(us: seq<User>, u: User): seq<User> {
    if us == [] then [u] else if us[0].objectId == u.objectId then [u] + us[1..] else [us[0]] + Put(us[1..], u)
  }

  function Pending(users: seq<User>, cached: set<string>): seq<User> {
    if users == [] then []
    else
      var u := users[|users| - 1];
      var before := Pending(users[..|users| - 1], cached);
      if u.objectId != "" && u.objectId !in cached then Put(before, u) else before
  }

  lemma {:induction false} PutMeans(us: seq<User>, u: User)
    requires DistinctIds(us)
    ensures DistinctIds(Put(us, u))
    ensures forall w :: w in Put(us, u) <==> w == u || (w in us && w.objectId != u.objectId)
  {
    PutMember(us, u);
    if us != [] {
      assert forall w | w in us[1..] :: w.objectId != us[0].objectId;
      if us[0].objectId == u.objectId {
        DistinctCons(u, us[1..]);
      } else {
        PutMeans(us[1..], u);
        DistinctCons(us[0], Put(us[1..], u));
      }
    }
  }

  lemma DistinctCons(u: User, us: seq<User>)
    requires DistinctIds(us) && forall w | w in us :: w.objectId != u.objectId
    ensures DistinctIds([u] + us)
  {}

  lemma {:induction false} PutMember(us: seq<User>, u: User)
    requires DistinctIds(us)
    ensures forall w :: w in Put(us, u) <==> w == u || (w in us && w.objectId != u.objectId)
  {
    if us != [] {
      PutMember(us[1..], u);
      assert us == [us[0]] + us[1..];
      assert forall w | w in us[1..] :: w.objectId != us[0].objectId;
    }
  }

  /** An id is pending iff some user carries it and it is not cached yet; nobody is pending twice. */
  lemma {:induction false} PendingMeans(users: seq<User>, cached: set<string>)
    ensures DistinctIds(Pending(users, cached))
    ensures forall w | w in Pending(users, cached) :: w in users && w.objectId != "" && w.objectId !in cached
    ensures forall u | u in users && u.objectId != "" && u.objectId !in cached ::
              exists w | w in Pending(users, cached) :: w.objectId == u.objectId
  {
    PendingAreUsers(users, cached);
    forall u | u in users && u.objectId != "" && u.objectId !in cached
      ensures exists w | w in Pending(users, cached) :: w.objectId == u.objectId
    {
      var w := PendingFor(users, cached, u);
    }
  }

  /** Of the users with one id it is the last who is resolved. */
  lemma {:induction false} PendingIsLast(users: seq<User>, cached: set<string>, w: User) returns (i: nat)
    requires w in Pending(users, cached)
    ensures i < |users| && users[i] == w && forall j | i < j < |users| :: users[j].objectId != w.objectId
  {
    var n := |users| - 1;
    var front, last := users[..n], users[n];
    PendingAreUsers(front, cached);
    PutMeans(Pending(front, cached), last);
    if w == last && last.objectId != "" && last.objectId !in cached {
      i := n;
    } else {
      PendingAreUsers(users, cached);
      i := PendingIsLast(front, cached, w);
      assert forall j | 0 <= j < n :: users[j] == front[j];
    }
  }

  /** Id a appears among the users before any b does. */
  ghost predicate AppearsBefore(users: seq<User>, a: string, b: string) {
    exists m: nat :: AppearsAt(users, m, a, b)
  }

  ghost predicate AppearsAt(users: seq<User>, m: nat, a: string, b: string) {
    m < |users| && users[m].objectId == a && forall n | 0 <= n <= m :: users[n].objectId != b
  }

  /** They stand in the order in which their ids first appear, which is the order their values are brought in. */
  lemma {:induction false} PendingInOrder(users: seq<User>, cached: set<string>, i: nat, j: nat)
    requires i < j < |Pending(users, cached)|
    ensures AppearsBefore(users, Pending(users, cached)[i].objectId, Pending(users, cached)[j].objectId)
  {
    var n := |users| - 1;
    var front, last := users[..n], users[n];
    assert users == front + [last];
    var before := Pending(front, cached);
    PendingAreUsers(front, cached);
    if last.objectId != "" && last.objectId !in cached {
      PutPlaces(before, last);
    }
    if j < |before| {
      PendingInOrder(front, cached, i, j);
      StillBefore(front, last, before[i].objectId, before[j].objectId);
    } else {
      var k :| 0 <= k < n && front[k] == before[i];
      NewIsUnseen(front, cached, last);
      assert AppearsAt(users, k, before[i].objectId, last.objectId);
    }
  }

  lemma StillBefore(front: seq<User>, last: User, a: string, b: string)
    requires AppearsBefore(front, a, b)
    ensures AppearsBefore(front + [last], a, b)
  {
    var m: nat :| AppearsAt(front, m, a, b);
    assert AppearsAt(front + [last], m, a, b);
  }

  /** A user goes where the id stands already, or to the end. */
  lemma {:induction false} PutPlaces(us: seq<User>, u: User)
    ensures |us| <= |Put(us, u)| <= |us| + 1
    ensures forall i | 0 <= i < |us| :: Put(us, u)[i].objectId == us[i].objectId
    ensures |Put(us, u)| == |us| + 1 ==> Put(us, u)[|us|] == u && forall w | w in us :: w.objectId != u.objectId
  {
    if us != [] {
      PutPlaces(us[1..], u);
      assert us == [us[0]] + us[1..];
    }
  }

  lemma NewIsUnseen(front: seq<User>, cached: set<string>, u: User)
    requires u.objectId != "" && u.objectId !in cached && forall w | w in Pending(front, cached) :: w.objectId != u.objectId
    ensures forall k | 0 <= k < |front| :: front[k].objectId != u.objectId
  {
    forall k | 0 <= k < |front| ensures front[k].objectId != u.objectId {
      if front[k].objectId == u.objectId { var w := PendingFor(front, cached, front[k]); }
    }
  }

  lemma {:induction false} PendingAreUsers(users: seq<User>, cached: set<string>)
    ensures DistinctIds(Pending(users, cached))
    ensures forall w | w in Pending(users, cached) :: w in users && w.objectId != "" && w.objectId !in cached
  {
    if users != [] {
      var front, last := users[..|users| - 1], users[|users| - 1];
      assert users == front + [last];
      PendingAreUsers(front, cached);
      PutMeans(Pending(front, cached), last);
    }
  }

  lemma {:induction false} PendingFor(users: seq<User>, cached: set<string>, u: User) returns (w: User)
    requires u in users && u.objectId != "" && u.objectId !in cached
    ensures w in Pending(users, cached) && w.objectId == u.objectId
  {
    var front, last := users[..|users| - 1], users[|users| - 1];
    assert users == front + [last];
    PendingAreUsers(front, cached);
    PutMeans(Pending(front, cached), last);
    if u.objectId == last.objectId { w := last; } else { w := PendingFor(front, cached, u); }
  }

  const LOOKUP_CHUNK_SIZE: nat := 50

  /**
    The sys_user table. An honest one answers every query in full; otherwise it answers
    anything. `table` is the part a query may see: the active records, if so configured.
   */
  class SysUserTable {
    const lower: Lower
    const table: seq<SysUser>
    const honest: bool
    var asked: seq<(MatchKey, seq<string>)>

    constructor (lower: Lower, table: seq<SysUser>, honest: bool)
      ensures this.lower == lower && this.table == table && this.honest == honest && asked == []
    {
      this.lower, this.table, this.honest, asked := lower, table, honest, [];
    }

    method Query(key: MatchKey, values: seq<string>) returns (page: seq<SysUser>)
      modifies this
      ensures asked == old(asked) + [(key, values)]
      ensures honest ==> Honest(lower, key, table, values, page)
    {
      asked := asked + [(key, values)];
      ghost var truth := Matching(lower, key, table, values);
      assert Honest(lower, key, table, values, truth);
      page :| honest ==> Honest(lower, key, table, values, page);
    }
  }

  /** Every non-blank folded value leads to the records that carry it, in the order they were returned. */
  ghost predicate Grouped(lower: Lower, key: MatchKey, rows: seq<SysUser>, byValue: map<string, seq<SysUser>>) {
    && (forall v :: v in byValue <==> v != "" && RowsFor(lower, key, rows, v) != [])
    && (forall v | v in byValue :: byValue[v] == RowsFor(lower, key, rows, v))
  }

  lemma HitOfGroup(lower: Lower, key: MatchKey, rows: seq<SysUser>, byValue: map<string, seq<SysUser>>, v: string)
    requires Grouped(lower, key, rows, byValue)
    ensures var carriers := if v in byValue then byValue[v] else [];
            Hit(lower, key, rows, v) == if |carriers| == 1 && carriers[0].sysId != "" then Some(Ref(carriers[0], key)) else None
  {}

  lemma GroupedOneMore(lower: Lower, key: MatchKey, rows: seq<SysUser>, r: SysUser, byValue: map<string, seq<SysUser>>)
    requires Grouped(lower, key, rows, byValue)
    ensures var value := Fold(lower, FieldOf(key, r));
            Grouped(lower, key, rows + [r], if value == "" then byValue
                                            else byValue[value := (if value in byValue then byValue[value] else []) + [r]])
  {
    forall v ensures RowsFor(lower, key, rows + [r], v)
                     == RowsFor(lower, key, rows, v) + (if v == Fold(lower, FieldOf(key, r)) then [r] else []) {
      RowsSnoc(lower, key, rows, r, v);
    }
  }

  ghost predicate AllHonest(lower: Lower, key: MatchKey, table: seq<SysUser>, chunks: seq<seq<string>>, pages: seq<seq<SysUser>>) {
    |pages| <= |chunks| && forall i | 0 <= i < |pages| :: Honest(lower, key, table, chunks[i], pages[i])
  }

  lemma HonestPage(lower: Lower, key: MatchKey, table: seq<SysUser>, chunks: seq<seq<string>>, pages: seq<seq<SysUser>>, page: seq<SysUser>)
    requires AllHonest(lower, key, table, chunks, pages) && |pages| < |chunks| && Honest(lower, key, table, chunks[|pages|], page)
    ensures AllHonest(lower, key, table, chunks, pages + [page])
  {}

  lemma AskedOneMore(key: MatchKey, before: seq<(MatchKey, seq<string>)>, chunks: seq<seq<string>>, n: nat)
    requires n < |chunks|
    ensures before + Map(chunks[..n + 1], (c: seq<string>) => (key, c))
            == before + Map(chunks[..n], (c: seq<string>) => (key, c)) + [(key, chunks[n])]
  {}

  // ---- A sequence of calls ---------------------------------------------------------------

  /** One call of ResolveMany, with what the server returned for each key. */
  datatype Call = Call(users: seq<User>, rows: seq<seq<SysUser>>)

  ghost predicate Complete(order: seq<MatchKey>, calls: seq<Call>) { forall c | c in calls :: |c.rows| == |order| }

  function AfterCall(lower: Lower, order: seq<MatchKey>, cache: map<string, Option<Ref>>, c: Call): map<string, Option<Ref>>
    requires |c.rows| == |order|
  {
    var pending := Pending(c.users, cache.Keys);
    cache + AnswersFor(pending, ResolveInOrder(lower, order, pending, c.rows))
  }

  ghost function CacheAfter(lower: Lower, order: seq<MatchKey>, calls: seq<Call>): map<string, Option<Ref>>
    requires Complete(order, calls)
  {
    if calls == [] then map[]
    else AfterCall(lower, order, CacheAfter(lower, order, calls[..|calls| - 1]), calls[|calls| - 1])
  }

  /** A call leaves every cached answer as it is. */
  lemma CallKeepsCache(lower: Lower, order: seq<MatchKey>, cache: map<string, Option<Ref>>, c: Call, id: string)
    requires |c.rows| == |order| && id in cache
    ensures id in AfterCall(lower, order, cache, c) && AfterCall(lower, order, cache, c)[id] == cache[id]
  {
    PendingMeans(c.users, cache.Keys);
  }

  /** Once cached, an answer is the same after any further calls, whatever they return. */
  lemma {:induction false} CachedForGood(lower: Lower, order: seq<MatchKey>, calls: seq<Call>, more: seq<Call>, id: string)
    requires Complete(order, calls) && Complete(order, more) && Complete(order, calls + more)
    requires id in CacheAfter(lower, order, calls)
    ensures id in CacheAfter(lower, order, calls + more)
    ensures CacheAfter(lower, order, calls + more)[id] == CacheAfter(lower, order, calls)[id]
  {
    if more == [] {
      assert calls + more == calls;
    } else {
      var n := |more| - 1;
      assert (calls + more)[..|calls + more| - 1] == calls + more[..n];
      assert more == more[..n] + [more[n]];
      CachedForGood(lower, order, calls, more[..n], id);
      CallKeepsCache(lower, order, CacheAfter(lower, order, calls + more[..n]), more[n], id);
    }
  }

  /** In call j, with key k, the record was the only one returned with one of that user's own values; until then the id was unknown. */
  ghost predicate AssignedBy(lower: Lower, order: seq<MatchKey>, calls: seq<Call>, id: string, ref: Ref, j: nat, k: nat)
    requires Complete(order, calls)
  {
    && j < |calls| && k < |order| && calls[j] in calls && Complete(order, calls[..j])
    && id !in CacheAfter(lower, order, calls[..j])
    && OnlyRecord(lower, order[k], Pending(calls[j].users, CacheAfter(lower, order, calls[..j]).Keys), calls[j].rows[k], id, ref)
  }

  /**
    Whatever a sequence of calls is given and whatever it is answered: an assignment in the
    cache was made by one call, for an id unknown until then, and is the only record that call
    got with one of that user's own values.
   */
  lemma {:induction false} EveryAssignmentIsSound(lower: Lower, order: seq<MatchKey>, calls: seq<Call>, id: string)
    returns (j: nat, k: nat)
    requires Complete(order, calls) && id in CacheAfter(lower, order, calls) && CacheAfter(lower, order, calls)[id].Some?
    ensures AssignedBy(lower, order, calls, id, CacheAfter(lower, order, calls)[id].value, j, k)
    decreases |calls|, 0
  {
    var n := |calls| - 1;
    var front, last := calls[..n], calls[n];
    var cache := CacheAfter(lower, order, front);
    LastCall(lower, order, front, last, calls);
    if id in cache {
      j, k := EarlierAssignment(lower, order, front, last, id);
    } else {
      j := n;
      k := NewAssignment(lower, order, front, last, id);
    }
  }

  lemma LastCall(lower: Lower, order: seq<MatchKey>, front: seq<Call>, last: Call, calls: seq<Call>)
    requires Complete(order, calls) && calls != [] && front == calls[..|calls| - 1] && last == calls[|calls| - 1]
    ensures calls == front + [last] && Complete(order, front) && |last.rows| == |order|
    ensures CacheAfter(lower, order, calls) == AfterCall(lower, order, CacheAfter(lower, order, front), last)
  {
    assert last in calls;
  }

  lemma {:induction false} EarlierAssignment(lower: Lower, order: seq<MatchKey>, front: seq<Call>, last: Call, id: string)
    returns (j: nat, k: nat)
    requires Complete(order, front + [last]) && Complete(order, front) && |last.rows| == |order| && id in CacheAfter(lower, order, front)
    requires var cache := AfterCall(lower, order, CacheAfter(lower, order, front), last); id in cache && cache[id].Some?
    ensures AssignedBy(lower, order, front + [last], id,
                       AfterCall(lower, order, CacheAfter(lower, order, front), last)[id].value, j, k)
    decreases |front|, 1
  {
    var cache := CacheAfter(lower, order, front);
    CallKeepsCache(lower, order, cache, last, id);
    j, k := EveryAssignmentIsSound(lower, order, front, id);
    StillAssignedBy(lower, order, front, last, id, cache[id].value, j, k);
  }

  lemma {:induction false} StillAssignedBy(lower: Lower, order: seq<MatchKey>, front: seq<Call>, last: Call, id: string, ref: Ref, j: nat, k: nat)
    requires Complete(order, front) && Complete(order, front + [last]) && AssignedBy(lower, order, front, id, ref, j, k)
    ensures AssignedBy(lower, order, front + [last], id, ref, j, k)
  {
    assert (front + [last])[..j] == front[..j] && (front + [last])[j] == front[j];
  }

  lemma NewAssignment(lower: Lower, order: seq<MatchKey>, front: seq<Call>, last: Call, id: string) returns (k: nat)
    requires Complete(order, front) && |last.rows| == |order| && id !in CacheAfter(lower, order, front)
    requires var cache := AfterCall(lower, order, CacheAfter(lower, order, front), last); id in cache && cache[id].Some?
    ensures Complete(order, front + [last])
    ensures AssignedBy(lower, order, front + [last], id,
                       AfterCall(lower, order, CacheAfter(lower, order, front), last)[id].value, |front|, k)
  {
    assert (front + [last])[..|front|] == front && (front + [last])[|front|] == last;
    k := NewlyCached(lower, order, CacheAfter(lower, order, front), last, id);
  }

  lemma NewlyCached(lower: Lower, order: seq<MatchKey>, cache: map<string, Option<Ref>>, c: Call, id: string) returns (k: nat)
    requires |c.rows| == |order| && id !in cache
    requires var after := AfterCall(lower, order, cache, c); id in after && after[id].Some?
    ensures k < |order|
    ensures OnlyRecord(lower, order[k], Pending(c.users, cache.Keys), c.rows[k], id, AfterCall(lower, order, cache, c)[id].value)
  {
    var pending := Pending(c.users, cache.Keys);
    AssignmentsAreSound(lower, order, pending, c.rows, id);
    k :| 0 <= k < |order| && OnlyRecord(lower, order[k], pending, c.rows[k], id, ResolveInOrder(lower, order, pending, c.rows)[id]);
  }

  // ---- Key by key, in the fields of users and records --------------------------------------

  /** r alone, of these records, has this value in this field, as far as trimming and folding go, and has a sys_id. */
  ghost predicate SingleCarrier(lower: Lower, rows: seq<SysUser>, field: SysUser -> string, value: string, r: SysUser) {
    && Strip(value) != "" && '^' !in Strip(value) && r.sysId != ""
    && Filter(rows, (x: SysUser) => lower(Strip(field(x))) == lower(Strip(value))) == [r]
  }

  /** The part of an address before its first '@'. */
  ghost predicate IsLocalPart(upn: string, local: string) { '@' !in local && local + "@" <= upn }

  ghost predicate SingleByUpn(lower: Lower, rows: seq<SysUser>, u: User, r: SysUser) {
    SingleCarrier(lower, rows, (x: SysUser) => x.userName, u.userPrincipalName, r)
  }

  ghost predicate SingleByLocalPart(lower: Lower, rows: seq<SysUser>, u: User, r: SysUser) {
    exists local :: IsLocalPart(u.userPrincipalName, local) && SingleCarrier(lower, rows, (x: SysUser) => x.userName, local, r)
  }

  /** What a match says of the record and the user, by the key it was made on. */
  ghost predicate CarriedBy(lower: Lower, rows: seq<SysUser>, ref: Ref, u: User) {
    match ref.matchedOn
    case EmployeeNumber => SingleCarrier(lower, rows, (x: SysUser) => x.employeeNumber, u.employeeId, ref.record)
    case Email =>
      SingleCarrier(lower, rows, (x: SysUser) => x.email, if u.mail != "" then u.mail else u.userPrincipalName, ref.record)
    case UserName => SingleByUpn(lower, rows, u, ref.record) || SingleByLocalPart(lower, rows, u, ref.record)
    case EntraId => SingleCarrier(lower, rows, (x: SysUser) => x.entraId, u.objectId, ref.record)
  }

  lemma HitIff(lower: Lower, key: MatchKey, rows: seq<SysUser>, field: SysUser -> string, value: string, r: SysUser)
    requires Folds(lower) && IsQuerySafe(Strip(value)) && forall x :: FieldOf(key, x) == field(x)
    ensures Hit(lower, key, rows, lower(Strip(value))) == Some(Ref(r, key)) <==> SingleCarrier(lower, rows, field, value, r)
    ensures Hit(lower, key, rows, lower(Strip(value))).Some? ==> Hit(lower, key, rows, lower(Strip(value))).value.matchedOn == key
  {
    var v := lower(Strip(value));
    FilterSame(rows, (x: SysUser) => Fold(lower, FieldOf(key, x)) == v, (x: SysUser) => lower(Strip(field(x))) == lower(Strip(value)));
  }

  /** A key with one value: the safe value is looked up, and nothing else. */
  lemma OneValued(lower: Lower, key: MatchKey, rows: seq<SysUser>, u: User, field: SysUser -> string, value: string, r: SysUser)
    requires Folds(lower) && ValuesFor(key, u) == [value] && forall x :: FieldOf(key, x) == field(x)
    ensures Alone(lower, [key], rows, u) == Some(Ref(r, key)) <==> SingleCarrier(lower, rows, field, value, r)
    ensures Alone(lower, [key], rows, u).Some? ==> Alone(lower, [key], rows, u).value.matchedOn == key
  {
    OwnOfOne(key, u, value);
    AloneOnOne(lower, key, rows, u);
    if IsQuerySafe(Strip(value)) {
      FirstOfOne(lower, key, rows, Strip(value));
      HitIff(lower, key, rows, field, value, r);
    }
  }

  lemma OwnOfOne(key: MatchKey, u: User, value: string)
    requires ValuesFor(key, u) == [value]
    ensures Own(key, u) == if IsQuerySafe(Strip(value)) then [Strip(value)] else []
  {
    assert Map([value], Strip) == [Strip(value)];
    FilterOne(Strip(value), IsQuerySafe);
  }

  lemma AloneOnOne(lower: Lower, key: MatchKey, rows: seq<SysUser>, u: User)
    ensures Alone(lower, [key], rows, u) == FirstHit(lower, key, rows, Own(key, u))
  {
    assert [key][1..] == [];
  }

  lemma FirstOfOne(lower: Lower, key: MatchKey, rows: seq<SysUser>, v: string)
    ensures FirstHit(lower, key, rows, [v]) == Hit(lower, key, rows, lower(v))
  {
    assert [v][1..] == [];
  }

  lemma FirstOfTwo(lower: Lower, key: MatchKey, rows: seq<SysUser>, v: string, w: string)
    ensures FirstHit(lower, key, rows, [v, w])
            == var first := Hit(lower, key, rows, lower(v)); if first.Some? then first else Hit(lower, key, rows, lower(w))
  {
    assert [v, w][1..] == [w];
    FirstOfOne(lower, key, rows, w);
  }

  lemma {:induction false} LocalPartIs(upn: string, local: string)
    ensures IsLocalPart(upn, local) <==> '@' in upn && local == LocalPart(upn)
  {
    if '@' in upn {
      SplitAtFirst(upn);
      if IsLocalPart(upn, local) { PrefixesAgree(upn, LocalPart(upn), local); }
    }
    HoldsAt(upn, local);
  }

  lemma HoldsAt(upn: string, local: string)
    ensures local + "@" <= upn ==> '@' in upn
  {
    assert (local + "@")[|local|] == '@';
  }

  lemma {:induction false} SplitAtFirst(s: string)
    requires '@' in s
    ensures '@' !in Split(s, '@')[0] && Split(s, '@')[0] + "@" <= s
  {
    if s[0] != '@' {
      assert s == [s[0]] + s[1..];
      SplitAtFirst(s[1..]);
    }
  }

  lemma PrefixesAgree(s: string, a: string, b: string)
    requires '@' !in a && a + "@" <= s && '@' !in b && b + "@" <= s
    ensures a == b
  {
    assert s[|a|] == (a + "@")[|a|] && s[|b|] == (b + "@")[|b|];
    assert a == s[..|a|] && b == s[..|b|];
  }

  /** The two values of user_name that are looked up, the UPN before its local part. */
  lemma OwnOfUpn(u: User)
    ensures var upn, local := Strip(u.userPrincipalName), Strip(LocalPart(u.userPrincipalName));
            Own(UserName, u) == (if IsQuerySafe(upn) then [upn] else []) + (if IsQuerySafe(local) then [local] else [])
  {
    var upn, local := Strip(u.userPrincipalName), Strip(LocalPart(u.userPrincipalName));
    assert Map(ValuesFor(UserName, u), Strip) == [upn, local] == [upn] + [local];
    FilterConcat([upn], [local], IsQuerySafe);
    FilterOne(upn, IsQuerySafe);
    FilterOne(local, IsQuerySafe);
  }

  lemma UserNameAlone(lower: Lower, rows: seq<SysUser>, u: User, r: SysUser)
    requires Folds(lower)
    ensures Alone(lower, [UserName], rows, u) == Some(Ref(r, UserName))
            <==> SingleByUpn(lower, rows, u, r) || ((forall x :: !SingleByUpn(lower, rows, u, x)) && SingleByLocalPart(lower, rows, u, r))
    ensures Alone(lower, [UserName], rows, u).Some? ==> Alone(lower, [UserName], rows, u).value.matchedOn == UserName
  {
    AloneOnOne(lower, UserName, rows, u);
    OwnOfUpn(u);
    UpnHit(lower, rows, u, r);
    LocalPartHit(lower, rows, u, r);
    var upn, local := Strip(u.userPrincipalName), Strip(LocalPart(u.userPrincipalName));
    FirstOfTwo(lower, UserName, rows, upn, local);
    FirstOfOne(lower, UserName, rows, upn);
    FirstOfOne(lower, UserName, rows, local);
  }

  lemma UpnHit(lower: Lower, rows: seq<SysUser>, u: User, r: SysUser)
    requires Folds(lower)
    ensures var upn := Strip(u.userPrincipalName); var hit := Hit(lower, UserName, rows, lower(upn));
            && (IsQuerySafe(upn) && hit == Some(Ref(r, UserName)) <==> SingleByUpn(lower, rows, u, r))
            && (IsQuerySafe(upn) && hit.Some? <==> exists x :: SingleByUpn(lower, rows, u, x))
            && (hit.Some? ==> hit.value.matchedOn == UserName)
  {
    var upn := Strip(u.userPrincipalName);
    if IsQuerySafe(upn) {
      forall x ensures Hit(lower, UserName, rows, lower(upn)) == Some(Ref(x, UserName)) <==> SingleByUpn(lower, rows, u, x) {
        HitIff(lower, UserName, rows, (x: SysUser) => x.userName, u.userPrincipalName, x);
      }
      var hit := Hit(lower, UserName, rows, lower(upn));
      if hit.Some? { assert SingleByUpn(lower, rows, u, hit.value.record); }
    }
  }

  lemma LocalPartHit(lower: Lower, rows: seq<SysUser>, u: User, r: SysUser)
    requires Folds(lower)
    ensures var local := Strip(LocalPart(u.userPrincipalName)); var hit := Hit(lower, UserName, rows, lower(local));
            && (IsQuerySafe(local) && hit == Some(Ref(r, UserName)) <==> SingleByLocalPart(lower, rows, u, r))
            && (hit.Some? ==> hit.value.matchedOn == UserName)
  {
    var local := LocalPart(u.userPrincipalName);
    LocalPartIs(u.userPrincipalName, local);
    forall l ensures IsLocalPart(u.userPrincipalName, l) ==> l == local { LocalPartIs(u.userPrincipalName, l); }
    if IsQuerySafe(Strip(local)) {
      HitIff(lower, UserName, rows, (x: SysUser) => x.userName, local, r);
    }
  }

  /**
    Looking a user up alone under one key gives a record exactly when that record alone carries
    the user's value for the key, in the fields spelled out; for user_name the local part counts
    only where no record alone carries the UPN.
   */
  lemma KeyByKey(lower: Lower, rows: seq<SysUser>, u: User, ref: Ref)
    requires Folds(lower)
    ensures Alone(lower, [ref.matchedOn], rows, u) == Some(ref)
            <==> CarriedBy(lower, rows, ref, u)
                 && (ref.matchedOn.UserName? && !SingleByUpn(lower, rows, u, ref.record) ==> forall x :: !SingleByUpn(lower, rows, u, x))
  {
    match ref.matchedOn
    case EmployeeNumber => OneValued(lower, EmployeeNumber, rows, u, (x: SysUser) => x.employeeNumber, u.employeeId, ref.record);
    case Email =>
      OneValued(lower, Email, rows, u, (x: SysUser) => x.email, if u.mail != "" then u.mail else u.userPrincipalName, ref.record);
    case UserName => UserNameAlone(lower, rows, u, ref.record);
    case EntraId => OneValued(lower, EntraId, rows, u, (x: SysUser) => x.entraId, u.objectId, ref.record);
  }

  /** Over an order of keys, the first key that gives a record decides. */
  lemma {:induction false} FirstKeyDecides(lower: Lower, order: seq<MatchKey>, rows: seq<SysUser>, u: User, k: nat)
    requires k < |order| && forall j | 0 <= j < k :: Alone(lower, [order[j]], rows, u).None?
    ensures Alone(lower, [order[k]], rows, u).Some? ==> Alone(lower, order, rows, u) == Alone(lower, [order[k]], rows, u)
    ensures k == |order| - 1 && Alone(lower, [order[k]], rows, u).None? ==> Alone(lower, order, rows, u).None?
  {
    AloneOnOne(lower, order[0], rows, u);
    if k > 0 { FirstKeyDecides(lower, order[1..], rows, u, k - 1); }
  }

  /** An assignment in the cache, in the fields: the record alone, of those returned, carries a value of that very user. */
  lemma AssignedByFields(lower: Lower, order: seq<MatchKey>, calls: seq<Call>, id: string, ref: Ref, j: nat, k: nat)
    requires Folds(lower) && Complete(order, calls) && AssignedBy(lower, order, calls, id, ref, j, k)
    ensures exists u | u in calls[j].users :: u.objectId == id && CarriedBy(lower, calls[j].rows[k], ref, u)
  {
    var cached := CacheAfter(lower, order, calls[..j]).Keys;
    var pending, rows := Pending(calls[j].users, cached), calls[j].rows[k];
    PendingMeans(calls[j].users, cached);
    var u, v :| u in pending && v in FoldedOwn(lower, order[k], u) && u.objectId == id && ref.matchedOn == order[k]
                && ref.record.sysId != "" && RowsFor(lower, order[k], rows, v) == [ref.record];
    OnlyRecordIsCarried(lower, rows, ref, u, v);
  }

  lemma OnlyRecordIsCarried(lower: Lower, rows: seq<SysUser>, ref: Ref, u: User, v: string)
    requires Folds(lower) && v in FoldedOwn(lower, ref.matchedOn, u)
    requires ref.record.sysId != "" && RowsFor(lower, ref.matchedOn, rows, v) == [ref.record]
    ensures CarriedBy(lower, rows, ref, u)
  {
    var key := ref.matchedOn;
    var value := ValueBehind(lower, key, u, v);
    assert Hit(lower, key, rows, v) == Some(ref);
    match key
    case EmployeeNumber => HitIff(lower, key, rows, (x: SysUser) => x.employeeNumber, value, ref.record);
    case Email => HitIff(lower, key, rows, (x: SysUser) => x.email, value, ref.record);
    case UserName =>
      HitIff(lower, key, rows, (x: SysUser) => x.userName, value, ref.record);
      LocalPartIs(u.userPrincipalName, value);
    case EntraId => HitIff(lower, key, rows, (x: SysUser) => x.entraId, value, ref.record);
  }

  lemma ValueBehind(lower: Lower, key: MatchKey, u: User, v: string) returns (value: string)
    requires Folds(lower) && v in FoldedOwn(lower, key, u)
    ensures value in ValuesFor(key, u) && v == lower(Strip(value)) != "" && IsQuerySafe(Strip(value))
  {
    var i :| 0 <= i < |Own(key, u)| && FoldedOwn(lower, key, u)[i] == v;
    var w := Own(key, u)[i];
    FilterMember(Map(ValuesFor(key, u), Strip), IsQuerySafe, w);
    var j :| 0 <= j < |ValuesFor(key, u)| && Map(ValuesFor(key, u), Strip)[j] == w;
    value := ValuesFor(key, u)[j];
  }

  /** A request that asks only for values of these users. */
  ghost predicate AsksFor(request: (MatchKey, seq<string>), users: seq<User>) {
    forall v | v in request.1 :: IsQuerySafe(v) && exists u | u in users :: v in Own(request.0, u)
  }

  ghost predicate AllAskFor(asked: seq<(MatchKey, seq<string>)>, from: nat, users: seq<User>) {
    from <= |asked| && forall n | from <= n < |asked| :: AsksFor(asked[n], users)
  }

  /** The requests that look up one key for these users. */
  function Requests(lower: Lower, key: MatchKey, users: seq<User>): seq<(MatchKey, seq<string>)> {
    Map(Chunks(Originals(lower, key, users), LOOKUP_CHUNK_SIZE), (c: seq<string>) => (key, c))
  }

  /** A key takes one request for every fifty values, none of them with more. */
  lemma RequestsAreFew(lower: Lower, key: MatchKey, users: seq<User>)
    ensures |Requests(lower, key, users)| == Ceil(|Originals(lower, key, users)|, 50)
    ensures forall r | r in Requests(lower, key, users) :: r.0 == key && 0 < |r.1| <= 50
  {
    ChunksCover(Originals(lower, key, users), LOOKUP_CHUNK_SIZE);
    var chunks := Chunks(Originals(lower, key, users), LOOKUP_CHUNK_SIZE);
    assert forall i | 0 <= i < |chunks| :: chunks[i] in chunks;
  }

  lemma RequestsAskForUsers(lower: Lower, key: MatchKey, users: seq<User>, among: seq<User>)
    requires forall u | u in users :: u in among
    ensures forall n | 0 <= n < |Requests(lower, key, users)| :: AsksFor(Requests(lower, key, users)[n], among)
  {
    var values := Originals(lower, key, users);
    var chunks := Chunks(values, LOOKUP_CHUNK_SIZE);
    ChunksCover(values, LOOKUP_CHUNK_SIZE);
    forall n | 0 <= n < |chunks| ensures AsksFor((key, chunks[n]), among) {
      assert chunks[n] in chunks;
      forall v | v in chunks[n] ensures IsQuerySafe(v) && exists u | u in among :: v in Own(key, u) {
        FlattenMember(chunks, v);
        OriginalsAreOwn(lower, key, users, v);
      }
    }
  }

  class UserResolver {
    const lower: Lower
    const order: seq<MatchKey>
    const client: SysUserTable
    var cache: map<string, Option<Ref>>
    /** The calls so far. */
    ghost var calls: seq<Call>

    constructor (order: seq<MatchKey>, client: SysUserTable)
      ensures this.order == order && this.client == client && Valid() && calls == []
    {
      this.lower, this.order, this.client, cache, calls := client.lower, order, client, map[], [];
    }

    ghost predicate Valid()
      reads this
    {
      lower == client.lower && Complete(order, calls) && cache == CacheAfter(lower, order, calls)
    }

    method InsertValues(cs: seq<Candidate>, own: seq<string>, id: string) returns (next: seq<Candidate>)
      ensures next == InsertAll(lower, cs, own, id)
    {
      next := cs;
      for i := 0 to |own|
        invariant next == InsertAll(lower, cs, own[..i], id)
      {
        assert own[..i + 1][..i] == own[..i];
        next := Insert(lower, next, own[i], id);
      }
      assert own[..|own|] == own;
    }

    method CandidateValues(key: MatchKey, users: seq<User>) returns (cs: seq<Candidate>)
      ensures cs == CandidatesOf(lower, key, users)
    {
      cs := [];
      for n := 0 to |users|
        invariant cs == CandidatesOf(lower, key, users[..n])
      {
        assert users[..n + 1][..n] == users[..n];
        cs := InsertValues(cs, Own(key, users[n]), users[n].objectId);
      }
      assert users[..|users|] == users;
    }

    /** Ask chunk after chunk. */
    method QueryChunks(key: MatchKey, chunks: seq<seq<string>>) returns (rows: seq<SysUser>, ghost pages: seq<seq<SysUser>>)
      requires Valid()
      modifies client
      ensures |pages| == |chunks| && rows == Flatten(pages)
      ensures client.honest ==> forall i | 0 <= i < |chunks| :: Honest(lower, key, client.table, chunks[i], pages[i])
      ensures client.asked == old(client.asked) + Map(chunks, (c: seq<string>) => (key, c))
    {
      pages := [];
      rows := [];
      for n := 0 to |chunks|
        invariant |pages| == n && rows == Flatten(pages)
        invariant client.honest ==> AllHonest(lower, key, client.table, chunks, pages)
        invariant client.asked == old(client.asked) + Map(chunks[..n], (c: seq<string>) => (key, c))
      {
        var page := client.Query(key, chunks[n]);
        FlattenOneMore(pages, page);
        if client.honest { HonestPage(lower, key, client.table, chunks, pages, page); }
        AskedOneMore(key, old(client.asked), chunks, n);
        rows, pages := rows + page, pages + [page];
      }
      assert chunks[..|chunks|] == chunks;
    }

    /** Every record returned for a list of values, chunk boundaries forgotten. */
    method QueryUsers(key: MatchKey, values: seq<string>) returns (rows: seq<SysUser>)
      requires Valid() && DistinctFolds(lower, values)
      modifies client
      ensures client.honest ==> forall v | v in values :: AgreesOn(lower, key, client.table, rows, lower(v))
      ensures client.asked == old(client.asked) + Map(Chunks(values, LOOKUP_CHUNK_SIZE), (c: seq<string>) => (key, c))
    {
      var chunks := Chunks(values, LOOKUP_CHUNK_SIZE);
      ghost var pages;
      rows, pages := QueryChunks(key, chunks);
      ChunksCover(values, LOOKUP_CHUNK_SIZE);
      if client.honest {
        forall v | v in values ensures AgreesOn(lower, key, client.table, rows, lower(v)) {
          HonestRowsAgree(lower, key, client.table, chunks, pages, v);
        }
      }
    }

    /** Group the returned records by folded value. */
    method GroupByValue(key: MatchKey, rows: seq<SysUser>) returns (byValue: map<string, seq<SysUser>>)
      ensures Grouped(lower, key, rows, byValue)
    {
      byValue := map[];
      for n := 0 to |rows|
        invariant Grouped(lower, key, rows[..n], byValue)
      {
        TakeOneMore(rows, n);
        GroupedOneMore(lower, key, rows[..n], rows[n], byValue);
        var value := Fold(lower, FieldOf(key, rows[n]));
        if value != "" {
          byValue := byValue[value := (if value in byValue then byValue[value] else []) + [rows[n]]];
        }
      }
      assert rows[..|rows|] == rows;
    }

    method MatchCandidates(key: MatchKey, cs: seq<Candidate>, rows: seq<SysUser>) returns (matched: map<string, Ref>)
      ensures matched == Matched(lower, key, cs, rows)
    {
      var byValue := GroupByValue(key, rows);
      matched := map[];
      for n := 0 to |cs|
        invariant matched == Matched(lower, key, cs[..n], rows)
      {
        assert cs[..n + 1][..n] == cs[..n];
        var carriers: seq<SysUser> := if cs[n].folded in byValue then byValue[cs[n].folded] else [];
        HitOfGroup(lower, key, rows, byValue, cs[n].folded);
        if |carriers| == 1 && carriers[0].sysId != "" {
          var ref := Ref(carriers[0], key);
          matched := matched + (map id | id in cs[n].ids && id !in matched :: ref);
        }
      }
      assert cs[..|cs|] == cs;
    }

    method ResolveByKey(key: MatchKey, users: seq<User>) returns (matched: map<string, Ref>, ghost rows: seq<SysUser>)
      requires Valid()
      modifies client
      ensures matched == MatchedByKey(lower, key, users, rows)
      ensures client.honest ==> AgreesOnAll(lower, key, client.table, users, rows)
      ensures client.asked == old(client.asked) + Requests(lower, key, users)
    {
      var cs := CandidateValues(key, users);
      if cs == [] {
        return map[], [];
      }
      OriginalsAreDistinct(lower, key, users);
      var found := QueryUsers(key, Originals(lower, key, users));
      rows := found;
      if client.honest { OriginalsAgree(lower, key, client.table, users, rows); }
      matched := MatchCandidates(key, cs, found);
    }

    /** One key of the order, over whoever is still without a match. */
    method TryKey(key: MatchKey, ghost done: seq<MatchKey>, pending: seq<User>, ghost rows: seq<seq<SysUser>>, matched: map<string, Ref>)
      returns (m: map<string, Ref>, ghost more: seq<SysUser>)
      requires Valid() && |rows| == |done| && matched == ResolveInOrder(lower, done, pending, rows)
      requires client.honest ==> HonestThroughout(lower, done, pending, rows, client.table)
      modifies client
      ensures m == ResolveInOrder(lower, done + [key], pending, rows + [more])
      ensures client.honest ==> HonestThroughout(lower, done + [key], pending, rows + [more], client.table)
      ensures old(client.asked) <= client.asked && AllAskFor(client.asked, |old(client.asked)|, pending)
    {
      var unresolved := Without(pending, matched.Keys);
      var found: map<string, Ref> := map[];
      more := [];
      if unresolved != [] {
        found, more := ResolveByKey(key, unresolved);
        WithoutMember(pending, matched.Keys);
        RequestsAskForUsers(lower, key, unresolved, pending);
      }
      ResolveSnoc(lower, done, key, pending, rows, more);
      if client.honest { HonestSnoc(lower, done, key, pending, rows, more, client.table); }
      m := matched + found;
    }

    /** Every key of the order in turn. */
    method TryKeys(pending: seq<User>) returns (matched: map<string, Ref>, ghost rows: seq<seq<SysUser>>)
      requires Valid()
      modifies client
      ensures |rows| == |order| && matched == ResolveInOrder(lower, order, pending, rows)
      ensures client.honest ==> HonestThroughout(lower, order, pending, rows, client.table)
      ensures old(client.asked) <= client.asked && AllAskFor(client.asked, |old(client.asked)|, pending)
    {
      matched := map[];
      rows := [];
      for k := 0 to |order|
        invariant old(client.asked) <= client.asked && AllAskFor(client.asked, |old(client.asked)|, pending)
        invariant |rows| == k && matched == ResolveInOrder(lower, order[..k], pending, rows)
        invariant client.honest ==> HonestThroughout(lower, order[..k], pending, rows, client.table)
      {
        ghost var more;
        assert order[..k + 1] == order[..k] + [order[k]];
        matched, more := TryKey(order[k], order[..k], pending, rows, matched);
        rows := rows + [more];
      }
      assert order[..|order|] == order;
    }

    /**
      Resolve a batch. What is cached stays as it is and is not asked about; every pending id
      gets the answer of ResolveInOrder on the rows the server gave, and None if it has none.
     */
    method ResolveMany(users: seq<User>) returns (out: map<string, Option<Ref>>, ghost rows: seq<seq<SysUser>>)
      requires Valid()
      modifies this, client
      ensures Valid() && |rows| == |order| && calls == old(calls) + [Call(users, rows)]
      ensures cache == AfterCall(lower, order, old(cache), Call(users, rows))
      ensures client.honest ==> HonestThroughout(lower, order, Pending(users, old(cache).Keys), rows, client.table)
      ensures old(client.asked) <= client.asked && AllAskFor(client.asked, |old(client.asked)|, Pending(users, old(cache).Keys))
      ensures out == map id | id in IdsOf(users) && id in cache :: cache[id]
    {
      var pending := PendingUsers(users);
      var matched;
      matched, rows := TryKeys(pending);
      cache := cache + AnswersFor(pending, matched);
      assert (calls + [Call(users, rows)])[..|calls|] == calls;
      calls := calls + [Call(users, rows)];
      out := map id | id in IdsOf(users) && id in cache :: cache[id];
    }

    method PendingUsers(users: seq<User>) returns (pending: seq<User>)
      ensures pending == Pending(users, cache.Keys)
    {
      pending := [];
      for n := 0 to |users|
        invariant pending == Pending(users[..n], cache.Keys)
      {
        assert users[..n + 1][..n] == users[..n];
        if users[n].objectId != "" && users[n].objectId !in cache {
          pending := Put(pending, users[n]);
        }
      }
      assert users[..|users|] == users;
    }
  }

  function AnswersFor(pending: seq<User>, m: map<string, Ref>): map<string, Option<Ref>> {
    map id | id in (set u | u in pending :: u.objectId) :: Given(m, id)
  }

  lemma RowsSnoc(lower: Lower, key: MatchKey, rows: seq<SysUser>, r: SysUser, v: string)
    ensures RowsFor(lower, key, rows + [r], v)
            == RowsFor(lower, key, rows, v) + (if v == Fold(lower, FieldOf(key, r)) then [r] else [])
  {
    var p := (x: SysUser) => Fold(lower, FieldOf(key, x)) == v;
    FilterConcat(rows, [r], p);
    assert Filter([r], p) == (if p(r) then [r] else []) + [];
  }

  function IdsOf(users: seq<User>): set<string> { set u | u in users && u.objectId != "" :: u.objectId }

  /** The values a batch sends: what its users carry, one per folded value. */
  function Originals(lower: Lower, key: MatchKey, users: seq<User>): seq<string> {
    Map(CandidatesOf(lower, key, users), (c: Candidate) => c.original)
  }

  lemma OriginalsAreDistinct(lower: Lower, key: MatchKey, users: seq<User>)
    ensures DistinctFolds(lower, Originals(lower, key, users))
  {
    CandidatesDescribe(lower, key, users);
  }

  lemma OriginalsAgree(lower: Lower, key: MatchKey, table: seq<SysUser>, users: seq<User>, rows: seq<SysUser>)
    requires forall v | v in Originals(lower, key, users) :: AgreesOn(lower, key, table, rows, lower(v))
    ensures AgreesOnAll(lower, key, table, users, rows)
  {
    var cs := CandidatesOf(lower, key, users);
    CandidatesDescribe(lower, key, users);
    forall i | 0 <= i < |cs| ensures AgreesOn(lower, key, table, rows, cs[i].folded) {
      assert Originals(lower, key, users)[i] in Originals(lower, key, users);
    }
  }

  /** Only the users' own safe values ever go out: with PendingMeans, nothing is asked about a cached id. */
  lemma OriginalsAreOwn(lower: Lower, key: MatchKey, users: seq<User>, v: string)
    requires v in Originals(lower, key, users)
    ensures IsQuerySafe(v) && exists u | u in users :: v in Own(key, u)
  {
    var w := Sender(lower, key, users, v);
    OwnAreSafe(key, w, v);
  }

  lemma {:induction false} Sender(lower: Lower, key: MatchKey, users: seq<User>, v: string) returns (w: User)
    requires v in Originals(lower, key, users)
    ensures w in users && v in Own(key, w)
  {
    var i :| 0 <= i < |CandidatesOf(lower, key, users)| && CandidatesOf(lower, key, users)[i].original == v;
    w := SenderAt(lower, key, users, i);
  }

  lemma {:induction false} SenderAt(lower: Lower, key: MatchKey, users: seq<User>, i: nat) returns (w: User)
    requires i < |CandidatesOf(lower, key, users)|
    ensures w in users && CandidatesOf(lower, key, users)[i].original in Own(key, w)
  {
    var n := |users| - 1;
    var cs := CandidatesOf(lower, key, users[..n]);
    DistinctCandidates(lower, key, users[..n]);
    OriginalOf(lower, cs, Own(key, users[n]), users[n].objectId, i);
    if i < |cs| { w := SenderAt(lower, key, users[..n], i); } else { w := users[n]; }
  }

  lemma DistinctCandidates(lower: Lower, key: MatchKey, users: seq<User>)
    ensures DistinctKeys(CandidatesOf(lower, key, users))
  {
    CandidatesDescribe(lower, key, users);
  }

  lemma OriginalOf(lower: Lower, cs: seq<Candidate>, values: seq<string>, id: string, i: nat)
    requires DistinctKeys(cs) && i < |InsertAll(lower, cs, values, id)|
    ensures var c := InsertAll(lower, cs, values, id)[i]; if i < |cs| then c.original == cs[i].original else c.original in values
  {
    InsertAllExtends(lower, cs, values, id);
  }

  /**
    What a call of ResolveMany on a fixed, honest directory leaves in the cache for a pending
    id: the answer that user gets alone, so neither the batch nor earlier calls matter.
   */
  lemma CachedAnswersAreAlone(lower: Lower, order: seq<MatchKey>, users: seq<User>, cached: set<string>,
                              rows: seq<seq<SysUser>>, table: seq<SysUser>, u: User)
    requires |rows| == |order| && u in Pending(users, cached)
    requires HonestThroughout(lower, order, Pending(users, cached), rows, table)
    requires StandsThroughout(lower, order, Pending(users, cached), rows, u)
    ensures var pending := Pending(users, cached); var answers := AnswersFor(pending, ResolveInOrder(lower, order, pending, rows));
            u.objectId in answers && answers[u.objectId] == Alone(lower, order, table, u)
  {
    PendingMeans(users, cached);
    BatchIsAlone(lower, order, Pending(users, cached), rows, table, u);
    AnswerOf(Pending(users, cached), ResolveInOrder(lower, order, Pending(users, cached), rows), u);
  }

  lemma AnswerOf(pending: seq<User>, m: map<string, Ref>, u: User)
    requires u in pending
    ensures u.objectId in AnswersFor(pending, m) && AnswersFor(pending, m)[u.objectId] == Given(m, u.objectId)
  {}
}
