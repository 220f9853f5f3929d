/**
  Graph JSON batching: many GETs through `/$batch`, twenty at a time, with the throttled parts
  asked again. Sub-answers are correlated by position; `server(c)(n)` is what attempt n of the
  c-th batch request meets. A reply is read without precautions: one that cannot be read ends
  the lookup, even an optional one.
 */
module BatchGet {
  import opened Json
  import opened Retry
  import opened Sequences
  import opened Wrappers

  type Key = string

  datatype Sub<B> = Sub(id: int, status: int, body: B)

  /** What became of one batch request. */
  datatype Answer<B> = Unreachable | HttpError | Unreadable | Replies(subs: seq<Sub<B>>)

  /** One batch request as it went out, and its answer. */
  datatype Call<B> = Call(keys: seq<Key>, urls: seq<string>, answer: Answer<B>)

  const BATCH_LIMIT: nat := 20

  // ---- Reading a reply ----------------------------------------------------------------

  type Fields = map<string, Json>

  /** int() of a text and dict() of a list; None is where they raise. */
  datatype Conversions = Conversions(parseInt: string -> Option<int>, pairs: seq<Json> -> Option<Fields>)

  /** int(): numbers lose their fraction. */
  function ToInt(py: Conversions, j: Json): Option<int> {
    match j
    case Number(v, _) => Some(if v >= 0.0 then v.Floor else -((-v).Floor))
    case Bool(b) => Some(One(b))
    case Str(s) => py.parseInt(s)
    case _ => None
  }

  /** dict() */
  function ToDict(py: Conversions, j: Json): Option<Fields> {
    if !Truthy(j) then Some(map[])
    else match j
      case Object(fields, _) => Some(fields)
      case List(items, _) => py.pairs(items)
      case _ => None
  }

  /** One sub-answer to a batch of n; None where reading it raises. A position outside the batch is passed over unread. */
  function ReadSub(py: Conversions, item: Json, n: nat): Option<Sub<Fields>> {
    if !item.Object? then None
    else
      var id := if "id" in item.fields then ToInt(py, item.fields["id"]) else Some(-1);
      if id.None? then None
      else if !(0 <= id.value < n) then Some(Sub(id.value, 0, map[]))
      else
        var status := if "status" in item.fields then ToInt(py, item.fields["status"]) else Some(0);
        var body := Get(item.fields, "body");
        if status.None? then None
        else if Success(status.value) then
          var dict := ToDict(py, body);
          if dict.None? then None else Some(Sub(id.value, status.value, dict.value))
        else if status.value == 404 || IsThrottle(status.value) || FieldsOf(body).Some? then Some(Sub(id.value, status.value, map[]))
        else None
  }

  function ReadSubs(py: Conversions, items: seq<Json>, n: nat): Option<seq<Sub<Fields>>> {
    if items == [] then Some([])
    else
      var front := ReadSubs(py, items[..|items| - 1], n);
      var last := ReadSub(py, items[|items| - 1], n);
      if front.None? || last.None? then None else Some(front.value + [last.value])
  }

  /** A 2xx body. */
  function ReadReply(py: Conversions, body: Body, n: nat): Answer<Fields> {
    if body.None? || !body.value.Object? then Unreadable
    else if "responses" !in body.value.fields then Replies([])
    else
      var responses := body.value.fields["responses"];
      var subs := if responses.List? then ReadSubs(py, responses.items, n)
                  else if Iterable(responses) && !Truthy(responses) then Some([])
                  else None;
      if subs.None? then Unreadable else Replies(subs.value)
  }

  /** What a batch request for n urls comes to. */
  function AnswerOf(py: Conversions, outcome: Outcome<Body>, n: nat): Answer<Fields> {
    match outcome
    case Raised(_) => Unreachable
    case Returned(r) => if r.Response? && Success(r.status) then ReadReply(py, r.body, n) else HttpError
  }

  /** What is read of a sub-answer that stands at a position of the batch: its own id and status, and for a 2xx its own body. */
  lemma SubIsRead(py: Conversions, item: Json, n: nat)
    requires ReadSub(py, item, n).Some? && 0 <= ReadSub(py, item, n).value.id < n
    ensures var sub := ReadSub(py, item, n).value;
            && item.Object? && "id" in item.fields && ToInt(py, item.fields["id"]) == Some(sub.id)
            && (if "status" in item.fields then ToInt(py, item.fields["status"]) == Some(sub.status) else sub.status == 0)
            && (200 <= sub.status < 300 && Get(item.fields, "body").Object? ==> sub.body == Get(item.fields, "body").fields)
  {}

  /**
    Where reading a sub-answer raises: no object, an id that is no number, or, at a position of
    the batch, a status that is none, a 2xx body that makes no dictionary, or a body without
    fields where they are looked into for an error.
   */
  lemma SubRaisesIff(py: Conversions, item: Json, n: nat)
    ensures ReadSub(py, item, n).None? <==>
              || !item.Object?
              || ("id" in item.fields
                  && (ToInt(py, item.fields["id"]).None?
                      || (0 <= ToInt(py, item.fields["id"]).value < n
                          && (("status" in item.fields && ToInt(py, item.fields["status"]).None?)
                              || var status := if "status" in item.fields then ToInt(py, item.fields["status"]).value else 0;
                                 var body := Get(item.fields, "body");
                                 Truthy(body) && !body.Object?
                                 && (if 200 <= status < 300 then !(body.List? && py.pairs(body.items).Some?) else status !in {404, 429, 503, 504})))))
  {}

  /** Where reading a whole reply does: no JSON object, or `responses` that cannot be gone through, or one of them that cannot be read. */
  lemma ReplyRaisesIff(py: Conversions, body: Body, n: nat)
    ensures ReadReply(py, body, n).Unreadable? <==>
              || body.None? || !body.value.Object?
              || ("responses" in body.value.fields
                  && var responses := body.value.fields["responses"];
                     if responses.List? then exists i | 0 <= i < |responses.items| :: ReadSub(py, responses.items[i], n).None?
                     else Truthy(responses) || !(responses.Str? || responses.Object?))
  {
    if body.Some? && body.value.Object? && "responses" in body.value.fields && body.value.fields["responses"].List? {
      RepliesAreRead(py, body.value.fields["responses"].items, n);
    }
  }

  /** int() drops the fraction, towards zero. */
  lemma IntTruncates(py: Conversions, v: real, text: string)
    ensures ToInt(py, Number(v, text)).Some?
    ensures var n := ToInt(py, Number(v, text)).value as real; if v >= 0.0 then v - 1.0 < n <= v else v <= n < v + 1.0
  {}

  /** A reply whose sub-answers stand in a list is read answer by answer, each in its place; without any it holds none. */
  lemma {:induction false} RepliesAreRead(py: Conversions, items: seq<Json>, n: nat)
    ensures ReadSubs(py, items, n).None? <==> exists i | 0 <= i < |items| :: ReadSub(py, items[i], n).None?
    ensures ReadSubs(py, items, n).Some? ==> |ReadSubs(py, items, n).value| == |items|
                                             && forall i | 0 <= i < |items| :: ReadSub(py, items[i], n) == Some(ReadSubs(py, items, n).value[i])
  {
    if items != [] {
      RepliesAreRead(py, items[..|items| - 1], n);
      assert forall i | 0 <= i < |items| - 1 :: items[..|items| - 1][i] == items[i];
    }
  }

  predicate IsThrottle(status: int) { status in {429, 503, 504} }

  /** The server answers no sub-request twice. */
  predicate AnsweredOnce<B>(subs: seq<Sub<B>>) {
    forall i, j | 0 <= i < j < |subs| && subs[i].id >= 0 :: subs[i].id != subs[j].id
  }

  predicate InChunk<B>(keys: seq<Key>, s: Sub<B>) { 0 <= s.id < |keys| }

  /** The keys asked for again, in the order the answers came. */
  function ThrottledBy<B>(keys: seq<Key>, subs: seq<Sub<B>>): seq<Key> {
    if subs == [] then []
    else
      var s := subs[|subs| - 1];
      ThrottledBy(keys, subs[..|subs| - 1]) + (if InChunk(keys, s) && IsThrottle(s.status) then [keys[s.id]] else [])
  }

  function ResolvedBy<B>(keys: seq<Key>, subs: seq<Sub<B>>): map<Key, B> {
    if subs == [] then map[]
    else
      var s := subs[|subs| - 1];
      var before := ResolvedBy(keys, subs[..|subs| - 1]);
      if InChunk(keys, s) && Success(s.status) then before[keys[s.id] := s.body] else before
  }

  function SubsOf<B>(c: Call<B>): seq<Sub<B>> { SubsOfAnswer(c.answer) }

  function Throttled<B>(c: Call<B>): seq<Key> { ThrottledBy(c.keys, SubsOf(c)) }

  function Asked<B>(round: seq<Call<B>>): seq<Key> {
    if round == [] then [] else Asked(round[..|round| - 1]) + round[|round| - 1].keys
  }

  function ThrottledIn<B>(round: seq<Call<B>>): seq<Key> {
    if round == [] then [] else ThrottledIn(round[..|round| - 1]) + Throttled(round[|round| - 1])
  }

  function ResolvedIn<B>(round: seq<Call<B>>): map<Key, B> {
    if round == [] then map[]
    else ResolvedIn(round[..|round| - 1]) + ResolvedBy(round[|round| - 1].keys, SubsOf(round[|round| - 1]))
  }

  function ResolvedOver<B>(rounds: seq<seq<Call<B>>>): map<Key, B> {
    if rounds == [] then map[] else ResolvedOver(rounds[..|rounds| - 1]) + ResolvedIn(rounds[|rounds| - 1])
  }

  // ---- One answer -----------------------------------------------------------------

  /** A key throttled by an answer was throttled at its own position, and at most once. */
  ghost predicate Throttles<B>(keys: seq<Key>, s: Sub<B>, k: Key) {
    InChunk(keys, s) && IsThrottle(s.status) && keys[s.id] == k
  }

  lemma {:induction false} ThrottledMember<B>(keys: seq<Key>, subs: seq<Sub<B>>, k: Key)
    ensures k in ThrottledBy(keys, subs) <==> exists i | 0 <= i < |subs| :: Throttles(keys, subs[i], k)
  {
    if subs != [] {
      var n := |subs| - 1;
      ThrottledMember(keys, subs[..n], k);
      assert forall i | 0 <= i < n :: subs[..n][i] == subs[i];
    }
  }

  lemma {:induction false} ThrottledMeans<B>(keys: seq<Key>, subs: seq<Sub<B>>)
    requires Distinct(keys) && AnsweredOnce(subs)
    ensures Distinct(ThrottledBy(keys, subs)) && |ThrottledBy(keys, subs)| <= |keys|
    ensures forall k :: k in ThrottledBy(keys, subs) <==> exists i | 0 <= i < |subs| :: Throttles(keys, subs[i], k)
  {
    forall k ensures k in ThrottledBy(keys, subs) <==> exists i | 0 <= i < |subs| :: Throttles(keys, subs[i], k) {
      ThrottledMember(keys, subs, k);
    }
    if subs != [] {
      var front, s := subs[..|subs| - 1], subs[|subs| - 1];
      assert forall i | 0 <= i < |front| :: subs[i] == front[i];
      ThrottledMeans(keys, front);
      if InChunk(keys, s) && IsThrottle(s.status) {
        ThrottledMember(keys, front, keys[s.id]);
        assert keys[s.id] !in ThrottledBy(keys, front);
      }
    }
    DistinctWithin(ThrottledBy(keys, subs), keys);
  }

  lemma {:induction false} DistinctWithin(a: seq<Key>, b: seq<Key>)
    requires Distinct(a) && forall k | k in a :: k in b
    ensures |a| <= |b|
  {
    var sa, sb := set k | k in a, set k | k in b;
    DistinctSize(a);
    SetSize(b);
    assert sa <= sb;
    assert sb == sa + (sb - sa);
  }

  lemma {:induction false} DistinctSize(a: seq<Key>)
    requires Distinct(a)
    ensures |set k | k in a| == |a|
  {
    if a != [] {
      DistinctSize(a[1..]);
      assert (set k | k in a) == {a[0]} + set k | k in a[1..];
    }
  }

  lemma {:induction false} SetSize(a: seq<Key>)
    ensures |set k | k in a| <= |a|
  {
    if a != [] {
      SetSize(a[1..]);
      assert (set k | k in a) == {a[0]} + set k | k in a[1..];
    }
  }

  /** A body is filed under the key at the position the server answered, and only there. */
  lemma {:induction false} ResolvedMeans<B>(keys: seq<Key>, subs: seq<Sub<B>>)
    requires Distinct(keys) && AnsweredOnce(subs)
    ensures forall k :: k in ResolvedBy(keys, subs) <==>
              exists i | 0 <= i < |subs| :: InChunk(keys, subs[i]) && Success(subs[i].status) && keys[subs[i].id] == k
    ensures forall i | 0 <= i < |subs| && InChunk(keys, subs[i]) && Success(subs[i].status) ::
              keys[subs[i].id] in ResolvedBy(keys, subs) && ResolvedBy(keys, subs)[keys[subs[i].id]] == subs[i].body
  {
    if subs != [] {
      var front := subs[..|subs| - 1];
      assert forall i | 0 <= i < |front| :: subs[i] == front[i];
      ResolvedMeans(keys, front);
    }
  }

  /** In the status itself: which keys are asked again, and which are answered. */
  lemma StatusDecides<B>(keys: seq<Key>, subs: seq<Sub<B>>, k: Key)
    requires Distinct(keys) && AnsweredOnce(subs)
    ensures k in ThrottledBy(keys, subs) <==>
              exists i | 0 <= i < |subs| :: 0 <= subs[i].id < |keys| && keys[subs[i].id] == k && subs[i].status in {429, 503, 504}
    ensures k in ResolvedBy(keys, subs) <==>
              exists i | 0 <= i < |subs| :: 0 <= subs[i].id < |keys| && keys[subs[i].id] == k && 200 <= subs[i].status < 300
  {
    ThrottledMember(keys, subs, k);
    ResolvedMeans(keys, subs);
    if i :| 0 <= i < |subs| && 0 <= subs[i].id < |keys| && keys[subs[i].id] == k && subs[i].status in {429, 503, 504} {
      assert Throttles(keys, subs[i], k);
    }
  }

  // ---- One round --------------------------------------------------------------------

  ghost predicate RoundOk<B>(round: seq<Call<B>>) {
    Distinct(Asked(round)) && AnsweredRound(round)
  }

  /** The server answers each sub-request of the round at most once. */
  ghost predicate AnsweredRound<B>(round: seq<Call<B>>) { forall c | c in round :: AnsweredOnce(SubsOf(c)) }

  lemma DistinctParts(a: seq<Key>, b: seq<Key>)
    requires Distinct(a + b)
    ensures Distinct(a) && Distinct(b) && forall k | k in a :: k !in b
  {
    var s := a + b;
    assert forall i | 0 <= i < |a| :: s[i] == a[i];
    assert forall i | 0 <= i < |b| :: s[|a| + i] == b[i];
    forall i, j | 0 <= i < |a| && 0 <= j < |b| ensures a[i] != b[j] { assert s[i] != s[|a| + j]; }
    forall i, j | 0 <= i < j < |b| ensures b[i] != b[j] { assert s[|a| + i] != s[|a| + j]; }
  }

  lemma DistinctConcat(a: seq<Key>, b: seq<Key>)
    requires Distinct(a) && Distinct(b) && forall k | k in a :: k !in b
    ensures Distinct(a + b)
  {
    var s := a + b;
    forall i, j | 0 <= i < j < |s| ensures s[i] != s[j] {
      if i < |a| && j >= |a| { assert s[i] in a && s[j] == b[j - |a|]; }
    }
  }

  lemma RoundFront<B>(round: seq<Call<B>>)
    requires round != [] && RoundOk(round)
    ensures var front, c := round[..|round| - 1], round[|round| - 1];
            && RoundOk(front) && Distinct(c.keys) && AnsweredOnce(SubsOf(c)) && (forall k | k in Asked(front) :: k !in c.keys)
  {
    DistinctParts(Asked(round[..|round| - 1]), round[|round| - 1].keys);
  }

  /** Throttled keys are among those asked, each once: rounds never grow. */
  lemma {:induction false} ThrottledShrinks<B>(round: seq<Call<B>>)
    requires RoundOk(round)
    ensures Distinct(ThrottledIn(round)) && |ThrottledIn(round)| <= |Asked(round)|
    ensures forall k | k in ThrottledIn(round) :: k in Asked(round)
  {
    if round != [] {
      var front, c := round[..|round| - 1], round[|round| - 1];
      RoundFront(round);
      ThrottledShrinks(front);
      ThrottledMeans(c.keys, SubsOf(c));
      var a, b := ThrottledIn(front), Throttled(c);
      DistinctConcat(a, b);
    }
  }

  // ---- What became of a key ------------------------------------------------------------

  /** Absent: a 404, another failure, or no answer in a batch that was answered. */
  datatype Verdict<B> = NotAsked | Resolved(body: B) | Throttle | Absent | LostWithItsBatch

  function CallVerdict<B>(c: Call<B>, k: Key): Verdict<B> {
    if !c.answer.Replies? then LostWithItsBatch
    else if k in ResolvedBy(c.keys, c.answer.subs) then Resolved(ResolvedBy(c.keys, c.answer.subs)[k])
    else if k in Throttled(c) then Throttle
    else Absent
  }

  function RoundVerdict<B>(round: seq<Call<B>>, k: Key): Verdict<B> {
    if round == [] then NotAsked
    else if k in round[|round| - 1].keys then CallVerdict(round[|round| - 1], k)
    else RoundVerdict(round[..|round| - 1], k)
  }

  /** The verdict of the last round that asked. */
  function FinalVerdict<B>(rounds: seq<seq<Call<B>>>, k: Key): Verdict<B> {
    if rounds == [] then NotAsked
    else if k in Asked(rounds[|rounds| - 1]) then RoundVerdict(rounds[|rounds| - 1], k)
    else FinalVerdict(rounds[..|rounds| - 1], k)
  }

  /** In one call a key is resolved or throttled, never both, and only if it was in the call. */
  lemma CallIsConsistent<B>(c: Call<B>, k: Key)
    requires Distinct(c.keys) && AnsweredOnce(SubsOf(c))
    ensures k in ResolvedBy(c.keys, SubsOf(c)) ==> k in c.keys && k !in Throttled(c)
    ensures k in Throttled(c) ==> k in c.keys
    ensures k in c.keys ==> (k in ResolvedBy(c.keys, SubsOf(c)) <==> CallVerdict(c, k).Resolved?)
    ensures k in c.keys ==> (k in Throttled(c) <==> CallVerdict(c, k).Throttle?)
  {
    ThrottledMeans(c.keys, SubsOf(c));
    ResolvedMeans(c.keys, SubsOf(c));
  }

  lemma {:induction false} RoundIsConsistent<B>(round: seq<Call<B>>, k: Key)
    requires RoundOk(round)
    ensures k in Asked(round) <==> RoundVerdict(round, k) != NotAsked
    ensures k in ResolvedIn(round) <==> RoundVerdict(round, k).Resolved?
    ensures k in ResolvedIn(round) ==> RoundVerdict(round, k) == Resolved(ResolvedIn(round)[k])
    ensures k in ThrottledIn(round) <==> RoundVerdict(round, k).Throttle?
  {
    if round != [] {
      var front, c := round[..|round| - 1], round[|round| - 1];
      RoundFront(round);
      RoundIsConsistent(front, k);
      CallIsConsistent(c, k);
    }
  }

  /** What a run asks next: everything at first, then exactly what the last round had throttled. */
  function Next<B>(keys: seq<Key>, rounds: seq<seq<Call<B>>>): seq<Key> {
    if rounds == [] then keys else ThrottledIn(rounds[|rounds| - 1])
  }

  /** The rounds of one _batch_get. */
  ghost predicate IsRun<B>(keys: seq<Key>, rounds: seq<seq<Call<B>>>) {
    if rounds == [] then Distinct(keys)
    else
      var front, last := rounds[..|rounds| - 1], rounds[|rounds| - 1];
      IsRun(keys, front) && AnsweredRound(last) && Asked(last) == Next(keys, front)
  }

  /** A round asks each key at most once, and only keys that were wanted. */
  ghost predicate Within<B>(keys: seq<Key>, round: seq<Call<B>>) {
    RoundOk(round) && |Asked(round)| <= |keys| && forall k | k in Asked(round) :: k in keys
  }

  lemma {:induction false} LastRoundOk<B>(keys: seq<Key>, rounds: seq<seq<Call<B>>>)
    requires IsRun(keys, rounds) && rounds != []
    ensures Distinct(keys) && Within(keys, rounds[|rounds| - 1])
  {
    var n := |rounds| - 1;
    var front := rounds[..n];
    if n > 0 {
      assert front[n - 1] == rounds[n - 1];
      LastRoundOk(keys, front);
      NextRoundOk(keys, rounds[n - 1], rounds[n]);
    }
  }

  lemma {:induction false} RoundsAreOk<B>(keys: seq<Key>, rounds: seq<seq<Call<B>>>, i: nat)
    requires IsRun(keys, rounds) && i < |rounds|
    ensures Within(keys, rounds[i]) && (i > 0 ==> Asked(rounds[i]) == ThrottledIn(rounds[i - 1]))
  {
    var n := |rounds| - 1;
    if i == n {
      LastRoundOk(keys, rounds);
      assert i > 0 ==> rounds[..n][n - 1] == rounds[n - 1];
    } else {
      RoundsAreOk(keys, rounds[..n], i);
    }
  }

  lemma NextRoundOk<B>(keys: seq<Key>, before: seq<Call<B>>, round: seq<Call<B>>)
    requires Within(keys, before) && Asked(round) == ThrottledIn(before) && AnsweredRound(round)
    ensures Within(keys, round)
  {
    ThrottledShrinks(before);
  }

  /** A key asked in a later round was throttled in every round before: no other answer is asked for twice. */
  lemma AskedAgainOnlyIfThrottled<B>(keys: seq<Key>, rounds: seq<seq<Call<B>>>, i: nat, j: nat, k: Key)
    requires IsRun(keys, rounds) && i < j < |rounds| && k in Asked(rounds[j])
    ensures k in Asked(rounds[i]) && RoundVerdict(rounds[i], k).Throttle?
  {
    forall m ensures Linked(rounds, m, k) {
      if 0 < m < |rounds| && k in Asked(rounds[m]) { AskedBefore(keys, rounds, m, k); }
    }
    DownTheLinks(rounds, i, j, k);
  }

  ghost predicate Linked<B>(rounds: seq<seq<Call<B>>>, m: int, k: Key) {
    0 < m < |rounds| && k in Asked(rounds[m]) ==> k in Asked(rounds[m - 1]) && RoundVerdict(rounds[m - 1], k).Throttle?
  }

  lemma {:induction false} DownTheLinks<B>(rounds: seq<seq<Call<B>>>, i: nat, j: nat, k: Key)
    requires i < j < |rounds| && k in Asked(rounds[j]) && forall m :: Linked(rounds, m, k)
    ensures k in Asked(rounds[i]) && RoundVerdict(rounds[i], k).Throttle?
  {
    assert Linked(rounds, j, k);
    if i < j - 1 { DownTheLinks(rounds, i, j - 1, k); }
  }

  lemma AskedBefore<B>(keys: seq<Key>, rounds: seq<seq<Call<B>>>, j: nat, k: Key)
    requires IsRun(keys, rounds) && 0 < j < |rounds| && k in Asked(rounds[j])
    ensures k in Asked(rounds[j - 1]) && RoundVerdict(rounds[j - 1], k).Throttle?
  {
    RoundsAreOk(keys, rounds, j);
    RoundsAreOk(keys, rounds, j - 1);
    ThrottledShrinks(rounds[j - 1]);
    RoundIsConsistent(rounds[j - 1], k);
  }

  /**
    Every url ends with exactly one verdict, that of the last round that asked for it; the
    result holds exactly the resolved ones, each with its own body; and what is still
    throttled is what the last round left.
   */
  lemma {:induction false} EveryKeyHasOneVerdict<B>(keys: seq<Key>, rounds: seq<seq<Call<B>>>, k: Key)
    requires IsRun(keys, rounds) && rounds != []
    ensures k in keys <==> FinalVerdict(rounds, k) != NotAsked
    ensures k in ResolvedOver(rounds) <==> FinalVerdict(rounds, k).Resolved?
    ensures k in ResolvedOver(rounds) ==> FinalVerdict(rounds, k) == Resolved(ResolvedOver(rounds)[k])
    ensures k in ThrottledIn(rounds[|rounds| - 1]) <==> FinalVerdict(rounds, k).Throttle?
  {
    var n := |rounds| - 1;
    var front, last := rounds[..n], rounds[n];
    LastRoundOk(keys, rounds);
    RoundIsConsistent(last, k);
    if n > 0 {
      EveryKeyHasOneVerdict(keys, front, k);
      assert front[|front| - 1] == rounds[n - 1];
      if k in Asked(last) {
        assert FinalVerdict(front, k).Throttle? && k !in ResolvedOver(front);
      }
    } else {
      assert front == [];
    }
  }

  /** A resolved body is what the server sent for the position at which that very url stood. */
  lemma {:induction false} BodiesBelong<B>(rounds: seq<seq<Call<B>>>, urls: map<Key, string>, keys: seq<Key>, k: Key)
    requires IsRun(keys, rounds) && rounds != [] && k in ResolvedOver(rounds)
    requires RoundsMatch(rounds, urls)
    ensures exists i, c, n: nat | 0 <= i < |rounds| && c in rounds[i] :: AnswersUrl(c, n, urls, k, ResolvedOver(rounds)[k])
  {
    var i, c, n := BodyOf(rounds, urls, keys, k);
  }

  lemma {:induction false} BodyOf<B>(rounds: seq<seq<Call<B>>>, urls: map<Key, string>, keys: seq<Key>, k: Key)
    returns (i: nat, c: Call<B>, n: nat)
    requires IsRun(keys, rounds) && rounds != [] && k in ResolvedOver(rounds) && RoundsMatch(rounds, urls)
    ensures i < |rounds| && c in rounds[i] && AnswersUrl(c, n, urls, k, ResolvedOver(rounds)[k])
  {
    var last := |rounds| - 1;
    if k in ResolvedIn(rounds[last]) {
      i := last;
      LastRoundOk(keys, rounds);
      c, n := BodyInRound(rounds[last], k);
      assert UrlsMatch(c, urls);
    } else {
      assert forall j | 0 <= j < last :: rounds[..last][j] == rounds[j];
      i, c, n := BodyOf(rounds[..last], urls, keys, k);
    }
  }

  /** The n-th sub-answer of a call succeeded with this body, at the position where k's url was asked. */
  predicate AnswersUrl<B(==)>(c: Call<B>, n: nat, urls: map<Key, string>, k: Key, body: B) {
    && n < |SubsOf(c)| && Success(SubsOf(c)[n].status) && SubsOf(c)[n].body == body
    && InChunk(c.keys, SubsOf(c)[n]) && |c.urls| == |c.keys|
    && c.keys[SubsOf(c)[n].id] == k && k in urls && c.urls[SubsOf(c)[n].id] == urls[k]
  }

  ghost predicate UrlsMatch<B>(c: Call<B>, urls: map<Key, string>) {
    |c.urls| == |c.keys| && forall i | 0 <= i < |c.keys| :: c.keys[i] in urls && c.urls[i] == urls[c.keys[i]]
  }

  lemma {:induction false} BodyInRound<B>(round: seq<Call<B>>, k: Key) returns (c: Call<B>, n: nat)
    requires RoundOk(round) && k in ResolvedIn(round)
    ensures c in round && n < |SubsOf(c)| && InChunk(c.keys, SubsOf(c)[n]) && Success(SubsOf(c)[n].status)
    ensures c.keys[SubsOf(c)[n].id] == k && SubsOf(c)[n].body == ResolvedIn(round)[k]
  {
    var front, last := round[..|round| - 1], round[|round| - 1];
    RoundFront(round);
    ResolvedMeans(last.keys, SubsOf(last));
    if k in ResolvedBy(last.keys, SubsOf(last)) {
      c := last;
      n :| n < |SubsOf(c)| && InChunk(c.keys, SubsOf(c)[n]) && Success(SubsOf(c)[n].status) && c.keys[SubsOf(c)[n].id] == k;
    } else {
      c, n := BodyInRound(front, k);
    }
  }

  // ---- Cost ------------------------------------------------------------------------------

  function Calls<B>(rounds: seq<seq<Call<B>>>): nat {
    if rounds == [] then 0 else Calls(rounds[..|rounds| - 1]) + |rounds[|rounds| - 1]|
  }

  lemma {:induction false} CeilMonotone(m: nat, n: nat, size: nat)
    requires m <= n && size > 0
    ensures Ceil(m, size) <= Ceil(n, size)
  {
    if m > size { CeilMonotone(m - size, n - size, size); }
  }

  /** Each round sends its urls in full chunks of twenty. */
  ghost predicate InFullChunks<B>(rounds: seq<seq<Call<B>>>) {
    forall i | 0 <= i < |rounds| :: |rounds[i]| == Ceil(|Asked(rounds[i])|, BATCH_LIMIT)
  }

  /** k rounds of a run over n urls take at most k * ceil(n / 20) batch requests. */
  lemma {:induction false} CallsAreFew<B>(keys: seq<Key>, rounds: seq<seq<Call<B>>>)
    requires IsRun(keys, rounds)
    requires InFullChunks(rounds)
    ensures Calls(rounds) <= |rounds| * Ceil(|keys|, BATCH_LIMIT)
  {
    if rounds != [] {
      var n := |rounds| - 1;
      assert forall i | 0 <= i < n :: rounds[..n][i] == rounds[i];
      CallsAreFew(keys, rounds[..n]);
      RoundsAreOk(keys, rounds, n);
      CeilMonotone(|Asked(rounds[n])|, |keys|, BATCH_LIMIT);
      OneMore(n, Ceil(|keys|, BATCH_LIMIT));
    }
  }

  /** The pause before round n + 1, in seconds. */
  function RoundBackoff(n: nat): nat { if TwoTo(n) < 60 then TwoTo(n) else 60 }

  lemma OneMore(n: nat, c: nat)
    ensures (n + 1) * c == n * c + c
  {}

  lemma TimesMonotone(a: nat, b: nat, c: nat)
    requires a <= b
    ensures a * c <= b * c && c * a <= c * b
  {}

  // ---- The loop -----------------------------------------------------------------------------

  /** How a run ended. Failed is an exception: that of a required batch, or of reading a reply. */
  datatype Result<B> = Bodies(resolved: map<Key, B>) | Failed

  /** A batch request that ends the lookup. */
  predicate Fatal<B>(required: bool, c: Call<B>) { c.answer.Unreadable? || (required && !c.answer.Replies?) }

  /** The c-th call was answered as `meets` says. */
  ghost predicate AllMet(cs: seq<Call<Fields>>, meets: (nat, nat) -> Answer<Fields>) {
    forall c: nat | c < |cs| :: cs[c].answer == meets(c, |cs[c].keys|)
  }

  lemma OneMoreMet(cs: seq<Call<Fields>>, call: Call<Fields>, meets: (nat, nat) -> Answer<Fields>)
    requires AllMet(cs, meets) && call.answer == meets(|cs|, |call.keys|)
    ensures AllMet(cs + [call], meets)
  {}

  lemma SendsGrow(maxRetries: nat, calls: nat, sends: nat, used: nat)
    requires sends <= (maxRetries + 1) * calls && used <= maxRetries + 1
    ensures sends + used <= (maxRetries + 1) * (calls + 1)
  {
    assert (maxRetries + 1) * (calls + 1) == (maxRetries + 1) * calls + (maxRetries + 1);
  }

  predicate NoneFatal<B>(required: bool, cs: seq<Call<B>>) { forall i | 0 <= i < |cs| :: !Fatal(required, cs[i]) }

  class GraphClient {
    const maxRetries: nat
    const py: Conversions
    /** Attempt n of the c-th batch request, and the jitter of its back-off. */
    const server: nat -> nat -> Attempt<Body>
    const jitter: nat -> real
    const now: real
    var calls: nat
    var sends: nat
    var sleeps: seq<nat>
    /** Every batch request made so far, in order. */
    ghost var met: seq<Call<Fields>>

    /** What the c-th batch request comes to, when it is for n urls. */
    function Meets(c: nat, n: nat): Answer<Fields> { AnswerIn(py, maxRetries, server(c), n) }

    ghost predicate Valid()
      reads this
    {
      && (forall c, n :: AnsweredOnce(SubsOfAnswer(Meets(c, n))))
      && (forall n :: 0.0 <= jitter(n) <= 1.0)
      && sends <= (maxRetries + 1) * calls
      && |met| == calls && AllMet(met, Meets) && forall c | c in met :: |c.keys| <= 20
    }

    constructor (maxRetries: nat, py: Conversions, server: nat -> nat -> Attempt<Body>, jitter: nat -> real, now: real)
      requires forall c, n :: AnsweredOnce(SubsOfAnswer(AnswerIn(py, maxRetries, server(c), n)))
      requires forall n :: 0.0 <= jitter(n) <= 1.0
      ensures Valid() && calls == 0 && sends == 0 && sleeps == [] && met == []
      ensures this.maxRetries == maxRetries && this.py == py && this.server == server
    {
      this.maxRetries, this.py, this.server, this.jitter, this.now := maxRetries, py, server, jitter, now;
      calls, sends, sleeps, met := 0, 0, [], [];
    }

    /** One batch request, through the retry loop. */
    method Post(keys: seq<Key>, urls: map<Key, string>) returns (answer: Answer<Fields>, ghost call: Call<Fields>)
      requires Valid() && |keys| <= 20 && forall k | k in keys :: k in urls
      modifies this
      ensures Valid() && calls == old(calls) + 1 && sleeps == old(sleeps) && met == old(met) + [call]
      ensures call.keys == keys && call.answer == answer && UrlsMatch(call, urls) && AnsweredOnce(SubsOf(call))
    {
      var outcome, used, _ := Request(server(calls), jitter, now, maxRetries, None);
      answer := AnswerOf(py, outcome, |keys|);
      assert answer == Meets(calls, |keys|);
      call := Call(keys, seq(|keys|, i requires 0 <= i < |keys| => urls[keys[i]]), answer);
      assert AnsweredOnce(SubsOfAnswer(answer));
      SendsGrow(maxRetries, calls, sends, used);
      OneMoreMet(met, call, Meets);
      calls, sends, met := calls + 1, sends + used, met + [call];
    }

    method HandleReplies(keys: seq<Key>, subs: seq<Sub<Fields>>, resolved0: map<Key, Fields>, throttled0: seq<Key>)
      returns (resolved: map<Key, Fields>, throttled: seq<Key>)
      ensures resolved == resolved0 + ResolvedBy(keys, subs) && throttled == throttled0 + ThrottledBy(keys, subs)
    {
      resolved, throttled := resolved0, throttled0;
      for n := 0 to |subs|
        invariant resolved == resolved0 + ResolvedBy(keys, subs[..n])
        invariant throttled == throttled0 + ThrottledBy(keys, subs[..n])
      {
        assert subs[..n + 1][..n] == subs[..n];
        var s := subs[n];
        if 0 <= s.id < |keys| {
          if 200 <= s.status < 300 {
            resolved := resolved[keys[s.id] := s.body];
          } else if IsThrottle(s.status) {
            throttled := throttled + [keys[s.id]];
          }
        }
      }
      assert subs[..|subs|] == subs;
    }

    /** One chunk. ok is false where it ends the lookup. */
    method AskChunk(keys: seq<Key>, urls: map<Key, string>, required: bool, resolved0: map<Key, Fields>, throttled0: seq<Key>)
      returns (ok: bool, resolved: map<Key, Fields>, throttled: seq<Key>, ghost call: Call<Fields>)
      requires Valid() && |keys| <= 20 && forall k | k in keys :: k in urls
      modifies this
      ensures Valid() && sleeps == old(sleeps) && calls == old(calls) + 1 && met == old(met) + [call]
      ensures call.keys == keys && UrlsMatch(call, urls) && AnsweredOnce(SubsOf(call))
      ensures ok == !Fatal(required, call)
      ensures resolved == resolved0 + ResolvedBy(keys, SubsOf(call)) && throttled == throttled0 + Throttled(call)
    {
      var answer;
      answer, call := Post(keys, urls);
      resolved, throttled := resolved0, throttled0;
      match answer
      case Replies(subs) =>
        resolved, throttled := HandleReplies(keys, subs, resolved0, throttled0);
        ok := true;
      case Unreadable => ok := false;
      case _ => ok := !required;
    }

    /** Ask for everything pending, chunk by chunk, until a batch request ends the lookup. */
    method Round(pending: seq<Key>, urls: map<Key, string>, required: bool, resolved0: map<Key, Fields>)
      returns (ok: bool, resolved: map<Key, Fields>, throttled: seq<Key>, ghost round: seq<Call<Fields>>)
      requires Valid() && forall k | k in pending :: k in urls
      modifies this
      ensures Valid() && sleeps == old(sleeps) && met == old(met) + round
      ensures RoundSofar(urls, resolved0, round, resolved, throttled) && |round| <= Ceil(|pending|, BATCH_LIMIT)
      ensures ok ==> Asked(round) == pending && |round| == Ceil(|pending|, BATCH_LIMIT)
      ensures ok == NoneFatal(required, round)
    {
      ok, resolved, throttled, round := true, resolved0, [], [];
      var chunks := Chunks(pending, BATCH_LIMIT);
      ChunksCover(pending, BATCH_LIMIT);
      for n := 0 to |chunks|
        invariant Valid() && sleeps == old(sleeps) && met == old(met) + round && |round| == n && ok
        invariant Asked(round) == Flatten(chunks[..n]) && NoneFatal(required, round)
        invariant RoundSofar(urls, resolved0, round, resolved, throttled)
      {
        forall k | k in chunks[n] ensures k in urls { FlattenMember(chunks, k); }
        ghost var call;
        ok, resolved, throttled, call := AskChunk(chunks[n], urls, required, resolved, throttled);
        FlattenSnoc(chunks, n);
        CallDone(urls, required, resolved0, round, call);
        ConcatAssociates(old(met), round, [call]);
        round := round + [call];
        if !ok {
          return;
        }
      }
      assert chunks[..|chunks|] == chunks;
    }

    /** Round after round while anything is throttled and retries remain; a round that was cut short is kept apart. */
    method GetRounds(keys: seq<Key>, urls: map<Key, string>, required: bool)
      returns (ok: bool, resolved: map<Key, Fields>, ghost pending: seq<Key>,
               ghost rounds: seq<seq<Call<Fields>>>, ghost cut: seq<Call<Fields>>)
      requires Valid() && met == [] && sleeps == []
      requires Distinct(keys) && urls.Keys == set k | k in keys
      modifies this
      ensures Valid() && Between(keys, urls, required, rounds, resolved, pending, Flatten(rounds)) && met == Flatten(rounds) + cut
      ensures |cut| <= Ceil(|keys|, BATCH_LIMIT) && ok == NoneFatal(required, met) && (keys == [] ==> rounds == []) && (keys != [] ==> met != [])
      ensures |rounds| <= maxRetries + 1 && if ok then cut == [] && (|rounds| <= maxRetries ==> pending == []) else |rounds| <= maxRetries
      ensures |sleeps| <= maxRetries && Pauses(sleeps, |sleeps|)
    {
      ok, resolved, rounds, cut := true, map[], [], [];
      var attempt, asking := 0, keys;
      pending := asking;
      while attempt <= maxRetries && asking != []
        invariant Valid() && 0 <= attempt <= maxRetries + 1 && |rounds| == attempt && pending == asking && ok
        invariant Between(keys, urls, required, rounds, resolved, asking, Flatten(rounds)) && cut == [] && met == Flatten(rounds)
        invariant attempt == 0 ==> asking == keys
        invariant keys == [] ==> attempt == 0
        invariant attempt > 0 ==> met != []
        invariant Pauses(sleeps, |sleeps|) && |sleeps| <= maxRetries
        invariant attempt <= maxRetries && asking != [] ==> |sleeps| == attempt
        decreases maxRetries + 1 - attempt
      {
        ok, resolved, asking, rounds, cut := NextRound(keys, urls, required, attempt, resolved, asking, rounds);
        attempt, pending := attempt + 1, asking;
        if !ok {
          return;
        }
      }
    }

    /**
      GET every url. The rounds that were asked determine the result, through the lemmas
      above; with R retries there are at most R + 1 of them, and a run that ends with urls
      still throttled has used them all. It fails exactly when some batch request made is
      fatal: its reply could not be read, or it was required and got none.
     */
    method Get(keys: seq<Key>, urls: map<Key, string>, required: bool)
      returns (result: Result<Fields>, ghost rounds: seq<seq<Call<Fields>>>, ghost cut: seq<Call<Fields>>)
      requires Valid() && met == [] && sends == 0 && sleeps == []
      requires Distinct(keys) && urls.Keys == set k | k in keys
      modifies this
      ensures Valid() && met == Flatten(rounds) + cut && (result.Bodies? ==> cut == [])
      ensures result.Failed? <==> !NoneFatal(required, met)
      ensures result.Bodies? ==> result.resolved == ResolvedOver(rounds)
      ensures result.Bodies? ==> (keys == [] <==> rounds == []) && |rounds| <= maxRetries + 1
      ensures RoundsMatch(rounds, urls)
      ensures result.Bodies? && rounds != [] && |rounds| <= maxRetries ==> ThrottledIn(rounds[|rounds| - 1]) == []
      ensures IsRun(keys, rounds) && InFullChunks(rounds) && Calls(rounds) <= |rounds| * Ceil(|keys|, BATCH_LIMIT)
      ensures |met| == Calls(rounds) + |cut| && |cut| <= Ceil(|keys|, BATCH_LIMIT) && (keys != [] ==> met != [])
      ensures calls <= (maxRetries + 1) * Ceil(|keys|, BATCH_LIMIT)
      ensures sends <= (maxRetries + 1) * ((maxRetries + 1) * Ceil(|keys|, BATCH_LIMIT))
      ensures |sleeps| <= maxRetries && forall a | 0 <= a < |sleeps| :: sleeps[a] == if TwoTo(a + 1) < 60 then TwoTo(a + 1) else 60
    {
      var ok, resolved;
      ghost var pending;
      ok, resolved, pending, rounds, cut := GetRounds(keys, urls, required);
      CallsAreFew(keys, rounds);
      CallsAreAll(rounds);
      OneMore(|rounds|, Ceil(|keys|, BATCH_LIMIT));
      Total(if ok then |rounds| else |rounds| + 1, Ceil(|keys|, BATCH_LIMIT));
      result := if ok then Bodies(resolved) else Failed;
    }

    /** Attempt number attempt + 1, and the pause after it if there is to be another. */
    method NextRound(ghost keys: seq<Key>, urls: map<Key, string>, required: bool, attempt: nat,
                     resolved0: map<Key, Fields>, pending: seq<Key>, ghost rounds0: seq<seq<Call<Fields>>>)
      returns (ok: bool, resolved: map<Key, Fields>, throttled: seq<Key>, ghost rounds: seq<seq<Call<Fields>>>, ghost cut: seq<Call<Fields>>)
      requires Valid() && attempt <= maxRetries && pending != [] && Distinct(keys) && urls.Keys == set k | k in keys
      requires Between(keys, urls, required, rounds0, resolved0, pending, Flatten(rounds0)) && met == Flatten(rounds0)
      requires |rounds0| == attempt && Pauses(sleeps, attempt)
      modifies this
      ensures Valid() && met != [] && |cut| <= Ceil(|keys|, BATCH_LIMIT) && ok == NoneFatal(required, met)
      ensures Between(keys, urls, required, rounds, resolved, throttled, Flatten(rounds)) && met == Flatten(rounds) + cut
      ensures if ok then |rounds| == attempt + 1 && cut == [] else |rounds| == attempt
      ensures Pauses(sleeps, |sleeps|) && attempt <= |sleeps| <= maxRetries
      ensures ok && attempt < maxRetries && throttled != [] ==> |sleeps| == attempt + 1
    {
      CeilMonotone(|pending|, |keys|, BATCH_LIMIT);
      rounds := rounds0;
      ok, resolved, throttled, cut := Round(pending, urls, required, resolved0);
      FatalConcat(required, Flatten(rounds0), cut);
      if ok {
        RoundDone(keys, urls, required, rounds0, resolved0, pending, cut);
        rounds, cut := rounds0 + [cut], [];
        Pause(attempt, throttled != []);
      } else {
        resolved, throttled := resolved0, pending;
      }
    }

    method Pause(attempt: nat, more: bool)
      requires Valid() && attempt <= maxRetries && Pauses(sleeps, attempt)
      modifies `sleeps
      ensures Valid() && Pauses(sleeps, |sleeps|) && |sleeps| == if attempt < maxRetries && more then attempt + 1 else attempt
    {
      PausesNext(sleeps, attempt);
      if attempt < maxRetries && more {
        sleeps := sleeps + [RoundBackoff(attempt + 1)];
      }
    }

    ghost method Total(attempt: nat, c: nat)
      requires Valid() && attempt <= maxRetries + 1 && calls <= attempt * c
      ensures calls <= (maxRetries + 1) * c && sends <= (maxRetries + 1) * ((maxRetries + 1) * c)
    {
      TimesMonotone(attempt, maxRetries + 1, c);
      TimesMonotone(calls, (maxRetries + 1) * c, maxRetries + 1);
    }
  }

  /** What a batch request for n urls comes to, whose sends meet these answers. */
  function AnswerIn(py: Conversions, maxRetries: nat, answers: nat -> Attempt<Body>, n: nat): Answer<Fields> {
    AnswerOf(py, OutcomeOf(None, answers(SendsOf(None, maxRetries, answers, 0) - 1)), n)
  }

  function SubsOfAnswer<B>(a: Answer<B>): seq<Sub<B>> { if a.Replies? then a.subs else [] }

  lemma FatalConcat<B>(required: bool, a: seq<Call<B>>, b: seq<Call<B>>)
    ensures NoneFatal(required, a + b) <==> NoneFatal(required, a) && NoneFatal(required, b)
  {
    assert forall i | 0 <= i < |a| :: (a + b)[i] == a[i];
    assert forall i | 0 <= i < |b| :: (a + b)[|a| + i] == b[i];
  }

  lemma {:induction false} CallsAreAll<B>(rounds: seq<seq<Call<B>>>)
    ensures Calls(rounds) == |Flatten(rounds)|
  {
    if rounds != [] {
      CallsAreAll(rounds[..|rounds| - 1]);
      FlattenOneMore(rounds[..|rounds| - 1], rounds[|rounds| - 1]);
      assert rounds == rounds[..|rounds| - 1] + [rounds[|rounds| - 1]];
    }
  }

  /** A batch answered with a list, where an object is expected. */
  const LIST_REPLY: Attempt<Body> := Response(200, NoRetryAfter, NoReset, Some(List([], "[]")))

  /** An optional lookup does not survive a reply that cannot be read, whatever it asks for. */
  method OptionalLookupFails(maxRetries: nat, py: Conversions, keys: seq<Key>, urls: map<Key, string>) returns (result: Result<Fields>)
    requires keys != [] && Distinct(keys) && urls.Keys == set k | k in keys
    ensures result.Failed?
  {
    var client := new GraphClient(maxRetries, py, _ => _ => LIST_REPLY, _ => 0.5, 0.0);
    ghost var rounds, cut;
    result, rounds, cut := client.Get(keys, urls, false);
    assert client.Meets(0, |client.met[0].keys|) == Unreadable;
    assert Fatal(false, client.met[0]);
  }

  ghost predicate Pauses(sleeps: seq<nat>, n: nat) {
    |sleeps| == n && forall i | 0 <= i < n :: sleeps[i] == RoundBackoff(i + 1)
  }

  ghost predicate RoundsMatch<B>(rounds: seq<seq<Call<B>>>, urls: map<Key, string>) {
    forall i | 0 <= i < |rounds| :: forall c | c in rounds[i] :: UrlsMatch(c, urls)
  }

  /** Between two rounds: what is resolved, and what the next round would ask. */
  ghost predicate Progress<B>(keys: seq<Key>, rounds: seq<seq<Call<B>>>, resolved: map<Key, B>, pending: seq<Key>) {
    && IsRun(keys, rounds) && resolved == ResolvedOver(rounds)
    && pending == Next(keys, rounds)
    && |pending| <= |keys| && forall k | k in pending :: k in keys
  }

  /** Within a round: what it has resolved and throttled so far. */
  ghost predicate RoundSofar<B>(urls: map<Key, string>, resolved0: map<Key, B>, round: seq<Call<B>>, resolved: map<Key, B>, throttled: seq<Key>) {
    && throttled == ThrottledIn(round) && resolved == resolved0 + ResolvedIn(round)
    && forall c | c in round :: AnsweredOnce(SubsOf(c)) && UrlsMatch(c, urls)
  }

  lemma CallDone<B>(urls: map<Key, string>, required: bool, resolved0: map<Key, B>, round: seq<Call<B>>, call: Call<B>)
    requires AnsweredOnce(SubsOf(call)) && UrlsMatch(call, urls)
    requires RoundSofar(urls, resolved0, round, resolved0 + ResolvedIn(round), ThrottledIn(round)) && NoneFatal(required, round)
    ensures RoundSofar(urls, resolved0, round + [call], resolved0 + ResolvedIn(round) + ResolvedBy(call.keys, SubsOf(call)),
                       ThrottledIn(round) + Throttled(call))
    ensures Asked(round + [call]) == Asked(round) + call.keys
    ensures NoneFatal(required, round + [call]) <==> !Fatal(required, call)
  {
    OneMoreCall(round, call);
    MergeAssoc(resolved0, ResolvedIn(round), ResolvedBy(call.keys, SubsOf(call)));
    FatalConcat(required, round, [call]);
    assert NoneFatal(required, [call]) <==> !Fatal(required, [call][0]);
  }

  lemma OneMoreCall<B>(round: seq<Call<B>>, call: Call<B>)
    ensures Asked(round + [call]) == Asked(round) + call.keys
    ensures ThrottledIn(round + [call]) == ThrottledIn(round) + Throttled(call)
    ensures ResolvedIn(round + [call]) == ResolvedIn(round) + ResolvedBy(call.keys, SubsOf(call))
  {
    assert (round + [call])[..|round|] == round;
  }

  lemma PausesNext(sleeps: seq<nat>, n: nat)
    requires Pauses(sleeps, n)
    ensures Pauses(sleeps + [RoundBackoff(n + 1)], n + 1)
  {}

  /** Between two rounds: the state of the books, and what went out for it. */
  ghost predicate Between<B>(keys: seq<Key>, urls: map<Key, string>, required: bool, rounds: seq<seq<Call<B>>>, resolved: map<Key, B>,
                            pending: seq<Key>, met: seq<Call<B>>)
  {
    && Progress(keys, rounds, resolved, pending) && RoundsMatch(rounds, urls) && InFullChunks(rounds)
    && met == Flatten(rounds) && NoneFatal(required, met)
  }

  lemma RoundDone<B>(keys: seq<Key>, urls: map<Key, string>, required: bool, rounds: seq<seq<Call<B>>>, resolved: map<Key, B>,
                     pending: seq<Key>, round: seq<Call<B>>)
    requires Between(keys, urls, required, rounds, resolved, pending, Flatten(rounds))
    requires Asked(round) == pending && |round| == Ceil(|pending|, BATCH_LIMIT) && NoneFatal(required, round)
    requires forall c | c in round :: AnsweredOnce(SubsOf(c)) && UrlsMatch(c, urls)
    ensures Flatten(rounds + [round]) == Flatten(rounds) + round
    ensures Between(keys, urls, required, rounds + [round], resolved + ResolvedIn(round), ThrottledIn(round), Flatten(rounds + [round]))
  {
    ProgressStep(keys, rounds, resolved, pending, round);
    FlattenOneMore(rounds, round);
    RoundsMatchNext(rounds, urls, round);
    CallsNext(rounds, round);
    FatalConcat(required, Flatten(rounds), round);
  }

  lemma CallsNext<B>(rounds: seq<seq<Call<B>>>, round: seq<Call<B>>)
    requires InFullChunks(rounds) && |round| == Ceil(|Asked(round)|, BATCH_LIMIT)
    ensures InFullChunks(rounds + [round]) && Calls(rounds + [round]) == Calls(rounds) + |round|
  {
    assert (rounds + [round])[..|rounds|] == rounds;
  }

  lemma RoundsMatchNext<B>(rounds: seq<seq<Call<B>>>, urls: map<Key, string>, round: seq<Call<B>>)
    requires RoundsMatch(rounds, urls) && forall c | c in round :: UrlsMatch(c, urls)
    ensures RoundsMatch(rounds + [round], urls)
  {}

  lemma ProgressStep<B>(keys: seq<Key>, rounds: seq<seq<Call<B>>>, resolved: map<Key, B>, pending: seq<Key>, round: seq<Call<B>>)
    requires Progress(keys, rounds, resolved, pending)
    requires Asked(round) == pending && AnsweredRound(round)
    ensures Progress(keys, rounds + [round], resolved + ResolvedIn(round), ThrottledIn(round))
  {
    RunSnoc(keys, rounds, round);
    PendingShrinks(keys, rounds + [round]);
    assert (rounds + [round])[..|rounds|] == rounds;
  }

  lemma PendingShrinks<B>(keys: seq<Key>, rounds: seq<seq<Call<B>>>)
    requires IsRun(keys, rounds) && rounds != []
    ensures var last := rounds[|rounds| - 1];
            |ThrottledIn(last)| <= |keys| && forall k | k in ThrottledIn(last) :: k in keys
  {
    LastRoundOk(keys, rounds);
    ThrottledShrinks(rounds[|rounds| - 1]);
  }

  lemma RunSnoc<B>(keys: seq<Key>, rounds: seq<seq<Call<B>>>, round: seq<Call<B>>)
    requires IsRun(keys, rounds) && AnsweredRound(round) && Asked(round) == Next(keys, rounds)
    ensures IsRun(keys, rounds + [round])
  {
    assert (rounds + [round])[..|rounds|] == rounds;
  }

  lemma FlattenSnoc<T>(parts: seq<seq<T>>, n: nat)
    requires n < |parts|
    ensures Flatten(parts[..n + 1]) == Flatten(parts[..n]) + parts[n]
  {
    TakeOneMore(parts, n);
    FlattenOneMore(parts[..n], parts[n]);
  }

  lemma MergeAssoc<K, V>(a: map<K, V>, b: map<K, V>, c: map<K, V>)
    ensures (a + b) + c == a + (b + c)
  {}
}
