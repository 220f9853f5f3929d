/**
  ServiceNow encoded queries: what the connector prints, and an independent reading of what
  the instance makes of it. `^` closes a condition, `^OR` continues the group before it, `^NQ`
  starts another query, and `^ORDERBY` asks nothing of a record. Groups are conjoined, and the
  queries are alternatives. A condition is a field name followed by `=` or by `IN` and a list.
 */
module EncodedQuery {
  import opened Wrappers
  import opened Sequences
  import opened Text

  // ---- Reading a query -------------------------------------------------------

  datatype Condition =
    | Equals(field: string, value: string)
    | OneOf(field: string, values: seq<string>)
    | Other(text: string)

  /** A record, with the meaning of conditions in operators the connector never prints. */
  datatype Row = Row(field: string -> string, other: string -> bool)

  function Split(s: string, sep: char): (parts: seq<string>)
    ensures |parts| >= 1
  {
    if s == "" then [""]
    else if s[0] == sep then [""] + Split(s[1..], sep)
    else var rest := Split(s[1..], sep); [[s[0]] + rest[0]] + rest[1..]
  }

  predicate StartsQuery(term: string) { "NQ" <= term }

  predicate IsOrdering(term: string) { "ORDERBY" <= term }

  predicate ContinuesGroup(term: string) { "OR" <= term && !IsOrdering(term) }

  /** A term that asks something of a record. */
  predicate IsCondition(term: string) { term != "" && !IsOrdering(term) }

  function Terms(q: string): seq<string> { Filter(Split(q, '^'), IsCondition) }

  /** The groups of a query that has just been started. */
  function Opening(t: string): seq<seq<string>> { if IsCondition(t) then [[t]] else [] }

  function Last<T>(xs: seq<T>): T
    requires xs != []
  {
    xs[|xs| - 1]
  }

  function Front<T>(xs: seq<T>): seq<T>
    requires xs != []
  {
    xs[..|xs| - 1]
  }

  /** An OR-term joins the group before it, without its prefix; any other term opens a group. */
  function Grow(groups: seq<seq<string>>, t: string): (r: seq<seq<string>>)
    ensures r != []
  {
    if ContinuesGroup(t) && groups != [] then Front(groups) + [Last(groups) + [t[2..]]] else groups + [[t]]
  }

  /** An NQ-term starts a query; any other term goes on with the last one. */
  function Extend(queries: seq<seq<seq<string>>>, t: string): (r: seq<seq<seq<string>>>)
    requires queries != []
    ensures r != []
  {
    if StartsQuery(t) then queries + [Opening(t[2..])] else Front(queries) + [Grow(Last(queries), t)]
  }

  /** The queries of a list of terms, each a list of groups. */
  function Queries(terms: seq<string>): (r: seq<seq<seq<string>>>)
    ensures r != []
  {
    if terms == [] then [[]] else Extend(Queries(Front(terms)), Last(terms))
  }

  /** Field names are lower case, which is what sets them off from the operator. */
  predicate IsFieldChar(c: char) { 'a' <= c <= 'z' || '0' <= c <= '9' || c == '_' || c == '.' }

  predicate IsField(f: string) { f != "" && forall c | c in f :: IsFieldChar(c) }

  function FieldLength(t: string): (n: nat)
    ensures n <= |t|
  {
    if t != "" && IsFieldChar(t[0]) then 1 + FieldLength(t[1..]) else 0
  }

  function Read(t: string): Condition {
    var n := FieldLength(t);
    if n > 0 && n < |t| && t[n] == '=' then Equals(t[..n], t[n + 1..])
    else if n > 0 && n + 1 < |t| && t[n] == 'I' && t[n + 1] == 'N' then OneOf(t[..n], Split(t[n + 2..], ','))
    else Other(t)
  }

  /** A query as a disjunction of conjunctions of disjunctions. */
  function Parse(q: string): (r: seq<seq<seq<Condition>>>)
    ensures r != []
  {
    Map(Queries(Terms(q)), ReadAll)
  }

  function ReadAll(groups: seq<seq<string>>): seq<seq<Condition>> { Map(groups, ReadGroup) }

  function ReadGroup(group: seq<string>): seq<Condition> { Map(group, Read) }

  predicate Meets(row: Row, c: Condition) {
    match c
    case Equals(f, v) => row.field(f) == v
    case OneOf(f, vs) => row.field(f) in vs
    case Other(t) => row.other(t)
  }

  predicate MeetsSome(row: Row, group: seq<Condition>) { exists c | c in group :: Meets(row, c) }

  predicate MeetsAll(row: Row, groups: seq<seq<Condition>>) { forall g | g in groups :: MeetsSome(row, g) }

  predicate Selects(q: string, row: Row) { exists groups | groups in Parse(q) :: MeetsAll(row, groups) }

  // ---- Printing one ------------------------------------------------------------

  function Join(sep: string, parts: seq<string>): string {
    if parts == [] then "" else if |parts| == 1 then parts[0] else parts[0] + sep + Join(sep, parts[1..])
  }

  predicate IsQuerySafe(value: string) { value != "" && '^' !in value }

  function EqualityTerms(field: string, values: seq<string>): seq<string> {
    Map(values, (v: string) => field + "=" + v)
  }

  /** None is the ValueError for an empty list; an absent clause is "". */
  function BuildOrQuery(field: string, values: seq<string>, andClause: string): Option<string> {
    if values == [] then None
    else
      var query := Join("^OR", EqualityTerms(field, values));
      Some(if andClause != "" then query + "^" + andClause else query)
  }

  function Present(clauses: seq<string>): seq<string> { Filter(clauses, c => c != "") }

  function Combine(clauses: seq<string>): string { Join("^", Present(clauses)) }

  function InTerm(field: string, values: seq<string>): string { field + "IN" + Join(",", values) }

  // ---- Splitting undoes joining -------------------------------------------------

  lemma {:induction false} SplitConcat(a: string, b: string, sep: char)
    ensures Split(a + [sep] + b, sep) == Split(a, sep) + Split(b, sep)
  {
    var s := a + [sep] + b;
    if a == "" {
      assert s[1..] == b;
    } else {
      assert s[0] == a[0] && s[1..] == a[1..] + [sep] + b;
      SplitConcat(a[1..], b, sep);
    }
  }

  lemma {:induction false} SplitWhole(a: string, sep: char)
    ensures sep !in a ==> Split(a, sep) == [a]
    ensures sep in a ==> |Split(a, sep)| > 1
  {
    if a != "" {
      SplitWhole(a[1..], sep);
      assert a == [a[0]] + a[1..];
    }
  }

  lemma SplitOr(t: string)
    ensures Split("OR" + t, '^') == ["OR" + Split(t, '^')[0]] + Split(t, '^')[1..]
  {
    var s := "OR" + t;
    assert s[1..] == "R" + t && s[1..][1..] == t;
    assert Split("R" + t, '^') == ["R" + Split(t, '^')[0]] + Split(t, '^')[1..];
    assert ['O'] + ("R" + Split(t, '^')[0]) == "OR" + Split(t, '^')[0];
  }

  /** The terms of a printed OR chain, as the splitter sees them. */
  function Chained(terms: seq<string>): seq<string> {
    if terms == [] then [] else [terms[0]] + Map(terms[1..], (t: string) => "OR" + t)
  }

  lemma SplitOrStep(terms: seq<string>)
    requires |terms| > 1
    ensures var rest := Split(Join("^OR", terms[1..]), '^');
            Split(Join("^OR", terms), '^') == Split(terms[0], '^') + (["OR" + rest[0]] + rest[1..])
  {
    var rest := Join("^OR", terms[1..]);
    CaretOr(terms[0], rest);
    SplitConcat(terms[0], "OR" + rest, '^');
    SplitOr(rest);
  }

  lemma CaretOr(a: string, rest: string)
    ensures a + "^OR" + rest == a + ['^'] + ("OR" + rest)
  {
    assert "^OR" == ['^'] + "OR";
  }

  lemma ChainedStep(terms: seq<string>)
    requires |terms| > 1
    ensures Chained(terms) == [terms[0]] + (["OR" + Chained(terms[1..])[0]] + Chained(terms[1..])[1..])
  {}

  lemma {:induction false} SplitOrChain(terms: seq<string>)
    requires terms != []
    ensures |Split(Join("^OR", terms), '^')| >= |terms|
    ensures (forall t | t in terms :: '^' !in t) ==> Split(Join("^OR", terms), '^') == Chained(terms)
    ensures |Split(Join("^OR", terms), '^')| == |terms| ==> forall t | t in terms :: '^' !in t
  {
    SplitWhole(terms[0], '^');
    if |terms| > 1 {
      SplitOrStep(terms);
      SplitOrChain(terms[1..]);
      assert terms == [terms[0]] + terms[1..];
      if forall t | t in terms :: '^' !in t { ChainedStep(terms); }
    } else {
      assert terms == [terms[0]];
    }
  }

  // ---- Grouping ------------------------------------------------------------------

  /** Two readings as one: what the second says first goes on from what the first says last. */
  function Merge<T>(a: seq<seq<T>>, b: seq<seq<T>>): seq<seq<T>>
    requires a != [] && b != []
  {
    Front(a) + [Last(a) + b[0]] + b[1..]
  }

  function Size<T>(queries: seq<seq<T>>): nat { |Flatten(queries)| }

  /** Between a and b the groups run together: b goes on with an OR-term where a has a group. */
  predicate Clash(a: seq<string>, b: seq<string>) { b != [] && ContinuesGroup(b[0]) && Last(Queries(a)) != [] }

  lemma SizeSnoc<T>(front: seq<seq<T>>, last: seq<T>)
    ensures Size(front + [last]) == Size(front) + |last|
  {
    FlattenOneMore(front, last);
  }

  lemma SizeOf<T>(queries: seq<seq<T>>)
    requires queries != []
    ensures Size(queries) == Size(Front(queries)) + |Last(queries)|
  {
    assert queries == Front(queries) + [Last(queries)];
    SizeSnoc(Front(queries), Last(queries));
  }

  /** What a term adds depends on itself, and on whether the query it meets has a group. */
  lemma ExtendShape(queries: seq<seq<seq<string>>>, t: string)
    requires queries != []
    ensures var r := Extend(queries, t);
            && |r| == |queries| + One(StartsQuery(t))
            && Size(r) == Size(queries) + (if StartsQuery(t) then |Opening(t[2..])| else One(!ContinuesGroup(t) || Last(queries) == []))
            && (Last(r) == [] <==> StartsQuery(t) && Opening(t[2..]) == [])
            && r != [[]]
  {
    var r := Extend(queries, t);
    SizeOf(queries);
    if StartsQuery(t) {
      SizeSnoc(queries, Opening(t[2..]));
      NotBoth(t);
    } else {
      SizeSnoc(Front(queries), Grow(Last(queries), t));
    }
  }

  lemma NotBoth(t: string)
    ensures !(StartsQuery(t) && ContinuesGroup(t))
  {
    assert "NQ"[0] == 'N' && "OR"[0] == 'O';
  }

  lemma QueriesSnoc(terms: seq<string>, t: string)
    ensures Queries(terms + [t]) == Extend(Queries(terms), t)
  {
    assert Front(terms + [t]) == terms;
  }

  lemma ExtendMerge(x: seq<seq<seq<string>>>, y: seq<seq<seq<string>>>, t: string)
    requires x != [] && y != [] && !(y == [[]] && ContinuesGroup(t) && Last(x) != [])
    ensures Extend(Merge(x, y), t) == Merge(x, Extend(y, t))
  {
    if StartsQuery(t) {
      MergeSnoc(x, y, Opening(t[2..]));
    } else if |y| > 1 {
      MergeLast(x, y, Grow(Last(y), t));
    } else {
      GrowConcat(Last(x), y[0], t);
      assert y == [y[0]];
      MergeOne(x, y[0]);
      MergeOne(x, Grow(y[0], t));
      assert Extend(y, t) == [Grow(y[0], t)];
    }
  }

  lemma MergeOne<T>(x: seq<seq<T>>, z: seq<T>)
    requires x != []
    ensures Merge(x, [z]) == Front(x) + [Last(x) + z]
    ensures Front(Merge(x, [z])) == Front(x) && Last(Merge(x, [z])) == Last(x) + z
  {}

  lemma MergeSnoc<T>(x: seq<seq<T>>, y: seq<seq<T>>, z: seq<T>)
    requires x != [] && y != []
    ensures Merge(x, y + [z]) == Merge(x, y) + [z]
  {
    assert (y + [z])[1..] == y[1..] + [z];
  }

  lemma MergeLast<T>(x: seq<seq<T>>, y: seq<seq<T>>, z: seq<T>)
    requires x != [] && |y| > 1
    ensures Merge(x, Front(y) + [z]) == Front(Merge(x, y)) + [z] && Last(Merge(x, y)) == Last(y)
  {
    MergeSnoc(x, Front(y), z);
    MergeSnoc(x, Front(y), Last(y));
    assert y == Front(y) + [Last(y)];
  }

  lemma GrowConcat(a: seq<seq<string>>, b: seq<seq<string>>, t: string)
    requires !(b == [] && ContinuesGroup(t) && a != [])
    ensures Grow(a + b, t) == a + Grow(b, t)
  {
    if b == [] { assert a + b == a; } else { FrontOfConcat(a, b); }
  }

  lemma FrontOfConcat<T>(a: seq<T>, b: seq<T>)
    requires b != []
    ensures Front(a + b) == a + Front(b) && Last(a + b) == Last(b)
  {}

  /** Reading a concatenation: side by side, unless the groups run together. */
  lemma {:induction false} QueriesFit(a: seq<string>, b: seq<string>)
    requires !Clash(a, b)
    ensures Queries(a + b) == Merge(Queries(a), Queries(b))
  {
    if b == [] {
      assert a + b == a;
      MergeNothing(Queries(a));
    } else {
      var front, t := Front(b), Last(b);
      assert b == front + [t] && a + b == (a + front) + [t];
      QueriesSnoc(a + front, t);
      QueriesSnoc(front, t);
      assert front != [] ==> front[0] == b[0];
      QueriesFit(a, front);
      if front != [] {
        ExtendShape(Queries(Front(front)), Last(front));
      }
      ExtendMerge(Queries(a), Queries(front), t);
    }
  }

  lemma MergeNothing<T>(x: seq<seq<T>>)
    requires x != []
    ensures Merge(x, [[]]) == x
  {
    assert Last(x) + [] == Last(x);
  }

  /** Where they do, one group less comes out. */
  lemma {:induction false} QueriesClash(a: seq<string>, b: seq<string>)
    requires Clash(a, b)
    ensures |Queries(a + b)| == |Queries(a)| + |Queries(b)| - 1
    ensures Size(Queries(a + b)) == Size(Queries(a)) + Size(Queries(b)) - 1
    ensures Last(Queries(a + b)) == [] <==> Last(Queries(b)) == []
  {
    var front, t := Front(b), Last(b);
    assert b == front + [t] && a + b == (a + front) + [t];
    if front == [] {
      assert b == [t] && a + front == a;
      FirstClash(a, t);
    } else {
      QueriesClash(a, front);
      QueriesSnoc(a + front, t);
      QueriesSnoc(front, t);
      ExtendShape(Queries(a + front), t);
      ExtendShape(Queries(front), t);
    }
  }

  lemma FirstClash(a: seq<string>, t: string)
    requires Clash(a, [t])
    ensures |Queries(a + [t])| == |Queries(a)| && |Queries([t])| == 1
    ensures Size(Queries(a + [t])) == Size(Queries(a)) && Size(Queries([t])) == 1
    ensures Last(Queries(a + [t])) != [] && Last(Queries([t])) != []
  {
    NotBoth(t);
    QueriesSnoc(a, t);
    ExtendShape(Queries(a), t);
    QueriesOfOne(t);
    SizeSnoc([], [[t]]);
    assert [] + [[[t]]] == [[[t]]];
  }

  lemma MergeShape<T>(a: seq<seq<T>>, b: seq<seq<T>>)
    requires a != [] && b != []
    ensures |Merge(a, b)| == |a| + |b| - 1 && Size(Merge(a, b)) == Size(a) + Size(b)
  {
    SizeOf(a);
    FlattenConcat(Front(a) + [Last(a) + b[0]], b[1..]);
    SizeSnoc(Front(a), Last(a) + b[0]);
  }

  lemma QueriesShape(a: seq<string>, b: seq<string>)
    ensures |Queries(a + b)| == |Queries(a)| + |Queries(b)| - 1
    ensures Size(Queries(a + b)) == Size(Queries(a)) + Size(Queries(b)) - One(Clash(a, b))
  {
    if Clash(a, b) {
      QueriesClash(a, b);
    } else {
      QueriesFit(a, b);
      MergeShape(Queries(a), Queries(b));
    }
  }

  lemma OneQueryIff(terms: seq<string>)
    ensures |Queries(terms)| == 1 <==> forall t | t in terms :: !StartsQuery(t)
    ensures |Queries(terms)| == 1 ==> (Last(Queries(terms)) == [] <==> terms == [])
  {
    QueryCount(terms);
    NoNewQueries(terms);
    if terms != [] { ExtendShape(Queries(Front(terms)), Last(terms)); }
  }

  function NewQueries(terms: seq<string>): nat {
    if terms == [] then 0 else NewQueries(Front(terms)) + One(StartsQuery(Last(terms)))
  }

  lemma {:induction false} QueryCount(terms: seq<string>)
    ensures |Queries(terms)| == 1 + NewQueries(terms)
  {
    if terms != [] {
      QueryCount(Front(terms));
      ExtendShape(Queries(Front(terms)), Last(terms));
    }
  }

  lemma {:induction false} NoNewQueries(terms: seq<string>)
    ensures NewQueries(terms) == 0 <==> forall t | t in terms :: !StartsQuery(t)
  {
    if terms != [] {
      NoNewQueries(Front(terms));
      SnocMember(Front(terms), Last(terms));
      assert terms == Front(terms) + [Last(terms)];
    }
  }

  lemma SnocMember<T>(front: seq<T>, t: T)
    ensures forall u :: u in front + [t] <==> u in front || u == t
  {}

  lemma ChainedSnoc(terms: seq<string>, t: string)
    requires terms != []
    ensures Chained(terms + [t]) == Chained(terms) + ["OR" + t]
  {
    assert (terms + [t])[1..] == terms[1..] + [t];
  }

  /** A term that opens with the name of a field, as the connector prints them. */
  predicate Plain(t: string) { t != "" && IsFieldChar(t[0]) && '^' !in t }

  lemma PlainTerms(t: string)
    requires Plain(t)
    ensures IsCondition(t) && !StartsQuery(t) && !ContinuesGroup(t)
    ensures IsCondition("OR" + t) && ContinuesGroup("OR" + t) && !StartsQuery("OR" + t) && ("OR" + t)[2..] == t
  {
    var s := "OR" + t;
    assert s[..2] == "OR" && s[2] == t[0];
    assert "ORDERBY"[2] == 'D' && "ORDERBY"[0] == 'O' && "NQ"[0] == 'N' && "OR"[0] == 'O' && s[0] == 'O';
  }

  lemma {:induction false} QueriesOfChain(terms: seq<string>)
    requires terms != [] && forall t | t in terms :: Plain(t)
    ensures Queries(Chained(terms)) == [[terms]]
    ensures Filter(Chained(terms), IsCondition) == Chained(terms)
  {
    var front, t := Front(terms), Last(terms);
    assert terms == front + [t];
    PlainTerms(t);
    if front == [] {
      assert Chained(terms) == [t];
      QueriesOfOne(t);
      FilterOne(t, IsCondition);
    } else {
      QueriesOfChain(front);
      ChainedSnoc(front, t);
      QueriesSnoc(Chained(front), "OR" + t);
      FilterConcat(Chained(front), ["OR" + t], IsCondition);
      FilterOne("OR" + t, IsCondition);
      JoinsOneGroup(front, t);
    }
  }

  lemma JoinsOneGroup(group: seq<string>, t: string)
    requires Plain(t)
    ensures Extend([[group]], "OR" + t) == [[group + [t]]]
  {
    PlainTerms(t);
    assert Front([[group]]) == [] && Front([group]) == [];
    assert Grow([group], "OR" + t) == [group + [t]];
  }

  lemma QueriesOfOne(t: string)
    requires !StartsQuery(t)
    ensures Queries([t]) == [[[t]]]
  {
    var none: seq<seq<seq<string>>> := [[]];
    QueriesSnoc([], t);
    assert [] + [t] == [t] && Front(none) == [] && Last(none) == [];
    assert Grow([], t) == [] + [[t]] == [[t]];
    assert Extend(none, t) == Front(none) + [Grow(Last(none), t)] == [[[t]]];
  }

  lemma FilterOne<T>(t: T, p: T -> bool)
    ensures Filter([t], p) == if p(t) then [t] else []
  {
    assert [t][1..] == [];
    assert Filter([t], p) == (if p(t) then [t] else []) + Filter([], p);
  }

  // ---- What is printed means what was intended -------------------------------------

  lemma {:induction false} FieldLengthOf(f: string, rest: string)
    requires forall c | c in f :: IsFieldChar(c)
    requires rest != "" ==> !IsFieldChar(rest[0])
    ensures FieldLength(f + rest) == |f|
  {
    if f == "" {
      assert f + rest == rest;
    } else {
      assert (f + rest)[1..] == f[1..] + rest;
      FieldLengthOf(f[1..], rest);
    }
  }

  lemma ReadEquality(f: string, v: string)
    requires IsField(f)
    ensures Read(f + "=" + v) == Equals(f, v)
  {
    var rest := "=" + v;
    assert f + "=" + v == f + rest;
    FieldLengthOf(f, rest);
    assert (f + rest)[..|f|] == f && (f + rest)[|f|] == '=' && (f + rest)[|f| + 1..] == v;
  }

  function Intended(field: string, values: seq<string>): seq<Condition> {
    Map(values, (v: string) => Equals(field, v))
  }

  lemma ReadTerms(field: string, values: seq<string>)
    requires IsField(field)
    ensures ReadGroup(EqualityTerms(field, values)) == Intended(field, values)
  {
    forall i | 0 <= i < |values| ensures ReadGroup(EqualityTerms(field, values))[i] == Intended(field, values)[i] {
      ReadEquality(field, values[i]);
    }
  }

  lemma EqualitiesArePlain(field: string, values: seq<string>)
    requires IsField(field) && forall v | v in values :: '^' !in v
    ensures forall t | t in EqualityTerms(field, values) :: Plain(t)
  {
    forall t | t in EqualityTerms(field, values) ensures Plain(t) {
      var i :| 0 <= i < |values| && EqualityTerms(field, values)[i] == t;
      assert t == field + "=" + values[i] && t[0] == field[0] && field[0] in field && values[i] in values;
    }
  }

  lemma OrChainParses(terms: seq<string>)
    requires terms != [] && forall t | t in terms :: Plain(t)
    ensures Parse(Join("^OR", terms)) == [[ReadGroup(terms)]]
  {
    SplitOrChain(terms);
    QueriesOfChain(terms);
    assert ReadAll([terms]) == [ReadGroup(terms)];
  }

  // ---- No condition of a reading holds a caret ------------------------------------

  lemma {:induction false} SplitFree(s: string)
    ensures forall t | t in Split(s, '^') :: '^' !in t
  {
    if s != "" {
      SplitFree(s[1..]);
      var rest := Split(s[1..], '^');
      assert rest == [rest[0]] + rest[1..];
      assert rest[0] in rest;
    }
  }

  /** Whatever is grouped is a term, or a term without its prefix. */
  ghost predicate AllFree(queries: seq<seq<seq<string>>>) {
    forall i, j, k | 0 <= i < |queries| && 0 <= j < |queries[i]| && 0 <= k < |queries[i][j]| :: '^' !in queries[i][j][k]
  }

  lemma {:induction false} GroupedFree(terms: seq<string>)
    requires forall t | t in terms :: '^' !in t
    ensures AllFree(Queries(terms))
  {
    if terms != [] {
      assert terms == Front(terms) + [Last(terms)] && Last(terms) in terms;
      GroupedFree(Front(terms));
      ExtendFree(Queries(Front(terms)), Last(terms));
    }
  }

  lemma ExtendFree(queries: seq<seq<seq<string>>>, t: string)
    requires queries != [] && AllFree(queries) && '^' !in t
    ensures AllFree(Extend(queries, t))
  {
    var r := Extend(queries, t);
    forall i, j, k | 0 <= i < |r| && 0 <= j < |r[i]| && 0 <= k < |r[i][j]| ensures '^' !in r[i][j][k] {
      if i < |queries| && j < |queries[i]| && k < |queries[i][j]| {
        assert r[i][j][k] == queries[i][j][k];
      }
    }
  }

  lemma ConditionIsFree(q: string, i: nat, j: nat, k: nat)
    requires i < |Parse(q)| && j < |Parse(q)[i]| && k < |Parse(q)[i][j]| && Parse(q)[i][j][k].Equals?
    ensures '^' !in Parse(q)[i][j][k].value
  {
    var queries := Queries(Terms(q));
    SplitFree(q);
    forall t | t in Terms(q) ensures '^' !in t { FilterMember(Split(q, '^'), IsCondition, t); }
    GroupedFree(Terms(q));
    assert Parse(q)[i] == ReadAll(queries[i]);
    assert Parse(q)[i][j] == ReadGroup(queries[i][j]);
    ReadFree(queries[i][j][k]);
  }

  lemma ReadFree(t: string)
    requires '^' !in t && Read(t).Equals?
    ensures '^' !in Read(t).value
  {}

  /**
    The printed OR chain parses back to exactly the values it was built from, if and only if
    none of them contains a caret.
   */
  lemma OrQueryParsesBack(field: string, values: seq<string>)
    requires IsField(field) && values != []
    ensures BuildOrQuery(field, values, "").Some?
    ensures Parse(BuildOrQuery(field, values, "").value) == [[Intended(field, values)]]
            <==> forall v | v in values :: '^' !in v
  {
    var terms := EqualityTerms(field, values);
    var q := Join("^OR", terms);
    if forall v | v in values :: '^' !in v {
      EqualitiesArePlain(field, values);
      OrChainParses(terms);
      ReadTerms(field, values);
    } else if Parse(q) == [[Intended(field, values)]] {
      forall v | v in values ensures '^' !in v {
        var k :| 0 <= k < |values| && values[k] == v;
        assert Parse(q)[0][0][k] == Equals(field, v);
        ConditionIsFree(q, 0, 0, k);
      }
    }
  }

  // ---- Appending a clause ------------------------------------------------------------

  /** The first thing the clause asks is an OR-term, which goes on with whatever stands before it. */
  predicate OpensWithOr(clause: string) { Terms(clause) != [] && ContinuesGroup(Terms(clause)[0]) }

  predicate HoldsNewQuery(clause: string) { exists t | t in Terms(clause) :: StartsQuery(t) }

  lemma TermsConcat(q: string, clause: string)
    ensures Terms(q + "^" + clause) == Terms(q) + Terms(clause)
  {
    assert q + "^" + clause == q + ['^'] + clause;
    SplitConcat(q, clause, '^');
    FilterConcat(Split(q, '^'), Split(clause, '^'), IsCondition);
  }

  lemma {:induction false} ReadKeepsShape(queries: seq<seq<seq<string>>>)
    ensures Size(Map(queries, ReadAll)) == Size(queries)
  {
    if queries != [] {
      ReadKeepsShape(queries[1..]);
      assert Map(queries, ReadAll)[1..] == Map(queries[1..], ReadAll);
    }
  }

  lemma ReadMerge(a: seq<seq<seq<string>>>, b: seq<seq<seq<string>>>)
    requires a != [] && b != []
    ensures Map(Merge(a, b), ReadAll) == Merge(Map(a, ReadAll), Map(b, ReadAll))
  {
    ReadConcat(Last(a), b[0]);
  }

  /**
    Appending a clause with `^` goes on from what the query says last as the clause stands, if
    and only if it does not open with an OR-term where there is a group for it to join.
   */
  lemma AppendedClauseStandsAlone(q: string, clause: string)
    ensures Parse(q + "^" + clause) == Merge(Parse(q), Parse(clause)) <==> !(OpensWithOr(clause) && Last(Parse(q)) != [])
  {
    var a, b := Terms(q), Terms(clause);
    TermsConcat(q, clause);
    if Clash(a, b) {
      QueriesClash(a, b);
      ReadKeepsShape(Queries(a + b));
      ReadKeepsShape(Queries(a));
      ReadKeepsShape(Queries(b));
      MergeShape(Parse(q), Parse(clause));
    } else {
      QueriesFit(a, b);
      ReadMerge(Queries(a), Queries(b));
    }
    LastRead(Queries(a));
  }

  lemma LastRead(queries: seq<seq<seq<string>>>)
    requires queries != []
    ensures Last(Map(queries, ReadAll)) == [] <==> Last(queries) == []
  {
    assert Last(Map(queries, ReadAll)) == ReadAll(Last(queries));
  }

  /** An ordering changes nothing, wherever it stands. */
  lemma OrderingAsksNothing(q: string, ordering: string)
    requires IsOrdering(ordering) && '^' !in ordering
    ensures Parse(q + "^" + ordering) == Parse(q) && Terms(ordering) == []
  {
    SplitWhole(ordering, '^');
    FilterOne(ordering, IsCondition);
    TermsConcat(q, ordering);
    assert Terms(q) + [] == Terms(q);
  }

  lemma {:induction false} ShiftedQueries(t: string, ts: seq<string>)
    requires !StartsQuery(t)
    ensures Queries(["NQ" + t] + ts) == [[]] + Queries(Filter([t], IsCondition) + ts)
  {
    var first := Filter([t], IsCondition);
    FilterOne(t, IsCondition);
    var nq := "NQ" + t;
    assert nq[..2] == "NQ" && nq[2..] == t;
    if ts == [] {
      assert [nq] + ts == [] + [nq] && first + ts == first;
      QueriesSnoc([], nq);
      if IsCondition(t) { QueriesOfOne(t); }
      assert Extend([[]], nq) == [[]] + [Opening(t)];
    } else {
      var front, u := Front(ts), Last(ts);
      assert [nq] + ts == ([nq] + front) + [u] && first + ts == (first + front) + [u];
      ShiftedQueries(t, front);
      QueriesSnoc([nq] + front, u);
      QueriesSnoc(first + front, u);
      FrontOfConcat([[]], Queries(first + front));
      ExtendShifted(Queries(first + front), u);
    }
  }

  lemma ExtendShifted(queries: seq<seq<seq<string>>>, t: string)
    requires queries != []
    ensures Extend([[]] + queries, t) == [[]] + Extend(queries, t)
  {
    FrontOfConcat([[]], queries);
  }

  /** `^NQ` joins whole queries, as alternatives. */
  lemma NewQueryParses(q: string, r: string)
    requires !StartsQuery(Split(r, '^')[0])
    ensures Parse(q + "^" + ("NQ" + r)) == Parse(q) + Parse(r)
  {
    var parts := Split(r, '^');
    SplitNewQuery(r);
    assert parts == [parts[0]] + parts[1..];
    FilterConcat([parts[0]], parts[1..], IsCondition);
    var nq, rest := "NQ" + parts[0], Filter(parts[1..], IsCondition);
    assert nq[..2] == "NQ" && nq[0] == 'N' && "ORDERBY"[0] == 'O';
    assert Split("NQ" + r, '^') == [nq] + parts[1..];
    FilterConcat([nq], parts[1..], IsCondition);
    FilterOne(nq, IsCondition);
    assert Terms("NQ" + r) == [nq] + rest;
    ShiftedQueries(parts[0], rest);
    TermsConcat(q, "NQ" + r);
    assert !ContinuesGroup(nq) by { assert "OR"[0] == 'O'; }
    QueriesFit(Terms(q), Terms("NQ" + r));
    MergeShifted(Queries(Terms(q)), Queries(Terms(r)));
    MapConcat(Queries(Terms(q)), Queries(Terms(r)), ReadAll);
  }

  lemma MergeShifted<T>(a: seq<seq<T>>, b: seq<seq<T>>)
    requires a != []
    ensures Merge(a, [[]] + b) == a + b
  {
    assert a == Front(a) + [Last(a)] && Last(a) + [] == Last(a);
    assert ([[]] + b)[1..] == b;
  }

  lemma MapConcat<T, U>(a: seq<T>, b: seq<T>, f: T -> U)
    ensures Map(a + b, f) == Map(a, f) + Map(b, f)
  {}

  lemma SplitNewQuery(r: string)
    ensures Split("NQ" + r, '^') == ["NQ" + Split(r, '^')[0]] + Split(r, '^')[1..]
  {
    var s := "NQ" + r;
    assert s[1..] == "Q" + r && s[1..][1..] == r;
    assert Split("Q" + r, '^') == ["Q" + Split(r, '^')[0]] + Split(r, '^')[1..];
    assert ['N'] + ("Q" + Split(r, '^')[0]) == "NQ" + Split(r, '^')[0];
  }

  lemma NewQuerySelects(q: string, r: string, row: Row)
    requires !StartsQuery(Split(r, '^')[0])
    ensures Selects(q + "^" + ("NQ" + r), row) <==> Selects(q, row) || Selects(r, row)
  {
    NewQueryParses(q, r);
  }

  lemma OneAlternative(q: string, row: Row)
    requires |Parse(q)| == 1
    ensures Selects(q, row) <==> MeetsAll(row, Parse(q)[0])
  {
    assert Parse(q)[0] in Parse(q);
    assert forall groups | groups in Parse(q) :: groups == Parse(q)[0];
  }

  lemma MeetsBoth(row: Row, a: seq<seq<Condition>>, b: seq<seq<Condition>>)
    ensures MeetsAll(row, a + b) <==> MeetsAll(row, a) && MeetsAll(row, b)
  {
    assert forall g :: g in a + b <==> g in a || g in b;
  }

  /** A row is selected by the printed query iff its field has one of the values and it meets the clause. */
  lemma OrQuerySelects(field: string, values: seq<string>, clause: string, row: Row)
    requires IsField(field) && values != [] && (forall v | v in values :: '^' !in v)
    requires !OpensWithOr(clause) && !HoldsNewQuery(clause)
    ensures BuildOrQuery(field, values, clause).Some?
    ensures Selects(BuildOrQuery(field, values, clause).value, row) <==> row.field(field) in values && Selects(clause, row)
  {
    OrQueryParsesBack(field, values);
    var q := BuildOrQuery(field, values, "").value;
    IntendedMeans(field, values, row);
    OneAlternative(q, row);
    OneQueryIff(Terms(clause));
    OneAlternative(clause, row);
    if clause != "" {
      AppendedClauseStandsAlone(q, clause);
      assert Parse(q + "^" + clause) == [Parse(q)[0] + Parse(clause)[0]];
      OneAlternative(q + "^" + clause, row);
      MeetsBoth(row, Parse(q)[0], Parse(clause)[0]);
    } else {
      EmptyAsksNothing();
    }
  }

  lemma EmptyAsksNothing()
    ensures Terms("") == [] && Parse("") == [[]]
  {
    assert [""][1..] == [];
    assert Map([[]], ReadAll) == [[]];
  }

  lemma EmptySelects(row: Row)
    ensures Selects("", row)
  {
    EmptyAsksNothing();
    OneAlternative("", row);
  }

  lemma IntendedMeans(field: string, values: seq<string>, row: Row)
    ensures MeetsAll(row, [Intended(field, values)]) <==> row.field(field) in values
  {
    var group := Intended(field, values);
    assert group in [group];
    if row.field(field) in values {
      var i :| 0 <= i < |values| && values[i] == row.field(field);
      assert group[i] in group && Meets(row, group[i]);
    }
  }

  // ---- combine ------------------------------------------------------------------

  /** All the groups of all the clauses. */
  function ConjoinAll(clauses: seq<string>): seq<seq<Condition>> {
    if clauses == [] then [] else ConjoinAll(Front(clauses)) + Flatten(Parse(Last(clauses)))
  }

  /** Some clause opens with an OR-term when something has been asked before it. */
  predicate OrAfterCondition(clauses: seq<string>) {
    clauses != [] && (OrAfterCondition(Front(clauses)) || (OpensWithOr(Last(clauses)) && AllTerms(Front(clauses)) != []))
  }

  ghost predicate SomeNewQuery(clauses: seq<string>) { exists c | c in clauses :: HoldsNewQuery(c) }

  function AllTerms(clauses: seq<string>): seq<string> {
    if clauses == [] then [] else AllTerms(Front(clauses)) + Terms(Last(clauses))
  }

  lemma {:induction false} AllTermsCons(clauses: seq<string>)
    requires clauses != []
    ensures AllTerms(clauses) == Terms(clauses[0]) + AllTerms(clauses[1..])
  {
    if |clauses| == 1 {
      assert Front(clauses) == [] && clauses[1..] == [];
    } else {
      AllTermsCons(Front(clauses));
      assert Front(clauses)[1..] == Front(clauses[1..]);
      ConcatAssociates(Terms(clauses[0]), AllTerms(Front(clauses)[1..]), Terms(Last(clauses)));
    }
  }

  lemma {:induction false} JoinedTerms(clauses: seq<string>)
    ensures Terms(Join("^", clauses)) == AllTerms(clauses)
  {
    if clauses == [] {
      EmptyAsksNothing();
    } else {
      AllTermsCons(clauses);
      if |clauses| > 1 {
        JoinedTerms(clauses[1..]);
        TermsConcat(clauses[0], Join("^", clauses[1..]));
      } else {
        assert AllTerms(clauses[1..]) == [];
      }
    }
  }

  lemma {:induction false} PresentTerms(clauses: seq<string>)
    ensures AllTerms(Present(clauses)) == AllTerms(clauses)
  {
    if clauses != [] {
      PresentTerms(clauses[1..]);
      AllTermsCons(clauses);
      EmptyAsksNothing();
      if clauses[0] != "" {
        assert Present(clauses) == [clauses[0]] + Present(clauses[1..]);
        AllTermsCons(Present(clauses));
        assert Present(clauses)[1..] == Present(clauses[1..]);
      } else {
        assert Present(clauses) == [] + Present(clauses[1..]) == Present(clauses[1..]);
        assert [] + AllTerms(clauses[1..]) == AllTerms(clauses[1..]);
      }
    }
  }

  lemma CombinedTerms(clauses: seq<string>)
    ensures Terms(Combine(clauses)) == AllTerms(clauses)
  {
    JoinedTerms(Present(clauses));
    PresentTerms(clauses);
  }

  lemma {:induction false} AllTermsStart(clauses: seq<string>)
    ensures (exists t | t in AllTerms(clauses) :: StartsQuery(t)) <==> SomeNewQuery(clauses)
  {
    if clauses != [] {
      var front, c := Front(clauses), Last(clauses);
      AllTermsStart(front);
      assert clauses == front + [c];
      assert forall d :: d in clauses <==> d in front || d == c;
      assert SomeNewQuery(clauses) <==> SomeNewQuery(front) || HoldsNewQuery(c);
      assert forall t :: t in AllTerms(clauses) <==> t in AllTerms(front) || t in Terms(c);
    }
  }

  /** With one query per clause: every clause that runs into the ones before it loses a group. */
  lemma {:induction false} ConjoinedSize(clauses: seq<string>)
    requires !SomeNewQuery(clauses)
    ensures Conjoined(clauses, AllTerms(clauses))
  {
    if clauses == [] {
      NothingConjoined();
    } else {
      var front, c := Front(clauses), Last(clauses);
      assert clauses == front + [c] && c in clauses;
      assert forall d | d in front :: d in clauses;
      ConjoinedSize(front);
      OneMoreClause(front, c);
      AllTermsStart(clauses);
      OneQueryIff(AllTerms(clauses));
    }
  }

  lemma NothingConjoined()
    ensures Conjoined([], [])
  {
    var none: seq<seq<seq<string>>> := [[]];
    assert Queries([]) == none && ReadAll(none[0]) == [];
    FlattenOne(none[0]);
  }

  /** The terms read as one query, of all the clauses' groups unless some run together. */
  ghost predicate Conjoined(clauses: seq<string>, terms: seq<string>) {
    && |Queries(terms)| == 1
    && Size(Queries(terms)) <= |ConjoinAll(clauses)|
    && (Size(Queries(terms)) == |ConjoinAll(clauses)| <==> !OrAfterCondition(clauses))
    && (!OrAfterCondition(clauses) ==> ReadAll(Queries(terms)[0]) == ConjoinAll(clauses))
  }

  lemma OneMoreClause(front: seq<string>, c: string)
    requires |Queries(AllTerms(front))| == 1 && !HoldsNewQuery(c)
    ensures Clash(AllTerms(front), Terms(c)) <==> OpensWithOr(c) && AllTerms(front) != []
    ensures Size(Queries(AllTerms(front) + Terms(c)))
            == Size(Queries(AllTerms(front))) + |Flatten(Parse(c))| - One(Clash(AllTerms(front), Terms(c)))
    ensures !Clash(AllTerms(front), Terms(c)) ==>
              ReadAll(Queries(AllTerms(front) + Terms(c))[0]) == ReadAll(Queries(AllTerms(front))[0]) + Flatten(Parse(c))
  {
    var a, b := AllTerms(front), Terms(c);
    OneQueryIff(a);
    OneQueryIff(b);
    QueriesShape(a, b);
    OneParsed(c);
    if !Clash(a, b) {
      QueriesFit(a, b);
      ReadConcat(Queries(a)[0], Queries(b)[0]);
    }
  }

  lemma OneParsed(c: string)
    requires |Queries(Terms(c))| == 1
    ensures Flatten(Parse(c)) == ReadAll(Queries(Terms(c))[0]) && |Flatten(Parse(c))| == Size(Queries(Terms(c)))
  {
    ReadKeepsShape(Queries(Terms(c)));
    FlattenOne(Parse(c)[0]);
    assert Parse(c) == [Parse(c)[0]];
  }

  lemma ReadConcat(a: seq<seq<string>>, b: seq<seq<string>>)
    ensures ReadAll(a + b) == ReadAll(a) + ReadAll(b)
  {}

  lemma FlattenOne<T>(xs: seq<T>)
    ensures Flatten([xs]) == xs
  {
    assert [xs][1..] == [];
    assert Flatten<T>([]) == [];
  }

  /**
    `combine` prints the conjunction of its clauses exactly when none of them starts a query
    of its own and none opens with an OR-term when something has been asked before it.
   */
  lemma CombineConjoins(clauses: seq<string>)
    ensures Parse(Combine(clauses)) == [ConjoinAll(clauses)] <==> !SomeNewQuery(clauses) && !OrAfterCondition(clauses)
  {
    CombinedTerms(clauses);
    AllTermsStart(clauses);
    OneQueryIff(AllTerms(clauses));
    if !SomeNewQuery(clauses) {
      ConjoinedSize(clauses);
      ReadKeepsShape(Queries(AllTerms(clauses)));
      FlattenOne(ConjoinAll(clauses));
    }
  }

  /** A row meets such a combined query iff it meets every clause; empty clauses ask for nothing. */
  lemma CombineSelects(clauses: seq<string>, row: Row)
    requires !SomeNewQuery(clauses) && !OrAfterCondition(clauses)
    ensures Selects(Combine(clauses), row) <==> forall c | c in clauses :: Selects(c, row)
  {
    CombineConjoins(clauses);
    OneAlternative(Combine(clauses), row);
    ConjoinedMeans(clauses, row);
  }

  lemma {:induction false} ConjoinedMeans(clauses: seq<string>, row: Row)
    requires !SomeNewQuery(clauses)
    ensures MeetsAll(row, ConjoinAll(clauses)) <==> forall c | c in clauses :: Selects(c, row)
  {
    if clauses != [] {
      var front, c := Front(clauses), Last(clauses);
      SnocMember(front, c);
      assert clauses == front + [c];
      ConjoinedMeans(front, row);
      ClauseMeans(c, row);
      MeetsBoth(row, ConjoinAll(front), Flatten(Parse(c)));
    }
  }

  lemma ClauseMeans(c: string, row: Row)
    requires !HoldsNewQuery(c)
    ensures Selects(c, row) <==> MeetsAll(row, Flatten(Parse(c)))
  {
    OneQueryIff(Terms(c));
    OneAlternative(c, row);
    assert Parse(c) == [Parse(c)[0]];
    FlattenOne(Parse(c)[0]);
  }

  /** A clause that opens with OR is swallowed by its predecessor: the result selects too much. */
  lemma OrClauseWidens(row: Row)
    requires row.field("a") == "1" && row.field("b") == "3" && !row.other("ORb=2")
    ensures Selects(Combine(["a=1", "ORb=2"]), row) && !Selects("ORb=2", row)
  {
    CombinedExample();
    OrTermsRead();
    var q := Join("^OR", ["a=1", "b=2"]);
    var group := Parse(q)[0][0];
    assert group[0] in group;
    SelectsOneGroup(q, row, group);
    SelectsOneGroup("ORb=2", row, [Other("ORb=2")]);
  }

  lemma SelectsOneGroup(q: string, row: Row, group: seq<Condition>)
    requires Parse(q) == [[group]]
    ensures Selects(q, row) <==> MeetsSome(row, group)
  {
    OneAlternative(q, row);
    assert group in [group];
  }

  lemma OrTermsRead()
    ensures Parse(Join("^OR", ["a=1", "b=2"])) == [[[Equals("a", "1"), Equals("b", "2")]]]
    ensures Parse("ORb=2") == [[[Other("ORb=2")]]]
  {
    ExampleTerms();
    ChainReads(["a=1", "b=2"], [Equals("a", "1"), Equals("b", "2")]);
    OneTermReads("ORb=2");
  }

  /** A query of one term that is a condition, and neither starts a query nor has a group to continue. */
  lemma OneTermReads(t: string)
    requires IsCondition(t) && '^' !in t && !StartsQuery(t)
    ensures Parse(t) == [[[Read(t)]]]
  {
    SplitWhole(t, '^');
    FilterOne(t, IsCondition);
    QueriesOfOne(t);
    assert ReadGroup([t]) == [Read(t)];
    assert ReadAll([[t]]) == [[Read(t)]];
  }

  lemma ExampleTerms()
    ensures Read("a=1") == Equals("a", "1") && Read("b=2") == Equals("b", "2") && Read("ORb=2") == Other("ORb=2")
    ensures Plain("a=1") && Plain("b=2") && IsCondition("ORb=2") && '^' !in "ORb=2" && !StartsQuery("ORb=2")
  {
    assert "a" + "=" + "1" == "a=1" && "b" + "=" + "2" == "b=2";
    ReadEquality("a", "1"); ReadEquality("b", "2");
    OrExample();
  }

  lemma OrExample()
    ensures Read("ORb=2") == Other("ORb=2")
    ensures IsCondition("ORb=2") && '^' !in "ORb=2" && !StartsQuery("ORb=2")
  {
    assert FieldLength("ORb=2") == 0;
    assert "ORb=2"[2] == 'b' && "ORDERBY"[2] == 'D' && "ORb=2"[0] == 'O' && "NQ"[0] == 'N';
  }

  lemma CombinedExample()
    ensures Combine(["a=1", "ORb=2"]) == Join("^OR", ["a=1", "b=2"])
  {
    CombinedTwo("a=1", "ORb=2");
    assert ["a=1", "b=2"][1..] == ["b=2"];
  }

  lemma CombinedTwo(a: string, b: string)
    requires a != "" && b != ""
    ensures Combine([a, b]) == a + "^" + b
  {
    var clauses := [a, b];
    assert clauses[1..] == [b] && clauses[1..][1..] == [];
    assert Present([b]) == [b] + Present([b][1..]);
    assert Present(clauses) == [a] + Present(clauses[1..]);
    assert Present(clauses) == clauses;
    assert Join("^", clauses) == a + "^" + Join("^", clauses[1..]);
  }

  /** A clause that starts a query of its own lets rows past every clause before it. */
  lemma NewQueryEscapes(first: string, row: Row)
    requires first != "" && row.field("b") == "2"
    ensures Selects(Combine([first, "a=1^NQb=2"]), row)
  {
    ExampleTerms();
    CombinedTwo(first, "a=1^NQb=2");
    assert first + "^" + "a=1^NQb=2" == (first + "^" + "a=1") + "^" + ("NQ" + "b=2");
    SplitWhole("b=2", '^');
    PlainTerms("b=2");
    NewQuerySelects(first + "^" + "a=1", "b=2", row);
    OneTermReads("b=2");
    SelectsOneGroup("b=2", row, [Equals("b", "2")]);
    assert [Equals("b", "2")][0] in [Equals("b", "2")];
  }

  // ---- The IN form ----------------------------------------------------------------

  /** Dry runs look values up with IN, whose list separator rules out commas as well. */
  function QuerySafe(value: string): Option<string> {
    var cleaned := Strip(value);
    if cleaned == "" || ',' in cleaned || '^' in cleaned then None else Some(cleaned)
  }

  lemma {:induction false} SplitCommaJoin(values: seq<string>)
    requires values != []
    ensures |Split(Join(",", values), ',')| >= |values|
    ensures Split(Join(",", values), ',') == values <==> forall v | v in values :: ',' !in v
    ensures |Split(Join(",", values), ',')| == |values| ==> forall v | v in values :: ',' !in v
  {
    SplitWhole(values[0], ',');
    if |values| > 1 {
      var rest := Join(",", values[1..]);
      assert Join(",", values) == values[0] + [','] + rest;
      SplitConcat(values[0], rest, ',');
      SplitCommaJoin(values[1..]);
    }
    assert values == [values[0]] + values[1..];
  }

  /** An IN list splits back to its values if and only if none contains a comma. */
  lemma InTermReadsBack(field: string, values: seq<string>)
    requires IsField(field) && values != []
    ensures Read(InTerm(field, values)) == OneOf(field, values) <==> forall v | v in values :: ',' !in v
  {
    var rest := "IN" + Join(",", values);
    assert InTerm(field, values) == field + rest;
    FieldLengthOf(field, rest);
    SplitCommaJoin(values);
    assert (field + rest)[..|field|] == field && (field + rest)[|field|] == 'I' && (field + rest)[|field| + 1] == 'N';
    assert (field + rest)[|field| + 2..] == Join(",", values);
  }

  lemma {:induction false} JoinCaretFree(values: seq<string>)
    requires forall v | v in values :: '^' !in v
    ensures '^' !in Join(",", values)
  {
    if |values| > 1 { JoinCaretFree(values[1..]); }
  }

  /** The lookup a dry run prints for one class: the clauses it has values for, in OR. */
  function LookupQuery(serials: seq<string>, names: seq<string>): string {
    Join("^OR", LookupTerms(serials, names))
  }

  function LookupTerms(serials: seq<string>, names: seq<string>): seq<string> {
    (if serials != [] then [InTerm("serial_number", serials)] else []) + (if names != [] then [InTerm("name", names)] else [])
  }

  /** With safe values it selects the records with one of the serials or one of the names. */
  lemma LookupSelects(serials: seq<string>, names: seq<string>, row: Row)
    requires serials != [] || names != []
    requires forall v | v in serials + names :: '^' !in v && ',' !in v
    ensures Selects(LookupQuery(serials, names), row)
            <==> row.field("serial_number") in serials || row.field("name") in names
  {
    LookupParses(serials, names);
    var group := LookupGroup(serials, names);
    SelectsOneGroup(LookupQuery(serials, names), row, group);
    if serials != [] { assert group[0] in group; }
    if names != [] { assert group[|group| - 1] in group; }
  }

  function LookupGroup(serials: seq<string>, names: seq<string>): seq<Condition> {
    (if serials != [] then [OneOf("serial_number", serials)] else []) + (if names != [] then [OneOf("name", names)] else [])
  }

  lemma LookupParses(serials: seq<string>, names: seq<string>)
    requires serials != [] || names != []
    requires forall v | v in serials + names :: '^' !in v && ',' !in v
    ensures Parse(LookupQuery(serials, names)) == [[LookupGroup(serials, names)]]
  {
    forall v | v in serials ensures '^' !in v && ',' !in v { assert v in serials + names; }
    forall v | v in names ensures '^' !in v && ',' !in v { assert v in serials + names; }
    if serials != [] { InTermIsSafe("serial_number", serials); }
    if names != [] { InTermIsSafe("name", names); }
    ClausesRead(InTerm("serial_number", serials), OneOf("serial_number", serials), serials != [],
                InTerm("name", names), OneOf("name", names), names != []);
  }

  lemma ClausesRead(s: string, a: Condition, hasS: bool, n: string, b: Condition, hasN: bool)
    requires hasS || hasN
    requires hasS ==> Plain(s) && Read(s) == a
    requires hasN ==> Plain(n) && Read(n) == b
    ensures var terms := (if hasS then [s] else []) + (if hasN then [n] else []);
            Parse(Join("^OR", terms)) == [[(if hasS then [a] else []) + (if hasN then [b] else [])]]
  {
    ChainReads((if hasS then [s] else []) + (if hasN then [n] else []), (if hasS then [a] else []) + (if hasN then [b] else []));
  }

  lemma ChainReads(terms: seq<string>, group: seq<Condition>)
    requires terms != [] && |terms| == |group|
    requires forall i | 0 <= i < |terms| :: Plain(terms[i]) && Read(terms[i]) == group[i]
    ensures Parse(Join("^OR", terms)) == [[group]]
  {
    OrChainParses(terms);
    assert ReadGroup(terms) == group;
  }

  lemma InTermIsSafe(field: string, values: seq<string>)
    requires IsField(field) && values != [] && forall v | v in values :: '^' !in v && ',' !in v
    ensures Plain(InTerm(field, values))
    ensures Read(InTerm(field, values)) == OneOf(field, values)
  {
    JoinCaretFree(values);
    InTermReadsBack(field, values);
    assert InTerm(field, values)[0] == field[0] && field[0] in field;
  }

  // ---- Chunks and usable values --------------------------------------------------------

  /** Querying chunk by chunk finds exactly the rows the whole list would. */
  lemma ChunksSelectTheSame(field: string, values: seq<string>, clause: string, size: nat, row: Row)
    requires IsField(field) && size > 0 && (forall v | v in values :: '^' !in v) && !OpensWithOr(clause) && !HoldsNewQuery(clause)
    ensures (exists chunk | chunk in Chunks(values, size) :: chunk != [] && Selects(BuildOrQuery(field, chunk, clause).value, row))
            <==> row.field(field) in values && Selects(clause, row)
  {
    ChunksCover(values, size);
    var chunks := Chunks(values, size);
    FlattenMember(chunks, row.field(field));
    forall chunk | chunk in chunks
      ensures chunk != []
      ensures Selects(BuildOrQuery(field, chunk, clause).value, row) <==> row.field(field) in chunk && Selects(clause, row)
    {
      forall v | v in chunk ensures '^' !in v {
        FlattenMember(chunks, v);
      }
      OrQuerySelects(field, chunk, clause, row);
    }
  }

  /** The distinct safe trimmed values, in order of first appearance. */
  function Usable(values: seq<string>): seq<string> {
    if values == [] then []
    else
      var before := Usable(values[..|values| - 1]);
      var text := Strip(values[|values| - 1]);
      if IsQuerySafe(text) && text !in before then before + [text] else before
  }

  method UsableValues(values: seq<string>) returns (seen: seq<string>)
    ensures seen == Usable(values)
  {
    seen := [];
    for n := 0 to |values|
      invariant seen == Usable(values[..n])
    {
      assert values[..n + 1][..n] == values[..n];
      var text := Strip(values[n]);
      if IsQuerySafe(text) && text !in seen {
        seen := seen + [text];
      }
    }
    assert values[..|values|] == values;
  }

  /** No value is lost but the blank and the unsafe, none is invented, and none is repeated. */
  lemma {:induction false} UsableIsExact(values: seq<string>)
    ensures forall t :: t in Usable(values) <==> t != "" && '^' !in t && exists v | v in values :: Strip(v) == t
    ensures forall i, j | 0 <= i < j < |Usable(values)| :: Usable(values)[i] != Usable(values)[j]
  {
    if values != [] {
      var front := values[..|values| - 1];
      UsableIsExact(front);
      assert values == front + [values[|values| - 1]];
      var text := Strip(values[|values| - 1]);
      forall t
        ensures t in Usable(values) <==> IsQuerySafe(t) && exists v | v in values :: Strip(v) == t
      {
        if t in Usable(front) {
          var v :| v in front && Strip(v) == t;
          assert v in values;
        } else if t == text {
          assert values[|values| - 1] in values;
        }
      }
    }
  }

  /** Every usable value is safe to print, whatever the directory sent. */
  lemma UsableQueryIsExact(field: string, values: seq<string>, row: Row)
    requires IsField(field) && Usable(values) != []
    ensures BuildOrQuery(field, Usable(values), "").Some?
    ensures Selects(BuildOrQuery(field, Usable(values), "").value, row) <==> row.field(field) in Usable(values)
  {
    UsableIsExact(values);
    EmptySelects(row);
    OrQuerySelects(field, Usable(values), "", row);
  }
}
