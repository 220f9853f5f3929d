/**
  The per-CI writer's dry run: one read per class, indexed by serial number and by name, and a
  prediction per item. The indexes give every item the record a linear scan of everything
  fetched would give it.
 */
module DryRunPreview {
  import opened EncodedQuery
  import opened Sequences
  import opened Text
  import opened Wrappers
  import opened Writers

  datatype Record = Record(sysId: string, name: string, serial: string)

  datatype Field = Serial | Name

  function FieldOf(f: Field, r: Record): string { if f.Serial? then r.serial else r.name }

  // ---- The scan ------------------------------------------------------------------

  /** The first fetched record whose folded field is k. */
  function FirstWith(lower: string -> string, f: Field, rows: seq<Record>, k: string): Option<Record> {
    if rows == [] then None
    else if Fold(lower, FieldOf(f, rows[0])) == k then Some(rows[0])
    else FirstWith(lower, f, rows[1..], k)
  }

  /** Serial number first, then name; a blank one identifies nothing. */
  function Scan(lower: string -> string, rows: seq<Record>, item: CiPayload): Option<Record> {
    var serial, name := Fold(lower, item.serialNumber), Fold(lower, item.deviceName);
    var bySerial := if serial != "" then FirstWith(lower, Serial, rows, serial) else None;
    if bySerial.Some? then bySerial
    else if name != "" then FirstWith(lower, Name, rows, name) else None
  }

  lemma {:induction false} FirstWithConcat(lower: string -> string, f: Field, a: seq<Record>, b: seq<Record>, k: string)
    ensures FirstWith(lower, f, a + b, k)
            == if FirstWith(lower, f, a, k).Some? then FirstWith(lower, f, a, k) else FirstWith(lower, f, b, k)
  {
    if a == [] {
      assert a + b == b;
    } else {
      assert (a + b)[1..] == a[1..] + b;
      FirstWithConcat(lower, f, a[1..], b, k);
    }
  }

  lemma {:induction false} FirstWithMeans(lower: string -> string, f: Field, rows: seq<Record>, k: string)
    ensures FirstWith(lower, f, rows, k).Some? <==> exists r | r in rows :: Fold(lower, FieldOf(f, r)) == k
  {
    if rows != [] {
      FirstWithMeans(lower, f, rows[1..], k);
      assert rows == [rows[0]] + rows[1..];
    }
  }

  /** An update is predicted iff some fetched record carries the item's serial number or its name. */
  lemma UpdateIffFetched(lower: string -> string, rows: seq<Record>, item: CiPayload)
    ensures Prediction(lower, rows, item).action == DryRun(Updated) <==>
              exists r | r in rows :: Fold(lower, r.serial) == Fold(lower, item.serialNumber) != ""
                                      || Fold(lower, r.name) == Fold(lower, item.deviceName) != ""
  {
    FirstWithMeans(lower, Serial, rows, Fold(lower, item.serialNumber));
    FirstWithMeans(lower, Name, rows, Fold(lower, item.deviceName));
  }

  /** Row i is the first whose text in this field folds to k. */
  ghost predicate FirstRow(lower: string -> string, rows: seq<Record>, field: Record -> string, k: string, i: nat) {
    k != "" && i < |rows| && lower(Strip(field(rows[i]))) == k && forall j | 0 <= j < i :: lower(Strip(field(rows[j]))) != k
  }

  /** The record predicted: the first with the item's serial number; failing that, and only then, the first with its name. */
  lemma SerialBeforeName(lower: string -> string, rows: seq<Record>, item: CiPayload, i: nat)
    ensures FirstRow(lower, rows, (r: Record) => r.serial, lower(Strip(item.serialNumber)), i) ==>
              Prediction(lower, rows, item) == WriteResult(item.intuneId, DryRun(Updated), rows[i].sysId, false)
    ensures FirstRow(lower, rows, (r: Record) => r.name, lower(Strip(item.deviceName)), i)
            && (lower(Strip(item.serialNumber)) == "" || forall r | r in rows :: lower(Strip(r.serial)) != lower(Strip(item.serialNumber))) ==>
              Prediction(lower, rows, item) == WriteResult(item.intuneId, DryRun(Updated), rows[i].sysId, false)
  {
    FirstWithMeans(lower, Serial, rows, Fold(lower, item.serialNumber));
    if FirstRow(lower, rows, (r: Record) => r.serial, lower(Strip(item.serialNumber)), i) {
      FirstWithAt(lower, Serial, rows, Fold(lower, item.serialNumber), i);
    }
    if FirstRow(lower, rows, (r: Record) => r.name, lower(Strip(item.deviceName)), i) {
      FirstWithAt(lower, Name, rows, Fold(lower, item.deviceName), i);
    }
  }

  lemma {:induction false} FirstWithAt(lower: string -> string, f: Field, rows: seq<Record>, k: string, i: nat)
    requires i < |rows| && Fold(lower, FieldOf(f, rows[i])) == k && forall j | 0 <= j < i :: Fold(lower, FieldOf(f, rows[j])) != k
    ensures FirstWith(lower, f, rows, k) == Some(rows[i])
  {
    if i > 0 { FirstWithAt(lower, f, rows[1..], k, i - 1); }
  }

  // ---- What is fetched --------------------------------------------------------------

  /** The distinct class names of a batch, in order of first appearance. */
  function Classes(batch: seq<CiPayload>): seq<string> {
    if batch == [] then []
    else
      var before := Classes(batch[..|batch| - 1]);
      var c := batch[|batch| - 1].className;
      if c in before then before else before + [c]
  }

  function Of(batch: seq<CiPayload>, className: string): seq<CiPayload> {
    Filter(batch, (i: CiPayload) => i.className == className)
  }

  /** The distinct values that can go into an IN list. */
  function Safe(values: seq<string>): seq<string> {
    if values == [] then []
    else
      var before := Safe(values[..|values| - 1]);
      match QuerySafe(values[|values| - 1])
      case None => before
      case Some(v) => if v in before then before else before + [v]
  }

  function Serials(items: seq<CiPayload>): seq<string> { Safe(Map(items, (i: CiPayload) => i.serialNumber)) }
  function Names(items: seq<CiPayload>): seq<string> { Safe(Map(items, (i: CiPayload) => i.deviceName)) }

  /** "" where a class has nothing that can be looked up: no request is made for it. */
  function QueryFor(items: seq<CiPayload>): string { LookupQuery(Serials(items), Names(items)) }

  predicate IsAsked(items: seq<CiPayload>) { Serials(items) != [] || Names(items) != [] }

  /** Table and query to rows; None is a ServiceNowError. */
  type Server = (string, string) -> Option<seq<Record>>

  predicate AllAnswered(server: Server, batch: seq<CiPayload>, classes: seq<string>) {
    forall c | c in classes && IsAsked(Of(batch, c)) :: server(c, QueryFor(Of(batch, c))).Some?
  }

  /** Everything the lookups return, class after class. */
  function Fetched(server: Server, batch: seq<CiPayload>, classes: seq<string>): seq<Record>
    requires AllAnswered(server, batch, classes)
  {
    if classes == [] then []
    else
      var c := classes[|classes| - 1];
      Fetched(server, batch, classes[..|classes| - 1])
      + (if IsAsked(Of(batch, c)) then server(c, QueryFor(Of(batch, c))).value else [])
  }

  /** The server gives r for a class of the batch that has something to be looked up by. */
  predicate Gives(server: Server, batch: seq<CiPayload>, c: string, r: Record) {
    IsAsked(Of(batch, c)) && var rows := server(c, QueryFor(Of(batch, c))); rows.Some? && r in rows.value
  }

  /** What is fetched is what the server gives for some class of the batch. */
  lemma FetchedAre(server: Server, batch: seq<CiPayload>, r: Record)
    requires AllAnswered(server, batch, Classes(batch))
    ensures r in Fetched(server, batch, Classes(batch)) <==> exists c | c in Classes(batch) :: Gives(server, batch, c, r)
    ensures forall c :: c in Classes(batch) <==> exists p | p in batch :: p.className == c
  {
    ClassesAre(batch);
    if r in Fetched(server, batch, Classes(batch)) { var c := FetchedBy(server, batch, Classes(batch), r); }
    forall c | c in Classes(batch) && Gives(server, batch, c, r) ensures r in Fetched(server, batch, Classes(batch)) {
      FetchedFrom(server, batch, Classes(batch), c, r);
    }
  }

  lemma {:induction false} FetchedBy(server: Server, batch: seq<CiPayload>, classes: seq<string>, r: Record) returns (c: string)
    requires AllAnswered(server, batch, classes) && r in Fetched(server, batch, classes)
    ensures c in classes && Gives(server, batch, c, r)
  {
    var n := |classes| - 1;
    assert classes == classes[..n] + [classes[n]];
    c := classes[n];
    if r in Fetched(server, batch, classes[..n]) { c := FetchedBy(server, batch, classes[..n], r); }
  }

  lemma {:induction false} FetchedFrom(server: Server, batch: seq<CiPayload>, classes: seq<string>, c: string, r: Record)
    requires AllAnswered(server, batch, classes) && c in classes && Gives(server, batch, c, r)
    ensures r in Fetched(server, batch, classes)
  {
    var n := |classes| - 1;
    assert classes == classes[..n] + [classes[n]];
    if c != classes[n] { FetchedFrom(server, batch, classes[..n], c, r); }
  }

  lemma {:induction false} ClassesAre(batch: seq<CiPayload>)
    ensures forall c :: c in Classes(batch) <==> exists p | p in batch :: p.className == c
  {
    if batch != [] {
      assert batch == batch[..|batch| - 1] + [batch[|batch| - 1]];
      ClassesAre(batch[..|batch| - 1]);
    }
  }

  lemma {:induction false} SafeIsSafe(values: seq<string>)
    ensures forall v :: v in Safe(values) <==> exists w | w in values :: QuerySafe(w) == Some(v)
    ensures forall v | v in Safe(values) :: '^' !in v && ',' !in v && v != ""
  {
    if values != [] {
      SafeIsSafe(values[..|values| - 1]);
      assert values == values[..|values| - 1] + [values[|values| - 1]];
    }
  }

  /** The query of a class asks for exactly the records with one of its items' safe serials or names. */
  lemma QueryAsksForItems(items: seq<CiPayload>, row: Row)
    requires IsAsked(items)
    ensures Selects(QueryFor(items), row)
            <==> row.field("serial_number") in Serials(items) || row.field("name") in Names(items)
    ensures Selects(QueryFor(items), row)
            <==> (exists p | p in items :: Askable(p.serialNumber, row.field("serial_number")))
                 || (exists p | p in items :: Askable(p.deviceName, row.field("name")))
  {
    SafeIsSafe(Map(items, (i: CiPayload) => i.serialNumber));
    SafeIsSafe(Map(items, (i: CiPayload) => i.deviceName));
    LookupSelects(Serials(items), Names(items), row);
    SafeOf(items, (i: CiPayload) => i.serialNumber, row.field("serial_number"));
    SafeOf(items, (i: CiPayload) => i.deviceName, row.field("name"));
  }

  /** The value, trimmed, is this one, and can go into an IN list. */
  ghost predicate Askable(value: string, v: string) { v == Strip(value) && v != "" && ',' !in v && '^' !in v }

  lemma SafeOf(items: seq<CiPayload>, text: CiPayload -> string, v: string)
    ensures v in Safe(Map(items, text)) <==> exists p | p in items :: Askable(text(p), v)
  {
    SafeIsSafe(Map(items, text));
    if v in Safe(Map(items, text)) {
      var w :| w in Map(items, text) && QuerySafe(w) == Some(v);
      var i :| 0 <= i < |items| && Map(items, text)[i] == w;
      assert Askable(text(items[i]), v);
    }
    if p :| p in items && Askable(text(p), v) {
      var i :| 0 <= i < |items| && items[i] == p;
      assert Map(items, text)[i] == text(p) && text(p) in Map(items, text) && QuerySafe(text(p)) == Some(v);
    }
  }

  // ---- The indexes -------------------------------------------------------------------

  /** An index agrees with the scan on every key but the blank one, which it never holds. */
  ghost predicate Indexes(lower: string -> string, f: Field, rows: seq<Record>, index: map<string, Record>) {
    forall k :: Lookup(index, k) == if k == "" then None else FirstWith(lower, f, rows, k)
  }

  function Lookup(index: map<string, Record>, k: string): Option<Record> {
    if k in index then Some(index[k]) else None
  }

  function SetDefault(index: map<string, Record>, k: string, row: Record): map<string, Record> {
    if k == "" || k in index then index else index[k := row]
  }

  lemma IndexRow(lower: string -> string, f: Field, rows: seq<Record>, index: map<string, Record>, row: Record)
    requires Indexes(lower, f, rows, index)
    ensures Indexes(lower, f, rows + [row], SetDefault(index, Fold(lower, FieldOf(f, row)), row))
  {
    forall k ensures Lookup(SetDefault(index, Fold(lower, FieldOf(f, row)), row), k)
                     == if k == "" then None else FirstWith(lower, f, rows + [row], k) {
      FirstWithConcat(lower, f, rows, [row], k);
      assert Lookup(index, k) == if k == "" then None else FirstWith(lower, f, rows, k);
      assert FirstWith(lower, f, [row], k) == if Fold(lower, FieldOf(f, row)) == k then Some(row) else None;
    }
  }

  /** Add one class's rows to both indexes; the first record seen under a key stays. */
  method IndexRows(lower: string -> string, ghost before: seq<Record>, rows: seq<Record>,
                   bySerial0: map<string, Record>, byName0: map<string, Record>)
    returns (bySerial: map<string, Record>, byName: map<string, Record>)
    requires Indexes(lower, Serial, before, bySerial0) && Indexes(lower, Name, before, byName0)
    ensures Indexes(lower, Serial, before + rows, bySerial) && Indexes(lower, Name, before + rows, byName)
  {
    bySerial, byName := bySerial0, byName0;
    assert before + rows[..0] == before;
    for n := 0 to |rows|
      invariant Indexes(lower, Serial, before + rows[..n], bySerial) && Indexes(lower, Name, before + rows[..n], byName)
    {
      assert before + rows[..n + 1] == (before + rows[..n]) + [rows[n]];
      IndexRow(lower, Serial, before + rows[..n], bySerial, rows[n]);
      IndexRow(lower, Name, before + rows[..n], byName, rows[n]);
      bySerial := SetDefault(bySerial, Fold(lower, rows[n].serial), rows[n]);
      byName := SetDefault(byName, Fold(lower, rows[n].name), rows[n]);
    }
    assert rows[..|rows|] == rows;
  }

  /** Everything fetched for the classes before n, then the rows of class n. */
  lemma FetchedNext(server: Server, batch: seq<CiPayload>, classes: seq<string>, n: nat)
    requires n < |classes| && AllAnswered(server, batch, classes[..n])
    ensures var c := classes[n];
            AllAnswered(server, batch, classes[..n + 1]) <==> (IsAsked(Of(batch, c)) ==> server(c, QueryFor(Of(batch, c))).Some?)
    ensures AllAnswered(server, batch, classes[..n + 1]) ==>
              var c := classes[n];
              Fetched(server, batch, classes[..n + 1]) == Fetched(server, batch, classes[..n])
                + if IsAsked(Of(batch, c)) then server(c, QueryFor(Of(batch, c))).value else []
  {
    TakeOneMore(classes, n);
    assert classes[..n + 1][n] == classes[n];
  }

  method ReadIndexes(lower: string -> string, server: Server, batch: seq<CiPayload>)
    returns (ok: bool, bySerial: map<string, Record>, byName: map<string, Record>)
    ensures ok <==> AllAnswered(server, batch, Classes(batch))
    ensures ok ==> var rows := Fetched(server, batch, Classes(batch));
                   Indexes(lower, Serial, rows, bySerial) && Indexes(lower, Name, rows, byName)
  {
    bySerial, byName := map[], map[];
    var classes := Classes(batch);
    for n := 0 to |classes|
      invariant AllAnswered(server, batch, classes[..n])
      invariant Indexes(lower, Serial, Fetched(server, batch, classes[..n]), bySerial)
      invariant Indexes(lower, Name, Fetched(server, batch, classes[..n]), byName)
    {
      var items := Of(batch, classes[n]);
      ghost var before := Fetched(server, batch, classes[..n]);
      FetchedNext(server, batch, classes, n);
      if IsAsked(items) {
        var answer := server(classes[n], QueryFor(items));
        if answer.None? {
          assert classes[n] in classes;
          return false, map[], map[];
        }
        bySerial, byName := IndexRows(lower, before, answer.value, bySerial, byName);
      } else {
        assert before + [] == before;
      }
    }
    assert classes[..|classes|] == classes;
    ok := true;
  }

  /** What the dry run says of an item, given everything that was fetched. */
  function Prediction(lower: string -> string, rows: seq<Record>, item: CiPayload): WriteResult {
    match Scan(lower, rows, item)
    case Some(r) => WriteResult(item.intuneId, DryRun(Updated), r.sysId, false)
    case None => WriteResult(item.intuneId, DryRun(Inserted), "", false)
  }

  method Predict(lower: string -> string, ghost rows: seq<Record>, bySerial: map<string, Record>, byName: map<string, Record>, item: CiPayload)
    returns (result: WriteResult)
    requires Indexes(lower, Serial, rows, bySerial) && Indexes(lower, Name, rows, byName)
    ensures result == Prediction(lower, rows, item)
  {
    var serial, name := Fold(lower, item.serialNumber), Fold(lower, item.deviceName);
    var found := if serial != "" then Lookup(bySerial, serial) else None;
    assert Lookup(bySerial, serial) == if serial == "" then None else FirstWith(lower, Serial, rows, serial);
    assert Lookup(byName, name) == if name == "" then None else FirstWith(lower, Name, rows, name);
    if found.None? {
      found := Lookup(byName, name);
    }
    result := if found.Some? then WriteResult(item.intuneId, DryRun(Updated), found.value.sysId, false)
              else WriteResult(item.intuneId, DryRun(Inserted), "", false);
  }

  method PredictAll(lower: string -> string, ghost rows: seq<Record>, bySerial: map<string, Record>, byName: map<string, Record>,
                    batch: seq<CiPayload>) returns (results: seq<WriteResult>)
    requires Indexes(lower, Serial, rows, bySerial) && Indexes(lower, Name, rows, byName)
    ensures |results| == |batch| && forall i | 0 <= i < |batch| :: results[i] == Prediction(lower, rows, batch[i])
    ensures Answers(batch, results)
  {
    results := [];
    for n := 0 to |batch|
      invariant |results| == n && forall i | 0 <= i < n :: results[i] == Prediction(lower, rows, batch[i])
    {
      var result := Predict(lower, rows, bySerial, byName, batch[n]);
      results := results + [result];
    }
  }

  /** What is said of an item when a lookup failed. */
  function Unpredicted(item: CiPayload): WriteResult { WriteResult(item.intuneId, DryRun(Pending), "", true) }

  /**
    One prediction per item, in batch order: an update exactly where the scan of all fetched
    records finds one, an insert otherwise; and nothing predicted if any lookup failed.
   */
  method Preview(lower: string -> string, server: Server, batch: seq<CiPayload>) returns (results: seq<WriteResult>)
    ensures Answers(batch, results)
    ensures AllAnswered(server, batch, Classes(batch)) ==>
              forall i | 0 <= i < |batch| :: results[i] == Prediction(lower, Fetched(server, batch, Classes(batch)), batch[i])
    ensures !AllAnswered(server, batch, Classes(batch)) ==>
              forall i | 0 <= i < |batch| :: results[i] == Unpredicted(batch[i])
  {
    var ok, bySerial, byName := ReadIndexes(lower, server, batch);
    if ok {
      results := PredictAll(lower, Fetched(server, batch, Classes(batch)), bySerial, byName, batch);
    } else {
      results := seq(|batch|, i requires 0 <= i < |batch| => Unpredicted(batch[i]));
    }
  }
}
