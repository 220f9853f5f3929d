/**
  What identification rests on: normalising a serial number and a MAC address, and the order
  in which the mapper's layers override one another.
 */
module Mapping {
  import opened Sequences
  import opened Text
  import opened Wrappers

  // ---- White space ---------------------------------------------------------------------

  /** Replace every run of white space by one blank. */
  function Collapse(s: string): string {
    if s == "" then ""
    else if !IsSpace(s[0]) then [s[0]] + Collapse(s[1..])
    else if |s| > 1 && IsSpace(s[1]) then Collapse(s[1..])
    else [' '] + Collapse(s[1..])
  }

  /** Strip, then collapse: what serial numbers and text fields go through. */
  function Squeeze(s: string): string { Collapse(Strip(s)) }

  /** The words of a string: its maximal runs of characters that are not white space. */
  function Words(s: string): seq<string> {
    if s == "" then []
    else if IsSpace(s[0]) then Words(s[1..])
    else
      var rest := Words(s[1..]);
      if |s| > 1 && !IsSpace(s[1]) && rest != [] then [[s[0]] + rest[0]] + rest[1..] else [[s[0]]] + rest
  }

  function Spaced(words: seq<string>): string {
    if words == [] then "" else if |words| == 1 then words[0] else words[0] + [' '] + Spaced(words[1..])
  }

  predicate IsWord(w: string) { w != "" && forall c | c in w :: !IsSpace(c) }

  lemma {:induction false} WordsAreWords(s: string)
    ensures forall w | w in Words(s) :: IsWord(w)
    ensures s != "" && !IsSpace(s[0]) ==> Words(s) != [] && Words(s)[0][..1] == [s[0]]
  {
    if s != "" {
      WordsAreWords(s[1..]);
      if !IsSpace(s[0]) {
        var rest := Words(s[1..]);
        if |s| > 1 && !IsSpace(s[1]) && rest != [] {
          assert IsWord(rest[0]);
          assert IsWord([s[0]] + rest[0]);
          assert Words(s) == [[s[0]] + rest[0]] + rest[1..];
        } else {
          assert IsWord([s[0]]);
        }
      }
    }
  }

  lemma {:induction false} WordsStripLeft(s: string)
    ensures Words(StripLeft(s)) == Words(s)
  {
    if s != "" && IsSpace(s[0]) { WordsStripLeft(s[1..]); }
  }

  lemma {:induction false} WordsTrailing(s: string, c: char)
    requires IsSpace(c)
    ensures Words(s + [c]) == Words(s)
  {
    if s == "" {
      assert ("" + [c])[1..] == "";
    } else {
      assert (s + [c])[1..] == s[1..] + [c];
      WordsTrailing(s[1..], c);
    }
  }

  lemma {:induction false} WordsStripRight(s: string)
    ensures Words(StripRight(s)) == Words(s)
  {
    if s != "" && IsSpace(s[|s| - 1]) {
      assert s == s[..|s| - 1] + [s[|s| - 1]];
      WordsTrailing(s[..|s| - 1], s[|s| - 1]);
      WordsStripRight(s[..|s| - 1]);
    }
  }

  /** Collapsing keeps one leading blank if the text starts with white space, and is otherwise its words, spaced. */
  lemma {:induction false} CollapseIsSpaced(s: string)
    requires s != "" ==> !IsSpace(s[|s| - 1])
    ensures Collapse(s) == (if s != "" && IsSpace(s[0]) then [' '] else "") + Spaced(Words(s))
  {
    if s != "" {
      CollapseIsSpaced(s[1..]);
      if IsSpace(s[0]) { CollapseBlank(s); } else { CollapseHead(s); }
    }
  }

  lemma CollapseBlank(s: string)
    requires s != "" && IsSpace(s[0]) && !IsSpace(s[|s| - 1])
    requires Collapse(s[1..]) == (if s[1..] != "" && IsSpace(s[1..][0]) then [' '] else "") + Spaced(Words(s[1..]))
    ensures Collapse(s) == [' '] + Spaced(Words(s))
  {
    assert |s| > 1 && s[1..][0] == s[1] && "" + Spaced(Words(s[1..])) == Spaced(Words(s[1..]));
  }

  lemma CollapseHead(s: string)
    requires s != "" && !IsSpace(s[0]) && !IsSpace(s[|s| - 1])
    requires Collapse(s[1..]) == (if s[1..] != "" && IsSpace(s[1..][0]) then [' '] else "") + Spaced(Words(s[1..]))
    ensures Collapse(s) == Spaced(Words(s))
  {
    var rest := Words(s[1..]);
    WordsAreWords(s[1..]);
    if |s| == 1 {
      assert rest == [] && Words(s) == [[s[0]]];
    } else if IsSpace(s[1]) {
      HasWord(s[1..]);
      assert Words(s) == [[s[0]]] + rest && Words(s)[1..] == rest;
      assert [s[0]] + ([' '] + Spaced(rest)) == [s[0]] + [' '] + Spaced(rest);
    } else {
      assert rest != [] && Words(s) == [[s[0]] + rest[0]] + rest[1..];
      SpacedHead(s[0], rest);
      assert "" + Spaced(rest) == Spaced(rest);
    }
  }

  lemma {:induction false} HasWord(s: string)
    requires s != "" && !IsSpace(s[|s| - 1])
    ensures Words(s) != []
  {
    if IsSpace(s[0]) { HasWord(s[1..]); }
  }

  lemma SpacedHead(c: char, words: seq<string>)
    requires words != []
    ensures Spaced([[c] + words[0]] + words[1..]) == [c] + Spaced(words)
  {
    var grown := [[c] + words[0]] + words[1..];
    assert grown[1..] == words[1..];
    if |words| > 1 {
      assert ([c] + words[0]) + [' '] + Spaced(words[1..]) == [c] + (words[0] + [' '] + Spaced(words[1..]));
    }
  }

  /** Squeezing a string is writing its words one blank apart. */
  lemma SqueezeIsWords(s: string)
    ensures Squeeze(s) == Spaced(Words(s))
  {
    StripTrims(s);
    WordsStripLeft(s);
    WordsStripRight(StripLeft(s));
    CollapseIsSpaced(Strip(s));
  }

  lemma {:induction false} WordsOfWord(w: string, rest: string)
    requires IsWord(w)
    ensures Words(w) == [w] && Words(w + [' '] + rest) == [w] + Words(rest)
  {
    var s := w + [' '] + rest;
    assert w[0] in w;
    if |w| == 1 {
      assert w == [w[0]] && w[1..] == "" && [[w[0]]] + [] == [w];
      assert s[1..] == [' '] + rest && ([' '] + rest)[1..] == rest;
      assert Words(s[1..]) == Words(rest);
    } else {
      assert w[1] in w && forall c | c in w[1..] :: c in w;
      WordsOfWord(w[1..], rest);
      assert s[1..] == w[1..] + [' '] + rest;
      assert [w[0]] + w[1..] == w;
      assert ([w[1..]] + Words(rest))[1..] == Words(rest);
    }
  }

  lemma {:induction false} WordsOfSpaced(words: seq<string>)
    requires forall w | w in words :: IsWord(w)
    ensures Words(Spaced(words)) == words
  {
    if words != [] {
      assert words[0] in words && words == [words[0]] + words[1..];
      WordsOfWord(words[0], Spaced(words[1..]));
      WordsOfSpaced(words[1..]);
    }
  }

  /** Two texts squeeze to the same value exactly when they have the same words. */
  lemma SqueezeSameIffSameWords(a: string, b: string)
    ensures Squeeze(a) == Squeeze(b) <==> Words(a) == Words(b)
    ensures Squeeze(Squeeze(a)) == Squeeze(a)
  {
    SqueezeIsWords(a); SqueezeIsWords(b); SqueezeIsWords(Squeeze(a));
    WordsAreWords(a); WordsAreWords(b);
    WordsOfSpaced(Words(a)); WordsOfSpaced(Words(b));
  }

  // ---- Serial numbers --------------------------------------------------------------------

  const MIN_SERIAL_LENGTH := 3

  predicate IsFiller(c: char) { c == '-' || c == ' ' }

  function WithoutFillers(s: string): string {
    if s == "" then "" else (if IsFiller(s[0]) then "" else [s[0]]) + WithoutFillers(s[1..])
  }

  predicate OneCharacter(s: string) { s != "" && forall i | 0 <= i < |s| :: s[i] == s[0] }

  function NormalizeSerial(lower: string -> string, blocklist: set<string>, raw: Option<string>): Option<string> {
    if raw.None? || raw.value == "" then None
    else
      var value := Squeeze(raw.value);
      if value == "" || lower(value) in blocklist || |value| < MIN_SERIAL_LENGTH || OneCharacter(WithoutFillers(value)) then None
      else Some(value)
  }

  /** Two characters of s, neither a dash nor a blank, that differ. */
  predicate Varied(s: string) {
    exists i, j | 0 <= i < j < |s| :: !IsFiller(s[i]) && !IsFiller(s[j]) && s[i] != s[j]
  }

  lemma {:induction false} WithoutFillersMember(s: string)
    ensures forall c :: c in WithoutFillers(s) <==> c in s && !IsFiller(c)
  {
    if s != "" {
      WithoutFillersMember(s[1..]);
      assert s == [s[0]] + s[1..];
    }
  }

  lemma OneCharacterIff(s: string)
    ensures OneCharacter(WithoutFillers(s)) <==> (exists c :: c in s && !IsFiller(c)) && !Varied(s)
  {
    WithoutFillersMember(s);
    var t := WithoutFillers(s);
    if t != "" {
      assert t[0] in t;
      if OneCharacter(t) {
        assert forall c | c in t :: c == t[0];
      } else {
        var i :| 0 <= i < |t| && t[i] != t[0];
        assert t[i] in t && t[0] in t;
        var m :| 0 <= m < |s| && s[m] == t[0];
        var n :| 0 <= n < |s| && s[n] == t[i];
        assert if m < n then s[m] != s[n] else s[n] != s[m];
      }
    }
  }

  /**
    Exactly which serial numbers are accepted: three characters or more once squeezed, not
    blocklisted, and either two different characters that are not fillers or fillers alone.
    The last case is why "---" is accepted.
   */
  lemma SerialAcceptedIff(lower: string -> string, blocklist: set<string>, raw: string)
    ensures var value := Spaced(Words(raw));
            NormalizeSerial(lower, blocklist, Some(raw)) ==
              if |value| >= 3 && lower(value) !in blocklist && (Varied(value) || forall c | c in value :: c == '-' || c == ' ')
              then Some(value) else None
  {
    SqueezeIsWords(raw);
    OneCharacterIff(Squeeze(raw));
    if raw == "" { assert Words(raw) == []; }
  }

  /** Serial numbers that differ only in their runs of white space are one, and normalising again changes nothing. */
  lemma SerialIsStable(lower: string -> string, blocklist: set<string>, a: string, b: string)
    requires Words(a) == Words(b)
    ensures NormalizeSerial(lower, blocklist, Some(a)) == NormalizeSerial(lower, blocklist, Some(b))
    ensures var once := NormalizeSerial(lower, blocklist, Some(a));
            NormalizeSerial(lower, blocklist, once) == once
  {
    SerialAcceptedIff(lower, blocklist, a);
    SerialAcceptedIff(lower, blocklist, b);
    SqueezeSameIffSameWords(a, b);
  }

  // ---- MAC addresses ----------------------------------------------------------------------

  predicate IsHex(c: char) { '0' <= c <= '9' || 'A' <= c <= 'F' || 'a' <= c <= 'f' }

  function UpperHex(c: char): char {
    match c
    case 'a' => 'A' case 'b' => 'B' case 'c' => 'C' case 'd' => 'D' case 'e' => 'E' case 'f' => 'F'
    case _ => c
  }

  function HexOf(s: string): string {
    if s == "" then "" else (if IsHex(s[0]) then [s[0]] else "") + HexOf(s[1..])
  }

  function Upper(s: string): string { seq(|s|, i requires 0 <= i < |s| => UpperHex(s[i])) }

  function InPairs(s: string): string {
    if |s| <= 2 then s else s[..2] + [':'] + InPairs(s[2..])
  }

  predicate AllZero(s: string) { forall i | 0 <= i < |s| :: s[i] == '0' }

  function NormalizeMac(raw: Option<string>): Option<string> {
    if raw.None? || raw.value == "" then None
    else
      var hex := HexOf(raw.value);
      if |hex| != 12 || AllZero(hex) then None else Some(InPairs(Upper(hex)))
  }

  lemma {:induction false} HexOfHex(s: string)
    ensures forall c | c in HexOf(s) :: IsHex(c)
    ensures (forall c | c in s :: IsHex(c)) ==> HexOf(s) == s
  {
    if s != "" {
      HexOfHex(s[1..]);
      assert s == [s[0]] + s[1..];
    }
  }

  lemma {:induction false} HexOfConcat(a: string, b: string)
    ensures HexOf(a + b) == HexOf(a) + HexOf(b)
  {
    if a == "" {
      assert a + b == b;
    } else {
      HexOfConcat(a[1..], b);
      var head := if IsHex(a[0]) then [a[0]] else "";
      assert (a + b)[0] == a[0] && (a + b)[1..] == a[1..] + b;
      assert head + (HexOf(a[1..]) + HexOf(b)) == head + HexOf(a[1..]) + HexOf(b);
    }
  }

  lemma HexOfPair(pair: string, rest: string)
    requires forall c | c in pair :: IsHex(c)
    ensures HexOf(pair + [':'] + rest) == pair + HexOf(rest)
  {
    HexOfHex(pair);
    HexOfConcat(pair + [':'], rest);
    HexOfConcat(pair, [':']);
    assert HexOf([':']) == "" && pair + "" == pair;
  }

  lemma {:induction false} HexOfPairs(s: string)
    requires forall c | c in s :: IsHex(c)
    ensures HexOf(InPairs(s)) == s
  {
    if |s| <= 2 {
      HexOfHex(s);
    } else {
      var pair, rest := s[..2], s[2..];
      assert s == pair + rest;
      HexOfPairs(rest);
      HexOfPair(pair, InPairs(rest));
    }
  }

  lemma UpperKeeps(s: string)
    requires forall c | c in s :: IsHex(c)
    ensures |Upper(s)| == |s| && (forall c | c in Upper(s) :: IsHex(c)) && Upper(Upper(s)) == Upper(s)
    ensures AllZero(Upper(s)) <==> AllZero(s)
  {
    forall i | 0 <= i < |s| ensures IsHex(Upper(s)[i]) && UpperHex(UpperHex(s[i])) == UpperHex(s[i]) && (Upper(s)[i] == '0' <==> s[i] == '0') {
      assert s[i] in s;
    }
  }

  /** An address is accepted iff it has twelve hexadecimal digits, not all zero; read back, it has the same digits, upper-cased. */
  lemma MacReadsBack(raw: string)
    ensures var mac := NormalizeMac(Some(raw));
            && (mac.Some? <==> |HexOf(raw)| == 12 && exists c | c in HexOf(raw) :: c != '0')
            && (mac.Some? ==> HexOf(mac.value) == Upper(HexOf(raw)))
    ensures NormalizeMac(NormalizeMac(Some(raw))) == NormalizeMac(Some(raw))
  {
    var hex := HexOf(raw);
    HexOfHex(raw);
    UpperKeeps(hex);
    HexOfPairs(Upper(hex));
    if raw == "" { assert hex == ""; }
    if !AllZero(hex) {
      var i :| 0 <= i < |hex| && hex[i] != '0';
      assert hex[i] in hex;
    }
  }

  lemma {:induction false} PairsShape(s: string, i: nat)
    requires i < |InPairs(s)|
    ensures if i % 3 == 2 then InPairs(s)[i] == ':' else i - i / 3 < |s| && InPairs(s)[i] == s[i - i / 3]
  {
    if |s| > 2 && i >= 3 {
      assert InPairs(s)[i] == InPairs(s[2..])[i - 3];
      PairsShape(s[2..], i - 3);
      assert (i - 3) % 3 == i % 3 && (i - 3) / 3 == i / 3 - 1;
    }
  }

  /** The digits are those characters of the address that are hexadecimal, in their order. */
  lemma {:induction false} HexAre(s: string)
    ensures HexOf(s) == Filter(s, (c: char) => '0' <= c <= '9' || 'A' <= c <= 'F' || 'a' <= c <= 'f')
  {
    if s != "" { HexAre(s[1..]); }
  }

  /** An accepted address is written as six pairs of upper-case digits between colons. */
  lemma MacShape(raw: string, i: nat)
    requires NormalizeMac(Some(raw)).Some? && i < 17
    ensures |NormalizeMac(Some(raw)).value| == 17
    ensures i % 3 == 2 ==> NormalizeMac(Some(raw)).value[i] == ':'
    ensures i % 3 != 2 ==>
              var digit, c := HexOf(raw)[i - i / 3], NormalizeMac(Some(raw)).value[i];
              c == (if 'a' <= digit <= 'f' then digit - 'a' + 'A' else digit) && ('0' <= c <= '9' || 'A' <= c <= 'F')
  {
    PairAt(Upper(HexOf(raw)), i);
    if i % 3 != 2 { UpperDigit(raw, i - i / 3); }
  }

  lemma PairAt(s: string, i: nat)
    requires |s| == 12 && i < 17
    ensures |InPairs(s)| == 17 && if i % 3 == 2 then InPairs(s)[i] == ':' else i - i / 3 < 12 && InPairs(s)[i] == s[i - i / 3]
  {
    PairsLength(s);
    PairsShape(s, i);
  }

  lemma UpperDigit(raw: string, k: nat)
    requires k < |HexOf(raw)|
    ensures var digit := HexOf(raw)[k];
            && UpperHex(digit) == (if 'a' <= digit <= 'f' then digit - 'a' + 'A' else digit)
            && ('0' <= UpperHex(digit) <= '9' || 'A' <= UpperHex(digit) <= 'F')
  {
    HexOfHex(raw);
    assert HexOf(raw)[k] in HexOf(raw);
  }

  lemma {:induction false} PairsLength(s: string)
    requires |s| % 2 == 0
    ensures |InPairs(s)| == if s == "" then 0 else |s| + |s| / 2 - 1
  {
    if |s| > 2 { PairsLength(s[2..]); }
  }

  // ---- Layers ---------------------------------------------------------------------------------

  /** The properties of a managed device that identification needs; `other` are the remaining fixed fields, already rendered. */
  datatype Source = Source(id: string, deviceName: Option<string>, managedDeviceName: Option<string>, serialNumber: Option<string>,
                           ethernetMac: Option<string>, wifiMac: Option<string>, other: map<string, Option<string>>)

  /** extra holds the admin's extra fields with the value each resolves to for this device. */
  datatype Settings = Settings(lower: string -> string, blocklist: set<string>, correlationField: string, installStatus: string,
                               extra: map<string, Option<string>>, overrides: map<string, Option<string>>, drop: set<string>)

  function Clean(v: Option<string>): Option<string> {
    if v.None? || Squeeze(v.value) == "" then None else Some(Squeeze(v.value))
  }

  /** A name is cleaned to its words, and one without words is none. */
  lemma CleanIsWords(s: string)
    ensures Clean(Some(s)) == if Words(s) == [] then None else Some(Spaced(Words(s)))
  {
    SqueezeIsWords(s);
    WordsAreNotEmpty(s);
    SpacedIsEmpty(Words(s));
  }

  lemma {:induction false} WordsAreNotEmpty(s: string)
    ensures forall k | 0 <= k < |Words(s)| :: Words(s)[k] != ""
  {
    if s != "" { WordsAreNotEmpty(s[1..]); }
  }

  lemma SpacedIsEmpty(words: seq<string>)
    requires forall k | 0 <= k < |words| :: words[k] != ""
    ensures Spaced(words) == "" <==> words == []
  {}

  /** Python's `a or b` on optional text. */
  function Or(a: Option<string>, b: Option<string>): Option<string> { if a.Some? && a.value != "" then a else b }

  function Fixed(c: Settings, d: Source): map<string, Option<string>> {
    d.other["name" := Or(Clean(d.deviceName), Clean(d.managedDeviceName))]
           ["serial_number" := NormalizeSerial(c.lower, c.blocklist, d.serialNumber)]
           ["mac_address" := NormalizeMac(Or(d.ethernetMac, d.wifiMac))]
  }

  function At(m: map<string, Option<string>>, f: string): Option<string> { if f in m then m[f] else None }

  /** What the connector's own layers say of a field, the last one first. */
  function OwnValue(c: Settings, d: Source, refs: map<string, string>, owner: Option<string>, f: string): Option<string> {
    if f == "install_status" && c.installStatus != "" then Some(c.installStatus)
    else if f == "assigned_to" && owner.Some? then owner
    else if f == c.correlationField != "" then Some(d.id)
    else if (f == "manufacturer" || f == "model_id") && f in refs && refs[f] != "" then Some(refs[f])
    else At(Fixed(c, d), f)
  }

  /** The value a field should have: an admin's drop, override and extra field come before everything else. */
  function FieldValue(c: Settings, d: Source, refs: map<string, string>, owner: Option<string>, f: string): Option<string> {
    if f in c.drop then None
    else if f in c.overrides then c.overrides[f]
    else if f in c.extra then c.extra[f]
    else OwnValue(c, d, refs, owner, f)
  }

  function Present(v: Option<string>): Option<string> { if v == Some("") then None else v }

  method AddReferences(vs0: map<string, Option<string>>, refs: map<string, string>) returns (vs: map<string, Option<string>>)
    ensures forall f :: At(vs, f) == if (f == "manufacturer" || f == "model_id") && f in refs && refs[f] != "" then Some(refs[f]) else At(vs0, f)
  {
    vs := vs0;
    if "manufacturer" in refs && refs["manufacturer"] != "" {
      vs := vs["manufacturer" := Some(refs["manufacturer"])];
    }
    if "model_id" in refs && refs["model_id"] != "" {
      vs := vs["model_id" := Some(refs["model_id"])];
    }
  }

  method SetFields(c: Settings, d: Source, refs: map<string, string>, owner: Option<string>) returns (vs: map<string, Option<string>>)
    ensures forall f :: At(vs, f) == OwnValue(c, d, refs, owner, f)
  {
    vs := AddReferences(Fixed(c, d), refs);
    if c.correlationField != "" {
      vs := vs[c.correlationField := Some(d.id)];
    }
    if owner.Some? {
      vs := vs["assigned_to" := owner];
    }
    if c.installStatus != "" {
      vs := vs["install_status" := Some(c.installStatus)];
    }
  }

  /** f is in the payload with this value, or, where there is none or a blank one, is not in it. */
  ghost predicate Has(values: map<string, string>, f: string, v: Option<string>) {
    if v.Some? && v.value != "" then f in values && values[f] == v.value else f !in values
  }

  /**
    Which layer a field's value comes from: a dropped field is left out whoever sets it; an
    override beats an extra field, that beats the connector's own layers, and of those the
    install status, the owner and the correlation id beat the references, which beat what the
    device reports.
   */
  lemma LayersInOrder(c: Settings, d: Source, refs: map<string, string>, owner: Option<string>, values: map<string, string>, f: string)
    requires f in values <==> Present(FieldValue(c, d, refs, owner, f)).Some?
    requires f in values ==> FieldValue(c, d, refs, owner, f) == Some(values[f])
    ensures f in c.drop ==> f !in values
    ensures f !in c.drop && f in c.overrides ==> Has(values, f, c.overrides[f])
    ensures f !in c.drop + c.overrides.Keys && f in c.extra ==> Has(values, f, c.extra[f])
    ensures f !in c.drop + c.overrides.Keys + c.extra.Keys ==> HasOwn(c, d, refs, owner, values, f)
  {
    if f !in c.drop + c.overrides.Keys + c.extra.Keys { OwnLayersInOrder(c, d, refs, owner, values, f); }
  }

  /** The connector's own layers. */
  ghost predicate HasOwn(c: Settings, d: Source, refs: map<string, string>, owner: Option<string>, values: map<string, string>, f: string) {
    if f == "install_status" && c.installStatus != "" then Has(values, f, Some(c.installStatus))
    else if f == "assigned_to" && owner.Some? then Has(values, f, owner)
    else if f != "" && f == c.correlationField then Has(values, f, Some(d.id))
    else if f in {"manufacturer", "model_id"} && f in refs && refs[f] != "" then Has(values, f, Some(refs[f]))
    else
      && (f == "serial_number" ==> Has(values, f, NormalizeSerial(c.lower, c.blocklist, d.serialNumber)))
      && (f == "mac_address" ==> Has(values, f, NormalizeMac(if d.ethernetMac.Some? && d.ethernetMac.value != "" then d.ethernetMac
                                                              else d.wifiMac)))
      && (f == "name" ==> Has(values, f, if Clean(d.deviceName).Some? then Clean(d.deviceName) else Clean(d.managedDeviceName)))
      && (f !in {"serial_number", "mac_address", "name"} && f in d.other ==> Has(values, f, d.other[f]))
  }

  lemma OwnLayersInOrder(c: Settings, d: Source, refs: map<string, string>, owner: Option<string>, values: map<string, string>, f: string)
    requires f in values <==> Present(OwnValue(c, d, refs, owner, f)).Some?
    requires f in values ==> OwnValue(c, d, refs, owner, f) == Some(values[f])
    ensures HasOwn(c, d, refs, owner, values, f)
  {
    if Clean(d.deviceName).Some? { assert Clean(d.deviceName).value != ""; }
  }

  /** Lay the layers on top of one another, drop what is dropped, and keep only what has a value. */
  method BuildValues(c: Settings, d: Source, refs: map<string, string>, owner: Option<string>) returns (values: map<string, string>)
    ensures forall f :: f in values <==> Present(FieldValue(c, d, refs, owner, f)).Some?
    ensures forall f | f in values :: FieldValue(c, d, refs, owner, f) == Some(values[f])
  {
    var vs := SetFields(c, d, refs, owner);
    vs := AddAll(vs, c.extra);
    vs := vs + c.overrides - c.drop;
    forall f ensures At(vs, f) == FieldValue(c, d, refs, owner, f) {}
    values := Prune(vs);
  }

  function Prune(vs: map<string, Option<string>>): (values: map<string, string>)
    ensures forall f :: f in values <==> Present(At(vs, f)).Some?
    ensures forall f | f in values :: At(vs, f) == Some(values[f])
  {
    map f | f in vs && Present(vs[f]).Some? :: vs[f].value
  }

  method AddAll(vs0: map<string, Option<string>>, extra: map<string, Option<string>>) returns (vs: map<string, Option<string>>)
    ensures vs == vs0 + extra
  {
    vs := vs0;
    var rest := extra.Keys;
    while rest != {}
      invariant rest <= extra.Keys && forall f :: At(vs, f) == if f in extra && f !in rest then extra[f] else At(vs0, f)
      invariant vs.Keys == vs0.Keys + (extra.Keys - rest)
      decreases rest
    {
      var f :| f in rest;
      vs := vs[f := extra[f]];
      rest := rest - {f};
    }
    forall f | f in vs ensures vs[f] == (vs0 + extra)[f] { assert At(vs, f) == vs[f]; }
  }

  /**
    The serial number that reaches a payload can be trusted: unless an admin's own field or
    override sets it, it is the normalised one, so long enough, not blocklisted, and with two
    different characters unless it is fillers alone.
   */
  lemma SentSerialIsTrustworthy(c: Settings, d: Source, refs: map<string, string>, owner: Option<string>, values: map<string, string>)
    requires forall f | f in values :: FieldValue(c, d, refs, owner, f) == Some(values[f])
    requires "serial_number" in values && "serial_number" !in c.overrides && "serial_number" !in c.extra
    requires c.correlationField != "serial_number"
    ensures var s := values["serial_number"];
            && d.serialNumber.Some? && s == Spaced(Words(d.serialNumber.value))
            && |s| >= MIN_SERIAL_LENGTH && c.lower(s) !in c.blocklist && (Varied(s) || forall ch | ch in s :: IsFiller(ch))
  {
    var s := values["serial_number"];
    assert NormalizeSerial(c.lower, c.blocklist, d.serialNumber) == Some(s);
    SerialAcceptedIff(c.lower, c.blocklist, d.serialNumber.value);
  }
}
