/** Error details as both writers dig them out of a reply, and where the digging itself raises. */
module ItemErrors {
  import opened Json
  import opened Text
  import opened Wrappers

  function StripColonsLeft(s: string): string {
    if s != "" && s[0] in {':', ' '} then StripColonsLeft(s[1..]) else s
  }

  function StripColonsRight(s: string): string {
    if s != "" && s[|s| - 1] in {':', ' '} then StripColonsRight(s[..|s| - 1]) else s
  }

  function TextOrEmpty(j: Json): string { if Truthy(j) then ToText(j) else "" }

  predicate IsPadding(c: char) { c in {':', ' '} }

  lemma {:induction false} LeftOfColons(s: string) returns (i: nat)
    ensures i <= |s| && StripColonsLeft(s) == s[i..] && (forall k | 0 <= k < i :: IsPadding(s[k])) && (i < |s| ==> !IsPadding(s[i]))
  {
    i := 0;
    if s != "" && IsPadding(s[0]) {
      i := LeftOfColons(s[1..]);
      assert s[1..][i..] == s[i + 1..] && forall k | 0 <= k < i :: s[1..][k] == s[k + 1];
      i := i + 1;
    }
  }

  lemma {:induction false} RightOfColons(s: string) returns (j: nat)
    ensures j <= |s| && StripColonsRight(s) == s[..j] && (forall k | j <= k < |s| :: IsPadding(s[k])) && (j > 0 ==> !IsPadding(s[j - 1]))
  {
    j := |s|;
    assert s[..j] == s;
    if s != "" && IsPadding(s[|s| - 1]) {
      var front := s[..|s| - 1];
      j := RightOfColons(front);
      assert front[..j] == s[..j] && forall k | 0 <= k < |front| :: front[k] == s[k];
    }
  }

  /** s is padding up to i, white space up to j, and padding again. */
  ghost predicate BlankAt(s: string, i: nat, j: nat) {
    && i <= j <= |s| && (forall k | 0 <= k < i :: IsPadding(s[k])) && (forall k | i <= k < j :: IsSpace(s[k]))
    && (forall k | j <= k < |s| :: IsPadding(s[k]))
  }

  ghost predicate Blank(s: string) { exists i: nat, j: nat :: BlankAt(s, i, j) }

  lemma StrippedIff(s: string)
    ensures Strip(StripColonsRight(StripColonsLeft(s))) == "" <==> Blank(s)
  {
    var i := LeftOfColons(s);
    var n := RightOfColons(s[i..]);
    var j := i + n;
    assert s[i..][..n] == s[i..j] && forall k | i <= k < |s| :: s[k] == s[i..][k - i];
    var a, b := StripIsMiddle(s[i..j]);
    assert forall k | i <= k < j :: s[k] == s[i..j][k - i] && s[k] in s[i..j];
    if Blank(s) && i < j { Outside(s, i, j); }
    if Strip(s[i..j]) == "" { assert BlankAt(s, i, j); }
  }

  /** What neither end of a blank text takes off as padding is white space. */
  lemma Outside(s: string, i: nat, j: nat)
    requires Blank(s) && i < j <= |s| && !IsPadding(s[i]) && !IsPadding(s[j - 1])
    ensures forall k | i <= k < j :: IsSpace(s[k])
  {
    var a: nat, b: nat :| BlankAt(s, a, b);
    assert a <= i && j <= b;
  }

  /** The message of one entry of `errors`; a blank one is dropped. */
  function Message(error: Json): string {
    if error.Object? then
      Strip(StripColonsRight(StripColonsLeft(TextOrEmpty(Get(error.fields, "error")) + ": " + TextOrEmpty(Get(error.fields, "message")))))
    else ToText(error)
  }

  /** Whether an item has error messages; None where its `errors` cannot be gone through. */
  function HasErrors(item: map<string, Json>): Option<bool> {
    var errors := Get(item, "errors");
    if !Truthy(errors) then Some(false)
    else match errors
      case List(entries, _) => Some(exists e | e in entries :: Message(e) != "")
      case Object(fields, _) => Some(exists k | k in fields :: k != "")
      case Str(_) => Some(true)
      case _ => None
  }

  /** An entry without a message: one that is blank as text, or an object whose label and message say nothing. */
  ghost predicate SaysNothing(error: Json) {
    if error.Object? then
      var title, detail := Get(error.fields, "error"), Get(error.fields, "message");
      Blank((if Truthy(title) then ToText(title) else "") + ": " + (if Truthy(detail) then ToText(detail) else ""))
    else ToText(error) == ""
  }

  /** `errors` that hold no message. */
  ghost predicate NoMessages(errors: Json) {
    || !Truthy(errors)
    || (errors.List? && forall e | e in errors.items :: SaysNothing(e))
    || (errors.Object? && forall k | k in errors.fields :: k == "")
  }

  lemma ErrorsAreRead(item: map<string, Json>)
    ensures HasErrors(item).None? <==> Truthy(Get(item, "errors")) && !Iterable(Get(item, "errors"))
    ensures HasErrors(item) == Some(false) <==> NoMessages(Get(item, "errors"))
  {
    var errors := Get(item, "errors");
    if errors.List? {
      forall e | e in errors.items ensures Message(e) == "" <==> SaysNothing(e) {
        if e.Object? { StrippedIff(TextOrEmpty(Get(e.fields, "error")) + ": " + TextOrEmpty(Get(e.fields, "message"))); }
      }
    }
  }

  /** The first item of a refusal that is an IRE result envelope. */
  function FirstItem(body: Body): Option<map<string, Json>> {
    if body.None? || !body.value.Object? then None
    else
      var result := Get(body.value.fields, "result");
      if !result.Object? then None
      else
        var items := Get(result.fields, "items");
        if items.List? && items.items != [] && items.items[0].Object? then Some(items.items[0].fields) else None
  }

  /** Looking for the message of a refusal raises, and the caller does not expect it to. */
  predicate RefusalRaises(body: Body) { FirstItem(body).Some? && HasErrors(FirstItem(body).value).None? }

  /** A refusal whose item has a number for its errors. */
  const NUMBER_FOR_ERRORS: Body :=
    Some(Object(map["result" := Object(map["items" := List([Object(map["errors" := Number(5.0, "5")], "")], "")], "")], ""))

  /** It is enough that the first item's `errors` is a true value that is no list, no text and no object. */
  lemma RaisesIff(body: Body)
    ensures RefusalRaises(body)
            <==> && body.Some? && body.value.Object?
                 && var result := Get(body.value.fields, "result");
                    && result.Object?
                    && var items := Get(result.fields, "items");
                       && items.List? && items.items != [] && items.items[0].Object?
                       && var errors := Get(items.items[0].fields, "errors");
                          Truthy(errors) && !errors.List? && !errors.Str? && !errors.Object?
    ensures RefusalRaises(NUMBER_FOR_ERRORS)
  {}
}
