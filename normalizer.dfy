/** The response normaliser (`parse_json_safely`): strips whitespace and markdown code
    fences from a model answer and hands the rest to a JSON parser. The parser itself
    (`json.loads`) is outside the model and is passed in as a function. */
module Normalizer {
  import opened Text
  import opened Wrappers

  /** A bare markdown code fence. */
  const Fence: string := "```"
  /** A code fence tagged with the json language. */
  const JsonFence: string := Fence + "json"

  /** What the JSON parser makes of a text: a value, or the message of its decode error. */
  datatype ParseOutcome<T> = Decoded(value: T) | DecodeError(message: string)

  /** The pair `parse_json_safely` returns: `(record, None)` or `(None, error)`. */
  datatype SafeParse<T> = SafeParse(record: Option<T>, error: Option<string>)

  /** First rule: a leading "```json" is removed. */
  function DropJsonTag(t: string): (u: string)
    ensures |u| <= |t|
  {
    if StartsWith(t, JsonFence) then t[|JsonFence|..] else t
  }

  /** Second rule, applied whether or not the first fired: a leading "```" is removed. */
  function DropOpeningFence(a: string): (u: string)
    ensures |u| <= |a|
  {
    if StartsWith(a, Fence) then a[|Fence|..] else a
  }

  /** Third rule: a trailing "```" is removed. */
  function DropClosingFence(b: string): (u: string)
    ensures |u| <= |b|
  {
    if EndsWith(b, Fence) then b[..|b| - |Fence|] else b
  }

  /** The three fence rules, in the order the source applies them. */
  function Unfence(t: string): (u: string)
    ensures |u| <= |t|
  {
    DropClosingFence(DropOpeningFence(DropJsonTag(t)))
  }

  /** The text handed to the parser: the answer stripped, unfenced, and stripped again. */
  function Clean(raw: string): (cleaned: string)
    ensures Trimmed(cleaned)
    ensures |cleaned| <= |raw|
  {
    Strip(Unfence(Strip(raw)))
  }

  /** `parse_json_safely(raw)`: exactly one of the two halves is present; the record is
      the parser's value for the cleaned text, the error its message. */
  function ParseJsonSafely<T>(raw: string, parse: string -> ParseOutcome<T>): (r: SafeParse<T>)
    ensures r.record.Some? != r.error.Some?
    ensures r.record.Some? <==> parse(Clean(raw)).Decoded?
    ensures r.record.Some? ==> parse(Clean(raw)) == Decoded(r.record.value)
    ensures r.error.Some? ==> parse(Clean(raw)) == DecodeError(r.error.value)
  {
    match parse(Clean(raw))
    case Decoded(v) => SafeParse(Some(v), None)
    case DecodeError(e) => SafeParse(None, Some(e))
  }

  /** The cleaned text is a contiguous piece of the answer: cleaning only cuts at the ends. */
  lemma CleanIsInfix(raw: string)
    ensures exists i, j :: 0 <= i <= j <= |raw| && raw[i..j] == Clean(raw)
  {
    var i := CleanOffset(raw, Clean(raw));
    InfixWitness(raw, Clean(raw), i);
  }

  /** Where the cleaned text sits within the answer. */
  lemma CleanOffset(raw: string, r: string) returns (i: nat)
    requires r == Strip(Unfence(Strip(raw)))
    ensures i + |r| <= |raw| && raw[i..i + |r|] == r
  {
    var t := Strip(raw);
    var c := Unfence(t);
    var i0 := StripDecompose(raw, t);
    var d, e := UnfenceInfix(t);
    var i1 := StripDecompose(c, r);
    i := InfixOfInfix(raw, t, i0, c, d, e, r, i1);
  }

  /** A piece found at a known offset is a piece. */
  lemma InfixWitness(s: string, r: string, i: nat)
    requires i + |r| <= |s| && s[i..i + |r|] == r
    ensures exists i, j :: 0 <= i <= j <= |s| && s[i..j] == r
  {
  }

  /** A piece cut from the ends of a piece of `s` is itself a piece of `s`. */
  lemma InfixOfInfix(s: string, t: string, i0: nat, c: string, d: nat, e: nat, r: string, i1: nat)
    returns (i: nat)
    requires i0 + |t| <= |s| && s[i0..i0 + |t|] == t
    requires d + e <= |t| && c == t[d..|t| - e]
    requires i1 + |r| <= |c| && c[i1..i1 + |r|] == r
    ensures i + |r| <= |s| && s[i..i + |r|] == r
  {
    i := i0 + d + i1;
    forall k | 0 <= k < |r| ensures r[k] == s[i + k] {
      assert r[k] == c[i1 + k] == t[d + i1 + k] == s[i0 + d + i1 + k];
    }
  }

  /** The fence rules cut only at the two ends: `d` characters at the front, `e` at the back. */
  lemma UnfenceInfix(t: string) returns (d: nat, e: nat)
    ensures d + e <= |t| && Unfence(t) == t[d..|t| - e]
  {
    var d1 := if StartsWith(t, JsonFence) then |JsonFence| else 0;
    var a := DropJsonTag(t);
    assert a == t[d1..];
    var d2 := if StartsWith(a, Fence) then |Fence| else 0;
    var b := DropOpeningFence(a);
    assert b == a[d2..];
    assert b == t[d1 + d2..];
    e := if EndsWith(b, Fence) then |Fence| else 0;
    assert Unfence(t) == b[..|b| - e];
    d := d1 + d2;
    assert b[..|b| - e] == t[d..|t| - e];
  }

  /** An answer opening with "```json" also opens with "```". */
  lemma JsonFenceOpensWithFence(s: string)
    ensures StartsWith(s, JsonFence) ==> StartsWith(s, Fence)
  {
    if StartsWith(s, JsonFence) {
      assert s[..|Fence|] == s[..|JsonFence|][..|Fence|];
    }
  }

  /** An answer with no whitespace at either end that neither starts nor ends with a
      fence reaches the parser unchanged. */
  lemma CleanPlainUnchanged(s: string)
    requires Trimmed(s) && !StartsWith(s, Fence) && !EndsWith(s, Fence)
    ensures Clean(s) == s
  {
    JsonFenceOpensWithFence(s);
    assert Unfence(s) == s;
    StripTrimmed(s);
  }

  /** Cleaning the empty answer gives the empty text. */
  lemma CleanEmpty()
    ensures Clean("") == ""
  {
    assert Strip("") == "";
    var u := Unfence("");
    assert u == "";
  }

  /** Whitespace around the answer makes no difference to the cleaned text. */
  lemma CleanIgnoresSurroundingSpace(a: string, s: string, b: string)
    requires AllSpace(a) && AllSpace(b)
    ensures Clean(a + s + b) == Clean(s)
  {
    StripIgnoresSurroundingSpace(a, s, b);
  }

  /** Text that opens and closes with a backtick is its own strip. */
  lemma StripBackticked(s: string)
    requires |s| > 0 && s[0] == '`' && s[|s| - 1] == '`'
    ensures Strip(s) == s
  {
    StripTrimmed(s);
  }

  /** When `x` is at least as long as `p`, `x + y` opens with `p` exactly when `x` does. */
  lemma OpeningOfConcat(x: string, y: string, p: string)
    ensures |x| >= |p| ==> (StartsWith(x + y, p) <==> StartsWith(x, p))
  {
    if |x| >= |p| {
      assert (x + y)[..|p|] == x[..|p|];
    }
  }

  /** "```" + body + "```" opens with "```json" only when the body opens with "json". */
  lemma FencedOpeningReadsJson(body: string)
    ensures StartsWith(Fence + body + Fence, JsonFence) ==> StartsWith(body, "json")
  {
    var t := Fence + body + Fence;
    if |body| >= 4 {
      assert t[3..7] == body[..4];
      assert t[..7] == Fence + t[3..7];
    } else {
      assert t[3 + |body|] == '`';
    }
  }

  /** The fence rules on "```json" + body + "```": both fences go, provided the body
      does not itself open with a further fence. */
  lemma UnfenceJsonFenced(body: string)
    requires !StartsWith(body, Fence)
    ensures Unfence(JsonFence + body + Fence) == body
  {
    var t := JsonFence + body + Fence;
    assert t[..|JsonFence|] == JsonFence;
    var a := t[|JsonFence|..];
    assert a == body + Fence;
    OpeningOfConcat(body, Fence, Fence);
    if StartsWith(a, Fence) {
      var b := a[|Fence|..];
      assert b == body by {
        assert |b| == |body|;
        forall k | 0 <= k < |b| ensures b[k] == body[k] {
          assert b[k] == a[3 + k] == Fence[3 + k - |body|];
          assert body[k] == a[k] == Fence[k];
        }
      }
      assert !EndsWith(b, Fence);
    } else {
      assert a[|a| - |Fence|..] == Fence;
      assert a[..|a| - |Fence|] == body;
    }
  }

  /** A body fenced as "```json" ... "```" comes out as the body stripped, provided the
      body does not itself open with a further fence. */
  lemma CleanJsonFenced(body: string)
    requires !StartsWith(body, Fence)
    ensures Clean(JsonFence + body + Fence) == Strip(body)
  {
    var raw := JsonFence + body + Fence;
    StripBackticked(raw);
    UnfenceJsonFenced(body);
  }

  /** The fence rules on "```" + body + "```": both fences go, provided the body does not
      open with "json". */
  lemma UnfenceBareFenced(body: string)
    requires !StartsWith(body, "json")
    ensures Unfence(Fence + body + Fence) == body
  {
    var t := Fence + body + Fence;
    FencedOpeningReadsJson(body);
    assert t[..|Fence|] == Fence;
    var b := t[|Fence|..];
    assert b == body + Fence;
    assert b[|b| - |Fence|..] == Fence;
    assert b[..|b| - |Fence|] == body;
  }

  /** A body fenced as "```" ... "```" comes out as the body stripped, provided the body
      does not open with "json" (which would make the opening read as "```json"). */
  lemma CleanBareFenced(body: string)
    requires !StartsWith(body, "json")
    ensures Clean(Fence + body + Fence) == Strip(body)
  {
    StripBackticked(Fence + body + Fence);
    UnfenceBareFenced(body);
  }

  /** The fence rules on "```json" + "```" + body + "```": all three fences go. */
  lemma UnfenceJsonTagThenFence(body: string)
    ensures Unfence(JsonFence + Fence + body + Fence) == body
  {
    var t := JsonFence + Fence + body + Fence;
    assert t[..|JsonFence|] == JsonFence;
    var a := t[|JsonFence|..];
    assert a == Fence + body + Fence;
    assert a[..|Fence|] == Fence;
    var b := a[|Fence|..];
    assert b == body + Fence;
    assert b[|b| - |Fence|..] == Fence;
    assert b[..|b| - |Fence|] == body;
  }

  /** Both opening rules can fire on one answer: "```json" followed by "```" loses both
      markers, so more than one opening fence is removed. */
  lemma CleanJsonTagThenFence(body: string)
    ensures Clean(JsonFence + Fence + body + Fence) == Strip(body)
  {
    StripBackticked(JsonFence + Fence + body + Fence);
    UnfenceJsonTagThenFence(body);
  }

  /** The usual fenced answer, "```json", a line break, the object text, a line break and
      "```", is cleaned to the object text, whatever that text is (so long as it has no
      whitespace at its ends). */
  lemma CleanFencedLines(obj: string)
    requires Trimmed(obj)
    ensures Clean(JsonFence + "\n" + obj + "\n" + Fence) == obj
  {
    var body := "\n" + obj + "\n";
    assert body[0] == '\n';
    assert JsonFence + "\n" + obj + "\n" + Fence == JsonFence + body + Fence;
    CleanJsonFenced(body);
    StripUnique("\n", obj, "\n");
  }

  /** A plain answer is parsed as it is: its record or its error is the parser's own. */
  lemma ParsePlainAnswer<T>(s: string, parse: string -> ParseOutcome<T>)
    requires Trimmed(s) && !StartsWith(s, Fence) && !EndsWith(s, Fence)
    ensures ParseJsonSafely(s, parse) == ParseDirectly(s, parse)
  {
    CleanPlainUnchanged(s);
    ParseUnchangedAnswer(s, parse);
  }

  /** The pair the parser's own outcome on `s` gives, with no cleaning in between. */
  function ParseDirectly<T>(s: string, parse: string -> ParseOutcome<T>): SafeParse<T>
  {
    match parse(s)
    case Decoded(v) => SafeParse(Some(v), None)
    case DecodeError(e) => SafeParse(None, Some(e))
  }

  /** An answer that cleaning leaves alone is parsed as it is. */
  lemma ParseUnchangedAnswer<T>(s: string, parse: string -> ParseOutcome<T>)
    requires Clean(s) == s
    ensures ParseJsonSafely(s, parse) == ParseDirectly(s, parse)
  {
  }
}
