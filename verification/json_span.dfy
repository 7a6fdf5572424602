/** `_extract_json_substring`: the fallback that digs a JSON object out of a
    model reply that `json.loads` rejected, possibly wrapped in a Markdown fence. */
module JsonSpan {
  import opened Wrappers
  import opened Text

  const JsonFence: string := "```json"
  const Fence: string := "```"
  const NoObjectMessage: string := "No JSON object found in text"

  /** The reply stripped, without a leading "```json" and/or "```" and a
      trailing "```", and stripped again. */
  function CleanReply(txt: string): string {
    Strip(DropFences(Strip(txt)))
  }

  function DropFences(c0: string): string {
    var c1 := if StartsWith(c0, JsonFence) then c0[|JsonFence|..] else c0;
    var c2 := if StartsWith(c1, Fence) then c1[|Fence|..] else c1;
    if EndsWith(c2, Fence) then c2[..|c2| - |Fence|] else c2
  }

  /** Some `{` comes before some `}`. */
  predicate HasBracePair(c: string) {
    exists i, j :: 0 <= i < j < |c| && c[i] == '{' && c[j] == '}'
  }

  /** The text handed to `json.loads`: from the first `{` to the last `}` of
      the cleaned reply. */
  function ObjectSpan(txt: string): Result<string> {
    SpanOf(CleanReply(txt))
  }

  /** The outermost brace-delimited span of an already cleaned reply. */
  function SpanOf(c: string): (r: Result<string>)
    ensures r.Err? <==> !HasBracePair(c)
    ensures r.Err? ==> r.error == ValueError(NoObjectMessage)
    ensures r.Ok? ==> IsObjectText(r.value)
    ensures r.Ok? ==> (0 <= FindChar(c, '{') < RFindChar(c, '}')
      && r.value == c[FindChar(c, '{')..RFindChar(c, '}') + 1])
  {
    var first := FindChar(c, '{');
    var last := RFindChar(c, '}');
    BracePairFound(c);
    if first == -1 || last == -1 || last <= first then
      Err(ValueError(NoObjectMessage))
    else
      SpanBetween(c, first, last);
      Ok(c[first..last + 1])
  }

  /** The text from a `{` to a later `}` is an object text sitting where
      it was cut from. */
  lemma SpanBetween(c: string, first: nat, last: nat)
    requires first < last < |c| && c[first] == '{' && c[last] == '}'
    ensures var span := c[first..last + 1];
      IsObjectText(span) && OccursAt(c, span, first) && c[first + |span|..] == c[last + 1..]
  {
  }

  /** The span runs from the first `{` of the reply to its last `}`: no
      `{` comes before it and no `}` after it. */
  lemma SpanOfOutermost(c: string)
    requires SpanOf(c).Ok?
    ensures var span := SpanOf(c).value; var i := FindChar(c, '{');
      OccursAt(c, span, i) && '{' !in c[..i] && '}' !in c[i + |span|..]
  {
    var first := FindChar(c, '{');
    var last := RFindChar(c, '}');
    assert c[first] == '{' && '{' !in c[..first];
    assert c[last] == '}' && '}' !in c[last + 1..];
    SpanBetween(c, first, last);
  }

  /** `find` and `rfind` locate a brace pair exactly when there is one. */
  lemma BracePairFound(c: string)
    ensures HasBracePair(c) <==> FindChar(c, '{') >= 0 && RFindChar(c, '}') > FindChar(c, '{')
  {
    var first := FindChar(c, '{');
    var last := RFindChar(c, '}');
    if HasBracePair(c) {
      var i, j :| 0 <= i < j < |c| && c[i] == '{' && c[j] == '}';
      assert first >= 0;
      assert i >= first;
      assert last >= 0;
      assert j <= last;
    }
    if first >= 0 && last > first {
      assert c[first] == '{' && c[last] == '}';
    }
  }

  /** `_extract_json_substring(txt)`, with `loads` standing for `json.loads`. */
  function ExtractJsonSubstring<T>(txt: string, loads: string -> Result<T>): (r: Result<T>)
    ensures ObjectSpan(txt).Err? ==> r == Err(ValueError(NoObjectMessage))
    ensures ObjectSpan(txt).Ok? ==> r == loads(ObjectSpan(txt).value)
  {
    var span :- ObjectSpan(txt);
    loads(span)
  }

  /** A text that is one brace-delimited object. */
  predicate IsObjectText(obj: string) {
    |obj| >= 2 && obj[0] == '{' && obj[|obj| - 1] == '}'
  }

  /** An unwrapped object is handed on unchanged. */
  lemma BareObjectSpan(obj: string)
    requires IsObjectText(obj)
    ensures ObjectSpan(obj) == Ok(obj)
  {
    StripUnpadded(obj);
    assert DropFences(obj) == obj by {
      assert !StartsWith(obj, JsonFence) && !StartsWith(obj, Fence) by { assert obj[0] != '`'; }
      assert !EndsWith(obj, Fence) by { assert obj[|obj| - 1] != '`'; }
    }
    ObjectIsItsOwnSpan(obj);
  }

  lemma ObjectIsItsOwnSpan(obj: string)
    requires IsObjectText(obj)
    ensures SpanOf(obj) == Ok(obj)
  {
    assert FindChar(obj, '{') == 0 && RFindChar(obj, '}') == |obj| - 1;
    assert obj[0..|obj| - 1 + 1] == obj;
  }

  /** An object in a "```json" or "```" fence, with whitespace inside the
      fence, comes out as the bare object. */
  lemma FencedObjectSpan(opening: string, w1: string, obj: string, w2: string)
    requires opening == JsonFence || opening == Fence
    requires AllSpace(w1) && AllSpace(w2) && IsObjectText(obj)
    ensures ObjectSpan(opening + w1 + obj + w2 + Fence) == Ok(obj)
  {
    CleanFenced(opening, w1, obj, w2);
    ObjectIsItsOwnSpan(obj);
  }

  lemma CleanFenced(opening: string, w1: string, obj: string, w2: string)
    requires opening == JsonFence || opening == Fence
    requires AllSpace(w1) && AllSpace(w2) && IsObjectText(obj)
    ensures CleanReply(opening + w1 + obj + w2 + Fence) == obj
  {
    var inner := w1 + obj + w2;
    PaddedObjectStart(w1, obj, w2);
    CleanFencedInner(opening, inner);
    StripIgnoresPadding(w1, obj, w2);
    ObjectTextUnpadded(obj);
    FencedConcat(opening, w1, obj, w2);
  }

  lemma CleanFencedInner(opening: string, inner: string)
    requires opening == JsonFence || opening == Fence
    requires |inner| > 0 && inner[0] != '`' && inner[0] != 'j'
    ensures CleanReply(opening + inner + Fence) == Strip(inner)
  {
    // The two facts are kept in separate scopes: together they send the
    // solver unfolding `Strip` over the fence literals.
    var txt := opening + inner + Fence;
    assert CleanReply(txt) == Strip(DropFences(txt)) by {
      FenceIsUnpadded(opening, inner);
      CleanUnpadded(txt);
    }
    assert DropFences(txt) == inner by {
      DropFencesOf(opening, inner);
    }
  }

  lemma CleanUnpadded(txt: string)
    requires Strip(txt) == txt
    ensures CleanReply(txt) == Strip(DropFences(txt))
  {
  }

  lemma FencedConcat(opening: string, w1: string, obj: string, w2: string)
    ensures opening + w1 + obj + w2 + Fence == opening + (w1 + obj + w2) + Fence
  {
    assert opening + w1 + obj == opening + (w1 + obj);
    assert opening + w1 + obj + w2 == opening + (w1 + obj + w2);
  }

  lemma ObjectTextUnpadded(obj: string)
    requires IsObjectText(obj)
    ensures Strip(obj) == obj
  {
    StripUnpadded(obj);
  }

  lemma PaddedObjectStart(w1: string, obj: string, w2: string)
    requires AllSpace(w1) && IsObjectText(obj)
    ensures |w1 + obj + w2| > 0 && (w1 + obj + w2)[0] != '`' && (w1 + obj + w2)[0] != 'j'
  {
    if |w1| == 0 {
      assert (w1 + obj + w2)[0] == obj[0];
    } else {
      assert (w1 + obj + w2)[0] == w1[0];
    }
  }

  lemma FenceIsUnpadded(opening: string, inner: string)
    requires opening == JsonFence || opening == Fence
    ensures Strip(opening + inner + Fence) == opening + inner + Fence
  {
    var txt := opening + inner + Fence;
    assert txt[0] == '`' && txt[|txt| - 1] == '`';
    StripUnpadded(txt);
  }

  lemma DropFencesOf(opening: string, inner: string)
    requires opening == JsonFence || opening == Fence
    requires |inner| > 0 && inner[0] != '`' && inner[0] != 'j'
    ensures DropFences(opening + inner + Fence) == inner
  {
    var txt := opening + inner + Fence;
    var c1 := inner + Fence;
    assert txt == opening + c1;
    assert !StartsWith(c1, Fence) by { assert c1[0] == inner[0]; }
    if opening == JsonFence {
      assert StartsWith(txt, JsonFence) && txt[|JsonFence|..] == c1;
    } else {
      assert !StartsWith(txt, JsonFence) by { assert txt[3] == c1[0]; }
      assert StartsWith(txt, Fence) && txt[|Fence|..] == c1;
    }
    assert EndsWith(c1, Fence) && c1[..|c1| - |Fence|] == inner;
  }
}
