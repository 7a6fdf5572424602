/** `preprocess_source_text`: the `processedText` a source is summarised
    from, built from its abstract and a head-and-tail window of its full text. */
module Preprocess {
  import opened Wrappers
  import opened Text
  import opened JsonValue

  /** Full texts longer than this are cut to a head and a tail window. */
  const LongTextLimit: nat := 3000
  /** The length of each window. */
  const WindowLength: nat := 1500
  const PartSeparator: string := "\n\n"

  const AbstractLabel: string := "Abstract: "
  const FullTextLabel: string := "Full Text: "
  const StartLabel: string := "Text Start: "
  const EndLabel: string := "Text End: "

  /** Whether the abstract part is built: `hasAbstract` and `abstract` both truthy. */
  predicate UsesAbstract(src: Record) {
    Truthy(Get(src, "hasAbstract")) && Truthy(Get(src, "abstract"))
  }

  /** Whether the full-text part is built: `hasFullText` and `fullText` both truthy. */
  predicate UsesFullText(src: Record) {
    Truthy(Get(src, "hasFullText")) && Truthy(Get(src, "fullText"))
  }

  function AbstractParts(src: Record, reprOf: Json -> string): seq<string> {
    if UsesAbstract(src) then [AbstractLabel + PyStr(src["abstract"], reprOf)] else []
  }

  /** `len(v)`: numbers, booleans and None have no length. */
  function PyLen(v: Json): Result<nat> {
    match v
    case Str(s) => Ok(|s|)
    case Array(xs) => Ok(|xs|)
    case Object(m) => Ok(|m|)
    case _ => Err(TypeError)
  }

  function FullTextParts(src: Record, reprOf: Json -> string): Result<seq<string>> {
    if !UsesFullText(src) then Ok([])
    else
      var full := src["fullText"];
      var n :- PyLen(full);
      if n > LongTextLimit then
        match full
        case Str(s) => Ok([StartLabel + s[..WindowLength], EndLabel + s[|s| - WindowLength..]])
        case Array(xs) =>
          Ok([StartLabel + reprOf(Array(xs[..WindowLength])), EndLabel + reprOf(Array(xs[|xs| - WindowLength..]))])
        case _ => Err(TypeError)
      else
        Ok([FullTextLabel + PyStr(full, reprOf)])
  }

  /** The `processedText` of a source: its parts joined by a blank line. */
  function ProcessedText(src: Record, reprOf: Json -> string): (r: Result<string>)
    ensures r.Err? <==> (UsesFullText(src) &&
      match src["fullText"]
      case Str(_) => false
      case Array(_) => false
      case Object(m) => |m| > LongTextLimit
      case _ => true)
  {
    var f :- FullTextParts(src, reprOf);
    Ok(Join(AbstractParts(src, reprOf) + f, PartSeparator))
  }

  /** The text is empty exactly when there is neither an abstract nor a full text part. */
  lemma ProcessedTextEmpty(src: Record, reprOf: Json -> string)
    requires ProcessedText(src, reprOf).Ok?
    ensures ProcessedText(src, reprOf).value == "" <==> !UsesAbstract(src) && !UsesFullText(src)
  {
    var a := AbstractParts(src, reprOf);
    var f := FullTextParts(src, reprOf).value;
    if |a| == 1 {
      JoinStartsWithFirst(a + f, PartSeparator);
    } else if |f| > 0 {
      assert a + f == f;
      JoinStartsWithFirst(f, PartSeparator);
    }
  }

  /** The abstract part, when built, comes first; otherwise the text does not
      even look as if it started with one. */
  lemma AbstractComesFirst(src: Record, reprOf: Json -> string)
    requires ProcessedText(src, reprOf).Ok?
    ensures StartsWith(ProcessedText(src, reprOf).value, AbstractLabel) <==> UsesAbstract(src)
    ensures UsesAbstract(src) ==>
      StartsWith(ProcessedText(src, reprOf).value, AbstractLabel + PyStr(src["abstract"], reprOf))
  {
    var a := AbstractParts(src, reprOf);
    var f := FullTextParts(src, reprOf).value;
    var t := ProcessedText(src, reprOf).value;
    if |a| == 1 {
      JoinStartsWithFirst(a + f, PartSeparator);
      assert StartsWith(a[0], AbstractLabel) by {
        assert a[0][..|AbstractLabel|] == AbstractLabel;
      }
      PrefixOfPrefix(t, a[0], AbstractLabel);
    } else if |f| > 0 {
      assert a + f == f;
      JoinStartsWithFirst(f, PartSeparator);
      assert t[0] == f[0][0];
      assert f[0][0] == 'F' || f[0][0] == 'T';
    }
  }

  lemma PrefixOfPrefix(s: string, p: string, q: string)
    requires StartsWith(s, p) && StartsWith(p, q)
    ensures StartsWith(s, q)
  {
    assert s[..|q|] == p[..|q|];
  }

  /** A full text of at most `LongTextLimit` characters ends the text whole. */
  lemma ShortFullTextKeptWhole(src: Record, reprOf: Json -> string)
    requires ProcessedText(src, reprOf).Ok?
    requires UsesFullText(src) && src["fullText"].Str? && |src["fullText"].s| <= LongTextLimit
    ensures EndsWith(ProcessedText(src, reprOf).value, FullTextLabel + src["fullText"].s)
  {
    var a := AbstractParts(src, reprOf);
    var f := FullTextParts(src, reprOf).value;
    assert f == [FullTextLabel + src["fullText"].s];
    JoinEndsWithLast(a + f, PartSeparator, 1);
    assert (a + f)[|a + f| - 1..] == f;
  }

  /** A longer full text is represented by its first and its last
      `WindowLength` characters, which do not overlap. */
  lemma LongFullTextWindows(src: Record, reprOf: Json -> string)
    requires ProcessedText(src, reprOf).Ok?
    requires UsesFullText(src) && src["fullText"].Str? && |src["fullText"].s| > LongTextLimit
    ensures var s := src["fullText"].s;
      WindowLength + WindowLength < |s|
      && EndsWith(ProcessedText(src, reprOf).value,
                  StartLabel + s[..WindowLength] + PartSeparator + EndLabel + s[|s| - WindowLength..])
  {
    var s := src["fullText"].s;
    var a := AbstractParts(src, reprOf);
    var f := FullTextParts(src, reprOf).value;
    assert f == [StartLabel + s[..WindowLength], EndLabel + s[|s| - WindowLength..]];
    JoinEndsWithLast(a + f, PartSeparator, 2);
    assert (a + f)[|a + f| - 2..] == f;
    assert f[1..] == [f[1]];
    assert Join(f, PartSeparator) == f[0] + PartSeparator + f[1];
    assert f[0] + PartSeparator + f[1]
        == StartLabel + s[..WindowLength] + PartSeparator + EndLabel + s[|s| - WindowLength..];
  }

  /** What a string full text contributes: the text whole after its label,
      or, when longer than `LongTextLimit`, its two labelled windows on
      separate parts. */
  function FullTextPart(s: string): string {
    if |s| <= LongTextLimit then FullTextLabel + s
    else StartLabel + s[..WindowLength] + PartSeparator + EndLabel + s[|s| - WindowLength..]
  }

  /** With a string full text, the processed text is the abstract part, a
      blank line, and the full-text part; a missing part leaves out the
      blank line too. */
  lemma ProcessedTextLayout(src: Record, reprOf: Json -> string)
    requires UsesFullText(src) ==> src["fullText"].Str?
    ensures ProcessedText(src, reprOf).Ok?
    ensures UsesAbstract(src) && UsesFullText(src) ==>
      ProcessedText(src, reprOf).value
      == AbstractLabel + PyStr(src["abstract"], reprOf) + PartSeparator + FullTextPart(src["fullText"].s)
    ensures UsesAbstract(src) && !UsesFullText(src) ==>
      ProcessedText(src, reprOf).value == AbstractLabel + PyStr(src["abstract"], reprOf)
    ensures !UsesAbstract(src) && UsesFullText(src) ==>
      ProcessedText(src, reprOf).value == FullTextPart(src["fullText"].s)
  {
    var a := AbstractParts(src, reprOf);
    var f := FullTextParts(src, reprOf).value;
    if UsesFullText(src) {
      FullTextJoined(src, reprOf);
      if UsesAbstract(src) {
        JoinAfterFirst(a + f, PartSeparator);
        assert (a + f)[1..] == f;
      } else {
        assert a + f == f;
      }
    } else {
      assert a + f == a;
    }
  }

  /** The full-text parts of a string full text, joined, are its `FullTextPart`. */
  lemma FullTextJoined(src: Record, reprOf: Json -> string)
    requires UsesFullText(src) && src["fullText"].Str?
    ensures FullTextParts(src, reprOf).Ok?
    ensures |FullTextParts(src, reprOf).value| > 0
    ensures Join(FullTextParts(src, reprOf).value, PartSeparator) == FullTextPart(src["fullText"].s)
  {
    var s := src["fullText"].s;
    var f := FullTextParts(src, reprOf).value;
    if |s| > LongTextLimit {
      assert f == [StartLabel + s[..WindowLength], EndLabel + s[|s| - WindowLength..]];
      assert f[1..] == [f[1]];
      assert Join(f, PartSeparator) == f[0] + PartSeparator + f[1];
    }
  }

  /** `preprocess_source_text(source)`: a copy of the source without
      `fullText` and with `processedText`; the source itself is a value and
      stays as it was. */
  function PreprocessSource(src: Record, reprOf: Json -> string): (r: Result<Record>)
    ensures r.Err? <==> ProcessedText(src, reprOf).Err?
    ensures r.Ok? ==> r.value.Keys == src.Keys - {"fullText"} + {"processedText"}
    ensures r.Ok? ==> r.value["processedText"] == Str(ProcessedText(src, reprOf).value)
    ensures r.Ok? ==> forall k :: k in src && k != "fullText" && k != "processedText" ==> r.value[k] == src[k]
  {
    var text :- ProcessedText(src, reprOf);
    Ok((src - {"fullText"})["processedText" := Str(text)])
  }
}
