/** `call_gemini_with_schema` and `process_source`: a source is summarised
    by a model whose reply must be a JSON object with string `summary` and
    `fieldOfStudy`, and the validated reply is merged into the output record. */
module SummaryRecord {
  import opened Wrappers
  import opened Text
  import opened JsonValue
  import opened JsonSpan
  import opened Preprocess

  /** `max_retries`: how many calls are made before the last error is raised. */
  const MaxRetries: nat := 3

  /** The strict summary schema: an object whose `summary` and
      `fieldOfStudy` are present and strings; other keys are allowed. */
  predicate SchemaValid(v: Json) {
    v.Object?
    && "summary" in v.fields && v.fields["summary"].Str?
    && "fieldOfStudy" in v.fields && v.fields["fieldOfStudy"].Str?
  }

  /** `json.loads(raw)`, falling back to the brace span of the reply when
      that fails. */
  function ParseReply(raw: string, loads: string -> Result<Json>): Result<Json> {
    match loads(raw)
    case Ok(v) => Ok(v)
    case Err(_) => ExtractJsonSubstring(raw, loads)
  }

  /** A reply that only wraps an object in a Markdown fence is read as that
      object even when the whole reply is not valid JSON. */
  lemma FencedReplyParsed(opening: string, w1: string, obj: string, w2: string, loads: string -> Result<Json>)
    requires opening == JsonFence || opening == Fence
    requires AllSpace(w1) && AllSpace(w2) && IsObjectText(obj)
    requires loads(opening + w1 + obj + w2 + Fence).Err?
    ensures ParseReply(opening + w1 + obj + w2 + Fence, loads) == loads(obj)
  {
    FencedObjectSpan(opening, w1, obj, w2);
  }

  /** The reply of one call parsed, or the exception the call or the
      parsing raised. */
  function ParsedReply(reply: Result<string>, loads: string -> Result<Json>): Result<Json> {
    var raw :- reply;
    ParseReply(raw, loads)
  }

  /** `validate(instance=parsed, schema=STRICT_SUMMARY_SCHEMA)` after the
      parse: a parse error passes through, a non-conforming value raises
      `ValidationError`. */
  function Validated(parsed: Result<Json>): (r: Result<Json>)
    ensures r.Ok? <==> parsed.Ok? && SchemaValid(parsed.value)
    ensures r.Ok? ==> r == parsed
    ensures parsed.Err? ==> r == parsed
  {
    var v :- parsed;
    if SchemaValid(v) then Ok(v) else Err(ValidationError)
  }

  /** Attempts `attempt` to `MaxRetries`; `parses(k)` is the parsed reply
      of the `k`-th call. */
  function CallFrom(attempt: nat, parses: nat -> Result<Json>): (r: Result<Json>)
    requires 1 <= attempt <= MaxRetries
    ensures r.Ok? ==> SchemaValid(r.value)
    ensures r.Ok? <==> exists k :: attempt <= k <= MaxRetries && Validated(parses(k)).Ok?
    ensures r.Ok? ==> exists k :: (attempt <= k <= MaxRetries && r == parses(k)
      && forall j :: attempt <= j < k ==> Validated(parses(j)).Err?)
    ensures r.Err? ==> r == Validated(parses(MaxRetries))
    decreases MaxRetries - attempt
  {
    var a := Validated(parses(attempt));
    if a.Ok? || attempt == MaxRetries then a else CallFrom(attempt + 1, parses)
  }

  /** `call_gemini_with_schema(prompt)`: the first reply among the
      `MaxRetries` calls that parses and validates; when none does, what
      the last call raised. `replies(k)` is what the `k`-th call returned
      or raised. */
  function CallWithSchema(replies: nat -> Result<string>, loads: string -> Result<Json>): (r: Result<Json>)
    ensures r.Ok? ==> SchemaValid(r.value)
    ensures r.Ok? <==> exists k :: 1 <= k <= MaxRetries && Validated(ParsedReply(replies(k), loads)).Ok?
    ensures r.Ok? ==> exists k :: (1 <= k <= MaxRetries && r == ParsedReply(replies(k), loads)
      && forall j :: 1 <= j < k ==> Validated(ParsedReply(replies(j), loads)).Err?)
    ensures r.Err? ==> r == Validated(ParsedReply(replies(MaxRetries), loads))
  {
    var parses := (k: nat) => ParsedReply(replies(k), loads);
    assert forall k: nat :: parses(k) == ParsedReply(replies(k), loads);
    CallFrom(1, parses)
  }

  /** The keys `process_source` removes from the output record. */
  const DroppedKeys: set<string> := {"fullText", "hasFullText"}
  /** The keys `process_source` sets in the output record. */
  const SetKeys: set<string> := {"summary", "fieldOfStudy", "id", "paper_id"}

  /** The stripped summary of a validated reply. */
  function SummaryOf(parsed: Json): string
    requires SchemaValid(parsed)
  {
    Strip(parsed.fields["summary"].s)
  }

  function FieldOf(parsed: Json): string
    requires SchemaValid(parsed)
  {
    Strip(parsed.fields["fieldOfStudy"].s)
  }

  /** The output record: a copy of the source with the summary, the field
      and the two identifiers set, then without the full text. */
  function Finalize(source: Record, summary: string, field: string): Record {
    source["summary" := Str(summary)]
          ["fieldOfStudy" := Str(field)]
          ["id" := GetOr(source, "id", Str(""))]
          ["paper_id" := GetOr(source, "paper_id", Str(""))]
    - DroppedKeys
  }

  lemma FinalizeShape(source: Record, summary: string, field: string)
    ensures var out := Finalize(source, summary, field);
      && out.Keys == source.Keys - DroppedKeys + SetKeys
      && out["summary"] == Str(summary)
      && out["fieldOfStudy"] == Str(field)
      && out["id"] == GetOr(source, "id", Str(""))
      && out["paper_id"] == GetOr(source, "paper_id", Str(""))
      && forall k :: k in source && k !in DroppedKeys && k !in SetKeys ==> out[k] == source[k]
  {
  }

  /** What a successful `process_source` returns, stated against the source
      and the validated reply. */
  ghost predicate Shaped(source: Record, parsed: Json, out: Record)
    requires SchemaValid(parsed)
  {
    && out.Keys == source.Keys - DroppedKeys + SetKeys
    && out["summary"] == Str(SummaryOf(parsed))
    && out["fieldOfStudy"] == Str(FieldOf(parsed))
    && out["id"] == GetOr(source, "id", Str(""))
    && out["paper_id"] == GetOr(source, "paper_id", Str(""))
    && forall k :: k in source && k !in DroppedKeys && k !in SetKeys ==> out[k] == source[k]
  }

  /** The `try` block of `process_source` once the call has returned or
      raised: None for a failed call or a blank summary, else the output
      record. */
  function Summarise(source: Record, call: Result<Json>): (r: Option<Record>)
    requires call.Ok? ==> SchemaValid(call.value)
    ensures r.Some? <==> call.Ok? && SummaryOf(call.value) != ""
    ensures r.Some? ==> Shaped(source, call.value, r.value)
  {
    match call
    case Err(_) => None
    case Ok(parsed) =>
      var summary := SummaryOf(parsed);
      if summary == "" then None
      else
        FinalizeShape(source, summary, FieldOf(parsed));
        Some(Finalize(source, summary, FieldOf(parsed)))
  }

  /** `process_source(source)`. Preprocessing happens outside the `try`, so
      its exception escapes; every failure inside it (no validated reply, an
      empty summary) is caught and gives None. */
  function ProcessSource(source: Record, replies: nat -> Result<string>, loads: string -> Result<Json>,
                         reprOf: Json -> string): (r: Result<Option<Record>>)
    ensures r.Err? <==> ProcessedText(source, reprOf).Err?
    ensures r.Ok? ==> r.value == Summarise(source, CallWithSchema(replies, loads))
  {
    var processed :- PreprocessSource(source, reprOf);
    Ok(Summarise(source, CallWithSchema(replies, loads)))
  }

  /** The summary of an output record is a non-empty string that neither
      starts nor ends with whitespace. */
  lemma SummaryTrimmed(source: Record, replies: nat -> Result<string>, loads: string -> Result<Json>,
                       reprOf: Json -> string)
    requires ProcessSource(source, replies, loads, reprOf).Ok?
    requires ProcessSource(source, replies, loads, reprOf).value.Some?
    ensures var out := ProcessSource(source, replies, loads, reprOf).value.value;
      "summary" in out && out["summary"].Str? && |out["summary"].s| > 0
      && !IsSpace(out["summary"].s[0]) && !IsSpace(out["summary"].s[|out["summary"].s| - 1])
  {
    var parsed := CallWithSchema(replies, loads).value;
    StripPadded(parsed.fields["summary"].s);
  }

  /** A reply whose summary is only whitespace is dropped. */
  lemma BlankSummaryDropped(source: Record, replies: nat -> Result<string>, loads: string -> Result<Json>,
                            reprOf: Json -> string)
    requires ProcessSource(source, replies, loads, reprOf).Ok?
    requires CallWithSchema(replies, loads).Ok?
    requires AllSpace(CallWithSchema(replies, loads).value.fields["summary"].s)
    ensures ProcessSource(source, replies, loads, reprOf).value.None?
  {
    var s := CallWithSchema(replies, loads).value.fields["summary"].s;
    StripIgnoresPadding(s, "", "");
    assert s + "" + "" == s;
    assert Strip("") == "";
  }
}
