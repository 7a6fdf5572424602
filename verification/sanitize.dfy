/** `sanitize_value`, `sanitize_metadata` and `build_metadata`: the metadata
    stored with each vector may only hold strings, numbers, booleans and
    lists of strings. */
module Metadata {
  import opened Wrappers
  import opened Seqs
  import opened JsonValue

  /** A value the vector store accepts as metadata. */
  predicate IsMetadataValue(v: Json) {
    IsPrimitive(v) || (v.Array? && forall i :: 0 <= i < |v.items| ==> v.items[i].Str?)
  }

  /** The text a list element becomes: a string stays as it is, another
      primitive is printed by `str`, anything else is serialised by `dumps`,
      which stands for `json.dumps`. */
  function ElementText(el: Json, dumps: Json -> string, reprOf: Json -> string): string {
    if el.Str? then el.s else if IsPrimitive(el) then PyStr(el, reprOf) else dumps(el)
  }

  /** The list branch of `sanitize_value`: None elements are dropped and the
      rest become strings, in order. */
  function SanitizeList(xs: seq<Json>, dumps: Json -> string, reprOf: Json -> string): (r: seq<Json>)
    ensures forall i :: 0 <= i < |r| ==> r[i].Str?
    ensures |r| == |xs| - Occurrences(xs, Null)
  {
    if |xs| == 0 then []
    else
      var last := xs[|xs| - 1];
      SanitizeList(xs[..|xs| - 1], dumps, reprOf) + (if last.Null? then [] else [Str(ElementText(last, dumps, reprOf))])
  }

  /** Sanitising a list piecewise gives the same list: the elements keep
      their order. */
  lemma {:induction false} SanitizeListAppend(a: seq<Json>, b: seq<Json>, dumps: Json -> string, reprOf: Json -> string)
    ensures SanitizeList(a + b, dumps, reprOf) == SanitizeList(a, dumps, reprOf) + SanitizeList(b, dumps, reprOf)
  {
    if |b| > 0 {
      var init := b[..|b| - 1];
      assert (a + b)[..|a + b| - 1] == a + init;
      SanitizeListAppend(a, init, dumps, reprOf);
    } else {
      assert a + b == a;
    }
  }

  /** Without None elements every element is kept, each turned into its text. */
  lemma {:induction false} SanitizeListPointwise(xs: seq<Json>, dumps: Json -> string, reprOf: Json -> string)
    requires Null !in xs
    ensures var r := SanitizeList(xs, dumps, reprOf);
      |r| == |xs| && forall i :: 0 <= i < |xs| ==> r[i] == Str(ElementText(xs[i], dumps, reprOf))
  {
    if |xs| > 0 {
      var init := xs[..|xs| - 1];
      assert forall k :: 0 <= k < |init| ==> init[k] == xs[k];
      SanitizeListPointwise(init, dumps, reprOf);
    }
  }

  /** A list of strings is left as it is. */
  lemma {:induction false} SanitizeStringList(xs: seq<Json>, dumps: Json -> string, reprOf: Json -> string)
    requires forall i :: 0 <= i < |xs| ==> xs[i].Str?
    ensures SanitizeList(xs, dumps, reprOf) == xs
  {
    if |xs| > 0 {
      var init := xs[..|xs| - 1];
      SanitizeStringList(init, dumps, reprOf);
      assert init + [xs[|xs| - 1]] == xs;
    }
  }

  /** `sanitize_value(v)` for a value decoded from JSON. For such a value
      `json.dumps` does not fail, so the `str(v)` fallback is never taken. */
  function SanitizeValue(v: Json, dumps: Json -> string, reprOf: Json -> string): (r: Json)
    ensures IsMetadataValue(r)
    ensures v.Null? ==> r == Str("")
    ensures IsPrimitive(v) ==> r == v
    ensures v.Array? ==> r.Array? && |r.items| <= |v.items|
    ensures v.Object? ==> r == Str(dumps(v))
  {
    match v
    case Null => Str("")
    case Array(xs) => Array(SanitizeList(xs, dumps, reprOf))
    case Object(_) => Str(dumps(v))
    case _ => v
  }

  /** A value is left unchanged exactly when it is already an allowed
      metadata value; so sanitising twice is sanitising once. */
  lemma SanitizeFixpoint(v: Json, dumps: Json -> string, reprOf: Json -> string)
    ensures SanitizeValue(v, dumps, reprOf) == v <==> IsMetadataValue(v)
    ensures SanitizeValue(SanitizeValue(v, dumps, reprOf), dumps, reprOf) == SanitizeValue(v, dumps, reprOf)
  {
    if v.Array? && IsMetadataValue(v) {
      SanitizeStringList(v.items, dumps, reprOf);
    }
    var r := SanitizeValue(v, dumps, reprOf);
    if r.Array? {
      SanitizeStringList(r.items, dumps, reprOf);
    }
  }

  /** `sanitize_metadata(raw_meta)`: a falsy argument is read as `{}`; any
      other non-dict has no `items` to call. */
  function SanitizeMetadata(raw: Json, dumps: Json -> string, reprOf: Json -> string): (r: Result<Record>)
    ensures r.Err? <==> Truthy(raw) && !raw.Object?
    ensures r.Err? ==> r.error == AttributeError
    ensures !Truthy(raw) ==> r == Ok(map[])
    ensures raw.Object? ==> (r.Ok? && r.value.Keys == raw.fields.Keys
      && forall k :: k in r.value ==> r.value[k] == SanitizeValue(raw.fields[k], dumps, reprOf))
    ensures r.Ok? ==> forall k :: k in r.value ==> IsMetadataValue(r.value[k])
  {
    if !Truthy(raw) then Ok(map[])
    else
      match raw
      case Object(m) => Ok(map k | k in m :: SanitizeValue(m[k], dumps, reprOf))
      case _ => Err(AttributeError)
  }

  /** The twelve keys `build_metadata` stores. */
  const MetadataKeys: set<string> := {
    "title", "summary", "fieldOfStudy", "paper_id", "yearPublished", "doi",
    "publisher", "citationCount", "authors", "keywordUsed", "detectedField", "searchStrategy"
  }

  /** `build_metadata(record)`. */
  function BuildMetadata(rec: Record, dumps: Json -> string, reprOf: Json -> string): (r: Record)
    ensures r.Keys == MetadataKeys
    ensures forall k :: k in r ==> IsMetadataValue(r[k])
    ensures forall k :: k in r ==> r[k] == SanitizeValue(PickField(rec, k, reprOf), dumps, reprOf)
  {
    var meta := map k | k in MetadataKeys :: PickField(rec, k, reprOf);
    assert "title" in meta;
    SanitizeMetadata(Object(meta), dumps, reprOf).value
  }

  /** The value `build_metadata` picks for `key` before sanitising: the
      title defaults to `""`, a falsy summary or field becomes `""`, the
      paper id is printed by `str` unless it is None or missing, and the
      other keys are read with `get`. */
  function PickField(rec: Record, key: string, reprOf: Json -> string): Json {
    if key == "title" then GetOr(rec, "title", Str(""))
    else if key == "summary" || key == "fieldOfStudy" then Or(GetOr(rec, key, Str("")), Str(""))
    else if key == "paper_id" then
      (if Get(rec, "paper_id") != Null then Str(PyStr(rec["paper_id"], reprOf)) else Str(""))
    else Get(rec, key)
  }

  /** Each of the twelve keys holds its picked value, sanitised. */
  lemma StoredAs(rec: Record, key: string, dumps: Json -> string, reprOf: Json -> string)
    requires key in MetadataKeys
    ensures var r := BuildMetadata(rec, dumps, reprOf);
      key in r && r[key] == SanitizeValue(PickField(rec, key, reprOf), dumps, reprOf)
  {
  }

  /** A falsy or missing summary or field is stored as `""`; a truthy one
      is stored sanitised. */
  lemma TextFieldStored(rec: Record, key: string, dumps: Json -> string, reprOf: Json -> string)
    requires key == "summary" || key == "fieldOfStudy"
    ensures var r := BuildMetadata(rec, dumps, reprOf);
      key in r
      && (!Truthy(Get(rec, key)) ==> r[key] == Str(""))
      && (Truthy(Get(rec, key)) ==> r[key] == SanitizeValue(rec[key], dumps, reprOf))
  {
    StoredAs(rec, key, dumps, reprOf);
    PickTextField(rec, key, reprOf);
  }

  lemma PickTextField(rec: Record, key: string, reprOf: Json -> string)
    requires key == "summary" || key == "fieldOfStudy"
    ensures PickField(rec, key, reprOf) == if Truthy(Get(rec, key)) then rec[key] else Str("")
  {
  }

  /** The paper id is stored as its `str`, or as `""` when None or missing. */
  lemma PaperIdStored(rec: Record, dumps: Json -> string, reprOf: Json -> string)
    ensures var r := BuildMetadata(rec, dumps, reprOf);
      "paper_id" in r
      && (Get(rec, "paper_id") == Null ==> r["paper_id"] == Str(""))
      && (Get(rec, "paper_id") != Null ==> r["paper_id"] == Str(PyStr(rec["paper_id"], reprOf)))
  {
    StoredAs(rec, "paper_id", dumps, reprOf);
    PickPaperId(rec, reprOf);
  }

  lemma PickPaperId(rec: Record, reprOf: Json -> string)
    ensures PickField(rec, "paper_id", reprOf)
         == if Get(rec, "paper_id") != Null then Str(PyStr(rec["paper_id"], reprOf)) else Str("")
  {
  }

  /** The title and the optional fields are stored sanitised, so a missing
      one is stored as `""`. */
  lemma OtherFieldStored(rec: Record, key: string, dumps: Json -> string, reprOf: Json -> string)
    requires key in MetadataKeys && key != "summary" && key != "fieldOfStudy" && key != "paper_id"
    ensures var r := BuildMetadata(rec, dumps, reprOf);
      key in r && r[key] == SanitizeValue(Get(rec, key), dumps, reprOf)
      && (key !in rec ==> r[key] == Str(""))
  {
    StoredAs(rec, key, dumps, reprOf);
    PickOtherField(rec, key, dumps, reprOf);
  }

  lemma PickOtherField(rec: Record, key: string, dumps: Json -> string, reprOf: Json -> string)
    requires key != "summary" && key != "fieldOfStudy" && key != "paper_id"
    ensures SanitizeValue(PickField(rec, key, reprOf), dumps, reprOf) == SanitizeValue(Get(rec, key), dumps, reprOf)
  {
  }
}
