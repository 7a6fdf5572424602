/** The keyword-weighted field classifier of the CORE ingestion script
    (`detect_field_from_content`) and its configuration table. */
module FieldDetection {
  import opened Wrappers
  import opened Text
  import opened JsonValue
  import opened Tally

  /** One entry of `academic_fields`: its key and its three keyword lists. */
  datatype FieldConfig = FieldConfig(
    name: string,
    keywords: seq<string>,
    titleKeywords: seq<string>,
    fulltextKeywords: seq<string>)

  const AcademicFields: seq<FieldConfig> := [
    FieldConfig("history",
      ["world war", "civil war", "revolution", "ancient history", "medieval history", "renaissance"],
      ["history", "historical", "war", "revolution", "ancient", "medieval"],
      ["historical", "war", "revolution", "ancient", "medieval", "renaissance"]),
    FieldConfig("english",
      ["literature", "poetry", "novels", "drama", "literary analysis", "criticism"],
      ["literature", "poetry", "novel", "drama", "literary", "criticism"],
      ["literature", "poetry", "novel", "drama", "literary", "criticism"]),
    FieldConfig("politics",
      ["presidents", "government", "law", "policy", "democracy", "elections"],
      ["political", "government", "policy", "democracy", "election", "law"],
      ["political", "government", "policy", "democracy", "election", "law"]),
    FieldConfig("business",
      ["management", "finance", "marketing", "entrepreneurship", "strategy", "economics"],
      ["business", "management", "finance", "marketing", "strategy", "corporate"],
      ["business", "management", "finance", "marketing", "strategy", "corporate"]),
    FieldConfig("science",
      ["research", "experiment", "discovery", "theory", "hypothesis", "analysis"],
      ["scientific", "research", "experiment", "theory", "analysis", "study"],
      ["scientific", "research", "experiment", "theory", "analysis", "study"])
  ]

  const FieldOfStudyWeight: nat := 5
  const TitleWeight: nat := 3
  const AbstractWeight: nat := 2
  const FulltextWeight: nat := 1
  /** The least score that is accepted as a classification. */
  const MinScore: nat := 2

  function Names(fields: seq<FieldConfig>): set<string> {
    if |fields| == 0 then {} else {fields[0].name} + Names(fields[1..])
  }

  /** Dict keys are unique. */
  predicate DistinctNames(fields: seq<FieldConfig>) {
    forall i, j :: 0 <= i < j < |fields| ==> fields[i].name != fields[j].name
  }

  lemma {:induction false} NameInNames(fields: seq<FieldConfig>, f: FieldConfig)
    requires f in fields
    ensures f.name in Names(fields)
  {
    if fields[0] != f {
      NameInNames(fields[1..], f);
    }
  }

  lemma {:induction false} NamesMembership(fields: seq<FieldConfig>, name: string)
    requires name in Names(fields)
    ensures exists f :: f in fields && f.name == name
  {
    if fields[0].name != name {
      NamesMembership(fields[1..], name);
      var f :| f in fields[1..] && f.name == name;
      assert f in fields;
    }
  }

  lemma {:induction false} NamesConcat(a: seq<FieldConfig>, b: seq<FieldConfig>)
    ensures Names(a + b) == Names(a) + Names(b)
  {
    if |a| == 0 {
      assert a + b == b;
    } else {
      assert (a + b)[1..] == a[1..] + b;
      NamesConcat(a[1..], b);
    }
  }

  lemma AcademicFieldsDistinct()
    ensures DistinctNames(AcademicFields)
  {
  }

  // ---------------------------------------------------------------------------
  // Reading the paper
  // ---------------------------------------------------------------------------

  /** The lower-cased texts the classifier looks at. */
  datatype PaperTexts = PaperTexts(title: string, abstractText: string, fulltext: string, fieldOfStudy: string)

  predicate IsLower(s: string) {
    Lower(s) == s
  }

  /** `paper.get('title', '').lower()`. */
  function TitleText(paper: Record): (r: Result<string>)
    ensures r.Err? <==> !GetOr(paper, "title", Str("")).Str?
    ensures r.Ok? ==> IsLower(r.value)
  {
    match GetOr(paper, "title", Str(""))
    case Str(s) => LowerIdempotent(s); Ok(Lower(s))
    case _ => Err(AttributeError)
  }

  /** `paper.get(key, '').lower()` when `paper.get(key)` is not None, else `''`. */
  function OptionalText(paper: Record, key: string): (r: Result<string>)
    ensures r.Err? <==> !(Get(paper, key).Null? || Get(paper, key).Str?)
    ensures r.Ok? ==> IsLower(r.value)
    ensures Get(paper, key) == Null ==> r == Ok("")
  {
    match Get(paper, key)
    case Null => Ok("")
    case Str(s) => LowerIdempotent(s); Ok(Lower(s))
    case _ => Err(AttributeError)
  }

  /** `str(paper.get('fieldOfStudy')).lower()`, or `''` when it is None. */
  function FieldOfStudyText(paper: Record, reprOf: Json -> string): (r: string)
    ensures IsLower(r)
    ensures Get(paper, "fieldOfStudy") == Null ==> r == ""
  {
    var v := Get(paper, "fieldOfStudy");
    if v == Null then "" else LowerIdempotent(PyStr(v, reprOf)); Lower(PyStr(v, reprOf))
  }

  function ReadTexts(paper: Record, reprOf: Json -> string): (r: Result<PaperTexts>)
    ensures r.Ok? ==> IsLower(r.value.title) && IsLower(r.value.abstractText)
                      && IsLower(r.value.fulltext) && IsLower(r.value.fieldOfStudy)
    ensures r.Ok? && Get(paper, "abstract") == Null ==> r.value.abstractText == ""
    ensures r.Ok? && Get(paper, "fullText") == Null ==> r.value.fulltext == ""
    ensures r.Ok? && Get(paper, "fieldOfStudy") == Null ==> r.value.fieldOfStudy == ""
    ensures r.Err? <==> !GetOr(paper, "title", Str("")).Str?
                        || !(Get(paper, "abstract").Null? || Get(paper, "abstract").Str?)
                        || !(Get(paper, "fullText").Null? || Get(paper, "fullText").Str?)
  {
    var title :- TitleText(paper);
    var abstractText :- OptionalText(paper, "abstract");
    var fulltext :- OptionalText(paper, "fullText");
    Ok(PaperTexts(title, abstractText, fulltext, FieldOfStudyText(paper, reprOf)))
  }

  // ---------------------------------------------------------------------------
  // Reference scores
  // ---------------------------------------------------------------------------

  /** `any(keyword in text for keyword in kws)`. */
  predicate AnyKeywordIn(kws: seq<string>, text: string) {
    exists k :: 0 <= k < |kws| && Contains(text, kws[k])
  }

  /** How many keywords of `kws` occur in `text`. */
  function Hits(kws: seq<string>, text: string): nat {
    if |kws| == 0 then 0 else (if Contains(text, kws[0]) then 1 else 0) + Hits(kws[1..], text)
  }

  /** The score one field earns: 5 once if any of its keywords occurs in the
      field of study, 3 per title keyword in the title, 2 per keyword in the
      abstract and 1 per full-text keyword in the full text; an empty text
      earns nothing. */
  function FieldScore(f: FieldConfig, t: PaperTexts): nat {
    (if t.fieldOfStudy != "" && AnyKeywordIn(f.keywords, t.fieldOfStudy) then FieldOfStudyWeight else 0)
    + TitleWeight * Hits(f.titleKeywords, t.title)
    + (if t.abstractText != "" then AbstractWeight * Hits(f.keywords, t.abstractText) else 0)
    + (if t.fulltext != "" then FulltextWeight * Hits(f.fulltextKeywords, t.fulltext) else 0)
  }

  /** The score of `name`: the sum over the fields carrying it (one field when names are unique). */
  function Score(fields: seq<FieldConfig>, name: string, t: PaperTexts): nat {
    if |fields| == 0 then 0
    else (if fields[0].name == name then FieldScore(fields[0], t) else 0) + Score(fields[1..], name, t)
  }

  lemma {:induction false} ScoreOfDistinct(fields: seq<FieldConfig>, i: nat, t: PaperTexts)
    requires DistinctNames(fields) && i < |fields|
    ensures Score(fields, fields[i].name, t) == FieldScore(fields[i], t)
  {
    if i == 0 {
      ScoreAbsent(fields[1..], fields[0].name, t);
    } else {
      ScoreOfDistinct(fields[1..], i - 1, t);
    }
  }

  lemma {:induction false} ScoreAbsent(fields: seq<FieldConfig>, name: string, t: PaperTexts)
    requires forall i :: 0 <= i < |fields| ==> fields[i].name != name
    ensures Score(fields, name, t) == 0
  {
    if |fields| > 0 {
      ScoreAbsent(fields[1..], name, t);
    }
  }

  // ---------------------------------------------------------------------------
  // The classifier as the script computes it
  // ---------------------------------------------------------------------------

  datatype KeywordList = FieldKeywords | TitleKeywords | FulltextKeywords

  function KeywordsOf(f: FieldConfig, which: KeywordList): seq<string> {
    match which
    case FieldKeywords => f.keywords
    case TitleKeywords => f.titleKeywords
    case FulltextKeywords => f.fulltextKeywords
  }

  /** `for keyword in kws: if keyword in text: field_scores[name] += w`. */
  function ScoreKeywords(s: Tally<string>, name: string, kws: seq<string>, text: string, w: nat): Tally<string>
    decreases |kws|
  {
    if |kws| == 0 then s
    else ScoreKeywords(if Contains(text, kws[0]) then Add(s, name, w) else s, name, kws[1..], text, w)
  }

  /** One of the three keyword loops over all fields. */
  function KeywordPass(s: Tally<string>, fields: seq<FieldConfig>, which: KeywordList, text: string, w: nat): Tally<string>
    decreases |fields|
  {
    if |fields| == 0 then s
    else KeywordPass(ScoreKeywords(s, fields[0].name, KeywordsOf(fields[0], which), text, w), fields[1..], which, text, w)
  }

  /** The fieldOfStudy loop: 5 per field, once, when any of its keywords occurs. */
  function FieldOfStudyPass(s: Tally<string>, fields: seq<FieldConfig>, fos: string): Tally<string>
    decreases |fields|
  {
    if |fields| == 0 then s
    else FieldOfStudyPass(
      if AnyKeywordIn(fields[0].keywords, fos) then Add(s, fields[0].name, FieldOfStudyWeight) else s,
      fields[1..], fos)
  }

  /** `field_scores` after the four loops, in insertion order. */
  function FieldScores(fields: seq<FieldConfig>, t: PaperTexts): Tally<string> {
    var s0 := if t.fieldOfStudy != "" then FieldOfStudyPass([], fields, t.fieldOfStudy) else [];
    var s1 := KeywordPass(s0, fields, TitleKeywords, t.title, TitleWeight);
    var s2 := if t.abstractText != "" then KeywordPass(s1, fields, FieldKeywords, t.abstractText, AbstractWeight) else s1;
    if t.fulltext != "" then KeywordPass(s2, fields, FulltextKeywords, t.fulltext, FulltextWeight) else s2
  }

  /** The shape every score table keeps: positive entries, unique keys, field names only. */
  predicate WellFormed(s: Tally<string>, names: set<string>) {
    Positive(s) && DistinctKeys(s) && Keys(s) <= names
  }

  lemma AddWellFormed(s: Tally<string>, names: set<string>, name: string, w: nat)
    requires WellFormed(s, names) && name in names && w > 0
    ensures WellFormed(Add(s, name, w), names)
  {
    AddPositive(s, name, w);
    AddDistinct(s, name, w);
    AddKeys(s, name, w);
  }

  /** How many fields named `m` have a keyword in `fos`. */
  function FieldOfStudyHits(fields: seq<FieldConfig>, m: string, fos: string): nat {
    if |fields| == 0 then 0
    else (if fields[0].name == m && AnyKeywordIn(fields[0].keywords, fos) then 1 else 0)
         + FieldOfStudyHits(fields[1..], m, fos)
  }

  /** Keyword hits summed over the fields named `m`. */
  function SumHits(fields: seq<FieldConfig>, m: string, which: KeywordList, text: string): nat {
    if |fields| == 0 then 0
    else (if fields[0].name == m then Hits(KeywordsOf(fields[0], which), text) else 0)
         + SumHits(fields[1..], m, which, text)
  }

  lemma MulAdd(w: nat, a: nat, b: nat)
    ensures w * (a + b) == w * a + w * b
  {
  }

  lemma {:induction false} ScoreKeywordsEffect(s: Tally<string>, names: set<string>, name: string, kws: seq<string>, text: string, w: nat, m: string)
    requires WellFormed(s, names) && name in names && w > 0
    ensures WellFormed(ScoreKeywords(s, name, kws, text, w), names)
    ensures Lookup(ScoreKeywords(s, name, kws, text, w), m)
            == Lookup(s, m) + (if m == name then w * Hits(kws, text) else 0)
    decreases |kws|
  {
    if |kws| > 0 {
      var s' := if Contains(text, kws[0]) then Add(s, name, w) else s;
      var h := if Contains(text, kws[0]) then 1 else 0;
      var rest := Hits(kws[1..], text);
      if Contains(text, kws[0]) {
        AddWellFormed(s, names, name, w);
        AddLookup(s, name, w, m);
      }
      assert Lookup(s', m) == Lookup(s, m) + (if m == name then w * h else 0);
      ScoreKeywordsEffect(s', names, name, kws[1..], text, w, m);
      assert Hits(kws, text) == h + rest;
      MulAdd(w, h, rest);
    }
  }

  lemma KeywordPassEffect(s: Tally<string>, fields: seq<FieldConfig>, which: KeywordList, text: string, w: nat, m: string)
    requires WellFormed(s, Names(fields)) && w > 0
    ensures WellFormed(KeywordPass(s, fields, which, text, w), Names(fields))
    ensures Lookup(KeywordPass(s, fields, which, text, w), m) == Lookup(s, m) + w * SumHits(fields, m, which, text)
  {
    KeywordPassWidened(s, fields, Names(fields), which, text, w, m);
  }

  /** `KeywordPassEffect` over a name set that may be larger than the fields' own. */
  lemma {:induction false} KeywordPassWidened(s: Tally<string>, fields: seq<FieldConfig>, names: set<string>, which: KeywordList, text: string, w: nat, m: string)
    requires WellFormed(s, names) && Names(fields) <= names && w > 0
    ensures WellFormed(KeywordPass(s, fields, which, text, w), names)
    ensures Lookup(KeywordPass(s, fields, which, text, w), m) == Lookup(s, m) + w * SumHits(fields, m, which, text)
    decreases |fields|
  {
    if |fields| > 0 {
      var f := fields[0];
      var h := if f.name == m then Hits(KeywordsOf(f, which), text) else 0;
      var rest := SumHits(fields[1..], m, which, text);
      var s' := ScoreKeywords(s, f.name, KeywordsOf(f, which), text, w);
      assert f.name in names;
      ScoreKeywordsEffect(s, names, f.name, KeywordsOf(f, which), text, w, m);
      assert Lookup(s', m) == Lookup(s, m) + w * h;
      KeywordPassWidened(s', fields[1..], names, which, text, w, m);
      assert SumHits(fields, m, which, text) == h + rest;
      MulAdd(w, h, rest);
    }
  }

  lemma {:induction false} FieldOfStudyPassEffect(s: Tally<string>, fields: seq<FieldConfig>, names: set<string>, fos: string, m: string)
    requires WellFormed(s, names) && Names(fields) <= names
    ensures WellFormed(FieldOfStudyPass(s, fields, fos), names)
    ensures Lookup(FieldOfStudyPass(s, fields, fos), m) == Lookup(s, m) + FieldOfStudyWeight * FieldOfStudyHits(fields, m, fos)
    decreases |fields|
  {
    if |fields| > 0 {
      var f := fields[0];
      var s' := if AnyKeywordIn(f.keywords, fos) then Add(s, f.name, FieldOfStudyWeight) else s;
      if AnyKeywordIn(f.keywords, fos) {
        AddWellFormed(s, names, f.name, FieldOfStudyWeight);
        AddLookup(s, f.name, FieldOfStudyWeight, m);
      }
      FieldOfStudyPassEffect(s', fields[1..], names, fos, m);
      var h := if f.name == m && AnyKeywordIn(f.keywords, fos) then 1 else 0;
      assert FieldOfStudyHits(fields, m, fos) == h + FieldOfStudyHits(fields[1..], m, fos);
    }
  }

  /** The reference score splits into the four loops' contributions. */
  lemma {:induction false} ScoreSplits(fields: seq<FieldConfig>, m: string, t: PaperTexts)
    ensures Score(fields, m, t)
      == (if t.fieldOfStudy != "" then FieldOfStudyWeight * FieldOfStudyHits(fields, m, t.fieldOfStudy) else 0)
         + TitleWeight * SumHits(fields, m, TitleKeywords, t.title)
         + (if t.abstractText != "" then AbstractWeight * SumHits(fields, m, FieldKeywords, t.abstractText) else 0)
         + (if t.fulltext != "" then FulltextWeight * SumHits(fields, m, FulltextKeywords, t.fulltext) else 0)
  {
    if |fields| > 0 {
      ScoreSplits(fields[1..], m, t);
    }
  }

  /** The table the loops build holds exactly the reference scores. */
  lemma FieldScoresMatchScore(fields: seq<FieldConfig>, t: PaperTexts, m: string)
    ensures WellFormed(FieldScores(fields, t), Names(fields))
    ensures Lookup(FieldScores(fields, t), m) == Score(fields, m, t)
  {
    var names := Names(fields);
    var s0 := if t.fieldOfStudy != "" then FieldOfStudyPass([], fields, t.fieldOfStudy) else [];
    if t.fieldOfStudy != "" {
      FieldOfStudyPassEffect([], fields, names, t.fieldOfStudy, m);
    }
    var s1 := KeywordPass(s0, fields, TitleKeywords, t.title, TitleWeight);
    KeywordPassEffect(s0, fields, TitleKeywords, t.title, TitleWeight, m);
    var s2 := if t.abstractText != "" then KeywordPass(s1, fields, FieldKeywords, t.abstractText, AbstractWeight) else s1;
    if t.abstractText != "" {
      KeywordPassEffect(s1, fields, FieldKeywords, t.abstractText, AbstractWeight, m);
    }
    if t.fulltext != "" {
      KeywordPassEffect(s2, fields, FulltextKeywords, t.fulltext, FulltextWeight, m);
    }
    ScoreSplits(fields, m, t);
  }

  /** The classification of already-read texts: the first field with the
      highest score, provided that score reaches `MinScore`. */
  function DetectFromTexts(fields: seq<FieldConfig>, t: PaperTexts): (r: Option<string>)
    ensures r.Some? ==> r.value in Names(fields)
    ensures r.Some? ==> Score(fields, r.value, t) >= MinScore
    ensures r.Some? ==> forall f :: f in fields ==> Score(fields, f.name, t) <= Score(fields, r.value, t)
    ensures r.None? <==> forall f :: f in fields ==> Score(fields, f.name, t) < MinScore
  {
    var s := FieldScores(fields, t);
    assert WellFormed(s, Names(fields)) by { FieldScoresMatchScore(fields, t, ""); }
    assert forall m :: Lookup(s, m) == Score(fields, m, t) by {
      forall m ensures Lookup(s, m) == Score(fields, m, t) { FieldScoresMatchScore(fields, t, m); }
    }
    if |s| == 0 then
      None
    else
      var b := BestIndex(s);
      LookupAt(s, b);
      KeysMembership(s);
      assert forall m :: Lookup(s, m) <= s[b].1 by {
        forall m ensures Lookup(s, m) <= s[b].1 { LookupIsEntry(s, m); }
      }
      if s[b].1 >= MinScore then
        NamesMembership(fields, s[b].0);
        Some(s[b].0)
      else
        None
  }

  /** `detect_field_from_content(paper, fields)`: raises when a text it
      lower-cases is not a string; otherwise returns None or a field name. */
  function DetectField(paper: Record, fields: seq<FieldConfig>, reprOf: Json -> string): (r: Result<Option<string>>)
    ensures r.Err? <==> ReadTexts(paper, reprOf).Err?
    ensures r.Ok? && r.value.Some? ==> r.value.value in Names(fields)
    ensures r.Ok? ==> var t := ReadTexts(paper, reprOf).value;
      (r.value.None? <==> forall f :: f in fields ==> Score(fields, f.name, t) < MinScore)
    ensures r.Ok? && r.value.Some? ==> var t := ReadTexts(paper, reprOf).value;
      Score(fields, r.value.value, t) >= MinScore
      && forall f :: f in fields ==> Score(fields, f.name, t) <= Score(fields, r.value.value, t)
  {
    var t :- ReadTexts(paper, reprOf);
    Ok(DetectFromTexts(fields, t))
  }

  /** Two JSON values that are equal, or strings equal once lower-cased. */
  predicate SameUpToCase(a: Json, b: Json) {
    a == b || (a.Str? && b.Str? && Lower(a.s) == Lower(b.s))
  }

  predicate SameUpToCaseAt(p: Record, q: Record, key: string) {
    (key in p <==> key in q) && (key in p ==> SameUpToCase(p[key], q[key]))
  }

  /** Classification is case-insensitive: every text is lower-cased before matching. */
  lemma DetectIgnoresCase(p: Record, q: Record, fields: seq<FieldConfig>, reprOf: Json -> string)
    requires SameUpToCaseAt(p, q, "title") && SameUpToCaseAt(p, q, "abstract")
    requires SameUpToCaseAt(p, q, "fullText") && SameUpToCaseAt(p, q, "fieldOfStudy")
    ensures DetectField(p, fields, reprOf) == DetectField(q, fields, reprOf)
  {
    TitleIgnoresCase(p, q);
    OptionalTextIgnoresCase(p, q, "abstract");
    OptionalTextIgnoresCase(p, q, "fullText");
    FieldOfStudyIgnoresCase(p, q, reprOf);
    assert ReadTexts(p, reprOf) == ReadTexts(q, reprOf);
  }

  lemma TitleIgnoresCase(p: Record, q: Record)
    requires SameUpToCaseAt(p, q, "title")
    ensures TitleText(p) == TitleText(q)
  {
  }

  lemma OptionalTextIgnoresCase(p: Record, q: Record, key: string)
    requires SameUpToCaseAt(p, q, key)
    ensures OptionalText(p, key) == OptionalText(q, key)
  {
  }

  lemma FieldOfStudyIgnoresCase(p: Record, q: Record, reprOf: Json -> string)
    requires SameUpToCaseAt(p, q, "fieldOfStudy")
    ensures FieldOfStudyText(p, reprOf) == FieldOfStudyText(q, reprOf)
  {
  }
}
