/** `analyze_keyword_distribution`: how many collected papers each search
    keyword contributed, and the test that flags a skewed distribution. */
module Distribution {
  import opened Wrappers
  import opened JsonValue
  import opened Tally
  import opened Collection

  /** The `keyword_counts` dict, built paper by paper in list order. */
  function KeywordCounts(papers: seq<Record>): (r: Result<Tally<Json>>)
    ensures r.Err? <==> exists i :: 0 <= i < |papers| && !Hashable(KeywordUsed(papers[i]))
    ensures r.Err? ==> r.error == TypeError
  {
    if |papers| == 0 then Ok([])
    else
      var init := papers[..|papers| - 1];
      var key := KeywordUsed(papers[|papers| - 1]);
      match KeywordCounts(init)
      case Err(e) =>
        assert forall i :: 0 <= i < |init| ==> init[i] == papers[i];
        Err(e)
      case Ok(t) =>
        assert forall i :: 0 <= i < |init| ==> init[i] == papers[i];
        if Hashable(key) then Ok(Add(t, key, 1)) else Err(TypeError)
  }

  /** Each keyword's count is the number of papers that name it, every key
      names at least one paper, and keys are unique. */
  lemma {:induction false} KeywordCountsCorrect(papers: seq<Record>)
    requires KeywordCounts(papers).Ok?
    ensures var t := KeywordCounts(papers).value;
      DistinctKeys(t) && Positive(t)
      && forall key :: Lookup(t, key) == CountUsing(papers, key)
  {
    if |papers| > 0 {
      var init := papers[..|papers| - 1];
      var key := KeywordUsed(papers[|papers| - 1]);
      KeywordCountsCorrect(init);
      var t := KeywordCounts(init).value;
      AddDistinct(t, key, 1);
      AddPositive(t, key, 1);
      forall k ensures Lookup(Add(t, key, 1), k) == CountUsing(papers, k) {
        AddLookup(t, key, 1, k);
      }
    }
  }

  /** The keywords with an entry are exactly the keywords some paper names. */
  lemma KeywordCountsKeys(papers: seq<Record>, key: Json)
    requires KeywordCounts(papers).Ok?
    ensures key in Keys(KeywordCounts(papers).value) <==> CountUsing(papers, key) > 0
  {
    KeywordCountsCorrect(papers);
    LookupPositive(KeywordCounts(papers).value, key);
  }

  /** A collected list never fails to be counted: its keywords are strings. */
  lemma CollectedCountable(papers: seq<Record>)
    requires forall i :: 0 <= i < |papers| ==> KeywordUsed(papers[i]).Str?
    ensures KeywordCounts(papers).Ok?
  {
  }

  /** `max(keyword_counts.values()) if keyword_counts else 0`. */
  function MaxCount(t: Tally<Json>): (r: nat)
    ensures forall i :: 0 <= i < |t| ==> t[i].1 <= r
    ensures |t| > 0 ==> exists i :: 0 <= i < |t| && t[i].1 == r
    ensures |t| == 0 ==> r == 0
  {
    if |t| == 0 then 0
    else
      var rest := MaxCount(t[1..]);
      assert forall i :: 1 <= i < |t| ==> t[i] == t[1..][i - 1];
      if t[0].1 >= rest then t[0].1 else rest
  }

  /** `min(keyword_counts.values()) if keyword_counts else 0`. */
  function MinCount(t: Tally<Json>): (r: nat)
    ensures forall i :: 0 <= i < |t| ==> r <= t[i].1
    ensures |t| > 0 ==> exists i :: 0 <= i < |t| && t[i].1 == r
    ensures |t| == 0 ==> r == 0
  {
    if |t| <= 1 then (if |t| == 0 then 0 else t[0].1)
    else
      var rest := MinCount(t[1..]);
      assert forall i :: 1 <= i < |t| ==> t[i] == t[1..][i - 1];
      if t[0].1 <= rest then t[0].1 else rest
  }

  /** The skew test: the largest count is more than three times the smallest. */
  predicate Skewed(t: Tally<Json>) {
    MaxCount(t) > MinCount(t) * 3
  }

  /** Skewed exactly when some keyword has more than three times the papers
      of another; an empty tally is never skewed. */
  lemma SkewedIff(t: Tally<Json>)
    ensures Skewed(t) <==> exists i, j :: 0 <= i < |t| && 0 <= j < |t| && t[i].1 > 3 * t[j].1
    ensures |t| == 0 ==> !Skewed(t)
  {
    if |t| > 0 {
      var i :| 0 <= i < |t| && t[i].1 == MaxCount(t);
      var j :| 0 <= j < |t| && t[j].1 == MinCount(t);
      if Skewed(t) {
        assert t[i].1 > 3 * t[j].1;
      }
    }
  }

  /** What the analysis reports for one field. */
  datatype Report = Report(counts: Tally<Json>, maxCount: nat, minCount: nat, skewed: bool)

  function AnalyzeField(papers: seq<Record>): (r: Result<Report>)
    ensures r.Err? <==> KeywordCounts(papers).Err?
    ensures r.Ok? ==> (r.value.skewed <==>
      exists a, b :: 0 <= a < |papers| && 0 <= b < |papers|
        && CountUsing(papers, KeywordUsed(papers[a])) > 3 * CountUsing(papers, KeywordUsed(papers[b])))
  {
    var t :- KeywordCounts(papers);
    SkewedReferences(papers);
    Ok(Report(t, MaxCount(t), MinCount(t), Skewed(t)))
  }

  /** The skew test restated over the papers themselves. */
  lemma SkewedReferences(papers: seq<Record>)
    requires KeywordCounts(papers).Ok?
    ensures var t := KeywordCounts(papers).value;
      Skewed(t) <==>
      exists a, b :: 0 <= a < |papers| && 0 <= b < |papers|
        && CountUsing(papers, KeywordUsed(papers[a])) > 3 * CountUsing(papers, KeywordUsed(papers[b]))
  {
    var t := KeywordCounts(papers).value;
    SkewedIff(t);
    if Skewed(t) {
      var i, j :| 0 <= i < |t| && 0 <= j < |t| && t[i].1 > 3 * t[j].1;
      var a := PaperOfEntry(papers, i);
      var b := PaperOfEntry(papers, j);
      assert CountUsing(papers, KeywordUsed(papers[a])) > 3 * CountUsing(papers, KeywordUsed(papers[b]));
    }
    if exists a, b :: 0 <= a < |papers| && 0 <= b < |papers|
        && CountUsing(papers, KeywordUsed(papers[a])) > 3 * CountUsing(papers, KeywordUsed(papers[b])) {
      var a, b :| 0 <= a < |papers| && 0 <= b < |papers|
        && CountUsing(papers, KeywordUsed(papers[a])) > 3 * CountUsing(papers, KeywordUsed(papers[b]));
      var i := EntryOfPaper(papers, a);
      var j := EntryOfPaper(papers, b);
      assert t[i].1 > 3 * t[j].1;
    }
  }

  /** The entry that counts the keyword of paper `a`. */
  lemma EntryOfPaper(papers: seq<Record>, a: nat) returns (i: nat)
    requires KeywordCounts(papers).Ok? && a < |papers|
    ensures var t := KeywordCounts(papers).value;
      i < |t| && t[i].1 == CountUsing(papers, KeywordUsed(papers[a]))
  {
    var t := KeywordCounts(papers).value;
    var key := KeywordUsed(papers[a]);
    KeywordCountsCorrect(papers);
    KeysMembership(t);
    UsedKeyPositive(papers, a);
    LookupPositive(t, key);
    i :| 0 <= i < |t| && t[i].0 == key;
    LookupAt(t, i);
  }

  /** A paper whose keyword entry `i` counts. */
  lemma PaperOfEntry(papers: seq<Record>, i: nat) returns (a: nat)
    requires KeywordCounts(papers).Ok? && i < |KeywordCounts(papers).value|
    ensures var t := KeywordCounts(papers).value;
      a < |papers| && t[i].1 == CountUsing(papers, KeywordUsed(papers[a]))
  {
    var t := KeywordCounts(papers).value;
    KeywordCountsCorrect(papers);
    LookupAt(t, i);
    UsedKeyWitness(papers, t[i].0);
    a :| 0 <= a < |papers| && KeywordUsed(papers[a]) == t[i].0;
  }

  lemma {:induction false} UsedKeyPositive(papers: seq<Record>, a: nat)
    requires a < |papers|
    ensures CountUsing(papers, KeywordUsed(papers[a])) > 0
  {
    var n := |papers|;
    if a < n - 1 {
      assert papers[..n - 1][a] == papers[a];
      UsedKeyPositive(papers[..n - 1], a);
    }
  }

  lemma {:induction false} UsedKeyWitness(papers: seq<Record>, key: Json)
    requires CountUsing(papers, key) > 0
    ensures exists a :: 0 <= a < |papers| && KeywordUsed(papers[a]) == key
  {
    var n := |papers|;
    if KeywordUsed(papers[n - 1]) != key {
      UsedKeyWitness(papers[..n - 1], key);
      var a :| 0 <= a < n - 1 && KeywordUsed(papers[..n - 1][a]) == key;
      assert papers[..n - 1][a] == papers[a];
    }
  }

  /** `analyze_keyword_distribution(collected_sources)` over every field:
      one report per field, or the TypeError of an uncountable keyword. */
  function AnalyzeAll(sources: map<string, seq<Record>>): (r: Result<map<string, Report>>)
    ensures r.Ok? <==> forall f :: f in sources ==> KeywordCounts(sources[f]).Ok?
    ensures r.Ok? ==>
      r.value.Keys == sources.Keys
      && forall f :: f in sources ==> Ok(r.value[f]) == AnalyzeField(sources[f])
  {
    if forall f :: f in sources ==> AnalyzeField(sources[f]).Ok? then
      Ok(map f | f in sources :: AnalyzeField(sources[f]).value)
    else
      Err(TypeError)
  }
}
