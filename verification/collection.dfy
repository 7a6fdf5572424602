/** `collect_sources_for_field`: the per-keyword search over CORE result
    pages, with duplicate detection, the field acceptance test and the
    per-keyword cap, and `main`'s loop over the configured fields. */
module Collection {
  import opened Wrappers
  import opened Text
  import opened JsonValue
  import opened Seqs
  import opened FieldDetection
  import opened PaperIdentity
  import opened CollectedRecord

  /** `create_paper_id`, as the loops see it. */
  type IdFunction = Record -> Result<string>
  /** `detect_field_from_content` with the configured field table, as the loops see it. */
  type Classifier = Record -> Result<Option<string>>

  /** `batch_size`: results requested per page. */
  const PageSize: nat := 50
  /** The search for one keyword stops before offset 1000. */
  const MaxOffset: nat := 1000
  /** Pages requested at most per keyword (offsets 0, 50, ..., 950). */
  const MaxPages: nat := MaxOffset / PageSize
  /** The `target_count` `main` passes for every field. */
  const TargetCount: int := 500

  /** `target_count // len(keywords)`. */
  function PapersPerKeyword(target: int, keywordCount: nat): (r: Result<int>)
    ensures r.Err? <==> keywordCount == 0
    ensures r.Err? ==> r.error == ZeroDivisionError
    ensures r.Ok? ==> r.value * keywordCount <= target < (r.value + 1) * keywordCount
  {
    if keywordCount == 0 then Err(ZeroDivisionError) else Ok(target / keywordCount)
  }

  function Max0(n: int): nat {
    if n < 0 then 0 else n
  }

  /** `str(v or '').lower()`: the field-of-study text the acceptance test searches. */
  function FieldText(v: Json, reprOf: Json -> string): string {
    Lower(PyStr(Or(v, Str("")), reprOf))
  }

  /** A result is kept for `fieldName` when its field of study names the
      field, the classifier picked the field, or its field of study contains
      one of the field's search keywords. */
  predicate Accepts(fieldName: string, keywords: seq<string>, paperField: string, detected: Option<string>) {
    Contains(paperField, fieldName) || detected == Some(fieldName) || AnyKeywordIn(keywords, paperField)
  }

  /** A collected record passes the acceptance test on its own stored fields. */
  predicate AcceptedRecord(fieldName: string, keywords: seq<string>, rec: Record, reprOf: Json -> string) {
    "fieldOfStudy" in rec && "detectedField" in rec
    && var pf := FieldText(rec["fieldOfStudy"], reprOf);
       Contains(pf, fieldName) || rec["detectedField"] == Str(fieldName) || AnyKeywordIn(keywords, pf)
  }

  /** What becomes of one search result. */
  datatype Verdict = Duplicate | Rejected | Accepted(record: Record)

  /** The body of the loop over one page's results. `pid` is what
      `create_paper_id(paper)` returned or raised and `detected` what
      `detect_field_from_content(paper, academic_fields)` did; the second is
      only looked at for a result that is not a duplicate. */
  function Examine(
    fieldName: string, keywords: seq<string>, keyword: string, paper: Record, seen: set<string>,
    pid: Result<string>, detected: Result<Option<string>>, collectedAt: string, reprOf: Json -> string)
    : (r: Result<Verdict>)
    ensures pid.Err? ==> r == Err(pid.error)
    ensures pid.Ok? && pid.value in seen ==> r == Ok(Duplicate)
    ensures r.Ok? && r.value.Duplicate? ==> pid.Ok? && pid.value in seen
    ensures r.Err? ==> pid.Err? || detected.Err? || AuthorNames(GetOr(paper, "authors", Array([]))).Err?
    ensures pid.Ok? && pid.value !in seen && detected.Err? ==> r == Err(detected.error)
    ensures r.Ok? && !r.value.Duplicate? ==>
      pid.Ok? && pid.value !in seen && detected.Ok?
      && (r.value.Accepted? <==> Accepts(fieldName, keywords, FieldText(Get(paper, "fieldOfStudy"), reprOf), detected.value))
    ensures r.Ok? && r.value.Accepted? ==>
      var rec := r.value.record;
      rec.Keys == RecordKeys
      && rec["paper_id"] == Str(pid.value)
      && rec["keywordUsed"] == Str(keyword)
      && AcceptedRecord(fieldName, keywords, rec, reprOf)
  {
    var id :- pid;
    if id in seen then Ok(Duplicate)
    else
      var field :- detected;
      var paperField := FieldText(Get(paper, "fieldOfStudy"), reprOf);
      if Accepts(fieldName, keywords, paperField, field) then
        var rec :- PaperData(paper, id, field, keyword, collectedAt);
        assert FieldText(rec["fieldOfStudy"], reprOf) == paperField;
        Ok(Accepted(rec))
      else
        Ok(Rejected)
  }

  /** A search result that passes the acceptance test: its id and its
      classification are computed without raising, and the test keeps it
      whenever its id is new. */
  predicate Acceptable(fieldName: string, keywords: seq<string>, paper: Record,
                       idOf: IdFunction, classify: Classifier, reprOf: Json -> string) {
    var detected := classify(paper);
    idOf(paper).Ok? && detected.Ok?
    && Accepts(fieldName, keywords, FieldText(Get(paper, "fieldOfStudy"), reprOf), detected.value)
  }

  /** A search result on which the loop body can raise: its id, its
      classification or its author names cannot be computed. */
  predicate Unreadable(paper: Record, idOf: IdFunction, classify: Classifier) {
    idOf(paper).Err? || classify(paper).Err?
    || AuthorNames(GetOr(paper, "authors", Array([]))).Err?
  }

  /** Every acceptable result among the first `n` has its id in `seen`:
      it was kept now or earlier. */
  ghost predicate PageKept(fieldName: string, keywords: seq<string>, results: seq<Record>, n: nat,
                           seen: set<string>, idOf: IdFunction, classify: Classifier, reprOf: Json -> string)
    requires n <= |results|
  {
    forall j :: 0 <= j < n && Acceptable(fieldName, keywords, results[j], idOf, classify, reprOf) ==>
      idOf(results[j]).value in seen
  }

  /** The same for every result of the first `n` pages. */
  ghost predicate PagesKept(fieldName: string, keywords: seq<string>, pages: seq<seq<Record>>, n: nat,
                            seen: set<string>, idOf: IdFunction, classify: Classifier, reprOf: Json -> string)
  {
    forall p :: 0 <= p < n ==>
      PageKept(fieldName, keywords, PageAt(pages, p), |PageAt(pages, p)|, seen, idOf, classify, reprOf)
  }

  /** Some result of the first `MaxPages` pages is unreadable. */
  ghost predicate PagesUnreadable(pages: seq<seq<Record>>, idOf: IdFunction, classify: Classifier) {
    exists p, j :: 0 <= p < MaxPages && 0 <= j < |PageAt(pages, p)| && Unreadable(PageAt(pages, p)[j], idOf, classify)
  }

  /** The pages of the `k`-th keyword's search. */
  function PagesFor(responses: seq<seq<seq<Record>>>, k: nat): seq<seq<Record>> {
    if k < |responses| then responses[k] else []
  }

  /** One examined result: an acceptable result is kept unless its id was
      already seen. */
  lemma ExamineKeeps(fieldName: string, keywords: seq<string>, keyword: string, paper: Record, seen: set<string>,
                     collectedAt: string, idOf: IdFunction, classify: Classifier, reprOf: Json -> string)
    requires Examine(fieldName, keywords, keyword, paper, seen, idOf(paper),
                     classify(paper), collectedAt, reprOf).Ok?
    ensures var v := Examine(fieldName, keywords, keyword, paper, seen, idOf(paper),
                             classify(paper), collectedAt, reprOf).value;
      Acceptable(fieldName, keywords, paper, idOf, classify, reprOf) ==>
        idOf(paper).value in seen
        || (v.Accepted? && v.record["paper_id"] == Str(idOf(paper).value))
  {
  }

  lemma PageKeptStep(fieldName: string, keywords: seq<string>, results: seq<Record>, j: nat,
                     seen: set<string>, seen': set<string>, idOf: IdFunction, classify: Classifier, reprOf: Json -> string)
    requires j < |results| && seen <= seen'
    requires PageKept(fieldName, keywords, results, j, seen, idOf, classify, reprOf)
    requires Acceptable(fieldName, keywords, results[j], idOf, classify, reprOf) ==> idOf(results[j]).value in seen'
    ensures PageKept(fieldName, keywords, results, j + 1, seen', idOf, classify, reprOf)
  {
  }

  lemma PagesKeptStep(fieldName: string, keywords: seq<string>, pages: seq<seq<Record>>, p: nat,
                      seen: set<string>, seen': set<string>, idOf: IdFunction, classify: Classifier, reprOf: Json -> string)
    requires seen <= seen'
    requires PagesKept(fieldName, keywords, pages, p, seen, idOf, classify, reprOf)
    requires PageKept(fieldName, keywords, PageAt(pages, p), |PageAt(pages, p)|, seen', idOf, classify, reprOf)
    ensures PagesKept(fieldName, keywords, pages, p + 1, seen', idOf, classify, reprOf)
  {
  }

  // ---------------------------------------------------------------------------
  // Bookkeeping of the collected list
  // ---------------------------------------------------------------------------

  predicate HasPaperId(rec: Record) {
    "paper_id" in rec && rec["paper_id"].Str?
  }

  function PaperIdOf(rec: Record): string {
    if HasPaperId(rec) then rec["paper_id"].s else ""
  }

  function PaperIds(c: seq<Record>): (r: seq<string>)
    ensures |r| == |c| && forall i :: 0 <= i < |c| ==> r[i] == PaperIdOf(c[i])
  {
    seq(|c|, i requires 0 <= i < |c| => PaperIdOf(c[i]))
  }

  /** `paper.get('keywordUsed', 'unknown')`. */
  function KeywordUsed(rec: Record): Json {
    GetOr(rec, "keywordUsed", Str("unknown"))
  }

  /** How many records of `c` name `key` as their keyword. */
  function CountUsing(c: seq<Record>, key: Json): nat {
    if |c| == 0 then 0 else CountUsing(c[..|c| - 1], key) + (if KeywordUsed(c[|c| - 1]) == key then 1 else 0)
  }

  /** What holds of the collected list and `seen_paper_ids` between steps. */
  ghost predicate Collected(fieldName: string, keywords: seq<string>, c: seq<Record>, seen: set<string>, reprOf: Json -> string) {
    (forall i :: 0 <= i < |c| ==> HasPaperId(c[i]))
    && NoDup(PaperIds(c))
    && (forall x :: x in seen <==> x in PaperIds(c))
    && (forall i :: 0 <= i < |c| ==> KeywordUsed(c[i]).Str? && KeywordUsed(c[i]).s in keywords)
    && (forall i :: 0 <= i < |c| ==> AcceptedRecord(fieldName, keywords, c[i], reprOf))
  }

  /** The guarantees of one field's collection. */
  ghost predicate CollectionGuarantees(fieldName: string, keywords: seq<string>, target: int, c: seq<Record>, reprOf: Json -> string)
    requires |keywords| > 0
  {
    var cap := Cap(target, |keywords|);
    (forall i :: 0 <= i < |c| ==> HasPaperId(c[i]))
    && (forall i, j :: 0 <= i < j < |c| ==> c[i]["paper_id"] != c[j]["paper_id"])
    && (forall i :: 0 <= i < |c| ==> c[i].Keys == RecordKeys && AcceptedRecord(fieldName, keywords, c[i], reprOf))
    && (forall i :: 0 <= i < |c| ==> KeywordUsed(c[i]).Str? && KeywordUsed(c[i]).s in keywords)
    && (forall w :: CountUsing(c, Str(w)) <= Times(cap, Occurrences(keywords, w)))
    && (NoDup(keywords) ==> forall w :: w in keywords ==> CountUsing(c, Str(w)) <= cap)
    && |c| <= Times(cap, |keywords|)
    && (target >= 0 ==> |c| <= target)
  }

  /** The papers kept per keyword: `target_count // len(keywords)`, and none
      when that is negative. */
  function Cap(target: int, n: nat): nat
    requires n > 0
  {
    Max0(target / n)
  }

  lemma AppendCollected(fieldName: string, keywords: seq<string>, c: seq<Record>, seen: set<string>,
                        rec: Record, reprOf: Json -> string)
    requires Collected(fieldName, keywords, c, seen, reprOf)
    requires HasPaperId(rec) && rec["paper_id"].s !in seen
    requires KeywordUsed(rec).Str? && KeywordUsed(rec).s in keywords
    requires AcceptedRecord(fieldName, keywords, rec, reprOf)
    ensures Collected(fieldName, keywords, c + [rec], seen + {rec["paper_id"].s}, reprOf)
    ensures forall x :: CountUsing(c + [rec], x) == CountUsing(c, x) + (if KeywordUsed(rec) == x then 1 else 0)
  {
    var c' := c + [rec];
    assert PaperIds(c') == PaperIds(c) + [rec["paper_id"].s];
    assert c'[..|c|] == c;
  }

  // ---------------------------------------------------------------------------
  // The collection loops
  // ---------------------------------------------------------------------------

  /** `c` is `start` followed by records kept for `keyword`, and both the
      list and `seen` are in order. */
  ghost predicate Extends(fieldName: string, keywords: seq<string>, keyword: string,
                          start: seq<Record>, c: seq<Record>, seen: set<string>, reprOf: Json -> string) {
    Collected(fieldName, keywords, c, seen, reprOf) && KeptFor(keyword, start, c)
  }

  /** Every record has the keys of `paper_data`, and the records after
      `start` all name `keyword`. */
  ghost predicate KeptFor(keyword: string, start: seq<Record>, c: seq<Record>) {
    && (forall i :: 0 <= i < |c| ==> c[i].Keys == RecordKeys)
    && |start| <= |c| && c[..|start|] == start
    && (forall i :: |start| <= i < |c| ==> KeywordUsed(c[i]) == Str(keyword))
    && (forall x :: CountUsing(c, x) == CountUsing(start, x) + (if x == Str(keyword) then |c| - |start| else 0))
  }

  lemma ExtendsStep(fieldName: string, keywords: seq<string>, keyword: string,
                    start: seq<Record>, c: seq<Record>, seen: set<string>, rec: Record, reprOf: Json -> string)
    requires keyword in keywords
    requires Extends(fieldName, keywords, keyword, start, c, seen, reprOf)
    requires rec.Keys == RecordKeys && HasPaperId(rec) && rec["paper_id"].s !in seen
    requires rec["keywordUsed"] == Str(keyword) && AcceptedRecord(fieldName, keywords, rec, reprOf)
    ensures Extends(fieldName, keywords, keyword, start, c + [rec], seen + {rec["paper_id"].s}, reprOf)
  {
    assert KeywordUsed(rec) == Str(keyword);
    AppendCollected(fieldName, keywords, c, seen, rec, reprOf);
    KeptForStep(keyword, start, c, rec);
  }

  lemma KeptForStep(keyword: string, start: seq<Record>, c: seq<Record>, rec: Record)
    requires KeptFor(keyword, start, c)
    requires rec.Keys == RecordKeys && KeywordUsed(rec) == Str(keyword)
    requires forall x :: CountUsing(c + [rec], x) == CountUsing(c, x) + (if KeywordUsed(rec) == x then 1 else 0)
    ensures KeptFor(keyword, start, c + [rec])
  {
    assert (c + [rec])[..|start|] == c[..|start|];
  }

  /** Pages of one keyword: page `p` holds the results at offset `PageSize * p`;
      a page beyond the given ones (a failed or empty response) holds none. */
  function PageAt(pages: seq<seq<Record>>, p: nat): seq<Record> {
    if p < |pages| then pages[p] else []
  }

  /** What one request for a page gets back: status 200 with its
      `results`, status 500, status 429, or another status. */
  datatype Reply = Found(results: seq<Record>) | ServerError | RateLimited | Failed

  /** `max_retries`: status-500 replies tolerated for one page. */
  const MaxRetries: nat := 3

  /** The replies only a retry follows: 500 and 429. */
  predicate Retrying(replies: seq<Reply>) {
    forall j :: 0 <= j < |replies| ==> replies[j].ServerError? || replies[j].RateLimited?
  }

  function ServerErrors(replies: seq<Reply>): nat {
    if |replies| == 0 then 0
    else (if replies[|replies| - 1].ServerError? then 1 else 0) + ServerErrors(replies[..|replies| - 1])
  }

  /** The retry loop for one page, after `retries` status-500 replies, where
      `replies` answer its successive requests: the results handed to the
      result loop. A status other than 200, 500 and 429, and the third 500,
      leave the retry loop with nothing; either way the page loop goes on
      to the next offset. */
  function PageFetched(replies: seq<Reply>, retries: nat): seq<Record>
    decreases |replies|
  {
    if retries >= MaxRetries || |replies| == 0 then []
    else match replies[0]
      case Found(results) => results
      case ServerError => PageFetched(replies[1..], retries + 1)
      case RateLimited => PageFetched(replies[1..], retries)
      case Failed => []
  }

  /** Results a page hands on come from a 200 reply reached after only 500s
      and 429s, fewer than three of them 500s. */
  lemma {:induction false} FoundWhenFetched(replies: seq<Reply>, retries: nat)
    requires PageFetched(replies, retries) != []
    ensures exists i :: 0 <= i < |replies| && replies[i] == Found(PageFetched(replies, retries))
                        && Retrying(replies[..i]) && retries + ServerErrors(replies[..i]) < MaxRetries
    decreases |replies|
  {
    var r := PageFetched(replies, retries);
    if replies[0].Found? {
      assert Retrying(replies[..0]) && ServerErrors(replies[..0]) == 0;
    } else {
      var next := if replies[0].ServerError? then retries + 1 else retries;
      FoundWhenFetched(replies[1..], next);
      var i :| 0 <= i < |replies[1..]| && replies[1..][i] == Found(r)
               && Retrying(replies[1..][..i]) && next + ServerErrors(replies[1..][..i]) < MaxRetries;
      ServerErrorsCons(replies[0], replies[1..][..i]);
      assert replies[..i + 1] == [replies[0]] + replies[1..][..i];
      assert replies[i + 1] == Found(r);
    }
  }

  lemma {:induction false} ServerErrorsCons(x: Reply, rest: seq<Reply>)
    ensures ServerErrors([x] + rest) == (if x.ServerError? then 1 else 0) + ServerErrors(rest)
    decreases |rest|
  {
    var s := [x] + rest;
    if |rest| > 0 {
      assert s[..|s| - 1] == [x] + rest[..|rest| - 1];
      ServerErrorsCons(x, rest[..|rest| - 1]);
    }
  }

  /** A 200 reply reached after only 500s and 429s, fewer than three of
      them 500s, is the page's results. */
  lemma {:induction false} FoundAfterRetries(replies: seq<Reply>, retries: nat, i: nat)
    requires i < |replies| && replies[i].Found?
    requires Retrying(replies[..i]) && retries + ServerErrors(replies[..i]) < MaxRetries
    ensures PageFetched(replies, retries) == replies[i].results
    decreases i
  {
    if i > 0 {
      ServerErrorsCons(replies[0], replies[1..][..i - 1]);
      assert replies[..i] == [replies[0]] + replies[1..][..i - 1];
      assert replies[0] == replies[..i][0];
      FoundAfterRetries(replies[1..], if replies[0].ServerError? then retries + 1 else retries, i - 1);
    }
  }

  /** Three 500 replies, with any 429s among them, give the page no results. */
  lemma {:induction false} ServerErrorsGiveUp(replies: seq<Reply>, retries: nat, i: nat)
    requires i <= |replies|
    requires Retrying(replies[..i]) && retries + ServerErrors(replies[..i]) >= MaxRetries
    ensures PageFetched(replies, retries) == []
    decreases i
  {
    if retries < MaxRetries {
      assert i > 0;
      ServerErrorsCons(replies[0], replies[1..][..i - 1]);
      assert replies[..i] == [replies[0]] + replies[1..][..i - 1];
      assert replies[0] == replies[..i][0];
      ServerErrorsGiveUp(replies[1..], if replies[0].ServerError? then retries + 1 else retries, i - 1);
    }
  }

  /** The result pages of one keyword's search, `requests[p]` being the
      replies to the requests for offset `PageSize * p`. */
  function KeywordPages(requests: seq<seq<Reply>>): (r: seq<seq<Record>>)
    ensures |r| == MaxPages
    ensures forall p :: 0 <= p < MaxPages ==> r[p] == PageFetched(if p < |requests| then requests[p] else [], 0)
  {
    seq(MaxPages, p requires 0 <= p < MaxPages => PageFetched(if p < |requests| then requests[p] else [], 0))
  }

  /** A page given up after three 500 replies does not end the keyword's
      search: while the keyword stays below its cap, the acceptable results
      of every other page, later ones included, are still kept. */
  lemma GivenUpPageSkipped(fieldName: string, keywords: seq<string>, requests: seq<seq<Reply>>, p: nat, q: nat,
                           seen: set<string>, idOf: IdFunction, classify: Classifier, reprOf: Json -> string)
    requires p < q < MaxPages && p < |requests| && q < |requests|
    requires |requests[p]| >= 3 && requests[p][0] == requests[p][1] == requests[p][2] == ServerError
    requires PagesKept(fieldName, keywords, KeywordPages(requests), MaxPages, seen, idOf, classify, reprOf)
    ensures PageAt(KeywordPages(requests), p) == []
    ensures forall x :: x in PageFetched(requests[q], 0) && Acceptable(fieldName, keywords, x, idOf, classify, reprOf) ==>
      idOf(x).value in seen
  {
    var rs := requests[p];
    assert rs[..3] == [ServerError, ServerError, ServerError];
    ServerErrorsCons(ServerError, [ServerError, ServerError]);
    ServerErrorsCons(ServerError, [ServerError]);
    ServerErrorsCons(ServerError, []);
    assert [ServerError] + [] == [ServerError];
    assert [ServerError] + [ServerError] == [ServerError, ServerError];
    assert [ServerError] + [ServerError, ServerError] == rs[..3];
    ServerErrorsGiveUp(rs, 0, 3);
    var page := PageAt(KeywordPages(requests), q);
    assert page == PageFetched(requests[q], 0);
    assert PageKept(fieldName, keywords, page, |page|, seen, idOf, classify, reprOf);
    forall x | x in page && Acceptable(fieldName, keywords, x, idOf, classify, reprOf) ensures idOf(x).value in seen {
      var j :| 0 <= j < |page| && page[j] == x;
    }
  }

  /** The loop over one page's results, which stops once `per` papers were
      kept for the keyword since `start`. */
  method CollectFromPage(
    fieldName: string, keywords: seq<string>, keyword: string, per: int, results: seq<Record>,
    start: seq<Record>, collected: seq<Record>, seen: set<string>,
    clock: nat -> string, idOf: IdFunction, classify: Classifier, reprOf: Json -> string)
    returns (r: Result<(seq<Record>, set<string>)>)
    requires keyword in keywords
    requires Extends(fieldName, keywords, keyword, start, collected, seen, reprOf)
    requires |collected| - |start| <= Max0(per)
    ensures r.Ok? ==> Extends(fieldName, keywords, keyword, start, r.value.0, r.value.1, reprOf)
                      && |r.value.0| - |start| <= Max0(per)
    ensures r.Ok? ==> |collected| <= |r.value.0| && seen <= r.value.1
    ensures r.Ok? && |r.value.0| - |start| < per ==>
      PageKept(fieldName, keywords, results, |results|, r.value.1, idOf, classify, reprOf)
    ensures r.Err? ==> exists j :: 0 <= j < |results| && Unreadable(results[j], idOf, classify)
  {
    var c := collected;
    var s := seen;
    var j := 0;
    while j < |results| && |c| - |start| < per
      invariant 0 <= j <= |results|
      invariant Extends(fieldName, keywords, keyword, start, c, s, reprOf)
      invariant |c| - |start| <= Max0(per)
      invariant |collected| <= |c| && seen <= s
      invariant PageKept(fieldName, keywords, results, j, s, idOf, classify, reprOf)
    {
      var paper := results[j];
      var verdict := Examine(fieldName, keywords, keyword, paper, s, idOf(paper),
                             classify(paper), clock(|c|), reprOf);
      if verdict.Err? {
        assert Unreadable(results[j], idOf, classify);
        return Err(verdict.error);
      }
      ExamineKeeps(fieldName, keywords, keyword, paper, s, clock(|c|), idOf, classify, reprOf);
      ghost var before := s;
      if verdict.value.Accepted? {
        var rec := verdict.value.record;
        ExtendsStep(fieldName, keywords, keyword, start, c, s, rec, reprOf);
        c := c + [rec];
        s := s + {rec["paper_id"].s};
      }
      PageKeptStep(fieldName, keywords, results, j, before, s, idOf, classify, reprOf);
      j := j + 1;
    }
    return Ok((c, s));
  }

  /** The search for one keyword: pages are read while fewer than `per`
      papers were kept for it and the offset is below `MaxOffset`. */
  method CollectForKeyword(
    fieldName: string, keywords: seq<string>, keyword: string, per: int, pages: seq<seq<Record>>,
    collected: seq<Record>, seen: set<string>,
    clock: nat -> string, idOf: IdFunction, classify: Classifier, reprOf: Json -> string)
    returns (r: Result<(seq<Record>, set<string>)>)
    requires keyword in keywords
    requires Collected(fieldName, keywords, collected, seen, reprOf)
    requires forall i :: 0 <= i < |collected| ==> collected[i].Keys == RecordKeys
    ensures r.Ok? ==> Extends(fieldName, keywords, keyword, collected, r.value.0, r.value.1, reprOf)
                      && |r.value.0| - |collected| <= Max0(per)
    ensures r.Ok? ==> seen <= r.value.1
    ensures r.Ok? && |r.value.0| - |collected| < per ==>
      PagesKept(fieldName, keywords, pages, MaxPages, r.value.1, idOf, classify, reprOf)
    ensures r.Err? ==> PagesUnreadable(pages, idOf, classify)
  {
    var c := collected;
    var s := seen;
    var p := 0;
    assert c[..|collected|] == collected;
    while |c| - |collected| < per && p < MaxPages
      invariant 0 <= p <= MaxPages
      invariant Extends(fieldName, keywords, keyword, collected, c, s, reprOf)
      invariant |c| - |collected| <= Max0(per)
      invariant seen <= s
      invariant |c| - |collected| < per ==> PagesKept(fieldName, keywords, pages, p, s, idOf, classify, reprOf)
      decreases MaxPages - p
    {
      var page := CollectFromPage(fieldName, keywords, keyword, per, PageAt(pages, p), collected, c, s, clock, idOf, classify, reprOf);
      if page.Err? {
        ghost var j :| 0 <= j < |PageAt(pages, p)| && Unreadable(PageAt(pages, p)[j], idOf, classify);
        assert PagesUnreadable(pages, idOf, classify);
        return Err(page.error);
      }
      if |page.value.0| - |collected| < per {
        PagesKeptStep(fieldName, keywords, pages, p, s, page.value.1, idOf, classify, reprOf);
      }
      c, s := page.value.0, page.value.1;
      p := p + 1;
    }
    return Ok((c, s));
  }

  /** A keyword's records raise only that keyword's count, by at most `m`. */
  lemma CountAfterKeyword(keywords: seq<string>, k: nat, c: seq<Record>, c': seq<Record>, m: nat)
    requires k < |keywords| && |c| <= |c'| && |c'| - |c| <= m
    requires forall x :: CountUsing(c', x) == CountUsing(c, x) + (if x == Str(keywords[k]) then |c'| - |c| else 0)
    requires forall w :: CountUsing(c, Str(w)) <= Times(m, Occurrences(keywords[..k], w))
    ensures forall w :: CountUsing(c', Str(w)) <= Times(m, Occurrences(keywords[..k + 1], w))
  {
    forall w ensures CountUsing(c', Str(w)) <= Times(m, Occurrences(keywords[..k + 1], w)) {
      CountAfterKeywordAt(keywords, k, CountUsing(c, Str(w)), CountUsing(c', Str(w)), |c'| - |c|, m, w);
    }
  }

  lemma CountAfterKeywordAt(keywords: seq<string>, k: nat, before: nat, after: nat, added: nat, m: nat, w: string)
    requires k < |keywords| && added <= m
    requires after == before + (if Str(w) == Str(keywords[k]) then added else 0)
    requires before <= Times(m, Occurrences(keywords[..k], w))
    ensures after <= Times(m, Occurrences(keywords[..k + 1], w))
  {
    var pre, pre' := keywords[..k], keywords[..k + 1];
    assert pre'[..|pre'| - 1] == pre && pre'[|pre'| - 1] == keywords[k];
    var o := Occurrences(pre, w);
    if w == keywords[k] {
      assert Occurrences(pre', w) == o + 1;
    } else {
      assert Occurrences(pre', w) == o;
    }
  }

  /** `collect_sources_for_field(field_name, field_config, target)`, where
      `responses[k]` are the result pages the search for `keywords[k]`
      receives and `clock(n)` is the timestamp of the `n`-th kept paper. */
  method CollectSourcesForField(
    fieldName: string, keywords: seq<string>, target: int, responses: seq<seq<seq<Record>>>,
    clock: nat -> string, idOf: IdFunction, classify: Classifier, reprOf: Json -> string)
    returns (r: Result<seq<Record>>)
    ensures |keywords| == 0 ==> r == Err(ZeroDivisionError)
    ensures r.Ok? ==> |keywords| > 0 && CollectionGuarantees(fieldName, keywords, target, r.value, reprOf)
    ensures r.Ok? ==> SearchesKept(fieldName, keywords, target / |keywords|, responses, |keywords|,
                                   r.value, IdsOf(r.value), idOf, classify, reprOf)
    ensures r.Err? && |keywords| > 0 ==>
      exists k :: 0 <= k < |keywords| && PagesUnreadable(PagesFor(responses, k), idOf, classify)
  {
    var perResult := PapersPerKeyword(target, |keywords|);
    if perResult.Err? {
      return Err(perResult.error);
    }
    var done := CollectKeywords(fieldName, keywords, perResult.value, Cap(target, |keywords|), responses, clock, idOf, classify, reprOf);
    if done.Err? {
      return Err(done.error);
    }
    Guarantees(fieldName, keywords, target, done.value.0, done.value.1, reprOf);
    assert done.value.1 == IdsOf(done.value.0);
    return Ok(done.value.0);
  }

  /** The ids of the collected records: `seen_paper_ids` at the end. */
  function IdsOf(c: seq<Record>): set<string> {
    set x | x in PaperIds(c)
  }

  /** The loop over the keywords, each searched with its pages and kept to
      `per` papers, which is `m` when not negative. */
  method CollectKeywords(
    fieldName: string, keywords: seq<string>, per: int, ghost m: nat, responses: seq<seq<seq<Record>>>,
    clock: nat -> string, idOf: IdFunction, classify: Classifier, reprOf: Json -> string)
    returns (r: Result<(seq<Record>, set<string>)>)
    requires Max0(per) == m
    ensures r.Ok? ==> KeywordsDone(fieldName, keywords, |keywords|, m, r.value.0, r.value.1, reprOf)
    ensures r.Ok? ==> SearchesKept(fieldName, keywords, per, responses, |keywords|, r.value.0, r.value.1, idOf, classify, reprOf)
    ensures r.Err? ==> exists k :: 0 <= k < |keywords| && PagesUnreadable(PagesFor(responses, k), idOf, classify)
  {
    var c: seq<Record> := [];
    var s: set<string> := {};
    var k := 0;
    while k < |keywords|
      invariant 0 <= k <= |keywords|
      invariant KeywordsDone(fieldName, keywords, k, m, c, s, reprOf)
      invariant SearchesKept(fieldName, keywords, per, responses, k, c, s, idOf, classify, reprOf)
    {
      var step := SearchKeyword(fieldName, keywords, per, m, responses, k, c, s, clock, idOf, classify, reprOf);
      if step.Err? {
        return Err(step.error);
      }
      c, s := step.value.0, step.value.1;
      k := k + 1;
    }
    return Ok((c, s));
  }

  /** One pass of that loop: the search for `keywords[k]`. */
  method SearchKeyword(
    fieldName: string, keywords: seq<string>, per: int, ghost m: nat, responses: seq<seq<seq<Record>>>,
    k: nat, c: seq<Record>, s: set<string>,
    clock: nat -> string, idOf: IdFunction, classify: Classifier, reprOf: Json -> string)
    returns (r: Result<(seq<Record>, set<string>)>)
    requires Max0(per) == m && k < |keywords|
    requires KeywordsDone(fieldName, keywords, k, m, c, s, reprOf)
    requires SearchesKept(fieldName, keywords, per, responses, k, c, s, idOf, classify, reprOf)
    ensures r.Ok? ==> KeywordsDone(fieldName, keywords, k + 1, m, r.value.0, r.value.1, reprOf)
    ensures r.Ok? ==> SearchesKept(fieldName, keywords, per, responses, k + 1, r.value.0, r.value.1, idOf, classify, reprOf)
    ensures r.Err? ==> PagesUnreadable(PagesFor(responses, k), idOf, classify)
  {
    var step := CollectForKeyword(fieldName, keywords, keywords[k], per, PagesFor(responses, k), c, s, clock, idOf, classify, reprOf);
    if step.Err? {
      return Err(step.error);
    }
    KeywordDone(fieldName, keywords, k, m, c, s, step.value.0, step.value.1, reprOf);
    SearchesKeptStep(fieldName, keywords, per, responses, k, c, s, step.value.0, step.value.1, idOf, classify, reprOf);
    return step;
  }

  /** For each of the first `n` keywords whose count in `c` is below
      `per`, every acceptable result of its pages was kept. */
  ghost predicate SearchesKept(fieldName: string, keywords: seq<string>, per: int, responses: seq<seq<seq<Record>>>,
                               n: nat, c: seq<Record>, seen: set<string>, idOf: IdFunction, classify: Classifier, reprOf: Json -> string)
    requires n <= |keywords|
  {
    forall k :: 0 <= k < n && CountUsing(c, Str(keywords[k])) < per ==>
      PagesKept(fieldName, keywords, PagesFor(responses, k), MaxPages, seen, idOf, classify, reprOf)
  }

  /** A keyword's count only grows, and it includes what the keyword's own
      search added; so a keyword below the cap at the end was below it
      when its search ended. */
  lemma SearchesKeptStep(fieldName: string, keywords: seq<string>, per: int, responses: seq<seq<seq<Record>>>,
                         k: nat, c: seq<Record>, s: set<string>, c': seq<Record>, s': set<string>,
                         idOf: IdFunction, classify: Classifier, reprOf: Json -> string)
    requires k < |keywords| && s <= s'
    requires SearchesKept(fieldName, keywords, per, responses, k, c, s, idOf, classify, reprOf)
    requires KeptFor(keywords[k], c, c')
    requires |c'| - |c| < per ==> PagesKept(fieldName, keywords, PagesFor(responses, k), MaxPages, s', idOf, classify, reprOf)
    ensures SearchesKept(fieldName, keywords, per, responses, k + 1, c', s', idOf, classify, reprOf)
  {
    forall i | 0 <= i < k + 1 && CountUsing(c', Str(keywords[i])) < per
      ensures PagesKept(fieldName, keywords, PagesFor(responses, i), MaxPages, s', idOf, classify, reprOf)
    {
      assert CountUsing(c', Str(keywords[i])) >= CountUsing(c, Str(keywords[i]));
      if i == k {
        assert CountUsing(c', Str(keywords[k])) >= |c'| - |c|;
      }
    }
  }

  /** The state after the searches for the first `k` keywords, each kept
      to at most `m` papers. */
  ghost predicate KeywordsDone(fieldName: string, keywords: seq<string>, k: nat, m: nat,
                               c: seq<Record>, s: set<string>, reprOf: Json -> string)
    requires k <= |keywords|
  {
    && Collected(fieldName, keywords, c, s, reprOf)
    && (forall i :: 0 <= i < |c| ==> c[i].Keys == RecordKeys)
    && Counted(keywords[..k], m, c)
  }

  ghost predicate Counted(done: seq<string>, m: nat, c: seq<Record>) {
    (forall w :: CountUsing(c, Str(w)) <= Times(m, Occurrences(done, w)))
    && |c| <= Times(m, |done|)
  }

  lemma KeywordDone(fieldName: string, keywords: seq<string>, k: nat, m: nat, c: seq<Record>, s: set<string>,
                    c': seq<Record>, s': set<string>, reprOf: Json -> string)
    requires k < |keywords|
    requires KeywordsDone(fieldName, keywords, k, m, c, s, reprOf)
    requires Extends(fieldName, keywords, keywords[k], c, c', s', reprOf) && |c'| - |c| <= m
    ensures KeywordsDone(fieldName, keywords, k + 1, m, c', s', reprOf)
  {
    CountAfterKeyword(keywords, k, c, c', m);
  }

  lemma Guarantees(fieldName: string, keywords: seq<string>, target: int, c: seq<Record>, seen: set<string>, reprOf: Json -> string)
    requires |keywords| > 0
    requires KeywordsDone(fieldName, keywords, |keywords|, Cap(target, |keywords|), c, seen, reprOf)
    ensures CollectionGuarantees(fieldName, keywords, target, c, reprOf)
  {
    assert keywords[..|keywords|] == keywords;
    CollectedIdsDistinct(fieldName, keywords, c, seen, reprOf);
    CapPerKeyword(keywords, c, Cap(target, |keywords|));
    TotalWithinTarget(|keywords|, target, |c|);
  }

  /** With distinct keywords each keyword's count stays within the cap. */
  lemma CapPerKeyword(keywords: seq<string>, c: seq<Record>, m: nat)
    requires forall w :: CountUsing(c, Str(w)) <= Times(m, Occurrences(keywords, w))
    ensures NoDup(keywords) ==> forall w :: w in keywords ==> CountUsing(c, Str(w)) <= m
  {
    if NoDup(keywords) {
      forall w | w in keywords ensures CountUsing(c, Str(w)) <= m {
        OccurrencesOfNoDup(keywords, w);
        assert Times(m, Occurrences(keywords, w)) == Times(m, 0) + m;
      }
    }
  }

  /** `m * o` as repeated addition, which keeps the bounds linear. */
  function Times(m: nat, o: nat): nat {
    if o == 0 then 0 else Times(m, o - 1) + m
  }

  lemma {:induction false} TimesIsProduct(m: nat, o: nat)
    ensures Times(m, o) == m * o
  {
    if o > 0 {
      TimesIsProduct(m, o - 1);
    }
  }

  lemma TotalWithinTarget(n: nat, target: int, total: nat)
    requires n > 0 && total <= Times(Cap(target, n), n)
    ensures target >= 0 ==> total <= target
  {
    TimesIsProduct(Cap(target, n), n);
    if target >= 0 {
      assert n * (target / n) <= target;
    }
  }

  lemma CollectedIdsDistinct(fieldName: string, keywords: seq<string>, c: seq<Record>, seen: set<string>, reprOf: Json -> string)
    requires Collected(fieldName, keywords, c, seen, reprOf)
    ensures forall i, j :: 0 <= i < j < |c| ==> c[i]["paper_id"] != c[j]["paper_id"]
  {
    forall i, j | 0 <= i < j < |c| ensures c[i]["paper_id"] != c[j]["paper_id"] {
      assert PaperIds(c)[i] != PaperIds(c)[j];
    }
  }

  /** `main`'s collection loop: every configured field is collected with
      `TargetCount`, `responses[f]` holding the pages of field `f`'s searches
      and `clock(f, n)` being the time its `n`-th paper is collected. */
  method CollectAllFields(
    responses: seq<seq<seq<seq<Record>>>>,
    clock: (nat, nat) -> string, md5: string -> HexDigest, reprOf: Json -> string)
    returns (r: Result<map<string, seq<Record>>>)
    ensures r.Ok? ==> r.value.Keys == Names(AcademicFields)
    ensures r.Ok? ==> forall j :: 0 <= j < |AcademicFields| ==>
      var f := AcademicFields[j];
      f.name in r.value && |f.keywords| > 0
      && CollectionGuarantees(f.name, f.keywords, TargetCount, r.value[f.name], reprOf)
    ensures r.Ok? ==> FieldsCollected(AcademicFields, |AcademicFields|, TargetCount, responses, r.value,
                                      IdOf(md5, reprOf), ClassifyBy(AcademicFields, reprOf), reprOf)
    ensures r.Err? ==> SomeFieldRaised(AcademicFields, responses, IdOf(md5, reprOf), ClassifyBy(AcademicFields, reprOf))
  {
    AcademicFieldsDistinct();
    r := CollectFields(AcademicFields, TargetCount, responses, clock, md5, reprOf);
  }

  /** The loop over a field table whose names are distinct, as the keys of
      a dict are. */
  method CollectFields(
    fields: seq<FieldConfig>, target: int, responses: seq<seq<seq<seq<Record>>>>,
    clock: (nat, nat) -> string, md5: string -> HexDigest, reprOf: Json -> string)
    returns (r: Result<map<string, seq<Record>>>)
    requires DistinctNames(fields)
    ensures r.Ok? ==> r.value.Keys == Names(fields)
    ensures r.Ok? ==> forall j :: 0 <= j < |fields| ==>
      fields[j].name in r.value && |fields[j].keywords| > 0
      && CollectionGuarantees(fields[j].name, fields[j].keywords, target, r.value[fields[j].name], reprOf)
    ensures r.Ok? ==> FieldsCollected(fields, |fields|, target, responses, r.value,
                                      IdOf(md5, reprOf), ClassifyBy(fields, reprOf), reprOf)
    ensures r.Err? ==> SomeFieldRaised(fields, responses, IdOf(md5, reprOf), ClassifyBy(fields, reprOf))
  {
    var idOf := IdOf(md5, reprOf);
    var classify := ClassifyBy(fields, reprOf);
    var all: map<string, seq<Record>> := map[];
    var i := 0;
    while i < |fields|
      invariant 0 <= i <= |fields|
      invariant all.Keys == Names(fields[..i])
      invariant FieldsGuaranteed(fields, i, target, all, reprOf)
      invariant FieldsCollected(fields, i, target, responses, all, idOf, classify, reprOf)
    {
      var next := CollectNextField(fields, i, target, responses, all, clock, idOf, classify, reprOf);
      if next.Err? {
        return Err(next.error);
      }
      all := next.value;
      i := i + 1;
    }
    assert fields[..i] == fields;
    return Ok(all);
  }

  /** One pass of that loop: field `i` is collected and stored under its
      name, leaving the earlier fields' entries as they were. */
  method CollectNextField(
    fields: seq<FieldConfig>, i: nat, target: int, responses: seq<seq<seq<seq<Record>>>>,
    all: map<string, seq<Record>>, clock: (nat, nat) -> string, idOf: IdFunction, classify: Classifier, reprOf: Json -> string)
    returns (r: Result<map<string, seq<Record>>>)
    requires DistinctNames(fields) && i < |fields|
    requires all.Keys == Names(fields[..i])
    requires FieldsGuaranteed(fields, i, target, all, reprOf)
    requires FieldsCollected(fields, i, target, responses, all, idOf, classify, reprOf)
    ensures r.Ok? ==> r.value.Keys == Names(fields[..i + 1])
    ensures r.Ok? ==> FieldsGuaranteed(fields, i + 1, target, r.value, reprOf)
    ensures r.Ok? ==> FieldsCollected(fields, i + 1, target, responses, r.value, idOf, classify, reprOf)
    ensures r.Err? ==> FieldRaised(fields[i], FieldPages(responses, i), idOf, classify)
  {
    var f := fields[i];
    var c := CollectField(f, target, FieldPages(responses, i), (n: nat) => clock(i, n), idOf, classify, reprOf);
    if c.Err? {
      return Err(c.error);
    }
    NamesOfPrefix(fields, i);
    GuaranteedStored(fields, i, target, all, c.value, reprOf);
    CollectedStored(fields, i, target, responses, all, c.value, idOf, classify, reprOf);
    return Ok(all[f.name := c.value]);
  }

  /** Storing field `i` under its own name keeps the entries of the
      earlier fields, whose names differ. */
  lemma GuaranteedStored(fields: seq<FieldConfig>, i: nat, target: int, all: map<string, seq<Record>>,
                         c: seq<Record>, reprOf: Json -> string)
    requires DistinctNames(fields) && i < |fields|
    requires FieldsGuaranteed(fields, i, target, all, reprOf)
    requires |fields[i].keywords| > 0 && CollectionGuarantees(fields[i].name, fields[i].keywords, target, c, reprOf)
    ensures FieldsGuaranteed(fields, i + 1, target, all[fields[i].name := c], reprOf)
  {
    var all' := all[fields[i].name := c];
    forall j | 0 <= j < i + 1
      ensures fields[j].name in all' && |fields[j].keywords| > 0
        && CollectionGuarantees(fields[j].name, fields[j].keywords, target, all'[fields[j].name], reprOf)
    {
      if j < i {
        assert fields[j].name != fields[i].name;
        assert all'[fields[j].name] == all[fields[j].name];
      }
    }
  }

  lemma CollectedStored(fields: seq<FieldConfig>, i: nat, target: int, responses: seq<seq<seq<seq<Record>>>>,
                        all: map<string, seq<Record>>, c: seq<Record>, idOf: IdFunction, classify: Classifier, reprOf: Json -> string)
    requires DistinctNames(fields) && i < |fields|
    requires FieldsCollected(fields, i, target, responses, all, idOf, classify, reprOf)
    requires FieldCollected(fields[i], target, FieldPages(responses, i), c, idOf, classify, reprOf)
    ensures FieldsCollected(fields, i + 1, target, responses, all[fields[i].name := c], idOf, classify, reprOf)
  {
    var all' := all[fields[i].name := c];
    forall j | 0 <= j < i + 1
      ensures fields[j].name in all' && FieldCollected(fields[j], target, FieldPages(responses, j), all'[fields[j].name], idOf, classify, reprOf)
    {
      if j < i {
        assert fields[j].name != fields[i].name;
        assert all'[fields[j].name] == all[fields[j].name];
      }
    }
  }

  /** The first `n` fields are stored with the guarantees of their collections. */
  ghost predicate FieldsGuaranteed(fields: seq<FieldConfig>, n: nat, target: int, all: map<string, seq<Record>>, reprOf: Json -> string)
    requires n <= |fields|
  {
    forall j :: 0 <= j < n ==>
      fields[j].name in all && |fields[j].keywords| > 0
      && CollectionGuarantees(fields[j].name, fields[j].keywords, target, all[fields[j].name], reprOf)
  }

  /** The first `n` fields are stored with what their searches kept. */
  ghost predicate FieldsCollected(fields: seq<FieldConfig>, n: nat, target: int, responses: seq<seq<seq<seq<Record>>>>,
                                  all: map<string, seq<Record>>, idOf: IdFunction, classify: Classifier, reprOf: Json -> string)
    requires n <= |fields|
  {
    forall j :: 0 <= j < n ==>
      fields[j].name in all && FieldCollected(fields[j], target, FieldPages(responses, j), all[fields[j].name], idOf, classify, reprOf)
  }

  /** Some field's collection raises. */
  ghost predicate SomeFieldRaised(fields: seq<FieldConfig>, responses: seq<seq<seq<seq<Record>>>>, idOf: IdFunction, classify: Classifier) {
    exists j :: 0 <= j < |fields| && FieldRaised(fields[j], FieldPages(responses, j), idOf, classify)
  }

  /** One field of `main`'s loop, with the guarantees the loop keeps. */
  method CollectField(
    f: FieldConfig, target: int, responses: seq<seq<seq<Record>>>, clock: nat -> string,
    idOf: IdFunction, classify: Classifier, reprOf: Json -> string)
    returns (r: Result<seq<Record>>)
    ensures |f.keywords| == 0 ==> r == Err(ZeroDivisionError)
    ensures r.Ok? ==> |f.keywords| > 0 && CollectionGuarantees(f.name, f.keywords, target, r.value, reprOf)
    ensures r.Ok? ==> FieldCollected(f, target, responses, r.value, idOf, classify, reprOf)
    ensures r.Err? ==> FieldRaised(f, responses, idOf, classify)
  {
    r := CollectSourcesForField(f.name, f.keywords, target, responses, clock, idOf, classify, reprOf);
  }

  /** The pages of field `j`'s keyword searches. */
  function FieldPages(responses: seq<seq<seq<seq<Record>>>>, j: nat): seq<seq<seq<Record>>> {
    if j < |responses| then responses[j] else []
  }

  /** `create_paper_id`, with its hash function. */
  function IdOf(md5: string -> HexDigest, reprOf: Json -> string): IdFunction {
    (paper: Record) => PaperId(paper, md5, reprOf)
  }

  /** `detect_field_from_content` over the field table `fields`. */
  function ClassifyBy(fields: seq<FieldConfig>, reprOf: Json -> string): Classifier {
    (paper: Record) => DetectField(paper, fields, reprOf)
  }

  /** A field's collection keeps every acceptable result of each keyword
      that ends below `target // len(keywords)`; `seen_paper_ids` is then
      the set of its ids. */
  ghost predicate FieldCollected(f: FieldConfig, target: int, responses: seq<seq<seq<Record>>>, c: seq<Record>,
                                 idOf: IdFunction, classify: Classifier, reprOf: Json -> string) {
    |f.keywords| > 0
    && SearchesKept(f.name, f.keywords, target / |f.keywords|, responses, |f.keywords|, c, IdsOf(c), idOf, classify, reprOf)
  }

  /** Why collecting a field raises: it has no keywords, or some result on
      one keyword's pages cannot be read. */
  ghost predicate FieldRaised(f: FieldConfig, responses: seq<seq<seq<Record>>>, idOf: IdFunction, classify: Classifier) {
    |f.keywords| == 0
    || exists k :: 0 <= k < |f.keywords| && PagesUnreadable(PagesFor(responses, k), idOf, classify)
  }

  lemma NamesOfPrefix(fields: seq<FieldConfig>, i: nat)
    requires i < |fields|
    ensures Names(fields[..i + 1]) == Names(fields[..i]) + {fields[i].name}
  {
    assert fields[..i + 1] == fields[..i] + [fields[i]];
    NamesConcat(fields[..i], [fields[i]]);
  }
}
