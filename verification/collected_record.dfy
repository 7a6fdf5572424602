/** The `paper_data` record `collect_sources_for_field` builds for an
    accepted search result. */
module CollectedRecord {
  import opened Wrappers
  import opened JsonValue

  /** `[author.get('name', '') for author in paper.get('authors', [])]`:
      iterating a string or a dict yields strings, which have no `get`;
      anything else that is not a list cannot be iterated. */
  function AuthorNames(authors: Json): (r: Result<Json>)
    ensures r.Ok? ==> r.value.Array?
    ensures authors.Array? ==> (r.Ok? <==> forall i :: 0 <= i < |authors.items| ==> authors.items[i].Object?)
    ensures authors.Array? && r.Ok? ==>
      |r.value.items| == |authors.items|
      && forall i :: 0 <= i < |authors.items| ==>
           r.value.items[i] == GetOr(authors.items[i].fields, "name", Str(""))
    ensures !authors.Array? ==> (r.Ok? <==> (authors.Str? || authors.Object?) && !Truthy(authors))
  {
    match authors
    case Array(xs) =>
      var names :- AuthorNameList(xs);
      Ok(Array(names))
    case Str(s) => if |s| == 0 then Ok(Array([])) else Err(AttributeError)
    case Object(m) => if |m| == 0 then Ok(Array([])) else Err(AttributeError)
    case _ => Err(TypeError)
  }

  function AuthorNameList(xs: seq<Json>): (r: Result<seq<Json>>)
    ensures r.Ok? <==> forall i :: 0 <= i < |xs| ==> xs[i].Object?
    ensures r.Ok? ==> |r.value| == |xs| && forall i :: 0 <= i < |xs| ==> r.value[i] == GetOr(xs[i].fields, "name", Str(""))
  {
    if |xs| == 0 then Ok([])
    else
      match xs[0]
      case Object(author) =>
        var rest :- AuthorNameList(xs[1..]);
        assert forall i :: 1 <= i < |xs| ==> xs[i] == xs[1..][i - 1];
        Ok([GetOr(author, "name", Str(""))] + rest)
      case _ => Err(AttributeError)
  }

  /** The keys of a collected record. */
  const RecordKeys: set<string> := {
    "id", "paper_id", "title", "abstract", "hasAbstract", "authors", "yearPublished",
    "citationCount", "doi", "publisher", "documentType", "fieldOfStudy", "detectedField",
    "downloadUrl", "fullText", "hasFullText", "searchStrategy", "keywordUsed", "collectedAt"
  }

  function DetectedJson(d: Option<string>): Json {
    if d.Some? then Str(d.value) else Null
  }

  /** The `paper_data` record built for an accepted result. */
  function PaperData(paper: Record, pid: string, detected: Option<string>, keyword: string, collectedAt: string): (r: Result<Record>)
    ensures r.Err? <==> AuthorNames(GetOr(paper, "authors", Array([]))).Err?
    ensures r.Ok? ==> r.value.Keys == RecordKeys
    ensures r.Ok? ==> (r.value["paper_id"] == Str(pid) && r.value["keywordUsed"] == Str(keyword)
      && r.value["fieldOfStudy"] == GetOr(paper, "fieldOfStudy", Str(""))
      && r.value["detectedField"] == DetectedJson(detected))
  {
    var authors :- AuthorNames(GetOr(paper, "authors", Array([])));
    RecordOfFieldsKeys(FieldsOf(paper, pid, authors, detected, keyword, collectedAt));
    Ok(RecordOf(paper, pid, authors, detected, keyword, collectedAt))
  }

  /** The remaining derived fields of `paper_data`: the author names, the
      two presence flags, the citation count defaulting to 0, and the
      search strategy naming the keyword. */
  lemma PaperDataDerived(paper: Record, pid: string, detected: Option<string>, keyword: string, collectedAt: string)
    requires PaperData(paper, pid, detected, keyword, collectedAt).Ok?
    ensures var r := PaperData(paper, pid, detected, keyword, collectedAt).value;
      && r["authors"] == AuthorNames(GetOr(paper, "authors", Array([]))).value
      && r["hasAbstract"] == Bool(Get(paper, "abstract") != Null)
      && r["hasFullText"] == Bool(Get(paper, "fullText") != Null)
      && r["citationCount"] == GetOr(paper, "citationCount", Int(0))
      && r["searchStrategy"] == Str("Direct keyword: " + keyword)
  {
    var f := FieldsOf(paper, pid, AuthorNames(GetOr(paper, "authors", Array([]))).value, detected, keyword, collectedAt);
    FlagsStored(f);
    CountsStored(f);
  }

  /** The values copied from the search result: `id` and `yearPublished`
      default to None, `title`, `abstract`, `doi`, `publisher`,
      `documentType`, `downloadUrl` and `fullText` to `""`, and
      `collectedAt` is the timestamp given. */
  lemma PaperDataCopied(paper: Record, pid: string, detected: Option<string>, keyword: string, collectedAt: string)
    requires PaperData(paper, pid, detected, keyword, collectedAt).Ok?
    ensures var r := PaperData(paper, pid, detected, keyword, collectedAt).value;
      && r["id"] == Get(paper, "id")
      && r["yearPublished"] == Get(paper, "yearPublished")
      && r["collectedAt"] == Str(collectedAt)
      && r["title"] == GetOr(paper, "title", Str(""))
      && r["abstract"] == GetOr(paper, "abstract", Str(""))
      && r["doi"] == GetOr(paper, "doi", Str(""))
      && r["publisher"] == GetOr(paper, "publisher", Str(""))
      && r["documentType"] == GetOr(paper, "documentType", Str(""))
      && r["downloadUrl"] == GetOr(paper, "downloadUrl", Str(""))
      && r["fullText"] == GetOr(paper, "fullText", Str(""))
  {
    var f := FieldsOf(paper, pid, AuthorNames(GetOr(paper, "authors", Array([]))).value, detected, keyword, collectedAt);
    IdsStored(f);
    TextsStored(f);
    SourceStored(f);
    DocumentStored(f);
  }

  /** The values of a `paper_data` record, one per key. */
  datatype PaperFields = PaperFields(
    id: Json, title: Json, abstractText: Json, yearPublished: Json, doi: Json, publisher: Json,
    documentType: Json, downloadUrl: Json, fullText: Json, collectedAt: Json, paperId: Json,
    hasAbstract: Json, authors: Json, citationCount: Json, fieldOfStudy: Json, detectedField: Json,
    hasFullText: Json, searchStrategy: Json, keywordUsed: Json)

  /** The record holding each field under its key. */
  function RecordOfFields(f: PaperFields): (r: Record)
    ensures "fieldOfStudy" in r && r["fieldOfStudy"] == f.fieldOfStudy
    ensures "detectedField" in r && r["detectedField"] == f.detectedField
    ensures "keywordUsed" in r && r["keywordUsed"] == f.keywordUsed
    ensures "paper_id" in r && r["paper_id"] == f.paperId
  {
    map[
      "id" := f.id, "title" := f.title, "abstract" := f.abstractText, "yearPublished" := f.yearPublished,
      "doi" := f.doi, "publisher" := f.publisher, "documentType" := f.documentType,
      "downloadUrl" := f.downloadUrl, "fullText" := f.fullText, "collectedAt" := f.collectedAt,
      "hasAbstract" := f.hasAbstract, "authors" := f.authors, "citationCount" := f.citationCount,
      "hasFullText" := f.hasFullText, "searchStrategy" := f.searchStrategy,
      "fieldOfStudy" := f.fieldOfStudy, "detectedField" := f.detectedField,
      "keywordUsed" := f.keywordUsed, "paper_id" := f.paperId
    ]
  }

  /** The record has exactly the nineteen keys of `paper_data`. */
  lemma RecordOfFieldsKeys(f: PaperFields)
    ensures RecordOfFields(f).Keys == RecordKeys
  {
  }

  lemma FlagsStored(f: PaperFields)
    ensures var r := RecordOfFields(f);
      "hasAbstract" in r && r["hasAbstract"] == f.hasAbstract && "authors" in r && r["authors"] == f.authors
  {
  }

  lemma CountsStored(f: PaperFields)
    ensures var r := RecordOfFields(f);
      "citationCount" in r && r["citationCount"] == f.citationCount
      && "hasFullText" in r && r["hasFullText"] == f.hasFullText
      && "searchStrategy" in r && r["searchStrategy"] == f.searchStrategy
  {
  }

  lemma IdsStored(f: PaperFields)
    ensures var r := RecordOfFields(f);
      && "id" in r && r["id"] == f.id
      && "yearPublished" in r && r["yearPublished"] == f.yearPublished
      && "collectedAt" in r && r["collectedAt"] == f.collectedAt
  {
  }

  lemma TextsStored(f: PaperFields)
    ensures var r := RecordOfFields(f);
      && "title" in r && r["title"] == f.title
      && "abstract" in r && r["abstract"] == f.abstractText
  {
  }

  lemma SourceStored(f: PaperFields)
    ensures var r := RecordOfFields(f);
      && "doi" in r && r["doi"] == f.doi
      && "publisher" in r && r["publisher"] == f.publisher
  {
  }

  lemma DocumentStored(f: PaperFields)
    ensures var r := RecordOfFields(f);
      && "documentType" in r && r["documentType"] == f.documentType
      && "downloadUrl" in r && r["downloadUrl"] == f.downloadUrl
      && "fullText" in r && r["fullText"] == f.fullText
  {
  }

  /** The fields of the record for an accepted result. */
  function FieldsOf(paper: Record, pid: string, authors: Json, detected: Option<string>, keyword: string,
                    collectedAt: string): PaperFields {
    PaperFields(
      Get(paper, "id"),
      GetOr(paper, "title", Str("")),
      GetOr(paper, "abstract", Str("")),
      Get(paper, "yearPublished"),
      GetOr(paper, "doi", Str("")),
      GetOr(paper, "publisher", Str("")),
      GetOr(paper, "documentType", Str("")),
      GetOr(paper, "downloadUrl", Str("")),
      GetOr(paper, "fullText", Str("")),
      Str(collectedAt),
      Str(pid),
      Bool(Get(paper, "abstract") != Null),
      authors,
      GetOr(paper, "citationCount", Int(0)),
      GetOr(paper, "fieldOfStudy", Str("")),
      DetectedJson(detected),
      Bool(Get(paper, "fullText") != Null),
      Str("Direct keyword: " + keyword),
      Str(keyword))
  }

  function RecordOf(paper: Record, pid: string, authors: Json, detected: Option<string>, keyword: string,
                    collectedAt: string): Record {
    RecordOfFields(FieldsOf(paper, pid, authors, detected, keyword, collectedAt))
  }
}
