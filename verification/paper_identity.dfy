/** The duplicate-detection identifier of a CORE search result (`create_paper_id`). */
module PaperIdentity {
  import opened Wrappers
  import opened Text
  import opened JsonValue

  predicate IsHexDigit(c: char) {
    '0' <= c <= '9' || 'a' <= c <= 'f'
  }

  /** What `hashlib.md5(content.encode()).hexdigest()` returns: 32 lower-case hex digits. */
  type HexDigest = s: string | |s| == 32 && forall i :: 0 <= i < |s| ==> IsHexDigit(s[i])
    witness "00000000000000000000000000000000"

  /** How many hex digits of the digest the identifier keeps. */
  const HashLength := 16

  /** `s.lower().strip()`. */
  function Normalize(s: string): string {
    Strip(Lower(s))
  }

  /** Case and surrounding whitespace do not survive normalisation. */
  lemma NormalizeIgnoresCaseAndPadding(w1: string, s: string, w2: string, t: string)
    requires AllSpace(w1) && AllSpace(w2) && Lower(s) == Lower(t)
    ensures Normalize(w1 + s + w2) == Normalize(t)
  {
    LowerConcat(w1 + s, w2);
    LowerConcat(w1, s);
    LowerOfSpace(w1);
    LowerOfSpace(w2);
    StripIgnoresPadding(w1, Lower(s), w2);
  }

  /** `paper.get('title', '').lower().strip()`. */
  function NormalizedTitle(paper: Record): Result<string> {
    NormalizedText(GetOr(paper, "title", Str("")))
  }

  /** `v.lower().strip()`, which only a string survives. */
  function NormalizedText(v: Json): Result<string> {
    match v
    case Str(t) => Ok(Normalize(t))
    case _ => Err(AttributeError)
  }

  /** The first author's `name` lower-cased and stripped, or `''` when the
      paper has no authors. A non-list `authors` fails the way Python does:
      a string's first character has no `get`, a dict has no key 0, a number
      has no length. */
  function FirstAuthor(paper: Record): Result<string> {
    FirstAuthorOf(Get(paper, "authors"))
  }

  function FirstAuthorOf(authors: Json): Result<string> {
    if !Truthy(authors) then Ok("")
    else
      match authors
      case Array(xs) =>
        (match xs[0]
         case Object(author) => NormalizedText(GetOr(author, "name", Str("")))
         case _ => Err(AttributeError))
      case Str(_) => Err(AttributeError)
      case Object(_) => Err(KeyError)
      case _ => Err(TypeError)
  }

  /** The text that is hashed: `f"{title}|{first_author}"`. */
  function HashContent(paper: Record): Result<string> {
    var title :- NormalizedTitle(paper);
    var author :- FirstAuthor(paper);
    Ok(title + "|" + author)
  }

  /** `create_paper_id(paper)`: the CORE id if truthy, else the DOI if truthy,
      else 16 hex digits of the MD5 of the normalised title and first author. */
  function PaperId(paper: Record, md5: string -> HexDigest, reprOf: Json -> string): (r: Result<string>)
    ensures Truthy(Get(paper, "id")) ==> r == Ok("core_" + PyStr(paper["id"], reprOf))
    ensures !Truthy(Get(paper, "id")) && Truthy(Get(paper, "doi")) ==> r == Ok("doi_" + PyStr(paper["doi"], reprOf))
    ensures r.Err? ==>
      !Truthy(Get(paper, "id")) && !Truthy(Get(paper, "doi")) && HashContent(paper).Err? && r == Err(HashContent(paper).error)
    ensures !Truthy(Get(paper, "id")) && !Truthy(Get(paper, "doi")) ==> (r.Err? <==> HashContent(paper).Err?)
    ensures !Truthy(Get(paper, "id")) && !Truthy(Get(paper, "doi")) && r.Ok? ==>
      r.value == "hash_" + md5(HashContent(paper).value)[..HashLength]
    ensures !Truthy(Get(paper, "id")) && !Truthy(Get(paper, "doi")) && r.Ok? ==>
      |r.value| == 5 + HashLength && r.value[..5] == "hash_"
      && (forall i :: 5 <= i < |r.value| ==> IsHexDigit(r.value[i]))
  {
    if Truthy(Get(paper, "id")) then
      Ok("core_" + PyStr(paper["id"], reprOf))
    else if Truthy(Get(paper, "doi")) then
      Ok("doi_" + PyStr(paper["doi"], reprOf))
    else
      var content :- HashContent(paper);
      var digest := md5(content);
      Ok("hash_" + digest[..HashLength])
  }

  /** Papers without id or DOI whose titles differ only in case and
      surrounding whitespace get the same identifier. */
  lemma HashIdIgnoresTitleCaseAndPadding(
    paper: Record, w1: string, variant: string, w2: string,
    md5: string -> HexDigest, reprOf: Json -> string)
    requires !Truthy(Get(paper, "id")) && !Truthy(Get(paper, "doi"))
    requires "title" in paper && paper["title"].Str? && Lower(variant) == Lower(paper["title"].s)
    requires AllSpace(w1) && AllSpace(w2)
    ensures PaperId(paper["title" := Str(w1 + variant + w2)], md5, reprOf) == PaperId(paper, md5, reprOf)
  {
    var other := paper["title" := Str(w1 + variant + w2)];
    NormalizeIgnoresCaseAndPadding(w1, variant, w2, paper["title"].s);
    RetitledHash(paper, w1 + variant + w2);
    PaperIdDeterminedByHash(other, paper, md5, reprOf);
  }

  /** A new title with the same normalisation leaves the hashed text as it was. */
  lemma RetitledHash(paper: Record, t: string)
    requires "title" in paper && paper["title"].Str? && Normalize(t) == Normalize(paper["title"].s)
    ensures HashContent(paper["title" := Str(t)]) == HashContent(paper)
    ensures Get(paper["title" := Str(t)], "id") == Get(paper, "id")
    ensures Get(paper["title" := Str(t)], "doi") == Get(paper, "doi")
  {
    var other := paper["title" := Str(t)];
    RetitledTitle(paper, t);
    RetitledKeeps(paper, t);
    HashContentDeterminedBy(other, paper);
  }

  lemma RetitledTitle(paper: Record, t: string)
    requires "title" in paper && paper["title"].Str? && Normalize(t) == Normalize(paper["title"].s)
    ensures NormalizedTitle(paper["title" := Str(t)]) == NormalizedTitle(paper)
  {
    assert GetOr(paper["title" := Str(t)], "title", Str("")) == Str(t);
  }

  lemma RetitledKeeps(paper: Record, t: string)
    ensures Get(paper["title" := Str(t)], "id") == Get(paper, "id")
    ensures Get(paper["title" := Str(t)], "doi") == Get(paper, "doi")
    ensures Get(paper["title" := Str(t)], "authors") == Get(paper, "authors")
  {
  }

  lemma HashContentDeterminedBy(a: Record, b: Record)
    requires NormalizedTitle(a) == NormalizedTitle(b) && Get(a, "authors") == Get(b, "authors")
    ensures HashContent(a) == HashContent(b)
  {
  }

  /** Without id and DOI the identifier depends only on the hashed text. */
  lemma PaperIdDeterminedByHash(a: Record, b: Record, md5: string -> HexDigest, reprOf: Json -> string)
    requires !Truthy(Get(a, "id")) && !Truthy(Get(a, "doi"))
    requires !Truthy(Get(b, "id")) && !Truthy(Get(b, "doi"))
    requires HashContent(a) == HashContent(b)
    ensures PaperId(a, md5, reprOf) == PaperId(b, md5, reprOf)
  {
  }

  /** The first author's normalised name ignores case and surrounding whitespace. */
  lemma FirstAuthorIgnoresCaseAndPadding(xs: seq<Json>, w1: string, variant: string, w2: string)
    requires |xs| > 0 && xs[0].Object? && "name" in xs[0].fields && xs[0].fields["name"].Str?
    requires Lower(variant) == Lower(xs[0].fields["name"].s)
    requires AllSpace(w1) && AllSpace(w2)
    ensures FirstAuthorOf(Array(xs[0 := Object(xs[0].fields["name" := Str(w1 + variant + w2)])]))
            == FirstAuthorOf(Array(xs))
  {
    var ys := xs[0 := Object(xs[0].fields["name" := Str(w1 + variant + w2)])];
    FirstAuthorNamed(ys);
    FirstAuthorNamed(xs);
    NormalizeIgnoresCaseAndPadding(w1, variant, w2, xs[0].fields["name"].s);
  }

  /** A list whose first author has a string name yields that name, normalised. */
  lemma FirstAuthorNamed(xs: seq<Json>)
    requires |xs| > 0 && xs[0].Object? && "name" in xs[0].fields && xs[0].fields["name"].Str?
    ensures FirstAuthorOf(Array(xs)) == Ok(Normalize(xs[0].fields["name"].s))
  {
    assert Truthy(Array(xs));
  }

  /** The same for the first author's name. */
  lemma HashIdIgnoresAuthorCaseAndPadding(
    paper: Record, w1: string, variant: string, w2: string,
    md5: string -> HexDigest, reprOf: Json -> string)
    requires !Truthy(Get(paper, "id")) && !Truthy(Get(paper, "doi"))
    requires "authors" in paper && paper["authors"].Array? && |paper["authors"].items| > 0
    requires paper["authors"].items[0].Object?
    requires "name" in paper["authors"].items[0].fields
    requires paper["authors"].items[0].fields["name"].Str?
    requires Lower(variant) == Lower(paper["authors"].items[0].fields["name"].s)
    requires AllSpace(w1) && AllSpace(w2)
    ensures
      var xs := paper["authors"].items;
      var author := xs[0].fields["name" := Str(w1 + variant + w2)];
      PaperId(paper["authors" := Array(xs[0 := Object(author)])], md5, reprOf) == PaperId(paper, md5, reprOf)
  {
    var xs := paper["authors"].items;
    var author := xs[0].fields["name" := Str(w1 + variant + w2)];
    var other := paper["authors" := Array(xs[0 := Object(author)])];
    FirstAuthorIgnoresCaseAndPadding(xs, w1, variant, w2);
    assert Get(other, "id") == Get(paper, "id");
    assert Get(other, "doi") == Get(paper, "doi");
    assert GetOr(other, "title", Str("")) == GetOr(paper, "title", Str(""));
    assert FirstAuthor(other) == FirstAuthor(paper);
    assert HashContent(other) == HashContent(paper);
    PaperIdDeterminedByHash(other, paper, md5, reprOf);
  }
}
