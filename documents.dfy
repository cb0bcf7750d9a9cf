/**
 * The documents a retriever returns and the citation string the retrieve step
 * derives from each document's metadata.
 */
module Documents {
  import opened Wrappers
  import opened Decimal

  /**
   * The value stored under the `page` metadata key. Python's `isinstance(page, int)`
   * holds for `int` and for `bool` (a subclass of `int`, with True == 1); every other
   * value (a string, a float, None, ...) is `OtherPage`, carried as its text.
   */
  datatype PageValue = IntPage(n: int) | BoolPage(b: bool) | OtherPage(text: string)

  /** The two metadata keys the retrieve step looks up; `None` is a missing key. */
  datatype Metadata = Metadata(page: Option<PageValue>, source: Option<string>)

  /** A retrieved document: its text and its metadata. */
  datatype Doc = Doc(pageContent: string, metadata: Metadata)

  /** The default of both metadata lookups. */
  const Unknown: string := "Unbekannt"

  const PagePrefix: string := "Seite "
  const SourcePrefix: string := "Quelle: "

  /** The integer value of a page, when Python regards it as an `int`. */
  function PageNumber(v: PageValue): (r: Option<int>) {
    match v
    case IntPage(n) => Some(n)
    case BoolPage(b) => Some(if b then 1 else 0)
    case OtherPage(_) => None
  }

  /**
   * The citation for one document: "Seite <page+1>" for an integer page (stored
   * pages are 0-based), otherwise "Quelle: <source>". A missing `page` is the string
   * "Unbekannt", hence not an integer; a missing `source` is "Unbekannt".
   */
  function CitationOf(m: Metadata): (r: string) {
    var page := m.page.GetOr(OtherPage(Unknown));
    var source := m.source.GetOr(Unknown);
    match PageNumber(page)
    case Some(p) => PagePrefix + DecimalString(p + 1)
    case None => SourcePrefix + source
  }

  /** What a citation string says: a 1-based page, a source name, or neither. */
  datatype CitedAs = Page(number: int) | Source(name: string) | Unrecognised

  /** Reads a citation string back. */
  function ParseCitation(c: string): (r: CitedAs) {
    if |c| >= |PagePrefix| && c[..|PagePrefix|] == PagePrefix && ParseInt(c[|PagePrefix|..]).Some? then
      Page(ParseInt(c[|PagePrefix|..]).value)
    else if |c| >= |SourcePrefix| && c[..|SourcePrefix|] == SourcePrefix then
      Source(c[|SourcePrefix|..])
    else
      Unrecognised
  }

  /** What the citation of a document with metadata `m` is meant to say. */
  function Intended(m: Metadata): (r: CitedAs) {
    match m.page
    case Some(IntPage(p)) => Page(p + 1)
    case Some(BoolPage(b)) => Page(if b then 2 else 1)
    case Some(OtherPage(_)) => Source(m.source.GetOr(Unknown))
    case None => Source(m.source.GetOr(Unknown))
  }

  /** Every citation reads back as exactly what it is meant to say. */
  lemma CitationRoundTrip(m: Metadata)
    ensures ParseCitation(CitationOf(m)) == Intended(m)
  {
    var c := CitationOf(m);
    var page := m.page.GetOr(OtherPage(Unknown));
    match PageNumber(page)
    case Some(p) =>
      assert c[..|PagePrefix|] == PagePrefix;
      assert c[|PagePrefix|..] == DecimalString(p + 1);
      DecimalStringParse(p + 1, DecimalString(p + 1));
    case None =>
      assert c[0] != PagePrefix[0];
      assert c[..|SourcePrefix|] == SourcePrefix;
      assert c[|SourcePrefix|..] == m.source.GetOr(Unknown);
  }

  /** Two documents with integer pages get the same citation exactly when their pages agree. */
  lemma PageCitationsDistinguishPages(m1: Metadata, m2: Metadata, p1: int, p2: int)
    requires m1.page == Some(IntPage(p1)) && m2.page == Some(IntPage(p2))
    ensures CitationOf(m1) == CitationOf(m2) <==> p1 == p2
  {
    CitationRoundTrip(m1);
    CitationRoundTrip(m2);
  }

  /** A page citation never reads as a source citation, whatever the source is called. */
  lemma PageAndSourceCitationsDiffer(m1: Metadata, m2: Metadata)
    requires PageNumber(m1.page.GetOr(OtherPage(Unknown))).Some?
    requires PageNumber(m2.page.GetOr(OtherPage(Unknown))).None?
    ensures CitationOf(m1) != CitationOf(m2)
  {
    CitationRoundTrip(m1);
    CitationRoundTrip(m2);
  }

  /** Concrete citations: a 0-based page 1 is cited as page 2; missing keys fall back to "Unbekannt". */
  lemma CitationExamples()
    ensures CitationOf(Metadata(Some(IntPage(1)), Some("a.pdf"))) == "Seite 2"
    ensures CitationOf(Metadata(Some(IntPage(-1)), None)) == "Seite 0"
    ensures CitationOf(Metadata(Some(BoolPage(true)), None)) == "Seite 2"
    ensures CitationOf(Metadata(Some(OtherPage("iv")), Some("a.pdf"))) == "Quelle: a.pdf"
    ensures CitationOf(Metadata(None, Some("a.pdf"))) == "Quelle: a.pdf"
    ensures CitationOf(Metadata(None, None)) == "Quelle: Unbekannt"
  {
  }

  /** The `page_content` of each document, in order. */
  function Contexts(docs: seq<Doc>): (r: seq<string>)
    ensures |r| == |docs|
    ensures forall i :: 0 <= i < |docs| ==> r[i] == docs[i].pageContent
  {
    seq(|docs|, i requires 0 <= i < |docs| => docs[i].pageContent)
  }

  /** The citations of the documents, in order: the list the retrieve loop appends to. */
  function Citations(docs: seq<Doc>): (r: seq<string>)
    ensures |r| == |docs|
    ensures forall i :: 0 <= i < |docs| ==> r[i] == CitationOf(docs[i].metadata)
    decreases |docs|
  {
    if docs == [] then [] else Citations(docs[..|docs| - 1]) + [CitationOf(docs[|docs| - 1].metadata)]
  }
}
