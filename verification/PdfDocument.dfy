/** The report file as a document: a reader that goes from the trailer's /Root over the catalog
    and the page tree to the page, and from there to the content stream and its font. */
module PdfDocument {
  import opened Options
  import opened Decimal
  import opened Utf8
  import opened PdfWriter
  import opened PdfReader
  import opened PdfObjects
  import opened PdfStrings
  import opened PdfContent
  import opened PdfRoundTrip

  // ---- The reader (sections 7.5.5, 7.7.2 and 7.7.3) ----

  /** The cross-reference entry a reference leads to. */
  function EntryOf(entries: seq<Entry>, r: Option<Value>): Option<Entry> {
    if r.None? || !r.value.Ref? || r.value.number >= |entries| then None
    else
      var e := entries[r.value.number];
      if e.inUse && e.generation == r.value.generation then Some(e) else None
  }

  /** The dictionary of a given type behind a reference. */
  function Follow(file: string, entries: seq<Entry>, r: Option<Value>, kind: string): Option<Value> {
    var e := EntryOf(entries, r);
    if e.None? then None
    else
      var found := ObjectAt(file, e.value.offset, r.value.number, r.value.generation);
      if found.Some? && found.value.keyword == "endobj" && Get(found.value.value, "Type") == Some(Name(kind))
      then Some(found.value.value) else None
  }

  function GetIn(v: Option<Value>, key: string): Option<Value> {
    if v.None? then None else Get(v.value, key)
  }

  /** The one page of a page tree with one leaf. */
  function OnlyKid(pages: Option<Value>): Option<Value> {
    match GetIn(pages, "Kids")
    case Some(Arr(Item(kid, NoItems))) => if GetIn(pages, "Count") == Some(Num(1)) then Some(kid) else None
    case _ => None
  }

  function EntriesOf(file: string): Option<seq<Entry>> {
    var start := FindStartXref(file);
    if start.None? then None else XrefAt(file, start.value)
  }

  /** The trailer behind the cross-reference table, if its /Size is the table's. */
  function TrailerOf(file: string): Option<Value> {
    var start := FindStartXref(file);
    if start.None? || XrefAt(file, start.value).None? then None
    else
      var trailer := TrailerAt(file, XrefEnd(file, start.value));
      if trailer.Some? && Get(trailer.value.value, "Size") == Some(Num(|XrefAt(file, start.value).value|))
      then Some(trailer.value.value) else None
  }

  function PageOf(file: string): Option<Value> {
    var entries := EntriesOf(file);
    if entries.None? then None
    else
      var catalog := Follow(file, entries.value, GetIn(TrailerOf(file), "Root"), "Catalog");
      var pages := Follow(file, entries.value, GetIn(catalog, "Pages"), "Pages");
      Follow(file, entries.value, OnlyKid(pages), "Page")
  }

  /** The bytes of the page's content stream. */
  function ReportStreamOf(file: string): Option<string> {
    var entries, contents := EntriesOf(file), GetIn(PageOf(file), "Contents");
    if entries.None? || EntryOf(entries.value, contents).None? then None
    else
      StreamAt(file, EntryOf(entries.value, contents).value.offset, contents.value.number, contents.value.generation)
  }

  /** The font that a name stands for on the page. */
  function FontOf(file: string, name: string): Option<Value> {
    var entries := EntriesOf(file);
    if entries.None? then None
    else Follow(file, entries.value, GetIn(GetIn(GetIn(PageOf(file), "Resources"), "Font"), name), "Font")
  }

  // ---- What the writer's objects say ----

  const CATALOG := Dict(Pair("Type", Name("Catalog"), Pair("Pages", Ref(2, 0), NoPairs)))
  const PAGES := Dict(Pair("Type", Name("Pages"), Pair("Kids", Arr(Item(Ref(3, 0), NoItems)),
                      Pair("Count", Num(1), NoPairs))))
  const MEDIA_BOX := Arr(Item(Num(0), Item(Num(0), Item(Num(612), Item(Num(792), NoItems)))))
  const RESOURCES := Dict(Pair("Font", Dict(Pair("F1", Ref(5, 0), NoPairs)), NoPairs))
  const PAGE := Dict(Pair("Type", Name("Page"), Pair("Parent", Ref(2, 0), Pair("MediaBox", MEDIA_BOX,
                     Pair("Contents", Ref(4, 0), Pair("Resources", RESOURCES, NoPairs))))))
  const FONT := Dict(Pair("Type", Name("Font"), Pair("Subtype", Name("Type1"),
                     Pair("BaseFont", Name("Helvetica"), NoPairs))))
  const TRAILER := Dict(Pair("Size", Num(6), Pair("Root", Ref(1, 0), NoPairs)))

  lemma SmallNumerals()
    ensures NatToString(0) == "0" && NatToString(1) == "1" && NatToString(2) == "2" && NatToString(3) == "3"
    ensures NatToString(4) == "4" && NatToString(5) == "5" && NatToString(6) == "6"
    ensures NatToString(612) == "612" && NatToString(792) == "792"
  {
    assert NatToString(612) == NatToString(61) + "2" && NatToString(61) == NatToString(6) + "1";
    assert NatToString(792) == NatToString(79) + "2" && NatToString(79) == NatToString(7) + "9";
  }

  lemma TypeText(kind: string)
    ensures "<<" + (" /" + "Type" + " " + ("/" + kind)) == "<< /Type /" + kind
  {
    assert "<<" + (" /" + "Type" + " " + "/") == "<< /Type /";
  }

  lemma ReferenceText(n: nat)
    ensures Text(Ref(n, 0)) == NatToString(n) + " 0 R"
  {
    SmallNumerals();
    assert " " + "0" + " R" == " 0 R";
  }

  lemma CatalogText()
    ensures Text(CATALOG) == ObjectBody(1, "")
  {
    SmallNumerals();
    TypeText("Catalog");
    ReferenceText(2);
    assert "<< /Type /" + "Catalog" == "<< /Type /Catalog";
    assert " /" + "Pages" + " " + ("2" + " 0 R") == " /Pages 2 0 R";
    TwoPairs("<<", " /" + "Type" + " " + ("/" + "Catalog"), " /Pages 2 0 R");
  }

  lemma TwoPairs(open: string, a: string, b: string)
    ensures open + (a + (b + " >>")) == (open + a) + b + " >>"
  {}

  lemma ThreePairs(open: string, a: string, b: string, c: string)
    ensures open + (a + (b + (c + " >>"))) == (open + a) + b + c + " >>"
  {}

  lemma FivePairs(open: string, a: string, b: string, c: string, d: string, e: string)
    ensures open + (a + (b + (c + (d + (e + " >>"))))) == (open + a) + b + c + d + e + " >>"
  {}

  lemma KidsText()
    ensures " /" + "Kids" + " " + ("[" + (Text(Ref(3, 0)) + "]")) == " /Kids [3 0 R]"
  {
    SmallNumerals();
    ReferenceText(3);
    assert "[" + ("3" + " 0 R" + "]") == "[3 0 R]";
  }

  lemma PagesText()
    ensures Text(PAGES) == ObjectBody(2, "")
  {
    SmallNumerals();
    TypeText("Pages");
    KidsText();
    assert "<< /Type /" + "Pages" == "<< /Type /Pages";
    assert " /" + "Count" + " " + "1" == " /Count 1";
    ThreePairs("<<", " /" + "Type" + " " + ("/" + "Pages"), " /Kids [3 0 R]", " /Count 1");
  }

  lemma MediaBoxText()
    ensures Text(MEDIA_BOX) == "[0 0 612 792]"
  {
    SmallNumerals();
    assert "[" + ("0" + (" " + ("0" + (" " + ("612" + (" " + ("792" + "]"))))))) == "[0 0 612 792]";
  }

  lemma ResourcesText()
    ensures Text(RESOURCES) == RESOURCE_FONTS
  {
    SmallNumerals();
    ReferenceText(5);
    assert Text(Ref(5, 0)) == FONT_REFERENCE;
    assert "<<" + (" /" + "Font" + " " + ("<<" + (" /" + "F1" + " "))) == "<< /Font << /F1 ";
    assert " >>" + " >>" == " >> >>";
    Nested("<<", " /" + "Font" + " ", "<<", " /" + "F1" + " ", FONT_REFERENCE, " >>", " >>");
  }

  lemma Nested(a: string, b: string, c: string, d: string, e: string, f: string, g: string)
    ensures a + (b + (c + (d + e + f)) + g) == a + (b + (c + d)) + e + (f + g)
  {}

  lemma PagePairs()
    ensures " /" + "Parent" + " " + Text(Ref(2, 0)) == " /Parent 2 0 R"
    ensures " /" + "Contents" + " " + Text(Ref(4, 0)) == " /Contents 4 0 R"
  {
    SmallNumerals();
    ReferenceText(2);
    ReferenceText(4);
  }

  lemma BoxPair()
    ensures " /" + "MediaBox" + " " + Text(MEDIA_BOX) == " /MediaBox " + LETTER
  {
    MediaBoxText();
    assert " /" + "MediaBox" + " " == " /MediaBox ";
  }

  lemma ResourcesPair()
    ensures " /" + "Resources" + " " + Text(RESOURCES) == " /Resources " + RESOURCE_FONTS
  {
    ResourcesText();
    assert " /" + "Resources" + " " == " /Resources ";
  }

  lemma PageText()
    ensures Text(PAGE) == ObjectBody(3, "")
  {
    TypeText("Page");
    PagePairs();
    BoxPair();
    ResourcesPair();
    assert "<< /Type /" + "Page" == "<< /Type /Page";
    FivePairs("<<", " /" + "Type" + " " + ("/" + "Page"), " /Parent 2 0 R", " /MediaBox " + LETTER,
              " /Contents 4 0 R", " /Resources " + RESOURCE_FONTS);
  }

  lemma FontText()
    ensures Text(FONT) == ObjectBody(5, "")
  {
    TypeText("Font");
    assert "<< /Type /" + "Font" == "<< /Type /Font";
    assert " /" + "Subtype" + " " + ("/" + "Type1") == " /Subtype /Type1";
    assert " /" + "BaseFont" + " " + ("/" + "Helvetica") == " /BaseFont /Helvetica";
    ThreePairs("<<", " /" + "Type" + " " + ("/" + "Font"), " /Subtype /Type1", " /BaseFont /Helvetica");
  }

  // ---- The objects of the report read back ----

  /** What the writer puts into object `number`, and the keyword behind it. */
  function Written(number: nat): Value {
    if number == 1 then CATALOG else if number == 2 then PAGES else if number == 3 then PAGE else FONT
  }

  lemma TreeNames()
    ensures PlainName("Type") && PlainName("Catalog") && PlainName("Pages") && PlainName("Kids")
    ensures PlainName("Count") && PlainName("Size") && PlainName("Root") && PlainName("Length")
  {}

  lemma PageNames()
    ensures PlainName("Page") && PlainName("Parent") && PlainName("MediaBox") && PlainName("Contents")
    ensures PlainName("Resources") && PlainName("Font") && PlainName("F1")
  {}

  lemma FontNames()
    ensures PlainName("Subtype") && PlainName("Type1") && PlainName("BaseFont") && PlainName("Helvetica")
  {}

  lemma AllPlain(number: nat)
    ensures PlainValue(Written(number)) && PlainValue(TRAILER)
  {
    TreeNames();
    PageNames();
    FontNames();
  }

  lemma BodyText(number: nat, content: string)
    requires number in {1, 2, 3, 5}
    ensures ObjectBody(number, content) == Text(Written(number))
  {
    CatalogText();
    PagesText();
    PageText();
    FontText();
  }

  function Report(content: string): string {
    Encode(FileText(HEADER, Objects(content)))
  }

  function At(content: string, number: nat): nat
    requires 1 <= number <= 6
  {
    OffsetOf(HEADER, Objects(content), number)
  }

  lemma ObjectShape(n: string, body: string)
    ensures n + " 0 obj\n" + body + "\nendobj" + "\n"
            == n + " 0 obj" + ("\n" + (body + ("\n" + ("endobj" + "\n"))))
  {
    assert " 0 obj\n" == " 0 obj" + "\n" && "\nendobj" == "\n" + "endobj";
  }

  lemma ObjectIsAscii(number: nat, content: string)
    requires number in {1, 2, 3, 5}
    ensures IsAscii(ObjectText(number, content))
  {
    BodyText(number, content);
    AllPlain(number);
    TextIsAscii(Written(number));
    NumeralIsAscii(number);
  }

  /** The four dictionaries are found at their offsets. */
  lemma DictionaryReads(content: string, number: nat)
    requires number in {1, 2, 3, 5}
    ensures ObjectAt(Report(content), At(content, number), number, 0).Some?
    ensures var found := ObjectAt(Report(content), At(content, number), number, 0).value;
            found.value == Written(number) && found.keyword == "endobj"
  {
    ObjectReadsBack(HEADER, Objects(content), number);
    ObjectIsAscii(number, content);
    EncodeAscii(ObjectText(number, content));
    BodyText(number, content);
    AllPlain(number);
    ObjectShape(NatToString(number), Text(Written(number)));
    ObjectReads(Report(content), At(content, number), number, Written(number), "endobj");
  }

  // ---- The stream object ----

  function StreamValue(length: nat): Value {
    Dict(Pair("Length", Num(length), NoPairs))
  }

  lemma StreamDictionaryText(length: nat)
    ensures Text(StreamValue(length)) == StreamDictionary(length) && PlainValue(StreamValue(length))
  {
    TreeNames();
    assert "<<" + (" /" + "Length" + " ") == "<< /Length ";
    FourParts("<<", " /" + "Length" + " ", NatToString(length), " >>");
    assert TextOfPairs(NoPairs) == " >>" && Text(Num(length)) == NatToString(length);
    assert PlainValue(Num(length)) && PlainPairs(NoPairs);
  }

  lemma FourParts(a: string, b: string, c: string, d: string)
    ensures a + (b + c + d) == (a + b) + c + d
  {}

  const STREAM_TAIL := "\nendstream\nendobj"

  function StreamHead(number: nat, length: nat): string {
    NatToString(number) + " 0 obj" + ("\n" + (StreamDictionary(length) + ("\n" + ("stream" + "\n"))))
  }

  lemma StreamShapeOf(n: string, d: string, content: string)
    ensures n + " 0 obj\n" + (d + "\nstream\n" + content + "\nendstream") + "\nendobj"
            == (n + " 0 obj" + ("\n" + (d + ("\n" + ("stream" + "\n"))))) + content + STREAM_TAIL
  {
    assert " 0 obj\n" == " 0 obj" + "\n" && "\nstream\n" == "\n" + ("stream" + "\n");
    assert STREAM_TAIL == "\nendstream" + "\nendobj";
  }

  lemma StreamTextIsAscii(number: nat, length: nat)
    ensures IsAscii(StreamHead(number, length)) && IsAscii(STREAM_TAIL)
  {
    StreamDictionaryText(length);
    TextIsAscii(StreamValue(length));
    NumeralIsAscii(number);
  }

  /** A stream object whose /Length is the number of its bytes reads back. */
  lemma StreamReadsBack(b: string, pos: nat, number: nat, data: string)
    requires StartsAt(b, pos, StreamHead(number, |data|) + data + STREAM_TAIL)
    ensures StreamAt(b, pos, number, 0) == Some(data)
  {
    var head := StreamHead(number, |data|);
    var next := pos + |NatToString(number) + " 0 obj"| + 1 + |StreamDictionary(|data|)| + 1 + |"stream"|;
    Split(b, pos, head + data, STREAM_TAIL);
    Split(b, pos, head, data);
    HeadLength(number, |data|);
    HeadFound(b, pos, number, |data|, next);
    StreamFromParts(b, pos, number, data, next);
  }

  lemma HeadFound(b: string, pos: nat, number: nat, length: nat, next: nat)
    requires StartsAt(b, pos, StreamHead(number, length))
    requires next == pos + |NatToString(number) + " 0 obj"| + 1 + |StreamDictionary(length)| + 1 + |"stream"|
    ensures ObjectAt(b, pos, number, 0) == Some(Found(StreamValue(length), "stream", next))
    ensures StartsAt(b, next, "\n")
  {
    StreamDictionaryText(length);
    ObjectReads(b, pos, number, StreamValue(length), "stream");
    LastLineEnd(b, pos, NatToString(number) + " 0 obj", StreamDictionary(length));
  }

  lemma HeadLength(number: nat, length: nat)
    ensures |StreamHead(number, length)|
            == |NatToString(number) + " 0 obj"| + 1 + |StreamDictionary(length)| + 1 + |"stream"| + 1
  {}

  lemma StreamFromParts(b: string, pos: nat, number: nat, data: string, next: nat)
    requires ObjectAt(b, pos, number, 0) == Some(Found(StreamValue(|data|), "stream", next))
    requires StartsAt(b, next, "\n") && StartsAt(b, next + 1, data) && StartsAt(b, next + 1 + |data|, STREAM_TAIL)
    ensures StreamAt(b, pos, number, 0) == Some(data)
  {
    assert Get(StreamValue(|data|), "Length") == Some(Num(|data|));
  }

  lemma LastLineEnd(b: string, pos: nat, first: string, second: string)
    requires StartsAt(b, pos, first + ("\n" + (second + ("\n" + ("stream" + "\n")))))
    ensures StartsAt(b, pos + |first| + 1 + |second| + 1 + |"stream"|, "\n")
  {
    Split(b, pos, first, "\n" + (second + ("\n" + ("stream" + "\n"))));
    Split(b, pos + |first|, "\n", second + ("\n" + ("stream" + "\n")));
    Split(b, pos + |first| + 1, second, "\n" + ("stream" + "\n"));
    Split(b, pos + |first| + 1 + |second|, "\n", "stream" + "\n");
    Split(b, pos + |first| + 1 + |second| + 1, "stream", "\n");
  }

  lemma ReportStream(content: string)
    ensures StreamAt(Report(content), At(content, 4), 4, 0) == Some(Encode(content))
  {
    var length := ByteLength(content);
    ObjectReadsBack(HEADER, Objects(content), 4);
    StreamShapeOf(NatToString(4), StreamDictionary(length), content);
    StreamTextIsAscii(4, length);
    EncodeBetween(StreamHead(4, length), content, STREAM_TAIL);
    Split(Report(content), At(content, 4), StreamHead(4, length) + Encode(content) + STREAM_TAIL, "\n");
    StreamReadsBack(Report(content), At(content, 4), 4, Encode(content));
  }

  // ---- The trailer ----

  lemma TrailerDictionaryText()
    ensures Text(TRAILER) == TrailerDictionary(6) && PlainValue(TRAILER)
  {
    AllPlain(1);
    SmallNumerals();
    ReferenceText(1);
    assert "<<" + (" /" + "Size" + " ") == "<< /Size ";
    assert " /" + "Root" + " " + ("1" + " 0 R") == " /Root 1 0 R";
    SizeThenRoot("<<", " /" + "Size" + " ", "6", " /Root 1 0 R", " >>");
  }

  lemma SizeThenRoot(a: string, b: string, c: string, d: string, e: string)
    ensures a + (b + c + (d + e)) == (a + b) + c + d + e
  {}

  lemma TrailerLines(start: nat)
    ensures TrailerText(6, start)
            == "trailer" + ("\n" + (TrailerDictionary(6) + ("\n" + ("startxref" + "\n"))))
               + (NatToString(start) + "\n%%EOF\n")
  {
    assert "trailer\n" == "trailer" + "\n" && "\nstartxref\n" == "\n" + ("startxref" + "\n");
  }

  lemma ReportTrailer(content: string)
    requires FitsTable(HEADER, Objects(content))
    ensures TrailerOf(Report(content)) == Some(TRAILER)
    ensures EntriesOf(Report(content)) == Some(TableEntries(Offsets(HEADER, Objects(content))))
  {
    var file, start := Report(content), At(content, 6);
    TableReadsBack(HEADER, Objects(content));
    var pos := XrefEnd(file, start);
    TrailerLines(start);
    TrailerDictionaryText();
    Split(file, pos, "trailer" + ("\n" + (TrailerDictionary(6) + ("\n" + ("startxref" + "\n")))),
          NatToString(start) + "\n%%EOF\n");
    TrailerReads(file, pos, TRAILER);
    assert "Size" != "Root";
  }

  // ---- From the end of the file to the lines ----

  lemma ReportEntry(content: string, number: nat)
    requires FitsTable(HEADER, Objects(content)) && 1 <= number <= 5
    ensures EntriesOf(Report(content)).Some?
    ensures EntryOf(EntriesOf(Report(content)).value, Some(Ref(number, 0))) == Some(Entry(At(content, number), 0, true))
  {
    ReportTrailer(content);
    var offsets := Offsets(HEADER, Objects(content));
    assert TableEntries(offsets)[number] == InUse(offsets)[number - 1];
  }

  lemma Follows(content: string, number: nat, kind: string)
    requires FitsTable(HEADER, Objects(content)) && number in {1, 2, 3, 5}
    requires Get(Written(number), "Type") == Some(Name(kind)) && EntriesOf(Report(content)).Some?
    ensures Follow(Report(content), EntriesOf(Report(content)).value, Some(Ref(number, 0)), kind)
            == Some(Written(number))
  {
    ReportEntry(content, number);
    DictionaryReads(content, number);
  }

  lemma Contents()
    ensures Get(CATALOG, "Type") == Some(Name("Catalog")) && Get(CATALOG, "Pages") == Some(Ref(2, 0))
    ensures Get(PAGES, "Type") == Some(Name("Pages")) && OnlyKid(Some(PAGES)) == Some(Ref(3, 0))
    ensures Get(FONT, "Type") == Some(Name("Font")) && Get(TRAILER, "Root") == Some(Ref(1, 0))
  {}

  lemma PageContents()
    ensures Get(PAGE, "Type") == Some(Name("Page")) && Get(PAGE, "Contents") == Some(Ref(4, 0))
    ensures Get(PAGE, "Resources") == Some(RESOURCES) && GetIn(Get(RESOURCES, "Font"), "F1") == Some(Ref(5, 0))
  {}

  lemma ReportPage(content: string)
    requires FitsTable(HEADER, Objects(content))
    ensures EntriesOf(Report(content)).Some? && PageOf(Report(content)) == Some(PAGE)
  {
    ReportTrailer(content);
    Contents();
    PageContents();
    Follows(content, 1, "Catalog");
    Follows(content, 2, "Pages");
    Follows(content, 3, "Page");
  }

  /** Reading the file from its end: over /Root, /Pages, /Kids and /Contents the reader gets to
      the stream, which shows every line in order and in its place, in the font that the page
      names F1, which is Helvetica. Carriage returns read as line feeds. */
  lemma {:induction false} ReportReadsBack(lines: seq<string>)
    requires FitsTable(HEADER, Objects(ContentStream(lines)))
    ensures ReportStreamOf(Pdf(lines)) == Some(Encode(ContentStream(lines)))
    ensures ShownText(ReportStreamOf(Pdf(lines)).value) == Some(Expected(lines, 0))
    ensures GetIn(FontOf(Pdf(lines), "F1"), "BaseFont") == Some(Name("Helvetica"))
  {
    var content := ContentStream(lines);
    ReportPage(content);
    PageContents();
    Contents();
    ReportEntry(content, 4);
    ReportStream(content);
    Follows(content, 5, "Font");
    StreamShowsLines(lines);
    assert Get(FONT, "BaseFont") == Some(Name("Helvetica"));
  }

  /** The file declares its version and its one page is 612 by 792 units. */
  lemma ReportLayout(lines: seq<string>)
    requires FitsTable(HEADER, Objects(ContentStream(lines)))
    ensures StartsAt(Pdf(lines), 0, "%PDF-1.3\n")
    ensures GetIn(PageOf(Pdf(lines)), "MediaBox")
            == Some(Arr(Item(Num(0), Item(Num(0), Item(Num(612), Item(Num(792), NoItems))))))
  {
    ReportPage(ContentStream(lines));
    HeaderIsAscii();
    HeaderReadsBack(HEADER, Objects(ContentStream(lines)));
  }

  lemma HeaderIsAscii()
    ensures IsAscii(HEADER)
  {}

  lemma ExpectedIffNoReturn(lines: seq<string>)
    ensures |Expected(lines, 0)| == |lines|
    ensures (forall i | 0 <= i < |lines| :: Expected(lines, 0)[i] == Shown(Placed(i), Encode(lines[i])))
            <==> (forall i | 0 <= i < |lines| :: '\r' !in lines[i])
  {
    ExpectedAt(lines, 0);
    forall i | 0 <= i < |lines|
      ensures Expected(lines, 0)[i] == Shown(Placed(i), Encode(lines[i])) <==> '\r' !in lines[i]
    {
      LineRoundTrip(lines[i], "");
    }
  }
}
