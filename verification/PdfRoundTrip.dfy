/** The file reads back: from the end of the file to the cross-reference table, to every
    object, to the stream, to the lines. */
module PdfRoundTrip {
  import opened Options
  import opened Decimal
  import opened Utf8
  import opened PdfWriter
  import opened PdfReader
  import opened PdfObjects
  import opened PdfStrings
  import opened PdfContent

  // ---- Reading at a known place ----

  ghost predicate NoDigitAt(b: string, pos: nat) {
    pos >= |b| || !IsDigit(b[pos])
  }

  lemma NextIsNoDigit(b: string, pos: nat, s: string)
    requires StartsAt(b, pos, s) && s != "" && !IsDigit(s[0])
    ensures NoDigitAt(b, pos)
  {
    assert b[pos..pos + |s|][0] == b[pos];
  }

  lemma {:induction false} DigitsEndAt(b: string, pos: nat, s: string, i: nat)
    requires StartsAt(b, pos, s) && AllDigits(s) && i <= |s| && NoDigitAt(b, pos + |s|)
    ensures DigitsEnd(b, pos + i) == pos + |s|
    decreases |s| - i
  {
    if i < |s| {
      assert b[pos + i] == s[i];
      DigitsEndAt(b, pos, s, i + 1);
    }
  }

  lemma {:induction false} DigitsStartAt(b: string, pos: nat, s: string, i: nat)
    requires StartsAt(b, pos, s) && AllDigits(s) && i <= |s| && (pos == 0 || !IsDigit(b[pos - 1]))
    ensures DigitsStart(b, pos + i) == pos
  {
    if i > 0 {
      assert b[pos + i - 1] == s[i - 1];
      DigitsStartAt(b, pos, s, i - 1);
    }
  }

  lemma NumeralAt(b: string, pos: nat, n: nat)
    requires StartsAt(b, pos, NatToString(n)) && NoDigitAt(b, pos + |NatToString(n)|)
    ensures NumberAt(b, pos) == Some((n, pos + |NatToString(n)|))
  {
    DigitsEndAt(b, pos, NatToString(n), 0);
    NatRoundTrip(n);
  }

  // ---- startxref ----

  lemma StartXrefFromParts(b: string, start: nat, s: string)
    requires s != "" && start + |s| + |EOF_TAIL| == |b| && start >= |STARTXREF|
    requires StartsAt(b, start - |STARTXREF|, STARTXREF) && StartsAt(b, start, s)
    requires StartsAt(b, start + |s|, EOF_TAIL) && DigitsStart(b, start + |s|) == start
    ensures FindStartXref(b) == Some(ParseNat(s))
  {}

  lemma StartXrefReadsBack(b: string, pos: nat, n: nat)
    requires StartsAt(b, pos, STARTXREF + NatToString(n) + EOF_TAIL)
    requires pos + |STARTXREF + NatToString(n) + EOF_TAIL| == |b|
    ensures FindStartXref(b) == Some(n)
  {
    var s := NatToString(n);
    Split(b, pos, STARTXREF + s, EOF_TAIL);
    Split(b, pos, STARTXREF, s);
    var start := pos + |STARTXREF|;
    LastOfStartXref(b, pos);
    DigitsStartAt(b, start, s, |s|);
    NatRoundTrip(n);
    StartXrefFromParts(b, start, s);
  }

  lemma LastOfStartXref(b: string, pos: nat)
    requires StartsAt(b, pos, STARTXREF)
    ensures |STARTXREF| == 10 && b[pos + 9] == '\n'
  {
    assert b[pos + 9] == b[pos..pos + 10][9] == STARTXREF[9];
  }

  // ---- The cross-reference table ----

  lemma EntryReadsBack(b: string, pos: nat, offset: nat)
    requires offset < Pow10(10)
    requires StartsAt(b, pos, EntryText(offset) + "\n")
    ensures |EntryText(offset) + "\n"| == ENTRY_SIZE
    ensures EntryAt(b, pos) == Some(Entry(offset, 0, true))
  {
    PaddedField(offset, 10);
    var digits := PadStart(NatToString(offset), 10);
    var e := EntryText(offset) + "\n";
    assert e == digits + " 00000 n \n";
    assert e[..10] == digits;
    assert e[11..16] == Zeros(5);
    ParseLeadingZeros(5, "");
    assert Zeros(5) + "" == Zeros(5);
  }

  /** An entry has its 20 bytes exactly while the offset has at most ten digits. */
  lemma EntryWidth(offset: nat)
    ensures |EntryText(offset) + "\n"| == ENTRY_SIZE <==> offset < Pow10(10)
  {
    PaddedField(offset, 10);
  }

  lemma FreeEntryReadsBack(b: string, pos: nat)
    requires StartsAt(b, pos, "0000000000 65535 f " + "\n")
    ensures EntryAt(b, pos) == Some(Entry(0, 65535, false))
  {
    var e := "0000000000 65535 f " + "\n";
    ParseLeadingZeros(10, "");
    assert Zeros(10) + "" == Zeros(10);
    assert e[..10] == Zeros(10);
    Digits65535();
    assert e[11..16] == "65535";
  }

  lemma Digits65535()
    ensures AllDigits("65535") && ParseNat("65535") == 65535
  {
    assert "65535"[..4] == "6553" && "6553"[..3] == "655" && "655"[..2] == "65" && "65"[..1] == "6" && "6"[..0] == "";
    assert ParseNat("6") == 6;
    assert ParseNat("65") == 65;
    assert ParseNat("655") == 655;
    assert ParseNat("6553") == 6553;
  }

  function EntryLines(offsets: seq<nat>): (r: seq<string>)
    ensures |r| == |offsets|
  {
    seq(|offsets|, i requires 0 <= i < |offsets| => EntryText(offsets[i]))
  }

  function InUse(offsets: seq<nat>): (r: seq<Entry>)
    ensures |r| == |offsets|
    ensures forall i | 0 <= i < |r| :: r[i] == Entry(offsets[i], 0, true)
  {
    seq(|offsets|, i requires 0 <= i < |offsets| => Entry(offsets[i], 0, true))
  }

  /** The free entry of object 0, then one entry per offset. */
  function TableEntries(offsets: seq<nat>): seq<Entry> {
    [Entry(0, 65535, false)] + InUse(offsets)
  }

  ghost predicate AllFit(offsets: seq<nat>) {
    forall i | 0 <= i < |offsets| :: offsets[i] < Pow10(10)
  }

  lemma FirstEntryLine(offsets: seq<nat>)
    requires offsets != []
    ensures Terminated(EntryLines(offsets)) == EntryText(offsets[0]) + "\n" + Terminated(EntryLines(offsets[1..]))
    ensures InUse(offsets) == [Entry(offsets[0], 0, true)] + InUse(offsets[1..])
  {
    assert EntryLines(offsets)[1..] == EntryLines(offsets[1..]);
  }

  lemma FirstEntryReadsBack(b: string, pos: nat, offsets: seq<nat>)
    requires offsets != [] && offsets[0] < Pow10(10)
    requires StartsAt(b, pos, Terminated(EntryLines(offsets)))
    ensures EntryAt(b, pos) == Some(Entry(offsets[0], 0, true))
    ensures StartsAt(b, pos + ENTRY_SIZE, Terminated(EntryLines(offsets[1..])))
  {
    FirstEntryLine(offsets);
    Split(b, pos, EntryText(offsets[0]) + "\n", Terminated(EntryLines(offsets[1..])));
    EntryReadsBack(b, pos, offsets[0]);
  }

  lemma {:induction false} EntriesReadBack(b: string, pos: nat, offsets: seq<nat>)
    requires AllFit(offsets)
    requires StartsAt(b, pos, Terminated(EntryLines(offsets)))
    ensures EntriesAt(b, pos, |offsets|) == Some(InUse(offsets))
    decreases |offsets|
  {
    if offsets != [] {
      FirstEntryReadsBack(b, pos, offsets);
      EntriesReadBack(b, pos + ENTRY_SIZE, offsets[1..]);
      EntriesStep(b, pos, |offsets|, Entry(offsets[0], 0, true), InUse(offsets[1..]));
      FirstEntryLine(offsets);
    }
  }

  lemma EntriesStep(b: string, pos: nat, count: nat, first: Entry, others: seq<Entry>)
    requires count > 0 && EntryAt(b, pos) == Some(first)
    requires EntriesAt(b, pos + ENTRY_SIZE, count - 1) == Some(others)
    ensures EntriesAt(b, pos, count) == Some([first] + others)
  {}

  const FREE_ENTRY := "0000000000 65535 f "

  function XrefHeadText(count: nat): string {
    XREF_HEAD + NatToString(count) + "\n"
  }

  function EntryTable(offsets: seq<nat>): string {
    FREE_ENTRY + "\n" + Terminated(EntryLines(offsets))
  }

  lemma XrefShape(offsets: seq<nat>)
    ensures XrefText(offsets) == XrefHeadText(|offsets| + 1) + EntryTable(offsets)
  {
    TerminatedTwo(XREF_HEAD + NatToString(|offsets| + 1), FREE_ENTRY, EntryLines(offsets));
    assert XrefLines(offsets) == [XREF_HEAD + NatToString(|offsets| + 1), FREE_ENTRY] + EntryLines(offsets);
    JoinTerminated(XrefLines(offsets));
  }

  lemma TerminatedTwo(p: string, q: string, others: seq<string>)
    ensures Terminated([p, q] + others) == p + "\n" + (q + "\n" + Terminated(others))
  {
    assert ([p, q] + others)[1..] == [q] + others;
    assert ([q] + others)[1..] == others;
  }

  lemma XrefHead(b: string, pos: nat, count: nat, q: nat, entries: seq<Entry>)
    requires StartsAt(b, pos, XrefHeadText(count)) && q == pos + |XrefHeadText(count)|
    requires EntriesAt(b, q, count) == Some(entries)
    ensures XrefAt(b, pos) == Some(entries)
  {
    var end := pos + |XREF_HEAD| + |NatToString(count)|;
    HeadWidth(count);
    XrefCount(b, pos, count, end);
    XrefFound(b, pos, count, end, q, entries);
  }

  lemma HeadWidth(count: nat)
    ensures |XrefHeadText(count)| == |XREF_HEAD| + |NatToString(count)| + 1
  {}

  lemma XrefFound(b: string, pos: nat, count: nat, end: nat, q: nat, entries: seq<Entry>)
    requires StartsAt(b, pos, XREF_HEAD) && NumberAt(b, pos + |XREF_HEAD|) == Some((count, end))
    requires StartsAt(b, end, "\n") && q == end + 1 && EntriesAt(b, q, count) == Some(entries)
    ensures XrefAt(b, pos) == Some(entries)
  {}

  lemma XrefEntries(b: string, q: nat, offsets: seq<nat>)
    requires AllFit(offsets)
    requires StartsAt(b, q, EntryTable(offsets))
    ensures EntriesAt(b, q, |offsets| + 1) == Some(TableEntries(offsets))
  {
    Split(b, q, FREE_ENTRY + "\n", Terminated(EntryLines(offsets)));
    FreeEntryReadsBack(b, q);
    assert |FREE_ENTRY + "\n"| == ENTRY_SIZE;
    EntriesReadBack(b, q + ENTRY_SIZE, offsets);
    EntriesStep(b, q, |offsets| + 1, Entry(0, 65535, false), InUse(offsets));
  }

  lemma XrefParts(b: string, pos: nat, offsets: seq<nat>)
    requires StartsAt(b, pos, XrefText(offsets))
    ensures var head := XrefHeadText(|offsets| + 1);
            StartsAt(b, pos, head) && StartsAt(b, pos + |head|, EntryTable(offsets))
  {
    XrefShape(offsets);
    Split(b, pos, XrefHeadText(|offsets| + 1), EntryTable(offsets));
  }

  lemma XrefFromParts(b: string, pos: nat, q: nat, offsets: seq<nat>)
    requires AllFit(offsets) && q == pos + |XrefHeadText(|offsets| + 1)|
    requires StartsAt(b, pos, XrefHeadText(|offsets| + 1)) && StartsAt(b, q, EntryTable(offsets))
    ensures XrefAt(b, pos) == Some(TableEntries(offsets))
  {
    XrefEntries(b, q, offsets);
    XrefHead(b, pos, |offsets| + 1, q, TableEntries(offsets));
  }

  lemma {:induction false} EntryLinesWidth(offsets: seq<nat>)
    requires AllFit(offsets)
    ensures |Terminated(EntryLines(offsets))| == ENTRY_SIZE * |offsets|
  {
    if offsets != [] {
      FirstEntryLine(offsets);
      EntryWidth(offsets[0]);
      EntryLinesWidth(offsets[1..]);
    }
  }

  lemma XrefReadsBack(b: string, pos: nat, offsets: seq<nat>)
    requires AllFit(offsets)
    requires StartsAt(b, pos, XrefText(offsets))
    ensures XrefAt(b, pos) == Some(TableEntries(offsets))
    ensures XrefEnd(b, pos) == pos + |XrefText(offsets)|
  {
    XrefWhole(b, pos, offsets);
    XrefParts(b, pos, offsets);
    XrefCount(b, pos, |offsets| + 1, pos + |XREF_HEAD| + |NatToString(|offsets| + 1)|);
    XrefWidth(offsets);
  }

  lemma XrefWidth(offsets: seq<nat>)
    requires AllFit(offsets)
    ensures |XrefText(offsets)|
            == |XREF_HEAD| + |NatToString(|offsets| + 1)| + 1 + ENTRY_SIZE * (|offsets| + 1)
  {
    XrefShape(offsets);
    EntryLinesWidth(offsets);
    assert |FREE_ENTRY + "\n"| == ENTRY_SIZE;
  }

  lemma XrefCount(b: string, pos: nat, count: nat, end: nat)
    requires StartsAt(b, pos, XrefHeadText(count)) && end == pos + |XREF_HEAD| + |NatToString(count)|
    ensures NumberAt(b, pos + |XREF_HEAD|) == Some((count, end))
    ensures StartsAt(b, pos, XREF_HEAD) && StartsAt(b, end, "\n")
  {
    var digits := NatToString(count);
    Split(b, pos, XREF_HEAD + digits, "\n");
    Split(b, pos, XREF_HEAD, digits);
    NextIsNoDigit(b, end, "\n");
    NumeralAt(b, pos + |XREF_HEAD|, count);
  }

  lemma XrefWhole(b: string, pos: nat, offsets: seq<nat>)
    requires AllFit(offsets)
    requires StartsAt(b, pos, XrefText(offsets))
    ensures XrefAt(b, pos) == Some(TableEntries(offsets))
  {
    XrefParts(b, pos, offsets);
    XrefFromParts(b, pos, pos + |XrefHeadText(|offsets| + 1)|, offsets);
  }

  // ---- Objects ----

  lemma {:induction false} WrittenGrows(header: string, objects: seq<string>, i: nat, j: nat)
    requires i <= j <= |objects|
    ensures ByteLength(Written(header, objects, i)) <= ByteLength(Written(header, objects, j))
  {
    if i < j {
      WrittenGrows(header, objects, i, j - 1);
      EncodeConcat(Written(header, objects, j - 1), objects[j - 1] + "\n");
    }
  }

  lemma WrittenStep(header: string, objects: seq<string>, count: nat)
    requires 1 <= count <= |objects|
    ensures Encode(Written(header, objects, count))
            == Encode(Written(header, objects, count - 1)) + (Encode(objects[count - 1]) + "\n")
  {
    EncodeConcat(Written(header, objects, count - 1), objects[count - 1] + "\n");
    EncodeConcat(objects[count - 1], "\n");
    EncodeAscii("\n");
  }

  /** Object `number` stands in the encoded file right at its recorded offset, and ends its line. */
  lemma {:induction false} ObjectInPlace(header: string, objects: seq<string>, number: nat, upto: nat)
    returns (after: string)
    requires 1 <= number <= upto <= |objects|
    ensures Encode(Written(header, objects, upto))
            == Encode(Written(header, objects, number - 1)) + (Encode(objects[number - 1]) + "\n") + after
  {
    WrittenStep(header, objects, upto);
    var line := Encode(objects[number - 1]) + "\n";
    if number == upto {
      after := "";
      assert Encode(Written(header, objects, number - 1)) + line + "" == Encode(Written(header, objects, upto));
    } else {
      var mid := ObjectInPlace(header, objects, number, upto - 1);
      var last := Encode(objects[upto - 1]) + "\n";
      Append(Encode(Written(header, objects, number - 1)), line, mid, last);
      after := mid + last;
    }
  }

  lemma Append(a: string, b: string, c: string, d: string)
    ensures a + b + c + d == a + b + (c + d)
  {}

  lemma {:induction false} TerminatedAscii(parts: seq<string>)
    requires forall i | 0 <= i < |parts| :: IsAscii(parts[i])
    ensures IsAscii(Terminated(parts))
  {
    if parts != [] {
      TerminatedAscii(parts[1..]);
    }
  }

  lemma EntryAscii(offset: nat)
    ensures IsAscii(EntryText(offset))
  {
    var s := PadStart(NatToString(offset), 10);
    assert AllDigits(s);
    DigitsArePlain(s);
  }

  lemma XrefAscii(offsets: seq<nat>)
    ensures IsAscii(XrefText(offsets))
  {
    XrefShape(offsets);
    DigitsArePlain(NatToString(|offsets| + 1));
    forall i | 0 <= i < |offsets| ensures IsAscii(EntryLines(offsets)[i]) {
      EntryAscii(offsets[i]);
    }
    TerminatedAscii(EntryLines(offsets));
  }

  lemma TrailerShape(count: nat, start: nat)
    ensures TrailerText(count, start)
            == "trailer\n" + TrailerDictionary(count) + "\n" + (STARTXREF + NatToString(start) + EOF_TAIL)
    ensures IsAscii(TrailerText(count, start))
  {
    DigitsArePlain(NatToString(count));
    DigitsArePlain(NatToString(start));
    assert "\nstartxref\n" == "\n" + STARTXREF;
  }

  /** The file in bytes: the encoded objects, then an ASCII table and trailer. */
  lemma FileBytes(header: string, objects: seq<string>)
    ensures Encode(FileText(header, objects))
            == Encode(Written(header, objects, |objects|)) + XrefText(Offsets(header, objects))
               + TrailerText(|objects| + 1, OffsetOf(header, objects, |objects| + 1))
  {
    var body := Written(header, objects, |objects|);
    var xref := XrefText(Offsets(header, objects));
    var trailer := TrailerText(|objects| + 1, OffsetOf(header, objects, |objects| + 1));
    XrefAscii(Offsets(header, objects));
    TrailerShape(|objects| + 1, OffsetOf(header, objects, |objects| + 1));
    EncodeConcat(body + xref, trailer);
    EncodeConcat(body, xref);
    EncodeAscii(xref);
    EncodeAscii(trailer);
  }

  ghost predicate FitsTable(header: string, objects: seq<string>) {
    |objects| == 0 || OffsetOf(header, objects, |objects|) < Pow10(10)
  }

  lemma AllOffsetsFit(header: string, objects: seq<string>)
    requires FitsTable(header, objects)
    ensures AllFit(Offsets(header, objects))
  {
    forall i | 0 <= i < |objects| ensures Offsets(header, objects)[i] < Pow10(10) {
      WrittenGrows(header, objects, i, |objects| - 1);
    }
  }

  lemma FileInPlace(header: string, objects: seq<string>)
    ensures var file := Encode(FileText(header, objects)); var start := OffsetOf(header, objects, |objects| + 1);
            var xref := XrefText(Offsets(header, objects)); var trailer := TrailerText(|objects| + 1, start);
            && StartsAt(file, start, xref) && StartsAt(file, start + |xref|, trailer)
            && start + |xref| + |trailer| == |file|
  {
    FileBytes(header, objects);
    TableInPlace(Encode(Written(header, objects, |objects|)), XrefText(Offsets(header, objects)),
                 TrailerText(|objects| + 1, OffsetOf(header, objects, |objects| + 1)));
  }

  /** startxref leads to the table and the table to its entries, for any objects. */
  lemma TableReadsBack(header: string, objects: seq<string>)
    requires FitsTable(header, objects)
    ensures var file := Encode(FileText(header, objects));
            var start := OffsetOf(header, objects, |objects| + 1);
            && FindStartXref(file) == Some(start)
            && XrefAt(file, start) == Some(TableEntries(Offsets(header, objects)))
            && StartsAt(file, XrefEnd(file, start), TrailerText(|objects| + 1, start))
  {
    var file := Encode(FileText(header, objects));
    var start := OffsetOf(header, objects, |objects| + 1);
    FileInPlace(header, objects);
    AllOffsetsFit(header, objects);
    TableFound(file, start, Offsets(header, objects), |objects| + 1);
  }

  lemma TableFound(b: string, start: nat, offsets: seq<nat>, count: nat)
    requires AllFit(offsets)
    requires StartsAt(b, start, XrefText(offsets))
    requires StartsAt(b, start + |XrefText(offsets)|, TrailerText(count, start))
    requires start + |XrefText(offsets)| + |TrailerText(count, start)| == |b|
    ensures FindStartXref(b) == Some(start)
    ensures XrefAt(b, start) == Some(TableEntries(offsets))
    ensures StartsAt(b, XrefEnd(b, start), TrailerText(count, start))
  {
    var behind := start + |XrefText(offsets)|;
    TrailerReadsBack(b, behind, count, start);
    XrefReadsBack(b, start, offsets);
    assert XrefEnd(b, start) == behind;
  }

  /** The file begins with the header. */
  lemma HeaderReadsBack(header: string, objects: seq<string>)
    requires IsAscii(header)
    ensures StartsAt(Encode(FileText(header, objects)), 0, header)
  {
    FileBytes(header, objects);
    WrittenStartsWith(header, objects, |objects|);
  }

  lemma {:induction false} WrittenStartsWith(header: string, objects: seq<string>, count: nat)
    requires IsAscii(header) && count <= |objects|
    ensures StartsAt(Encode(Written(header, objects, count)), 0, header)
  {
    if count == 0 {
      EncodeAscii(header);
    } else {
      WrittenStartsWith(header, objects, count - 1);
      WrittenStep(header, objects, count);
    }
  }

  lemma TableInPlace(body: string, xref: string, trailer: string)
    ensures StartsAt(body + xref + trailer, |body|, xref)
    ensures StartsAt(body + xref + trailer, |body| + |xref|, trailer)
  {}

  lemma TrailerReadsBack(b: string, pos: nat, count: nat, start: nat)
    requires StartsAt(b, pos, TrailerText(count, start)) && pos + |TrailerText(count, start)| == |b|
    ensures FindStartXref(b) == Some(start)
  {
    TrailerShape(count, start);
    var size := "trailer\n" + TrailerDictionary(count) + "\n";
    assert TrailerText(count, start) == size + (STARTXREF + NatToString(start) + EOF_TAIL);
    Split(b, pos, size, STARTXREF + NatToString(start) + EOF_TAIL);
    StartXrefReadsBack(b, pos + |size|, start);
  }

  /** Each in-use entry points at the bytes of its object. */
  lemma ObjectReadsBack(header: string, objects: seq<string>, number: nat)
    requires 1 <= number <= |objects|
    ensures StartsAt(Encode(FileText(header, objects)), OffsetOf(header, objects, number),
                     Encode(objects[number - 1]) + "\n")
  {
    var after := ObjectInPlace(header, objects, number, |objects|);
    FileBytes(header, objects);
    StillInPlace(Encode(Written(header, objects, number - 1)), Encode(objects[number - 1]) + "\n", after,
                 XrefText(Offsets(header, objects)),
                 TrailerText(|objects| + 1, OffsetOf(header, objects, |objects| + 1)));
  }

  lemma StillInPlace(a: string, s: string, after: string, x: string, y: string)
    ensures StartsAt(a + s + after + x + y, |a|, s)
  {}
}
