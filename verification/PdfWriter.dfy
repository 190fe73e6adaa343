/** The fraud-report PDF writer: five objects, a cross-reference table of byte offsets
    and a trailer, laid out as ISO 32000-1 sections 7.5.4 and 7.5.5 ask. */
module PdfWriter {
  import opened Decimal
  import opened Utf8

  /** `value.replace(/c/g, rep)` for one character. */
  function ReplaceAll(s: string, c: char, rep: string): string {
    if s == "" then "" else (if s[0] == c then rep else [s[0]]) + ReplaceAll(s[1..], c, rep)
  }

  /** The three passes of the writer's `escape`. */
  function Escape(line: string): string {
    ReplaceAll(ReplaceAll(ReplaceAll(line, '\\', "\\\\"), '(', "\\("), ')', "\\)")
  }

  function Flatten(parts: seq<string>): string {
    if parts == [] then "" else parts[0] + Flatten(parts[1..])
  }

  function Join(parts: seq<string>, separator: string): string {
    if parts == [] then ""
    else if |parts| == 1 then parts[0]
    else parts[0] + separator + Join(parts[1..], separator)
  }

  /** Every part ended, rather than separated, by a newline. */
  function Terminated(parts: seq<string>): string {
    if parts == [] then "" else parts[0] + "\n" + Terminated(parts[1..])
  }

  lemma {:induction false} JoinTerminated(parts: seq<string>)
    requires parts != []
    ensures Join(parts, "\n") + "\n" == Terminated(parts)
  {
    if |parts| == 1 {
      assert parts[1..] == [];
      assert parts[0] + "\n" == Terminated(parts);
    } else {
      JoinTerminated(parts[1..]);
    }
  }

  function LineY(index: nat): int {
    760 - index as int * 16
  }

  function ShowLine(line: string, index: nat): string {
    "1 0 0 1 50 " + IntToString(LineY(index)) + " Tm (" + Escape(line) + ") Tj"
  }

  function ContentStream(lines: seq<string>): string {
    "BT /F1 12 Tf\n" + Join(seq(|lines|, i requires 0 <= i < |lines| => ShowLine(lines[i], i)), "\n") + "\nET"
  }

  const HEADER := "%PDF-1.3\n"
  const OBJECT_COUNT: nat := 5

  const FONT_REFERENCE := "5 0 R"
  const RESOURCE_FONTS := "<< /Font << /F1 " + FONT_REFERENCE + " >> >>"
  const LETTER := "[0 0 612 792]"

  function StreamDictionary(length: nat): string {
    "<< /Length " + NatToString(length) + " >>"
  }

  function ObjectBody(number: nat, content: string): string {
    if number == 1 then "<< /Type /Catalog" + " /Pages 2 0 R" + " >>"
    else if number == 2 then "<< /Type /Pages" + " /Kids [3 0 R]" + " /Count 1" + " >>"
    else if number == 3 then
      "<< /Type /Page" + " /Parent 2 0 R" + (" /MediaBox " + LETTER) + " /Contents 4 0 R"
      + (" /Resources " + RESOURCE_FONTS) + " >>"
    else if number == 4 then
      StreamDictionary(ByteLength(content)) + "\nstream\n" + content + "\nendstream"
    else "<< /Type /Font" + " /Subtype /Type1" + " /BaseFont /Helvetica" + " >>"
  }

  function ObjectText(number: nat, content: string): string {
    NatToString(number) + " 0 obj\n" + ObjectBody(number, content) + "\nendobj"
  }

  function Objects(content: string): (r: seq<string>)
    ensures |r| == OBJECT_COUNT
    ensures forall i | 0 <= i < |r| :: r[i] == ObjectText(i + 1, content)
  {
    Tabulate(OBJECT_COUNT, (i: nat) => ObjectText(i + 1, content))
  }

  function Tabulate(n: nat, f: nat -> string): (r: seq<string>)
    ensures |r| == n && forall i | 0 <= i < n :: r[i] == f(i)
  {
    seq(n, i requires 0 <= i < n => f(i))
  }

  // ---- The file around any list of objects ----

  /** The file up to the first `count` objects, each followed by a newline. */
  function Written(header: string, objects: seq<string>, count: nat): string
    requires count <= |objects|
  {
    if count == 0 then header else Written(header, objects, count - 1) + (objects[count - 1] + "\n")
  }

  /** The byte position at which object `number` begins. */
  function OffsetOf(header: string, objects: seq<string>, number: nat): nat
    requires 1 <= number <= |objects| + 1
  {
    ByteLength(Written(header, objects, number - 1))
  }

  function EntryText(offset: nat): string {
    PadStart(NatToString(offset), 10) + " 00000 n "
  }

  function XrefLines(offsets: seq<nat>): seq<string> {
    ["xref\n0 " + NatToString(|offsets| + 1), "0000000000 65535 f "]
    + seq(|offsets|, i requires 0 <= i < |offsets| => EntryText(offsets[i]))
  }

  function XrefText(offsets: seq<nat>): string {
    Join(XrefLines(offsets), "\n") + "\n"
  }

  function TrailerDictionary(count: nat): string {
    "<< /Size " + NatToString(count) + " /Root 1 0 R" + " >>"
  }

  function TrailerText(count: nat, xrefStart: nat): string {
    "trailer\n" + TrailerDictionary(count) + "\nstartxref\n" + NatToString(xrefStart) + "\n%%EOF\n"
  }

  function Offsets(header: string, objects: seq<string>): (r: seq<nat>)
    ensures |r| == |objects|
    ensures forall i | 0 <= i < |r| :: r[i] == OffsetOf(header, objects, i + 1)
  {
    seq(|objects|, i requires 0 <= i < |objects| => OffsetOf(header, objects, i + 1))
  }

  function FileText(header: string, objects: seq<string>): string {
    Written(header, objects, |objects|) + XrefText(Offsets(header, objects))
    + TrailerText(|objects| + 1, OffsetOf(header, objects, |objects| + 1))
  }

  /** The bytes of the report file. */
  function Pdf(lines: seq<string>): string {
    Encode(FileText(HEADER, Objects(ContentStream(lines))))
  }

  lemma {:induction false} FlattenSnoc(parts: seq<string>, last: string)
    ensures Flatten(parts + [last]) == Flatten(parts) + last
  {
    if parts == [] {
      assert [last][1..] == [];
      assert parts + [last] == [last];
    } else {
      assert (parts + [last])[1..] == parts[1..] + [last];
      FlattenSnoc(parts[1..], last);
    }
  }

  /** One pass over the objects that pushes each chunk and keeps the running byte total,
      so that every recorded offset is where its object begins. */
  method Assemble(header: string, objects: seq<string>) returns (file: string)
    ensures file == Encode(FileText(header, objects))
  {
    var parts := [header];
    var offsets: seq<nat> := [0];
    var total := ByteLength(header);
    FlattenSnoc([], header);
    assert parts == [] + [header];
    for i := 0 to |objects|
      invariant Flatten(parts) == Written(header, objects, i)
      invariant total == ByteLength(Written(header, objects, i))
      invariant |offsets| == i + 1
      invariant forall j | 1 <= j <= i :: offsets[j] == OffsetOf(header, objects, j)
    {
      offsets := offsets + [total];
      var chunk := objects[i] + "\n";
      FlattenSnoc(parts, chunk);
      EncodeConcat(Written(header, objects, i), chunk);
      parts := parts + [chunk];
      total := total + ByteLength(chunk);
    }
    assert offsets[1..] == Offsets(header, objects);
    var xrefStart := total;
    var xref := XrefText(offsets[1..]);
    FlattenSnoc(parts, xref);
    parts := parts + [xref];
    var trailer := TrailerText(|objects| + 1, xrefStart);
    FlattenSnoc(parts, trailer);
    parts := parts + [trailer];
    file := Encode(Flatten(parts));
  }

  method BuildSimplePdf(lines: seq<string>) returns (file: string)
    ensures file == Pdf(lines)
  {
    var content := ContentStream(lines);
    var objects := Objects(content);
    file := Assemble(HEADER, objects);
  }
}
