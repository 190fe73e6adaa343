/** A small PDF reader over byte strings, written from ISO 32000-1: it starts at the end
    of the file, follows `startxref`, reads the 20-byte cross-reference entries, then a
    stream object, then the text-showing operators of the stream. */
module PdfReader {
  import opened Options
  import opened Decimal

  predicate StartsAt(b: string, pos: nat, s: string) {
    pos + |s| <= |b| && b[pos..pos + |s|] == s
  }

  // ---- Numbers ----

  function DigitsEnd(b: string, pos: nat): (r: nat)
    requires pos <= |b|
    ensures pos <= r <= |b| && AllDigits(b[pos..r])
    decreases |b| - pos
  {
    if pos < |b| && IsDigit(b[pos]) then DigitsEnd(b, pos + 1) else pos
  }

  function DigitsStart(b: string, end: nat): (r: nat)
    requires end <= |b|
    ensures r <= end && forall i | r <= i < end :: IsDigit(b[i])
  {
    if end > 0 && IsDigit(b[end - 1]) then DigitsStart(b, end - 1) else end
  }

  /** A run of digits at `pos`: its value and the position after it. */
  function NumberAt(b: string, pos: nat): Option<(nat, nat)> {
    if pos > |b| || DigitsEnd(b, pos) == pos then None
    else Some((ParseNat(b[pos..DigitsEnd(b, pos)]), DigitsEnd(b, pos)))
  }

  // ---- Section 7.5.5: the end of the file ----

  const EOF_TAIL := "\n%%EOF\n"
  const STARTXREF := "startxref\n"

  /** The byte offset on the line between `startxref` and `%%EOF`. */
  function FindStartXref(b: string): Option<nat> {
    if |b| < |EOF_TAIL| || b[|b| - |EOF_TAIL|..] != EOF_TAIL then None
    else
      var end := |b| - |EOF_TAIL|;
      var start := DigitsStart(b, end);
      if start == end || start < |STARTXREF| || b[start - |STARTXREF|..start] != STARTXREF then None
      else Some(ParseNat(b[start..end]))
  }

  // ---- Section 7.5.4: the cross-reference table ----

  datatype Entry = Entry(offset: nat, generation: nat, inUse: bool)

  const ENTRY_SIZE: nat := 20

  /** nnnnnnnnnn ggggg n eol, exactly 20 bytes with a two-byte end of line. */
  function EntryAt(b: string, pos: nat): Option<Entry> {
    if pos + ENTRY_SIZE > |b| then None
    else
      var e := b[pos..pos + ENTRY_SIZE];
      if AllDigits(e[..10]) && e[10] == ' ' && AllDigits(e[11..16]) && e[16] == ' '
         && (e[17] == 'n' || e[17] == 'f') && e[18] == ' ' && e[19] == '\n'
      then Some(Entry(ParseNat(e[..10]), ParseNat(e[11..16]), e[17] == 'n'))
      else None
  }

  function EntriesAt(b: string, pos: nat, count: nat): Option<seq<Entry>>
    decreases count
  {
    if count == 0 then Some([])
    else
      var first := EntryAt(b, pos);
      var others := EntriesAt(b, pos + ENTRY_SIZE, count - 1);
      if first.Some? && others.Some? then Some([first.value] + others.value) else None
  }

  const XREF_HEAD := "xref\n0 "

  /** `xref`, one subsection starting at object 0, and its entries. */
  function XrefAt(b: string, pos: nat): Option<seq<Entry>> {
    if !StartsAt(b, pos, XREF_HEAD) then None
    else
      var count := NumberAt(b, pos + |XREF_HEAD|);
      if count.None? || !StartsAt(b, count.value.1, "\n") then None
      else EntriesAt(b, count.value.1 + 1, count.value.0)
  }

  /** The position behind the table's last entry. */
  function XrefEnd(b: string, pos: nat): nat
    requires XrefAt(b, pos).Some?
  {
    var count := NumberAt(b, pos + |XREF_HEAD|).value;
    count.1 + 1 + ENTRY_SIZE * count.0
  }

  // ---- Section 7.3.4.2: literal strings ----

  predicate IsOctal(c: char) {
    '0' <= c <= '7'
  }

  /** Up to three octal digits at the front of `b`. */
  function OctalRun(b: string): (r: nat)
    ensures r <= 3 && r <= |b|
    ensures forall i | 0 <= i < r :: IsOctal(b[i])
  {
    if |b| == 0 || !IsOctal(b[0]) then 0
    else if |b| == 1 || !IsOctal(b[1]) then 1
    else if |b| == 2 || !IsOctal(b[2]) then 2
    else 3
  }

  function OctalValue(b: string): nat
    requires forall i | 0 <= i < |b| :: IsOctal(b[i])
  {
    if b == "" then 0
    else
      assert IsOctal(b[|b| - 1]);
      8 * OctalValue(b[..|b| - 1]) + (b[|b| - 1] as int - '0' as int)
  }

  function EscapeMeaning(c: char): char {
    if c == 'n' then '\n'
    else if c == 'r' then '\r'
    else if c == 't' then '\t'
    else if c == 'b' then 8 as char
    else if c == 'f' then 12 as char
    else c
  }

  /** What one step at the front of a literal string yields: bytes of text, bytes used. */
  datatype Piece = Piece(text: string, used: nat)

  function PieceAt(b: string): (r: Piece)
    requires b != ""
    ensures 1 <= r.used <= |b|
  {
    if b[0] == '\r' then
      Piece("\n", if |b| > 1 && b[1] == '\n' then 2 else 1)
    else if b[0] != '\\' || |b| == 1 then Piece([b[0]], 1)
    else if b[1] == '\r' then Piece("", if |b| > 2 && b[2] == '\n' then 3 else 2)
    else if b[1] == '\n' then Piece("", 2)
    else if IsOctal(b[1]) then
      var n := OctalRun(b[1..]);
      Piece([(OctalValue(b[1..][..n]) % 256) as char], 1 + n)
    else Piece([EscapeMeaning(b[1])], 2)
  }

  /** The text of a literal string after its opening parenthesis, and what follows the
      closing one. Unescaped parentheses inside are balanced. */
  function LiteralAt(b: string, depth: nat): (r: Option<(string, string)>)
    ensures r.Some? ==> |r.value.1| < |b|
    decreases |b|
  {
    if b == "" then None
    else if b[0] == ')' && depth == 0 then Some(("", b[1..]))
    else
      var p := PieceAt(b);
      var deeper := if b[0] == '(' then depth + 1 else if b[0] == ')' then depth - 1 else depth;
      var others := LiteralAt(b[p.used..], deeper);
      if others.None? then None else Some((p.text + others.value.0, others.value.1))
  }

  // ---- Section 7.8: the content stream ----

  datatype Token = Word(text: string) | Str(text: string)

  predicate IsWhite(c: char) {
    c == ' ' || c == '\n' || c == '\r' || c == '\t' || c as int == 0 || c as int == 12
  }

  predicate IsRegular(c: char) {
    !IsWhite(c) && c != '(' && c != ')'
  }

  function WordEnd(b: string, i: nat): (r: nat)
    requires i <= |b|
    ensures i <= r <= |b|
    decreases |b| - i
  {
    if i < |b| && IsRegular(b[i]) then WordEnd(b, i + 1) else i
  }

  function Tokens(b: string): Option<seq<Token>>
    decreases |b|
  {
    if b == "" then Some([])
    else if IsWhite(b[0]) then Tokens(b[1..])
    else if b[0] == ')' then None
    else if b[0] == '(' then
      var literal := LiteralAt(b[1..], 0);
      if literal.None? then None else Prepend(Str(literal.value.0), Tokens(literal.value.1))
    else
      var end := WordEnd(b, 1);
      Prepend(Word(b[..end]), Tokens(b[end..]))
  }

  function Prepend(t: Token, ts: Option<seq<Token>>): Option<seq<Token>> {
    if ts.None? then None else Some([t] + ts.value)
  }

  function ParseInt(s: string): Option<int> {
    if s != "" && s[0] == '-' && AllDigits(s[1..]) && |s| > 1 then Some(-(ParseNat(s[1..]) as int))
    else if s != "" && AllDigits(s) then Some(ParseNat(s))
    else None
  }

  /** Font resource and size, and where the next string is shown. */
  datatype TextState = TextState(font: string, size: int, x: int, y: int)

  /** A string shown, with the state it is shown in. */
  datatype Shown = Shown(at: TextState, text: string)

  function IntOf(t: Token): Option<int> {
    if t.Word? then ParseInt(t.text) else None
  }

  /** The operands of `Tm` for an unscaled, upright text matrix: 1 0 0 1 x y. */
  predicate IsPlace(operands: seq<Token>) {
    && |operands| == 6
    && operands[0] == Word("1") && operands[1] == Word("0") && operands[2] == Word("0") && operands[3] == Word("1")
    && IntOf(operands[4]).Some? && IntOf(operands[5]).Some?
  }

  /** The operands of `Tf`: a font name and a size. */
  predicate IsFont(operands: seq<Token>) {
    && |operands| == 2
    && operands[0].Word? && operands[0].text != "" && operands[0].text[0] == '/'
    && IntOf(operands[1]).Some?
  }

  /** Runs the operators BT, Tf, Tm, Tj and ET; `operands` are the tokens since the last one. */
  function Shows(tokens: seq<Token>, operands: seq<Token>, st: TextState): seq<Shown>
    decreases |tokens|
  {
    if tokens == [] then []
    else
      var t, later := tokens[0], tokens[1..];
      if t == Word("Tm") && IsPlace(operands)
      then Shows(later, [], st.(x := IntOf(operands[4]).value, y := IntOf(operands[5]).value))
      else if t == Word("Tf") && IsFont(operands)
      then Shows(later, [], st.(font := operands[0].text[1..], size := IntOf(operands[1]).value))
      else if t == Word("Tj") && |operands| == 1 && operands[0].Str?
      then [Shown(st, operands[0].text)] + Shows(later, [], st)
      else if t == Word("BT") then Shows(later, [], st.(x := 0, y := 0))
      else if t == Word("ET") then Shows(later, [], st)
      else Shows(later, operands + [t], st)
  }

  const START := TextState("", 0, 0, 0)

  function ShownText(stream: string): Option<seq<Shown>> {
    var tokens := Tokens(stream);
    if tokens.None? then None else Some(Shows(tokens.value, [], START))
  }
}
