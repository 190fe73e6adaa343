/** The content stream reads back: every line, at its position, in order. */
module PdfContent {
  import opened Options
  import opened Decimal
  import opened Utf8
  import opened PdfWriter
  import opened PdfReader
  import opened PdfStrings

  // ---- Tokens of the writer's text ----

  ghost predicate IsWord(w: string) {
    w != "" && forall i | 0 <= i < |w| :: IsRegular(w[i])
  }

  lemma {:induction false} WordEndsAt(w: string, after: string, i: nat)
    requires IsWord(w) && i <= |w|
    requires after == "" || !IsRegular(after[0])
    ensures WordEnd(w + after, i) == |w|
    decreases |w| - i
  {
    if i < |w| {
      assert (w + after)[i] == w[i];
      WordEndsAt(w, after, i + 1);
    }
  }

  lemma TokensWord(w: string, after: string)
    requires IsWord(w) && (after == "" || !IsRegular(after[0]))
    ensures Tokens(w + after) == Prepend(Word(w), Tokens(after))
  {
    var b := w + after;
    assert b[0] == w[0] && IsRegular(w[0]);
    WordEndsAt(w, after, 1);
    assert b[..|w|] == w && b[|w|..] == after;
  }

  lemma TokensBlank(c: char, after: string)
    requires IsWhite(c)
    ensures Tokens([c] + after) == Tokens(after)
  {
    assert ([c] + after)[1..] == after;
  }

  /** A word, then one blank. */
  lemma TokensWordBlank(w: string, c: char, after: string)
    requires IsWord(w) && IsWhite(c)
    ensures Tokens(w + [c] + after) == Prepend(Word(w), Tokens(after))
  {
    assert w + [c] + after == w + ([c] + after);
    TokensWord(w, [c] + after);
    TokensBlank(c, after);
  }

  lemma TokensLiteral(line: string, after: string)
    ensures Tokens("(" + Encode(Escape(line)) + ")" + after)
            == Prepend(Str(Encode(Normalize(line))), Tokens(after))
  {
    var b := "(" + Encode(Escape(line)) + ")" + after;
    assert b[1..] == Encode(Escape(line)) + ")" + after;
    LineRoundTrip(line, after);
  }

  lemma DigitsArePlain(s: string)
    requires AllDigits(s)
    ensures IsAscii(s) && forall i | 0 <= i < |s| :: IsRegular(s[i])
  {}

  lemma YIsWord(y: int)
    ensures IsWord(IntToString(y)) && IsAscii(IntToString(y))
  {
    DigitsArePlain(NatToString(if y < 0 then -y else y));
  }

  lemma YReadsBack(y: int)
    ensures ParseInt(IntToString(y)) == Some(y)
  {
    var digits := NatToString(if y < 0 then -y else y);
    NatRoundTrip(if y < 0 then -y else y);
    assert IsDigit(digits[0]);
    if y < 0 {
      assert IntToString(y)[0] == '-' && IntToString(y)[1..] == digits;
    }
  }

  function LineTokens(line: string, y: int): seq<Token> {
    [Word("1"), Word("0"), Word("0"), Word("1"), Word("50"), Word(IntToString(y)), Word("Tm"),
     Str(Encode(Normalize(line))), Word("Tj")]
  }

  function PrependAll(ts: seq<Token>, later: Option<seq<Token>>): Option<seq<Token>> {
    if later.None? then None else Some(ts + later.value)
  }

  /** One shown line, in bytes, with an ASCII numeral for its position. */
  function LineBytes(line: string, y: int): string {
    "1 0 0 1 50 " + IntToString(y) + " Tm (" + Encode(Escape(line)) + ") Tj"
  }

  /** Words, each followed by a space. */
  function Spaced(words: seq<string>): string {
    if words == [] then "" else words[0] + " " + Spaced(words[1..])
  }

  function Words(words: seq<string>): seq<Token> {
    seq(|words|, i requires 0 <= i < |words| => Word(words[i]))
  }

  lemma PrependAllTwice(a: seq<Token>, b: seq<Token>, later: Option<seq<Token>>)
    ensures PrependAll(a, PrependAll(b, later)) == PrependAll(a + b, later)
  {
    assert later.Some? ==> a + (b + later.value) == a + b + later.value;
  }

  lemma PrependNone(later: Option<seq<Token>>)
    ensures PrependAll([], later) == later
  {
    assert later.Some? ==> [] + later.value == later.value;
  }

  /** Token lists of adjacent texts follow one another. */
  lemma TokensChain(b: string, others: string, after: string, ts: seq<Token>, later: seq<Token>)
    requires Tokens(b) == PrependAll(ts, Tokens(others)) && Tokens(others) == PrependAll(later, Tokens(after))
    ensures Tokens(b) == PrependAll(ts + later, Tokens(after))
  {
    PrependAllTwice(ts, later, Tokens(after));
  }

  lemma FirstWord(words: seq<string>, after: string)
    requires words != []
    ensures Spaced(words) + after == words[0] + [' '] + (Spaced(words[1..]) + after)
  {
    WordAssociates(words[0], " ", Spaced(words[1..]), after);
  }

  lemma FirstOfWords(words: seq<string>)
    requires words != []
    ensures Words(words) == [Word(words[0])] + Words(words[1..])
  {}

  lemma WordAssociates(w: string, blank: string, others: string, after: string)
    ensures w + blank + others + after == w + blank + (others + after)
  {}

  lemma {:induction false} TokensSpaced(words: seq<string>, after: string)
    requires forall i | 0 <= i < |words| :: IsWord(words[i])
    ensures Tokens(Spaced(words) + after) == PrependAll(Words(words), Tokens(after))
  {
    if words == [] {
      assert Spaced(words) + after == after && Words(words) == [];
      PrependNone(Tokens(after));
    } else {
      var others := Spaced(words[1..]) + after;
      FirstWord(words, after);
      FirstOfWords(words);
      TokensWordBlank(words[0], ' ', others);
      TokensSpaced(words[1..], after);
      TokensChain(Spaced(words) + after, others, after, [Word(words[0])], Words(words[1..]));
    }
  }

  lemma {:induction false} SpacedSnoc(words: seq<string>, w: string)
    ensures Spaced(words + [w]) == Spaced(words) + w + " "
  {
    if words == [] {
      assert words + [w] == [w] && [w][1..] == [];
      assert Spaced([w]) == w + " " + "";
    } else {
      SpacedSnoc(words[1..], w);
      assert (words + [w])[1..] == words[1..] + [w];
      SpacedRegroup(words[0], Spaced(words[1..]), w);
    }
  }

  lemma SpacedRegroup(first: string, others: string, w: string)
    ensures first + " " + (others + w + " ") == first + " " + others + w + " "
  {}

  lemma LinePrefix(y: string)
    ensures "1 0 0 1 50 " + y + " Tm " == Spaced(["1", "0", "0", "1", "50", y, "Tm"])
  {
    SpacedSnoc([], "1");
    SpacedSnoc(["1"], "0");
    SpacedSnoc(["1", "0"], "0");
    SpacedSnoc(["1", "0", "0"], "1");
    SpacedSnoc(["1", "0", "0", "1"], "50");
    var five := ["1", "0", "0", "1", "50"];
    assert Spaced(five) == "1 0 0 1 50 " by {
      assert [] + ["1"] == ["1"] && ["1"] + ["0"] == ["1", "0"] && ["1", "0"] + ["0"] == ["1", "0", "0"];
      assert ["1", "0", "0"] + ["1"] == ["1", "0", "0", "1"] && ["1", "0", "0", "1"] + ["50"] == five;
    }
    SpacedSnoc(five, y);
    SpacedSnoc(five + [y], "Tm");
    assert five + [y] + ["Tm"] == ["1", "0", "0", "1", "50", y, "Tm"];
  }

  lemma LineShape(y: string, e: string, after: string)
    ensures "1 0 0 1 50 " + y + " Tm (" + e + ") Tj" + "\n" + after
            == "1 0 0 1 50 " + y + " Tm " + ("(" + e + ")" + ([' '] + ("Tj" + ['\n'] + after)))
  {}

  lemma PrependPair(t: Token, u: Token, later: Option<seq<Token>>)
    ensures Prepend(t, Prepend(u, later)) == PrependAll([t, u], later)
  {
    assert later.Some? ==> [t] + ([u] + later.value) == [t, u] + later.value;
  }

  lemma LineTail(line: string, after: string)
    ensures Tokens("(" + Encode(Escape(line)) + ")" + ([' '] + ("Tj" + ['\n'] + after)))
            == PrependAll([Str(Encode(Normalize(line))), Word("Tj")], Tokens(after))
  {
    var tail := "Tj" + ['\n'] + after;
    TokensLiteral(line, [' '] + tail);
    TokensBlank(' ', tail);
    TokensWordBlank("Tj", '\n', after);
    PrependPair(Str(Encode(Normalize(line))), Word("Tj"), Tokens(after));
  }

  lemma LineReadsBack(line: string, y: int, after: string)
    ensures Tokens(LineBytes(line, y) + "\n" + after) == PrependAll(LineTokens(line, y), Tokens(after))
  {
    YIsWord(y);
    var e, n := Encode(Escape(line)), IntToString(y);
    var words := ["1", "0", "0", "1", "50", n, "Tm"];
    var tail := "(" + e + ")" + ([' '] + ("Tj" + ['\n'] + after));
    assert LineBytes(line, y) + "\n" + after == Spaced(words) + tail by {
      LineShape(n, e, after);
      LinePrefix(n);
    }
    TokensSpaced(words, tail);
    LineTail(line, after);
    PrependAllTwice(Words(words), [Str(Encode(Normalize(line))), Word("Tj")], Tokens(after));
    assert Words(words) + [Str(Encode(Normalize(line))), Word("Tj")] == LineTokens(line, y);
  }

  // ---- All lines ----

  /** The bytes of lines `from`, `from + 1`, ... each ended by a newline. */
  function LinesBytes(lines: seq<string>, from: nat): string {
    if lines == [] then "" else LineBytes(lines[0], LineY(from)) + "\n" + LinesBytes(lines[1..], from + 1)
  }

  function LinesTokens(lines: seq<string>, from: nat): seq<Token> {
    if lines == [] then [] else LineTokens(lines[0], LineY(from)) + LinesTokens(lines[1..], from + 1)
  }

  lemma FirstLineBytes(lines: seq<string>, from: nat, after: string)
    requires lines != []
    ensures LinesBytes(lines, from) + after
            == LineBytes(lines[0], LineY(from)) + "\n" + (LinesBytes(lines[1..], from + 1) + after)
  {}

  lemma {:induction false} LinesReadBack(lines: seq<string>, from: nat, after: string)
    ensures Tokens(LinesBytes(lines, from) + after) == PrependAll(LinesTokens(lines, from), Tokens(after))
  {
    if lines == [] {
      assert LinesBytes(lines, from) + after == after;
      PrependNone(Tokens(after));
    } else {
      var others := LinesBytes(lines[1..], from + 1) + after;
      FirstLineBytes(lines, from, after);
      LineReadsBack(lines[0], LineY(from), others);
      LinesReadBack(lines[1..], from + 1, after);
      TokensChain(LinesBytes(lines, from) + after, others, after,
                  LineTokens(lines[0], LineY(from)), LinesTokens(lines[1..], from + 1));
    }
  }

  /** Line `index` is shown in 12 point from the font resource F1, 50 units from the left, the
      first one 760 units up and each next one 16 units below. */
  function Placed(index: nat): TextState {
    TextState("F1", 12, 50, 760 - 16 * index as int)
  }

  /** What a reader of the page sees. */
  function Expected(lines: seq<string>, from: nat): seq<Shown> {
    if lines == [] then []
    else [Shown(Placed(from), Encode(Normalize(lines[0])))] + Expected(lines[1..], from + 1)
  }

  predicate IsOperand(t: Token) {
    t.Str? || (t.text != "Tm" && t.text != "Tj" && t.text != "BT" && t.text != "ET" && t.text != "Tf")
  }

  lemma {:induction false} ShowsOperands(ts: seq<Token>, later: seq<Token>, operands: seq<Token>, st: TextState)
    requires forall i | 0 <= i < |ts| :: IsOperand(ts[i])
    ensures Shows(ts + later, operands, st) == Shows(later, operands + ts, st)
  {
    if ts == [] {
      assert ts + later == later && operands + ts == operands;
    } else {
      assert IsOperand(ts[0]);
      assert (ts + later)[0] == ts[0] && (ts + later)[1..] == ts[1..] + later;
      ShowsOperands(ts[1..], later, operands + [ts[0]], st);
      assert operands + [ts[0]] + ts[1..] == operands + ts;
    }
  }

  lemma NumeralIsOperand(y: int)
    ensures IsOperand(Word(IntToString(y)))
  {
    var n := IntToString(y);
    assert n[0] == '-' || IsDigit(n[0]) by {
      assert y >= 0 ==> IsDigit(NatToString(y)[0]);
    }
  }

  function PlaceTokens(y: int): seq<Token> {
    [Word("1"), Word("0"), Word("0"), Word("1"), Word("50"), Word(IntToString(y))]
  }

  lemma ReadsFifty()
    ensures ParseInt("50") == Some(50) && ParseInt("12") == Some(12)
  {
    assert "50"[..1] == "5" && "12"[..1] == "1" && "5"[..0] == "" && "1"[..0] == "";
    assert ParseNat("5") == 5 && ParseNat("1") == 1;
  }

  lemma ShowsTm(at: int, later: seq<Token>, st: TextState)
    ensures Shows([Word("Tm")] + later, PlaceTokens(at), st) == Shows(later, [], st.(x := 50, y := at))
  {
    YReadsBack(at);
    ReadsFifty();
    assert ([Word("Tm")] + later)[1..] == later;
  }

  lemma ShowsTj(s: string, later: seq<Token>, st: TextState)
    ensures Shows([Word("Tj")] + later, [Str(s)], st) == [Shown(st, s)] + Shows(later, [], st)
  {
    assert ([Word("Tj")] + later)[1..] == later;
  }

  lemma LineTokensShape(line: string, at: int, later: seq<Token>)
    ensures LineTokens(line, at) + later
            == PlaceTokens(at) + ([Word("Tm")] + ([Str(Encode(Normalize(line)))] + ([Word("Tj")] + later)))
  {}

  lemma ShowsPlace(at: int, later: seq<Token>, st: TextState)
    ensures Shows(PlaceTokens(at) + ([Word("Tm")] + later), [], st) == Shows(later, [], st.(x := 50, y := at))
  {
    NumeralIsOperand(at);
    ShowsOperands(PlaceTokens(at), [Word("Tm")] + later, [], st);
    assert [] + PlaceTokens(at) == PlaceTokens(at);
    ShowsTm(at, later, st);
  }

  lemma ShowsOneLine(line: string, at: int, later: seq<Token>, st: TextState)
    ensures var t := st.(x := 50, y := at);
            Shows(LineTokens(line, at) + later, [], st) == [Shown(t, Encode(Normalize(line)))] + Shows(later, [], t)
  {
    var text, t := Encode(Normalize(line)), st.(x := 50, y := at);
    var shown := [Word("Tj")] + later;
    LineTokensShape(line, at, later);
    ShowsPlace(at, [Str(text)] + shown, st);
    ShowsOperands([Str(text)], shown, [], t);
    assert [] + [Str(text)] == [Str(text)];
    ShowsTj(text, later, t);
  }

  lemma {:induction false} ShowsAllLines(lines: seq<string>, from: nat, later: seq<Token>, st: TextState)
    requires forall u :: Shows(later, [], u) == []
    requires st.font == "F1" && st.size == 12
    ensures Shows(LinesTokens(lines, from) + later, [], st) == Expected(lines, from)
  {
    if lines == [] {
      assert LinesTokens(lines, from) + later == later;
    } else {
      var others := LinesTokens(lines[1..], from + 1) + later;
      assert LinesTokens(lines, from) + later == LineTokens(lines[0], LineY(from)) + others;
      ShowsOneLine(lines[0], LineY(from), others, st);
      ShowsAllLines(lines[1..], from + 1, later, st.(x := 50, y := LineY(from)));
    }
  }

  // ---- The stream as the writer joins it ----

  lemma EncodeAround(a: string, n: string, m: string, e: string, z: string)
    requires IsAscii(a) && IsAscii(n) && IsAscii(m) && IsAscii(z)
    ensures Encode(a + n + m + e + z) == a + n + m + Encode(e) + z
  {
    EncodeConcat(a + n + m + e, z);
    EncodeConcat(a + n + m, e);
    EncodeAscii(a + n + m);
    EncodeAscii(z);
  }

  lemma EncodeShowLine(line: string, index: nat)
    ensures Encode(ShowLine(line, index)) == LineBytes(line, LineY(index))
  {
    YIsWord(LineY(index));
    EncodeAround("1 0 0 1 50 ", IntToString(LineY(index)), " Tm (", Escape(line), ") Tj");
  }

  /** The shown lines from index `from` on. */
  function ShowLines(lines: seq<string>, from: nat): (r: seq<string>)
    ensures |r| == |lines|
  {
    seq(|lines|, i requires 0 <= i < |lines| => ShowLine(lines[i], from + i))
  }

  lemma FirstShown(lines: seq<string>, from: nat)
    requires lines != []
    ensures Terminated(ShowLines(lines, from))
            == ShowLine(lines[0], from) + "\n" + Terminated(ShowLines(lines[1..], from + 1))
  {
    assert ShowLines(lines, from)[1..] == ShowLines(lines[1..], from + 1);
  }

  lemma EncodeEnded(line: string, others: string)
    ensures Encode(line + "\n" + others) == Encode(line) + "\n" + Encode(others)
  {
    EncodeConcat(line + "\n", others);
    EncodeConcat(line, "\n");
    EncodeAscii("\n");
  }

  lemma {:induction false} EncodeLines(lines: seq<string>, from: nat)
    ensures Encode(Terminated(ShowLines(lines, from))) == LinesBytes(lines, from)
  {
    if lines != [] {
      FirstShown(lines, from);
      EncodeEnded(ShowLine(lines[0], from), Terminated(ShowLines(lines[1..], from + 1)));
      EncodeShowLine(lines[0], from);
      EncodeLines(lines[1..], from + 1);
    }
  }

  /** The stream between its first operator line and its last. */
  function StreamMiddle(lines: seq<string>): string {
    if lines == [] then "\n" else LinesBytes(lines, 0)
  }

  lemma MiddleBytes(lines: seq<string>, shown: seq<string>)
    requires shown == ShowLines(lines, 0)
    ensures Encode(Join(shown, "\n") + "\n") == StreamMiddle(lines)
  {
    if lines == [] {
      assert Join(shown, "\n") + "\n" == "\n";
      EncodeAscii("\n");
    } else {
      JoinTerminated(shown);
      EncodeLines(lines, 0);
    }
  }

  lemma StreamShape(lines: seq<string>)
    ensures ContentStream(lines) == "BT /F1 12 Tf\n" + (Join(ShowLines(lines, 0), "\n") + "\n") + "ET"
  {
    assert seq(|lines|, i requires 0 <= i < |lines| => ShowLine(lines[i], i)) == ShowLines(lines, 0);
    var joined := Join(ShowLines(lines, 0), "\n");
    assert "BT /F1 12 Tf\n" + joined + "\nET" == "BT /F1 12 Tf\n" + (joined + "\n") + "ET";
  }

  lemma StreamBytes(lines: seq<string>)
    ensures Encode(ContentStream(lines)) == "BT /F1 12 Tf\n" + StreamMiddle(lines) + "ET"
  {
    StreamShape(lines);
    MiddleBytes(lines, ShowLines(lines, 0));
    EncodeFrame(Join(ShowLines(lines, 0), "\n") + "\n");
  }

  lemma EncodeFrame(body: string)
    ensures Encode("BT /F1 12 Tf\n" + body + "ET") == "BT /F1 12 Tf\n" + Encode(body) + "ET"
  {
    EncodeBetween("BT /F1 12 Tf\n", body, "ET");
  }

  lemma EncodeBetween(a: string, e: string, z: string)
    requires IsAscii(a) && IsAscii(z)
    ensures Encode(a + e + z) == a + Encode(e) + z
  {
    EncodeConcat(a + e, z);
    EncodeConcat(a, e);
    EncodeAscii(a);
    EncodeAscii(z);
  }

  lemma FrameShape(body: string)
    ensures "BT /F1 12 Tf\n" + body == Spaced(["BT", "/F1", "12"]) + ("Tf" + ['\n'] + body)
  {
    SpacedSnoc([], "BT");
    SpacedSnoc(["BT"], "/F1");
    SpacedSnoc(["BT", "/F1"], "12");
    assert [] + ["BT"] == ["BT"] && ["BT"] + ["/F1"] == ["BT", "/F1"];
    assert ["BT", "/F1"] + ["12"] == ["BT", "/F1", "12"];
  }

  lemma FrameTokens(body: string)
    ensures Tokens("BT /F1 12 Tf\n" + body)
            == PrependAll([Word("BT"), Word("/F1"), Word("12"), Word("Tf")], Tokens(body))
  {
    FrameShape(body);
    var words := ["BT", "/F1", "12"];
    TokensSpaced(words, "Tf" + ['\n'] + body);
    TokensWordBlank("Tf", '\n', body);
    assert Tokens(body).Some? ==>
        Words(words) + ([Word("Tf")] + Tokens(body).value)
        == [Word("BT"), Word("/F1"), Word("12"), Word("Tf")] + Tokens(body).value;
  }

  lemma EndToken()
    ensures Tokens("ET") == Some([Word("ET")])
  {
    assert "ET" + "" == "ET";
    TokensWord("ET", "");
    assert Tokens("") == Some([]);
    assert [Word("ET")] + [] == [Word("ET")];
  }

  lemma ShowsTf(later: seq<Token>, st: TextState)
    ensures Shows([Word("Tf")] + later, [Word("/F1"), Word("12")], st)
            == Shows(later, [], st.(font := "F1", size := 12))
  {
    ReadsFifty();
    assert "/F1"[1..] == "F1";
    assert ([Word("Tf")] + later)[1..] == later;
  }

  lemma FrameShows(later: seq<Token>)
    ensures Shows([Word("BT"), Word("/F1"), Word("12"), Word("Tf")] + later, [], START)
            == Shows(later, [], TextState("F1", 12, 0, 0))
  {
    var t2 := [Word("Tf")] + later;
    var t1 := [Word("/F1"), Word("12")] + t2;
    assert [Word("BT"), Word("/F1"), Word("12"), Word("Tf")] + later == [Word("BT")] + t1;
    assert ([Word("BT")] + t1)[1..] == t1;
    ShowsOperands([Word("/F1"), Word("12")], t2, [], START);
    assert [] + [Word("/F1"), Word("12")] == [Word("/F1"), Word("12")];
    ShowsTf(later, START);
  }

  lemma StreamTokens(lines: seq<string>)
    ensures Tokens(Encode(ContentStream(lines)))
            == Some([Word("BT"), Word("/F1"), Word("12"), Word("Tf")] + (LinesTokens(lines, 0) + [Word("ET")]))
  {
    StreamBytes(lines);
    var ts := LinesTokens(lines, 0) + [Word("ET")];
    FrameTokens(StreamMiddle(lines) + "ET");
    assert Encode(ContentStream(lines)) == "BT /F1 12 Tf\n" + (StreamMiddle(lines) + "ET");
    EndToken();
    if lines == [] {
      TokensBlank('\n', "ET");
      assert ts == [Word("ET")];
    } else {
      LinesReadBack(lines, 0, "ET");
    }
  }

  /** Running the stream's operators shows each line once, in order, in its place. */
  lemma StreamShowsLines(lines: seq<string>)
    ensures ShownText(Encode(ContentStream(lines))) == Some(Expected(lines, 0))
  {
    StreamTokens(lines);
    FrameShows(LinesTokens(lines, 0) + [Word("ET")]);
    assert [Word("ET")][1..] == [];
    ShowsAllLines(lines, 0, [Word("ET")], TextState("F1", 12, 0, 0));
  }

  lemma {:induction false} ExpectedAt(lines: seq<string>, from: nat)
    ensures |Expected(lines, from)| == |lines|
    ensures forall i | 0 <= i < |lines| ::
              Expected(lines, from)[i] == Shown(Placed(from + i), Encode(Normalize(lines[i])))
  {
    if lines != [] {
      ExpectedAt(lines[1..], from + 1);
      forall i | 0 <= i < |lines|
        ensures Expected(lines, from)[i] == Shown(Placed(from + i), Encode(Normalize(lines[i])))
      {
        if i > 0 {
          assert lines[i] == lines[1..][i - 1];
        }
      }
    }
  }
}
