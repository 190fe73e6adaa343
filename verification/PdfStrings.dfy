/** Literal strings survive: what the writer escapes, the reader of section 7.3.4.2
    reads back, except that a carriage return becomes a line feed. */
module PdfStrings {
  import opened Options
  import opened Utf8
  import opened PdfWriter
  import opened PdfReader

  // ---- The three passes as one ----

  function EscapeOne(c: char): string {
    if c == '\\' || c == '(' || c == ')' then ['\\', c] else [c]
  }

  function EscapeEach(s: string): string {
    if s == "" then "" else EscapeOne(s[0]) + EscapeEach(s[1..])
  }

  lemma {:induction false} ReplaceAllConcat(a: string, b: string, c: char, rep: string)
    ensures ReplaceAll(a + b, c, rep) == ReplaceAll(a, c, rep) + ReplaceAll(b, c, rep)
  {
    if a == "" {
      assert a + b == b;
    } else {
      assert (a + b)[1..] == a[1..] + b;
      ReplaceAllConcat(a[1..], b, c, rep);
    }
  }

  lemma ReplaceOne(x: char, c: char, rep: string)
    ensures ReplaceAll([x], c, rep) == if x == c then rep else [x]
  {
    assert [x][1..] == "";
  }

  lemma ReplaceTwo(x: char, y: char, c: char, rep: string)
    requires x != c
    ensures ReplaceAll([x, y], c, rep) == [x] + if y == c then rep else [y]
  {
    assert [x, y][1..] == [y];
    ReplaceOne(y, c, rep);
  }

  lemma EscapePasses(c: char)
    ensures Escape([c]) == EscapeOne(c)
  {
    ReplaceOne(c, '\\', "\\\\");
    if c == '\\' {
      ReplaceTwo('\\', '\\', '(', "\\(");
      ReplaceTwo('\\', '\\', ')', "\\)");
    } else {
      ReplaceOne(c, '(', "\\(");
      if c == '(' {
        ReplaceTwo('\\', '(', ')', "\\)");
      } else {
        ReplaceOne(c, ')', "\\)");
      }
    }
  }

  /** The order of the three replacements is harmless: no pass touches what an earlier
      pass inserted. */
  lemma {:induction false} EscapeIsOnePass(line: string)
    ensures Escape(line) == EscapeEach(line)
  {
    if line != "" {
      EscapeIsOnePass(line[1..]);
      EscapePasses(line[0]);
      assert line == [line[0]] + line[1..];
      ReplaceAllConcat([line[0]], line[1..], '\\', "\\\\");
      ReplaceAllConcat(ReplaceAll([line[0]], '\\', "\\\\"), ReplaceAll(line[1..], '\\', "\\\\"), '(', "\\(");
      ReplaceAllConcat(ReplaceAll(ReplaceAll([line[0]], '\\', "\\\\"), '(', "\\("),
                       ReplaceAll(ReplaceAll(line[1..], '\\', "\\\\"), '(', "\\("), ')', "\\)");
    }
  }

  lemma {:induction false} EscapeEachConcat(a: string, b: string)
    ensures EscapeEach(a + b) == EscapeEach(a) + EscapeEach(b)
  {
    if a == "" {
      assert a + b == b;
    } else {
      assert (a + b)[1..] == a[1..] + b;
      EscapeEachConcat(a[1..], b);
    }
  }

  lemma {:induction false} EscapeEachPlain(s: string)
    requires forall i | 0 <= i < |s| :: s[i] as int >= 128
    ensures EscapeEach(s) == s
  {
    if s != "" {
      EscapeEachPlain(s[1..]);
    }
  }

  /** Escaping characters and escaping bytes is the same. */
  lemma {:induction false} EncodeEscape(line: string)
    ensures Encode(EscapeEach(line)) == EscapeEach(Encode(line))
  {
    if line != "" {
      EncodeEscape(line[1..]);
      EncodeConcat(EscapeOne(line[0]), EscapeEach(line[1..]));
      EscapeEachConcat(EncodeChar(line[0]), Encode(line[1..]));
      EncodeEscapeOne(line[0]);
    }
  }

  lemma EncodeEscapeOne(c: char)
    ensures Encode(EscapeOne(c)) == EscapeEach(EncodeChar(c))
  {
    if c as int < 128 {
      EncodeAscii(EscapeOne(c));
      assert EncodeChar(c) == [c] && [c][1..] == "";
    } else {
      EscapeEachPlain(EncodeChar(c));
      assert [c][1..] == "" && Encode([c]) == EncodeChar(c) + "";
    }
  }

  // ---- End-of-line markers ----

  /** CR and CR LF inside a literal string read as LF (section 7.3.4.2). */
  function Normalize(b: string): string {
    if b == "" then ""
    else if b[0] == '\r' then
      "\n" + (if |b| > 1 && b[1] == '\n' then Normalize(b[2..]) else Normalize(b[1..]))
    else [b[0]] + Normalize(b[1..])
  }

  lemma {:induction false} NormalizeLeavesNoReturn(b: string)
    ensures '\r' !in Normalize(b)
    ensures Normalize(b) == b <==> '\r' !in b
    decreases |b|
  {
    if b != "" {
      assert b == [b[0]] + b[1..];
      NormalizeLeavesNoReturn(b[1..]);
      if |b| > 1 {
        NormalizeLeavesNoReturn(b[2..]);
      }
    }
  }

  lemma {:induction false} NormalizeConcatPlain(a: string, b: string)
    requires '\r' !in a
    ensures Normalize(a + b) == a + Normalize(b)
  {
    if a == "" {
      assert a + b == b;
    } else {
      assert (a + b)[1..] == a[1..] + b;
      assert a == [a[0]] + a[1..];
      NormalizeConcatPlain(a[1..], b);
    }
  }

  lemma NoReturnInBytes(c: char)
    requires c != '\r'
    ensures '\r' !in EncodeChar(c) && EncodeChar(c)[0] == '\n' ==> c == '\n'
    ensures '\r' !in EncodeChar(c)
  {}

  lemma LeadingBytes(line: string)
    requires line != ""
    ensures Encode(line) != "" && (Encode(line)[0] == '\n' <==> line[0] == '\n')
    ensures line[0] == '\n' ==> Encode(line)[1..] == Encode(line[1..])
  {}

  lemma {:induction false} EncodeNormalize(line: string)
    ensures Normalize(Encode(line)) == Encode(Normalize(line))
    decreases |line|
  {
    if line != "" {
      var c, tail := line[0], line[1..];
      EncodeNormalize(tail);
      if c == '\r' {
        assert Encode(line) == "\r" + Encode(tail) && Encode(line)[1..] == Encode(tail);
        if tail != "" {
          LeadingBytes(tail);
          EncodeNormalize(tail[1..]);
          assert line[2..] == tail[1..];
          assert tail[0] == '\n' ==> Encode(line)[2..] == Encode(tail[1..]);
        }
        var after := if tail != "" && tail[0] == '\n' then tail[1..] else tail;
        EncodeConcat("\n", Normalize(after));
        EncodeAscii("\n");
      } else {
        NoReturnInBytes(c);
        NormalizeConcatPlain(EncodeChar(c), Encode(tail));
        EncodeConcat([c], Normalize(tail));
        assert [c][1..] == "" && Encode([c]) == EncodeChar(c) + "";
      }
    }
  }

  // ---- The reader undoes the writer ----

  /** From the start of `b` a literal's remaining text reads as `text` and leaves `after`. */
  predicate ReadsAs(b: string, text: string, after: string) {
    LiteralAt(b, 0) == Some((text, after))
  }

  lemma PieceThen(b: string, p: Piece, rest: string, text: string, after: string)
    requires b != "" && b[0] != ')' && b[0] != '('
    requires PieceAt(b) == p && b[p.used..] == rest
    requires ReadsAs(rest, text, after)
    ensures ReadsAs(b, p.text + text, after)
  {}

  lemma ClosingReads(after: string)
    ensures ReadsAs(")" + after, "", after)
  {
    assert (")" + after)[1..] == after;
  }

  lemma CharReads(c: char, rest: string, text: string, after: string)
    requires c != '\r' && ReadsAs(rest, text, after)
    ensures ReadsAs(EscapeOne(c) + rest, [c] + text, after)
  {
    var b := EscapeOne(c) + rest;
    if c == '\\' || c == '(' || c == ')' {
      assert b[2..] == rest;
      PieceThen(b, Piece([c], 2), rest, text, after);
    } else {
      assert b[1..] == rest;
      PieceThen(b, Piece([c], 1), rest, text, after);
    }
  }

  lemma LoneReturnReads(rest: string, text: string, after: string)
    requires rest != "" && rest[0] != '\n' && ReadsAs(rest, text, after)
    ensures ReadsAs("\r" + rest, "\n" + text, after)
  {
    var b := "\r" + rest;
    assert b[1..] == rest;
    PieceThen(b, Piece("\n", 1), rest, text, after);
  }

  lemma ReturnNewlineReads(rest: string, text: string, after: string)
    requires ReadsAs(rest, text, after)
    ensures ReadsAs("\r\n" + rest, "\n" + text, after)
  {
    var b := "\r\n" + rest;
    assert b[2..] == rest;
    PieceThen(b, Piece("\n", 2), rest, text, after);
  }

  /** The escaped text with the closing parenthesis and what follows it. */
  function Closed(t: string, after: string): string {
    EscapeEach(t) + (")" + after)
  }

  lemma ClosedStep(t: string, after: string)
    requires t != ""
    ensures Closed(t, after) == EscapeOne(t[0]) + Closed(t[1..], after)
  {}

  lemma ClosedStart(t: string, after: string)
    requires t == "" || t[0] != '\n'
    ensures Closed(t, after) != "" && Closed(t, after)[0] != '\n'
  {
    if t != "" {
      ClosedStep(t, after);
    }
  }

  lemma ReturnNewlineShape(rest: string)
    ensures "\r" + ("\n" + rest) == "\r\n" + rest
  {}

  lemma {:induction false} EscapedReadsBack(t: string, after: string)
    ensures ReadsAs(Closed(t, after), Normalize(t), after)
    decreases |t|
  {
    if t == "" {
      ClosingReads(after);
      assert Closed(t, after) == ")" + after;
    } else {
      var c, tail := t[0], t[1..];
      ClosedStep(t, after);
      EscapedReadsBack(tail, after);
      if c != '\r' {
        CharReads(c, Closed(tail, after), Normalize(tail), after);
      } else if tail != "" && tail[0] == '\n' {
        assert tail[1..] == t[2..];
        EscapedReadsBack(t[2..], after);
        ClosedStep(tail, after);
        ReturnNewlineShape(Closed(t[2..], after));
        ReturnNewlineReads(Closed(t[2..], after), Normalize(t[2..]), after);
      } else {
        ClosedStart(tail, after);
        LoneReturnReads(Closed(tail, after), Normalize(tail), after);
      }
    }
  }

  /** A written line reads back as itself exactly when it holds no carriage return. */
  lemma LineRoundTrip(line: string, after: string)
    ensures LiteralAt(Encode(Escape(line)) + ")" + after, 0) == Some((Encode(Normalize(line)), after))
    ensures Encode(Normalize(line)) == Encode(line) <==> '\r' !in line
  {
    EscapeIsOnePass(line);
    EncodeEscape(line);
    EscapedReadsBack(Encode(line), after);
    assert Encode(Escape(line)) + ")" + after == Closed(Encode(line), after);
    EncodeNormalize(line);
    NormalizeLeavesNoReturn(line);
    if Encode(Normalize(line)) == Encode(line) {
      EncodeInjective(Normalize(line), line);
    }
  }
}
