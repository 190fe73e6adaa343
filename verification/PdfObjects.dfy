/** PDF objects as sections 7.2 and 7.3 of ISO 32000-1 describe them: lexical tokens, values
    (names, numbers, references, arrays, dictionaries), and indirect objects. */
module PdfObjects {
  import opened Options
  import opened Decimal
  import opened Utf8
  import opened PdfReader

  datatype Value =
    | Name(name: string)
    | Num(n: nat)
    | Ref(number: nat, generation: nat)
    | Arr(items: Items)
    | Dict(entries: Pairs)
  datatype Items = NoItems | Item(head: Value, tail: Items)
  datatype Pairs = NoPairs | Pair(key: string, value: Value, tail: Pairs)

  // ---- Section 7.2: tokens ----

  predicate IsDelimiter(c: char) {
    c == '(' || c == ')' || c == '<' || c == '>' || c == '[' || c == ']' || c == '{' || c == '}'
    || c == '/' || c == '%'
  }

  predicate IsNameChar(c: char) {
    !IsWhite(c) && !IsDelimiter(c)
  }

  function SkipWhite(b: string, pos: nat): (r: nat)
    ensures pos <= r
    ensures r < |b| ==> !IsWhite(b[r])
    decreases |b| - pos
  {
    if pos < |b| && IsWhite(b[pos]) then SkipWhite(b, pos + 1) else pos
  }

  function NameCharsEnd(b: string, pos: nat): (r: nat)
    requires pos <= |b|
    ensures pos <= r <= |b|
    decreases |b| - pos
  {
    if pos < |b| && IsNameChar(b[pos]) then NameCharsEnd(b, pos + 1) else pos
  }

  /** The token at or after `pos` and the position behind it. */
  function TokenAt(b: string, pos: nat): (r: Option<(string, nat)>)
    ensures r.Some? ==> r.value.0 != "" && pos < r.value.1 <= |b|
  {
    var p := SkipWhite(b, pos);
    if p >= |b| then None
    else if b[p] == '[' || b[p] == ']' then Some(([b[p]], p + 1))
    else if StartsAt(b, p, "<<") || StartsAt(b, p, ">>") then Some((b[p..p + 2], p + 2))
    else
      var end := NameCharsEnd(b, if b[p] == '/' then p + 1 else p);
      if end == p then None else Some((b[p..end], end))
  }

  /** The keywords that end a dictionary or an object outside a stream. */
  predicate IsKeyword(t: string) {
    t == "endobj" || t == "stream" || t == "startxref"
  }

  /** The tokens from `pos` up to the first such keyword, and the position behind it. */
  function TokensUntilKeyword(b: string, pos: nat): Option<(seq<string>, nat)>
    decreases |b| - pos
  {
    var t := TokenAt(b, pos);
    if t.None? then None
    else if IsKeyword(t.value.0) then Some(([t.value.0], t.value.1))
    else Prefixed([t.value.0], TokensUntilKeyword(b, t.value.1))
  }

  function Prefixed(ts: seq<string>, later: Option<(seq<string>, nat)>): Option<(seq<string>, nat)> {
    if later.None? then None else Some((ts + later.value.0, later.value.1))
  }

  // ---- Section 7.3: values ----

  predicate IsNumeral(t: string) {
    t != "" && AllDigits(t)
  }

  function ParseValue(ts: seq<string>): (r: Option<(Value, seq<string>)>)
    ensures r.Some? ==> |r.value.1| < |ts|
    decreases |ts|, 0
  {
    if ts == [] || ts[0] == "" then None
    else if ts[0] == "<<" then
      var d := ParsePairs(ts[1..]);
      if d.None? then None else Some((Dict(d.value.0), d.value.1))
    else if ts[0] == "[" then
      var a := ParseItems(ts[1..]);
      if a.None? then None else Some((Arr(a.value.0), a.value.1))
    else if ts[0][0] == '/' then Some((Name(ts[0][1..]), ts[1..]))
    else if !IsNumeral(ts[0]) then None
    else if |ts| >= 3 && IsNumeral(ts[1]) && ts[2] == "R" then Some((Ref(ParseNat(ts[0]), ParseNat(ts[1])), ts[3..]))
    else Some((Num(ParseNat(ts[0])), ts[1..]))
  }

  function ParseItems(ts: seq<string>): (r: Option<(Items, seq<string>)>)
    ensures r.Some? ==> |r.value.1| < |ts|
    decreases |ts|, 1
  {
    if ts == [] then None
    else if ts[0] == "]" then Some((NoItems, ts[1..]))
    else
      var v := ParseValue(ts);
      if v.None? then None
      else
        var others := ParseItems(v.value.1);
        if others.None? then None else Some((Item(v.value.0, others.value.0), others.value.1))
  }

  function ParsePairs(ts: seq<string>): (r: Option<(Pairs, seq<string>)>)
    ensures r.Some? ==> |r.value.1| < |ts|
    decreases |ts|, 1
  {
    if ts == [] || ts[0] == "" then None
    else if ts[0] == ">>" then Some((NoPairs, ts[1..]))
    else if ts[0][0] != '/' then None
    else
      var v := ParseValue(ts[1..]);
      if v.None? then None
      else
        var others := ParsePairs(v.value.1);
        if others.None? then None else Some((Pair(ts[0][1..], v.value.0, others.value.0), others.value.1))
  }

  /** The value of a key. */
  function Find(pairs: Pairs, key: string): Option<Value> {
    match pairs
    case NoPairs => None
    case Pair(k, v, tail) => if k == key then Some(v) else Find(tail, key)
  }

  function Get(v: Value, key: string): Option<Value> {
    if v.Dict? then Find(v.entries, key) else None
  }

  // ---- Section 7.3.10: indirect objects ----

  /** A value with the keyword behind it and the position after that. */
  datatype Found = Found(value: Value, keyword: string, next: nat)

  function ValueAfter(ts: seq<string>, next: nat): Option<Found> {
    var v := ParseValue(ts);
    if v.None? || |v.value.1| != 1 then None else Some(Found(v.value.0, v.value.1[0], next))
  }

  /** `number generation obj`, a value, and `endobj` or `stream`. */
  function ObjectAt(b: string, pos: nat, number: nat, generation: nat): Option<Found> {
    var t := TokensUntilKeyword(b, pos);
    if t.None? || |t.value.0| < 3 then None
    else
      var ts := t.value.0;
      if IsNumeral(ts[0]) && IsNumeral(ts[1]) && ParseNat(ts[0]) == number && ParseNat(ts[1]) == generation
         && ts[2] == "obj"
      then ValueAfter(ts[3..], t.value.1) else None
  }

  /** `trailer`, a dictionary, and `startxref`. */
  function TrailerAt(b: string, pos: nat): Option<Found> {
    var t := TokensUntilKeyword(b, pos);
    if t.None? || t.value.0 == [] || t.value.0[0] != "trailer" then None
    else ValueAfter(t.value.0[1..], t.value.1)
  }

  /** Section 7.3.8: the bytes of a stream whose dictionary holds a direct /Length. */
  function StreamAt(b: string, pos: nat, number: nat, generation: nat): Option<string> {
    var found := ObjectAt(b, pos, number, generation);
    if found.None? || found.value.keyword != "stream" || !StartsAt(b, found.value.next, "\n") then None
    else
      var length := Get(found.value.value, "Length");
      var start := found.value.next + 1;
      if length.None? || !length.value.Num? || start + length.value.n > |b| then None
      else if !StartsAt(b, start + length.value.n, "\nendstream\nendobj") then None
      else Some(b[start..start + length.value.n])
  }

  // ---- Values and tokens ----

  function TokensOf(v: Value): (r: seq<string>)
    ensures r != []
  {
    match v
    case Name(name) => ["/" + name]
    case Num(n) => [NatToString(n)]
    case Ref(number, generation) => [NatToString(number), NatToString(generation), "R"]
    case Arr(items) => ["["] + TokensOfItems(items)
    case Dict(entries) => ["<<"] + TokensOfPairs(entries)
  }

  function TokensOfItems(items: Items): (r: seq<string>)
    ensures r != []
  {
    match items
    case NoItems => ["]"]
    case Item(head, tail) => TokensOf(head) + TokensOfItems(tail)
  }

  function TokensOfPairs(pairs: Pairs): (r: seq<string>)
    ensures r != []
  {
    match pairs
    case NoPairs => [">>"]
    case Pair(key, value, tail) => ["/" + key] + TokensOf(value) + TokensOfPairs(tail)
  }

  /** A number before `after` is not the start of a reference. */
  predicate NoReference(after: seq<string>) {
    !(|after| >= 2 && IsNumeral(after[0]) && after[1] == "R")
  }

  lemma NumeralReads(n: nat)
    ensures IsNumeral(NatToString(n)) && ParseNat(NatToString(n)) == n
    ensures IsDigit(NatToString(n)[0]) && NatToString(n) != "R"
  {
    NatRoundTrip(n);
  }

  /** The first token of a value is a numeral exactly when the value starts with a number. */
  lemma FirstToken(v: Value)
    ensures IsNumeral(TokensOf(v)[0]) <==> v.Num? || v.Ref?
    ensures TokensOf(v)[0] != "R" && TokensOf(v)[0] != "]"
  {
    var first := TokensOf(v)[0];
    match v
    case Name(name) => assert first[0] == '/';
    case Num(n) => NumeralReads(n);
    case Ref(n, _) => NumeralReads(n);
    case Arr(_) => assert first[0] == '[';
    case Dict(_) => assert first[0] == '<';
  }

  lemma ValueIsNoReference(v: Value, after: seq<string>)
    requires v.Num? && after != [] ==> after[0] != "R"
    ensures NoReference(TokensOf(v) + after)
  {
    var ts := TokensOf(v) + after;
    FirstToken(v);
    assert ts[0] == TokensOf(v)[0];
    if v.Ref? {
      NumeralReads(v.generation);
      assert ts[1] == NatToString(v.generation);
    } else if v.Num? && |ts| >= 2 {
      assert ts[1] == after[0];
    }
  }

  lemma FirstOfItemsIsNotR(items: Items, after: seq<string>)
    ensures (TokensOfItems(items) + after)[0] != "R"
  {
    if items.Item? {
      FirstToken(items.head);
      assert (TokensOfItems(items) + after)[0] == TokensOf(items.head)[0];
    }
  }

  lemma ItemsAreNoReference(items: Items, after: seq<string>)
    ensures NoReference(TokensOfItems(items) + after)
  {
    var ts := TokensOfItems(items) + after;
    if items.NoItems? {
      assert ts[0] == "]" && ts[0][0] == ']';
    } else {
      var later := TokensOfItems(items.tail) + after;
      FirstOfItemsIsNotR(items.tail, after);
      ValueIsNoReference(items.head, later);
      assert ts == TokensOf(items.head) + later;
    }
  }

  lemma PairsAreNoReference(pairs: Pairs, after: seq<string>)
    ensures NoReference(TokensOfPairs(pairs) + after)
  {
    var first := (TokensOfPairs(pairs) + after)[0];
    assert pairs.Pair? ==> first == "/" + pairs.key;
    assert first[0] == '/' || first[0] == '>';
  }

  /** A value's tokens parse to the value, whatever follows. */
  lemma {:induction false} ValueReads(v: Value, after: seq<string>)
    requires v.Num? ==> NoReference(after)
    ensures ParseValue(TokensOf(v) + after) == Some((v, after))
    decreases v, 0
  {
    var ts := TokensOf(v) + after;
    match v
    case Name(name) =>
      assert ts[0] == "/" + name && ts[1..] == after && ts[0][1..] == name;
    case Num(n) =>
      NumeralReads(n);
      assert ts[0] == NatToString(n) && ts[1..] == after;
    case Ref(n, g) => ReferenceReads(n, g, after);
    case Arr(items) =>
      ItemsRead(items, after);
      assert ts[0] == "[" && ts[1..] == TokensOfItems(items) + after;
    case Dict(pairs) =>
      PairsRead(pairs, after);
      assert ts[0] == "<<" && ts[1..] == TokensOfPairs(pairs) + after;
  }

  lemma ReferenceReads(n: nat, g: nat, after: seq<string>)
    ensures ParseValue(TokensOf(Ref(n, g)) + after) == Some((Ref(n, g), after))
  {
    var ts := TokensOf(Ref(n, g)) + after;
    NumeralReads(n);
    NumeralReads(g);
    assert ts[0] == NatToString(n) && ts[1] == NatToString(g) && ts[2] == "R" && ts[3..] == after;
  }

  lemma {:induction false} ItemsRead(items: Items, after: seq<string>)
    ensures ParseItems(TokensOfItems(items) + after) == Some((items, after))
    decreases items, 1
  {
    var ts := TokensOfItems(items) + after;
    match items
    case NoItems => assert ts[0] == "]" && ts[1..] == after;
    case Item(head, tail) =>
      var later := TokensOfItems(tail) + after;
      assert ts == TokensOf(head) + later;
      ItemsAreNoReference(tail, after);
      ValueReads(head, later);
      ItemsRead(tail, after);
      FirstToken(head);
      assert ts[0] == TokensOf(head)[0];
  }

  lemma {:induction false} PairsRead(pairs: Pairs, after: seq<string>)
    ensures ParsePairs(TokensOfPairs(pairs) + after) == Some((pairs, after))
    decreases pairs, 1
  {
    var ts := TokensOfPairs(pairs) + after;
    match pairs
    case NoPairs => assert ts[0] == ">>" && ts[1..] == after;
    case Pair(key, value, tail) =>
      var later := TokensOfPairs(tail) + after;
      assert ts[0] == "/" + key && ts[0][1..] == key && ts[0][0] == '/';
      assert ts[1..] == TokensOf(value) + later;
      PairsAreNoReference(tail, after);
      ValueReads(value, later);
      PairsRead(tail, after);
  }

  // ---- Tokens and text ----

  predicate IsBracket(t: string) {
    t == "[" || t == "]" || t == "<<" || t == ">>"
  }

  predicate IsPlain(t: string) {
    t != "" && (t[0] == '/' || IsNameChar(t[0])) && forall i | 1 <= i < |t| :: IsNameChar(t[i])
  }

  predicate IsToken(t: string) {
    (IsBracket(t) || IsPlain(t)) && !IsKeyword(t)
  }

  predicate AllTokens(ts: seq<string>) {
    forall i | 0 <= i < |ts| :: IsToken(ts[i])
  }

  /** From `pos` the tokens `ts` are read, and reading goes on at `next`. */
  ghost predicate Reads(b: string, pos: nat, ts: seq<string>, next: nat) {
    TokensUntilKeyword(b, pos) == Prefixed(ts, TokensUntilKeyword(b, next))
  }

  lemma ReadsOn(b: string, pos: nat, ts: seq<string>, mid: nat, us: seq<string>, next: nat)
    requires Reads(b, pos, ts, mid) && Reads(b, mid, us, next)
    ensures Reads(b, pos, ts + us, next)
  {
    PrefixedTwice(ts, us, TokensUntilKeyword(b, next));
  }

  ghost predicate EndsAt(b: string, pos: nat) {
    pos >= |b| || !IsNameChar(b[pos])
  }

  /** Tokens one blank apart, but none inside array brackets. */
  function Laid(ts: seq<string>): string {
    if ts == [] then "" else if |ts| == 1 then ts[0] else ts[0] + Gap(ts[0], ts[1]) + Laid(ts[1..])
  }

  function Gap(t: string, u: string): string {
    if t == "[" || u == "]" then "" else " "
  }

  lemma {:induction false} NameCharsEndAt(b: string, pos: nat, t: string, i: nat)
    requires StartsAt(b, pos, t) && i <= |t| && EndsAt(b, pos + |t|)
    requires forall j | i <= j < |t| :: IsNameChar(t[j])
    ensures NameCharsEnd(b, pos + i) == pos + |t|
    decreases |t| - i
  {
    if i < |t| {
      assert b[pos + i] == b[pos..pos + |t|][i] == t[i];
      NameCharsEndAt(b, pos, t, i + 1);
    }
  }

  lemma TokenReads(b: string, pos: nat, t: string)
    requires StartsAt(b, pos, t) && (IsBracket(t) || (IsPlain(t) && EndsAt(b, pos + |t|)))
    ensures TokenAt(b, pos) == Some((t, pos + |t|))
  {
    assert b[pos] == b[pos..pos + |t|][0] == t[0];
    if IsPlain(t) && !IsBracket(t) {
      NameCharsEndAt(b, pos, t, if t[0] == '/' then 1 else 0);
    } else if |t| == 1 {
      assert t == [b[pos]];
    }
  }

  lemma BlankSkipped(b: string, pos: nat)
    requires pos < |b| && IsWhite(b[pos])
    ensures Reads(b, pos, [], pos + 1)
  {
    assert SkipWhite(b, pos) == SkipWhite(b, pos + 1);
    assert TokenAt(b, pos) == TokenAt(b, pos + 1);
    var later := TokensUntilKeyword(b, pos + 1);
    assert later.Some? ==> [] + later.value.0 == later.value.0;
  }

  lemma TokenThenOthers(b: string, pos: nat, t: string)
    requires StartsAt(b, pos, t) && IsToken(t) && (IsBracket(t) || EndsAt(b, pos + |t|))
    ensures Reads(b, pos, [t], pos + |t|)
  {
    TokenReads(b, pos, t);
  }

  lemma PrefixedTwice(a: seq<string>, c: seq<string>, later: Option<(seq<string>, nat)>)
    ensures Prefixed(a, Prefixed(c, later)) == Prefixed(a + c, later)
  {
    assert later.Some? ==> a + (c + later.value.0) == a + c + later.value.0;
  }

  /** What stands at a place stands there piece by piece. */
  lemma Split(b: string, pos: nat, s: string, t: string)
    requires StartsAt(b, pos, s + t)
    ensures StartsAt(b, pos, s) && StartsAt(b, pos + |s|, t)
  {
    assert b[pos..pos + |s|] == (s + t)[..|s|];
    assert b[pos + |s|..pos + |s + t|] == (s + t)[|s|..];
  }

  lemma GapReads(b: string, pos: nat, t: string, u: string, others: string, next: nat)
    requires IsToken(t) && IsToken(u) && StartsAt(b, pos, t + Gap(t, u) + others)
    requires others != "" && others[0] == u[0] && next == pos + |t + Gap(t, u)|
    ensures Reads(b, pos, [t], next)
    ensures StartsAt(b, next, others)
  {
    Split(b, pos, t + Gap(t, u), others);
    if t == "[" || u == "]" {
      assert t + Gap(t, u) == t;
      TokenBracket(b, pos, t, u, others);
    } else {
      Split(b, pos, t, " ");
      TokenBlank(b, pos, t, pos + |t|, next);
    }
  }

  lemma BlankThere(b: string, pos: nat)
    requires StartsAt(b, pos, " ")
    ensures pos < |b| && IsWhite(b[pos])
  {
    assert b[pos] == b[pos..pos + 1][0] == ' ';
  }

  lemma TokenBlank(b: string, pos: nat, t: string, mid: nat, next: nat)
    requires IsToken(t) && mid == pos + |t| && next == mid + 1
    requires StartsAt(b, pos, t) && StartsAt(b, mid, " ")
    ensures Reads(b, pos, [t], next)
  {
    BlankThere(b, mid);
    TokenThenOthers(b, pos, t);
    BlankSkipped(b, mid);
    ThenNothing(b, pos, [t], mid, next);
  }

  lemma NothingAdded(ts: seq<string>)
    ensures ts + [] == ts
  {}

  lemma ThenNothing(b: string, pos: nat, ts: seq<string>, mid: nat, next: nat)
    requires Reads(b, pos, ts, mid) && Reads(b, mid, [], next)
    ensures Reads(b, pos, ts, next)
  {
    ReadsOn(b, pos, ts, mid, [], next);
    NothingAdded(ts);
  }

  lemma TokenBracket(b: string, pos: nat, t: string, u: string, others: string)
    requires IsToken(t) && IsToken(u) && Gap(t, u) == "" && others != "" && others[0] == u[0]
    requires StartsAt(b, pos, t) && StartsAt(b, pos + |t|, others)
    ensures Reads(b, pos, [t], pos + |t|)
  {
    var p := pos + |t|;
    assert b[p] == b[p..p + |others|][0] == u[0];
    TokenThenOthers(b, pos, t);
  }

  lemma FirstOfLaid(ts: seq<string>)
    requires ts != [] && ts[0] != ""
    ensures Laid(ts) != "" && Laid(ts)[0] == ts[0][0]
  {}

  /** Laid-out tokens read back one by one. */
  lemma {:induction false} LaidReads(b: string, pos: nat, ts: seq<string>, next: nat)
    requires ts != [] && AllTokens(ts) && next == pos + |Laid(ts)|
    requires StartsAt(b, pos, Laid(ts)) && EndsAt(b, next)
    ensures Reads(b, pos, ts, next)
    decreases |ts|
  {
    if |ts| == 1 {
      assert ts == [ts[0]];
      TokenThenOthers(b, pos, ts[0]);
    } else {
      var mid := pos + |ts[0] + Gap(ts[0], ts[1])|;
      FirstLaidReads(b, pos, ts, mid, next);
      LaidReads(b, mid, ts[1..], next);
      ReadsOn(b, pos, [ts[0]], mid, ts[1..], next);
      FirstAndOthers(ts);
    }
  }

  lemma FirstAndOthers(ts: seq<string>)
    requires ts != []
    ensures [ts[0]] + ts[1..] == ts
  {}

  lemma FirstLaidReads(b: string, pos: nat, ts: seq<string>, mid: nat, next: nat)
    requires |ts| >= 2 && AllTokens(ts) && StartsAt(b, pos, Laid(ts)) && next == pos + |Laid(ts)|
    requires mid == pos + |ts[0] + Gap(ts[0], ts[1])|
    ensures Reads(b, pos, [ts[0]], mid)
    ensures AllTokens(ts[1..]) && StartsAt(b, mid, Laid(ts[1..])) && next == mid + |Laid(ts[1..])|
  {
    FirstOfLaid(ts[1..]);
    GapReads(b, pos, ts[0], ts[1], Laid(ts[1..]), mid);
  }

  lemma LineEndSkipped(b: string, pos: nat)
    requires StartsAt(b, pos, "\n")
    ensures EndsAt(b, pos) && Reads(b, pos, [], pos + 1)
  {
    assert b[pos] == b[pos..pos + 1][0] == '\n';
    BlankSkipped(b, pos);
  }

  lemma KeywordReads(b: string, pos: nat, keyword: string)
    requires IsKeyword(keyword) && StartsAt(b, pos, keyword) && EndsAt(b, pos + |keyword|)
    ensures TokensUntilKeyword(b, pos) == Some(([keyword], pos + |keyword|))
  {
    TokenReads(b, pos, keyword);
  }

  lemma LastLineReads(b: string, pos: nat, keyword: string, next: nat)
    requires IsKeyword(keyword) && StartsAt(b, pos, keyword + "\n") && next == pos + |keyword|
    ensures TokensUntilKeyword(b, pos) == Some(([keyword], next))
  {
    Split(b, pos, keyword, "\n");
    LineEndSkipped(b, next);
    KeywordReads(b, pos, keyword);
  }

  /** Two lines of tokens and a keyword on a third. */
  lemma LinesRead(b: string, pos: nat, head: seq<string>, body: seq<string>, keyword: string, next: nat)
    requires head != [] && AllTokens(head) && body != [] && AllTokens(body) && IsKeyword(keyword)
    requires StartsAt(b, pos, Laid(head) + ("\n" + (Laid(body) + ("\n" + (keyword + "\n")))))
    requires next == pos + |Laid(head)| + 1 + |Laid(body)| + 1 + |keyword|
    ensures TokensUntilKeyword(b, pos) == Some((head + body + [keyword], next))
  {
    var mid := pos + |Laid(head)| + 1;
    var last := mid + |Laid(body)| + 1;
    TwoLinesRead(b, pos, head, body, keyword + "\n", mid, last);
    LastLineReads(b, last, keyword, next);
    KeywordEnds(b, pos, head + body, last, keyword, next);
  }

  lemma KeywordEnds(b: string, pos: nat, ts: seq<string>, mid: nat, keyword: string, next: nat)
    requires Reads(b, pos, ts, mid) && TokensUntilKeyword(b, mid) == Some(([keyword], next))
    ensures TokensUntilKeyword(b, pos) == Some((ts + [keyword], next))
  {}

  lemma TwoLinesRead(b: string, pos: nat, head: seq<string>, body: seq<string>, last: string, mid: nat, next: nat)
    requires head != [] && AllTokens(head) && body != [] && AllTokens(body)
    requires StartsAt(b, pos, Laid(head) + ("\n" + (Laid(body) + ("\n" + last))))
    requires mid == pos + |Laid(head)| + 1 && next == mid + |Laid(body)| + 1
    ensures Reads(b, pos, head + body, next)
    ensures StartsAt(b, next, last)
  {
    LineReads(b, pos, head, Laid(body) + ("\n" + last), mid);
    LineReads(b, mid, body, last, next);
    ReadsOn(b, pos, head, mid, body, next);
  }

  lemma LineReads(b: string, pos: nat, ts: seq<string>, others: string, next: nat)
    requires ts != [] && AllTokens(ts)
    requires StartsAt(b, pos, Laid(ts) + ("\n" + others))
    requires next == pos + |Laid(ts)| + 1
    ensures Reads(b, pos, ts, next)
    ensures StartsAt(b, next, others)
  {
    Split(b, pos, Laid(ts), "\n" + others);
    Split(b, pos + |Laid(ts)|, "\n", others);
    LineEndSkipped(b, pos + |Laid(ts)|);
    LaidReads(b, pos, ts, pos + |Laid(ts)|);
    ThenNothing(b, pos, ts, pos + |Laid(ts)|, next);
  }

  // ---- Values whose names are plain ----

  predicate PlainName(s: string) {
    forall i | 0 <= i < |s| :: IsNameChar(s[i]) && s[i] as int < 128
  }

  predicate PlainValue(v: Value) {
    match v
    case Name(name) => PlainName(name)
    case Arr(items) => PlainItems(items)
    case Dict(pairs) => PlainPairs(pairs)
    case _ => true
  }

  predicate PlainItems(items: Items) {
    items.NoItems? || (PlainValue(items.head) && PlainItems(items.tail))
  }

  predicate PlainPairs(pairs: Pairs) {
    pairs.NoPairs? || (PlainName(pairs.key) && PlainValue(pairs.value) && PlainPairs(pairs.tail))
  }

  lemma NumeralIsToken(n: nat)
    ensures IsToken(NatToString(n))
  {
    var s := NatToString(n);
    assert forall i | 0 <= i < |s| :: IsDigit(s[i]);
    assert IsDigit(s[0]);
  }

  lemma NameIsToken(name: string)
    requires PlainName(name)
    ensures IsToken("/" + name)
  {
    assert ("/" + name)[0] == '/';
  }

  lemma {:induction false} ValueTokens(v: Value)
    requires PlainValue(v)
    ensures AllTokens(TokensOf(v))
    decreases v, 0
  {
    match v
    case Name(name) => NameIsToken(name);
    case Num(n) => NumeralIsToken(n);
    case Ref(n, g) =>
      NumeralIsToken(n);
      NumeralIsToken(g);
      assert IsNameChar("R"[0]);
    case Arr(items) => ItemTokens(items);
    case Dict(pairs) => PairTokens(pairs);
  }

  lemma {:induction false} ItemTokens(items: Items)
    requires PlainItems(items)
    ensures AllTokens(TokensOfItems(items))
    decreases items, 1
  {
    if items.Item? {
      ValueTokens(items.head);
      ItemTokens(items.tail);
    }
  }

  lemma {:induction false} PairTokens(pairs: Pairs)
    requires PlainPairs(pairs)
    ensures AllTokens(TokensOfPairs(pairs))
    decreases pairs, 1
  {
    if pairs.Pair? {
      NameIsToken(pairs.key);
      ValueTokens(pairs.value);
      PairTokens(pairs.tail);
    }
  }

  // ---- The text of a value ----

  function Text(v: Value): string {
    match v
    case Name(name) => "/" + name
    case Num(n) => NatToString(n)
    case Ref(number, generation) => NatToString(number) + " " + NatToString(generation) + " R"
    case Arr(items) => "[" + TextOfItems(items)
    case Dict(entries) => "<<" + TextOfPairs(entries)
  }

  function TextOfItems(items: Items): string {
    match items
    case NoItems => "]"
    case Item(head, tail) => Text(head) + (if tail.NoItems? then "]" else " " + TextOfItems(tail))
  }

  function TextOfPairs(pairs: Pairs): string {
    match pairs
    case NoPairs => " >>"
    case Pair(key, value, tail) => " /" + key + " " + Text(value) + TextOfPairs(tail)
  }

  lemma {:induction false} LaidConcat(ts: seq<string>, us: seq<string>)
    requires ts != [] && us != []
    ensures Laid(ts + us) == Laid(ts) + Gap(ts[|ts| - 1], us[0]) + Laid(us)
  {
    var all := ts + us;
    if |ts| == 1 {
      assert all[1..] == us;
    } else {
      LaidConcat(ts[1..], us);
      FirstOfConcat(ts, us);
      FiveParts(ts[0], Gap(ts[0], ts[1]), Laid(ts[1..]), Gap(ts[|ts| - 1], us[0]), Laid(us));
    }
  }

  lemma FirstOfConcat(ts: seq<string>, us: seq<string>)
    requires |ts| >= 2
    ensures Laid(ts + us) == ts[0] + Gap(ts[0], ts[1]) + Laid(ts[1..] + us)
    ensures ts[1..][|ts[1..]| - 1] == ts[|ts| - 1]
  {
    var all := ts + us;
    assert all[1..] == ts[1..] + us && all[1] == ts[1] && all[0] == ts[0];
  }

  lemma FiveParts(a: string, b: string, c: string, d: string, e: string)
    ensures a + b + (c + d + e) == (a + b + c) + d + e
  {}

  /** Neither end of a value's tokens is a bracket that swallows a blank. */
  lemma {:induction false} OuterTokens(v: Value)
    ensures TokensOf(v)[0] != "]" && TokensOf(v)[|TokensOf(v)| - 1] != "["
    ensures TokensOf(v)[0] == "[" <==> v.Arr?
  {
    match v
    case Name(name) => assert ("/" + name)[0] == '/';
    case Num(n) => NumeralReads(n);
    case Ref(n, _) => NumeralReads(n);
    case Arr(items) => LastOfItems(items);
    case Dict(pairs) => LastOfPairs(pairs);
  }

  lemma {:induction false} LastOfItems(items: Items)
    ensures TokensOfItems(items)[|TokensOfItems(items)| - 1] == "]"
  {
    if items.Item? {
      LastOfItems(items.tail);
    }
  }

  lemma {:induction false} LastOfPairs(pairs: Pairs)
    ensures TokensOfPairs(pairs)[|TokensOfPairs(pairs)| - 1] == ">>"
  {
    if pairs.Pair? {
      LastOfPairs(pairs.tail);
    }
  }

  lemma FirstOfPairs(pairs: Pairs)
    ensures TokensOfPairs(pairs)[0] != "]"
  {
    if pairs.Pair? {
      assert ("/" + pairs.key)[0] == '/';
    }
  }

  lemma FirstOfItems(items: Items)
    ensures TokensOfItems(items)[0] == "]" <==> items.NoItems?
  {
    if items.Item? {
      OuterTokens(items.head);
    }
  }

  /** A value's text is its tokens laid out. */
  lemma {:induction false} TextIsLaid(v: Value)
    ensures Laid(TokensOf(v)) == Text(v)
    decreases v, 0
  {
    match v
    case Name(_) =>
    case Num(_) =>
    case Ref(n, g) => ReferenceIsLaid(NatToString(n), NatToString(g), n, g);
    case Arr(items) =>
      LaidConcat(["["], TokensOfItems(items));
      ItemsAreLaid(items);
    case Dict(pairs) =>
      LaidConcat(["<<"], TokensOfPairs(pairs));
      FirstOfPairs(pairs);
      PairsAreLaid(pairs);
  }

  lemma ReferenceIsLaid(number: string, generation: string, n: nat, g: nat)
    requires number == NatToString(n) && generation == NatToString(g)
    ensures Laid([number, generation, "R"]) == number + " " + generation + " R"
  {
    NumeralReads(n);
    NumeralReads(g);
    LaidConcat([number], [generation]);
    LaidConcat([number] + [generation], ["R"]);
    assert [number] + [generation] + ["R"] == [number, generation, "R"];
  }

  lemma {:induction false} ItemsAreLaid(items: Items)
    ensures Laid(TokensOfItems(items)) == TextOfItems(items)
    decreases items, 1
  {
    if items.Item? {
      TextIsLaid(items.head);
      ItemsAreLaid(items.tail);
      LaidConcat(TokensOf(items.head), TokensOfItems(items.tail));
      OuterTokens(items.head);
      FirstOfItems(items.tail);
    }
  }

  lemma {:induction false} PairsAreLaid(pairs: Pairs)
    ensures " " + Laid(TokensOfPairs(pairs)) == TextOfPairs(pairs)
    decreases pairs, 1
  {
    if pairs.Pair? {
      var key, value := "/" + pairs.key, TokensOf(pairs.value);
      TextIsLaid(pairs.value);
      PairsAreLaid(pairs.tail);
      OuterTokens(pairs.value);
      FirstOfPairs(pairs.tail);
      LaidConcat([key], value);
      LaidConcat([key] + value, TokensOfPairs(pairs.tail));
      assert key[0] == '/';
      PairParts(pairs.key, Text(pairs.value), Laid(TokensOfPairs(pairs.tail)));
    }
  }

  lemma PairParts(key: string, value: string, tail: string)
    ensures " " + ("/" + key + " " + value + " " + tail) == " /" + key + " " + value + (" " + tail)
  {}

  lemma {:induction false} TextIsAscii(v: Value)
    requires PlainValue(v)
    ensures IsAscii(Text(v))
    decreases v, 0
  {
    match v
    case Name(_) =>
    case Num(n) => NumeralIsAscii(n);
    case Ref(n, g) =>
      NumeralIsAscii(n);
      NumeralIsAscii(g);
    case Arr(items) => ItemsAreAscii(items);
    case Dict(pairs) => PairsAreAscii(pairs);
  }

  lemma {:induction false} ItemsAreAscii(items: Items)
    requires PlainItems(items)
    ensures IsAscii(TextOfItems(items))
    decreases items, 1
  {
    if items.Item? {
      TextIsAscii(items.head);
      ItemsAreAscii(items.tail);
    }
  }

  lemma {:induction false} PairsAreAscii(pairs: Pairs)
    requires PlainPairs(pairs)
    ensures IsAscii(TextOfPairs(pairs))
    decreases pairs, 1
  {
    if pairs.Pair? {
      TextIsAscii(pairs.value);
      PairsAreAscii(pairs.tail);
    }
  }

  lemma NumeralIsAscii(n: nat)
    ensures IsAscii(NatToString(n))
  {
    var s := NatToString(n);
    assert forall i | 0 <= i < |s| :: IsDigit(s[i]);
  }

  lemma HeadTokens(number: nat)
    ensures Laid([NatToString(number), "0", "obj"]) == NatToString(number) + " 0 obj"
    ensures AllTokens([NatToString(number), "0", "obj"])
  {
    NumeralIsToken(number);
    NumeralIsToken(0);
    assert [NatToString(number), "0", "obj"][1..] == ["0", "obj"] && ["0", "obj"][1..] == ["obj"];
    assert forall i | 0 <= i < 3 :: IsNameChar("obj"[i]);
  }

  /** An indirect object written on three lines reads back. */
  lemma ObjectReads(b: string, pos: nat, number: nat, v: Value, keyword: string)
    requires PlainValue(v) && (keyword == "endobj" || keyword == "stream")
    requires StartsAt(b, pos, NatToString(number) + " 0 obj" + ("\n" + (Text(v) + ("\n" + (keyword + "\n")))))
    ensures ObjectAt(b, pos, number, 0)
            == Some(Found(v, keyword, pos + |NatToString(number) + " 0 obj"| + 1 + |Text(v)| + 1 + |keyword|))
  {
    var head := [NatToString(number), "0", "obj"];
    HeadTokens(number);
    ValueTokens(v);
    TextIsLaid(v);
    var next := pos + |NatToString(number) + " 0 obj"| + 1 + |Text(v)| + 1 + |keyword|;
    LinesRead(b, pos, head, TokensOf(v), keyword, next);
    ObjectFromTokens(b, pos, number, v, keyword, next);
  }

  lemma ObjectFromTokens(b: string, pos: nat, number: nat, v: Value, keyword: string, next: nat)
    requires TokensUntilKeyword(b, pos)
             == Some(([NatToString(number), "0", "obj"] + TokensOf(v) + [keyword], next))
    ensures ObjectAt(b, pos, number, 0) == Some(Found(v, keyword, next))
  {
    var head := [NatToString(number), "0", "obj"];
    var ts := head + TokensOf(v) + [keyword];
    assert ts[3..] == TokensOf(v) + [keyword];
    assert ts[0] == head[0] && ts[1] == head[1] && ts[2] == head[2];
    NumeralReads(number);
    NumeralReads(0);
    ValueReads(v, [keyword]);
  }

  lemma TrailerReads(b: string, pos: nat, v: Value)
    requires PlainValue(v)
    requires StartsAt(b, pos, "trailer" + ("\n" + (Text(v) + ("\n" + ("startxref" + "\n")))))
    ensures TrailerAt(b, pos).Some? && TrailerAt(b, pos).value.value == v
    ensures TrailerAt(b, pos).value.keyword == "startxref"
  {
    assert forall i | 0 <= i < 7 :: IsNameChar("trailer"[i]);
    assert Laid(["trailer"]) == "trailer";
    ValueTokens(v);
    TextIsLaid(v);
    LinesRead(b, pos, ["trailer"], TokensOf(v), "startxref",
              pos + |"trailer"| + 1 + |Text(v)| + 1 + |"startxref"|);
    var ts := ["trailer"] + TokensOf(v) + ["startxref"];
    assert ts[1..] == TokensOf(v) + ["startxref"] && ts[0] == "trailer";
    ValueReads(v, ["startxref"]);
  }
}
