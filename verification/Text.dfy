/** Characters, words and decimal numbers as the text formats use them. */
module Text {
  import opened Types
  import opened Rules

  function FileChar(f: int): char
    requires 0 <= f < 8
  {
    ('a' as int + f) as char
  }

  function RankChar(r: int): char
    requires 0 <= r < 8
  {
    ('1' as int + r) as char
  }

  /** 0-7 for 'a'-'h', otherwise out of that range. */
  function FileIndex(c: char): int {
    c as int - 'a' as int
  }

  /** 0-7 for '1'-'8', otherwise out of that range. */
  function RankIndex(c: char): int {
    c as int - '1' as int
  }

  function SquareName(s: Square): (t: string)
    ensures |t| == 2
  {
    [FileChar(File(s)), RankChar(Rank(s))]
  }

  /** The square a two-character name stands for. */
  function SquareOf(t: string): Option<Square> {
    if |t| == 2 && OnBoard(RankIndex(t[1]), FileIndex(t[0])) then Some(At(RankIndex(t[1]), FileIndex(t[0]))) else None
  }

  lemma SquareNameRoundTrip(s: Square)
    ensures SquareOf(SquareName(s)) == Some(s)
  {
  }

  predicate IsUpper(c: char) {
    'A' <= c <= 'Z'
  }

  predicate IsDigit(c: char) {
    '0' <= c <= '9'
  }

  function Lower(c: char): char {
    if IsUpper(c) then (c as int + 32) as char else c
  }

  // ---------------------------------------------------------------- words

  predicate IsSpace(c: char) {
    c == ' ' || c == '\t' || c == '\n' || c == '\r' || c as int == 11 || c as int == 12
  }

  predicate IsWord(w: string) {
    w != "" && forall i :: 0 <= i < |w| ==> !IsSpace(w[i])
  }

  function SkipSpaces(s: string, i: nat): (j: nat)
    requires i <= |s|
    ensures i <= j <= |s|
    ensures forall k :: i <= k < j ==> IsSpace(s[k])
    ensures j < |s| ==> !IsSpace(s[j])
    decreases |s| - i
  {
    if i < |s| && IsSpace(s[i]) then SkipSpaces(s, i + 1) else i
  }

  function WordEnd(s: string, i: nat): (j: nat)
    requires i <= |s|
    ensures i <= j <= |s|
    ensures forall k :: i <= k < j ==> !IsSpace(s[k])
    ensures j < |s| ==> IsSpace(s[j])
    decreases |s| - i
  {
    if i < |s| && !IsSpace(s[i]) then WordEnd(s, i + 1) else i
  }

  /** The whitespace-separated words from position `i` on. */
  function Words(s: string, i: nat := 0): (ws: seq<string>)
    requires i <= |s|
    ensures forall k :: 0 <= k < |ws| ==> IsWord(ws[k])
    decreases |s| - i
  {
    var a := SkipSpaces(s, i);
    if a == |s| then [] else
      var e := WordEnd(s, a);
      [s[a..e]] + Words(s, e)
  }

  /** Words joined with single spaces. */
  function Join(ws: seq<string>): string {
    if ws == [] then "" else if |ws| == 1 then ws[0] else ws[0] + " " + Join(ws[1..])
  }

  /** Reading the next word of a stream, as `stream >> word` does. */
  method NextWord(s: string, i: nat) returns (w: string, next: nat)
    requires i <= |s|
    ensures i <= next <= |s|
    ensures Words(s, i) == if w == "" then [] else [w] + Words(s, next)
    ensures w != "" ==> i < next
  {
    next := i;
    while next < |s| && IsSpace(s[next])
      invariant i <= next <= |s| && SkipSpaces(s, i) == SkipSpaces(s, next)
    {
      next := next + 1;
    }
    var start := next;
    w := "";
    while next < |s| && !IsSpace(s[next])
      invariant start <= next <= |s| && w == s[start..next]
      invariant WordEnd(s, start) == WordEnd(s, next)
    {
      w := w + [s[next]];
      next := next + 1;
    }
  }

  /** All words of a text. */
  method Split(s: string) returns (ws: seq<string>)
    ensures ws == Words(s)
  {
    ws := [];
    var i := 0;
    var w, next := NextWord(s, 0);
    while w != ""
      invariant 0 <= i <= |s| && i <= next <= |s|
      invariant Words(s, i) == if w == "" then [] else [w] + Words(s, next)
      invariant w != "" ==> i < next
      invariant ws + Words(s, i) == Words(s)
      decreases |s| - i
    {
      ws := ws + [w];
      i := next;
      w, next := NextWord(s, i);
    }
  }

  lemma {:induction false} WordEndOf(s: string, i: nat, e: nat)
    requires i <= e <= |s|
    requires forall k :: i <= k < e ==> !IsSpace(s[k])
    requires e == |s| || IsSpace(s[e])
    ensures WordEnd(s, i) == e
    decreases e - i
  {
    if i < e {
      WordEndOf(s, i + 1, e);
    }
  }

  /** Reading the words from position `i` depends only on the text from there. */
  lemma {:induction false} WordsOfSuffix(s: string, i: nat)
    requires i <= |s|
    ensures Words(s, i) == Words(s[i..])
    decreases |s| - i
  {
    var t := s[i..];
    var a := SkipSpaces(s, i);
    SkipSpacesOf(t, 0, a - i);
    if a < |s| {
      var e := WordEnd(s, a);
      WordEndOf(t, a - i, e - i);
      assert t[a - i..e - i] == s[a..e];
      WordsOfSuffix(s, e);
      WordsOfSuffix(t, e - i);
      assert t[e - i..] == s[e..];
    }
  }

  lemma {:induction false} SkipSpacesOf(s: string, i: nat, e: nat)
    requires i <= e <= |s|
    requires forall k :: i <= k < e ==> IsSpace(s[k])
    requires e == |s| || !IsSpace(s[e])
    ensures SkipSpaces(s, i) == e
    decreases e - i
  {
    if i < e {
      SkipSpacesOf(s, i + 1, e);
    }
  }

  /** A text that starts with a word and a space: the word, then the words of the rest. */
  lemma WordThenRest(s: string, w: string, rest: string)
    requires IsWord(w) && s == w + " " + rest
    ensures Words(s) == [w] + Words(rest)
  {
    hide Words, IsWord;
    var n := |w|;
    assert s[n] == ' ';
    assert s[..n] == w;
    LeadingWord(s, w);
    LeadingSpace(s, n);
    assert s[n + 1..] == rest;
    WordsOfSuffix(s, n + 1);
  }

  lemma LeadingWord(s: string, w: string)
    requires IsWord(w) && |w| <= |s| && s[..|w|] == w && (|w| == |s| || IsSpace(s[|w|]))
    ensures Words(s) == [w] + Words(s, |w|)
  {
    forall k | 0 <= k < |w|
      ensures !IsSpace(s[k])
    {
      assert s[k] == w[k];
    }
    SkipSpacesOf(s, 0, 0);
    WordEndOf(s, 0, |w|);
  }

  lemma NoWordsAtEnd(s: string)
    ensures Words(s, |s|) == []
  {
  }

  /** Splitting undoes joining. */
  lemma {:induction false} SplitUndoesJoin(ws: seq<string>)
    requires forall i :: 0 <= i < |ws| ==> IsWord(ws[i])
    ensures Words(Join(ws)) == ws
  {
    hide Words, IsWord, IsSpace;
    if ws == [] {
      NoWordsAtEnd("");
    } else if |ws| == 1 {
      LeadingWord(ws[0], ws[0]);
      NoWordsAtEnd(ws[0]);
    } else {
      SplitUndoesJoin(ws[1..]);
      assert Join(ws) == ws[0] + " " + Join(ws[1..]);
      WordThenRest(Join(ws), ws[0], Join(ws[1..]));
    }
  }

  lemma LeadingSpace(s: string, i: nat)
    requires i < |s| && IsSpace(s[i])
    ensures Words(s, i) == Words(s, i + 1)
  {
  }

  // ---------------------------------------------------------------- decimal numbers

  function DigitChar(d: int): char
    requires 0 <= d < 10
  {
    ('0' as int + d) as char
  }

  /** `std::to_string` of a non-negative number. */
  function Decimal(n: nat): (t: string)
    ensures t != "" && forall i :: 0 <= i < |t| ==> IsDigit(t[i])
  {
    if n < 10 then [DigitChar(n)] else Decimal(n / 10) + [DigitChar(n % 10)]
  }

  /** The value of a string of digits. */
  function DecimalValue(t: string): nat
    requires forall i :: 0 <= i < |t| ==> IsDigit(t[i])
  {
    if t == "" then 0 else
      assert IsDigit(t[|t| - 1]);
      10 * DecimalValue(t[..|t| - 1]) + (t[|t| - 1] as int - '0' as int)
  }

  lemma {:induction false} DecimalRoundTrip(n: nat)
    ensures DecimalValue(Decimal(n)) == n
  {
    if n >= 10 {
      DecimalRoundTrip(n / 10);
      var t := Decimal(n);
      assert t[..|t| - 1] == Decimal(n / 10);
    } else {
      assert DecimalValue(Decimal(n)[..0]) == 0;
    }
  }
}
