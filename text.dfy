/**
 * The string operations of JavaScript that the bots use, on Dafny strings.
 * A character is one Unicode code point; lowercasing is ASCII lowercasing.
 */
module Text {
  import opened Wrappers

  // ---------------------------------------------------------------------------
  // Characters
  // ---------------------------------------------------------------------------

  /** The characters of the regular-expression class `\s`, which are also the ones `trim()` removes. */
  predicate IsSpace(c: char) {
    c == ' ' || c == '\t' || c == '\n' || c == '\r' || c == '\U{B}' || c == '\U{C}' ||
    c == '\U{A0}' || c == '\U{1680}' || ('\U{2000}' <= c <= '\U{200A}') ||
    c == '\U{2028}' || c == '\U{2029}' || c == '\U{202F}' || c == '\U{205F}' ||
    c == '\U{3000}' || c == '\U{FEFF}'
  }

  predicate IsDigit(c: char) { '0' <= c <= '9' }

  predicate IsUpper(c: char) { 'A' <= c <= 'Z' }

  /** The class `[a-zA-Z0-9]`. */
  predicate IsAlnum(c: char) { 'a' <= c <= 'z' || IsUpper(c) || IsDigit(c) }

  /** `toLowerCase()` on one character, restricted to ASCII. */
  function LowerChar(c: char): (r: char)
    ensures !IsUpper(r)
    ensures !IsUpper(c) ==> r == c
  {
    if IsUpper(c) then (c as int + 32) as char else c
  }

  predicate NoSpace(s: string) { forall k :: 0 <= k < |s| ==> !IsSpace(s[k]) }

  predicate AllSpace(s: string) { forall k :: 0 <= k < |s| ==> IsSpace(s[k]) }

  predicate IsLowerString(s: string) { forall k :: 0 <= k < |s| ==> !IsUpper(s[k]) }

  // ---------------------------------------------------------------------------
  // Lowercasing, prefixes, substrings
  // ---------------------------------------------------------------------------

  /** `toLowerCase()` with ASCII case mapping. */
  function Lower(s: string): (r: string)
    ensures |r| == |s|
    ensures forall k :: 0 <= k < |s| ==> r[k] == LowerChar(s[k])
  {
    if s == [] then [] else [LowerChar(s[0])] + Lower(s[1..])
  }

  lemma LowerIsLower(s: string)
    ensures IsLowerString(Lower(s))
  {
  }

  lemma LowerOfLower(s: string)
    requires IsLowerString(s)
    ensures Lower(s) == s
  {
  }

  lemma LowerAppend(a: string, b: string)
    ensures Lower(a + b) == Lower(a) + Lower(b)
  {
  }

  /** `s.startsWith(p)`. */
  predicate StartsWith(s: string, p: string) {
    |p| <= |s| && s[..|p|] == p
  }

  /** A prefix stays a prefix when text is appended. */
  lemma StartsWithExtend(s: string, t: string, p: string)
    requires StartsWith(s, p)
    ensures StartsWith(s + t, p)
  {
    assert (s + t)[..|p|] == s[..|p|];
  }

  /** `s.includes(sub)`; every string includes the empty string. */
  predicate Contains(s: string, sub: string) {
    exists i :: 0 <= i <= |s| - |sub| && OccursAt(s, sub, i)
  }

  /** sub occurs in s starting at position i. */
  predicate OccursAt(s: string, sub: string, i: int) {
    0 <= i <= |s| - |sub| && s[i..i + |sub|] == sub
  }

  /** Two pieces that occur one after the other occur together. */
  lemma OccursAtConcat(s: string, a: string, b: string, i: nat)
    requires OccursAt(s, a, i) && OccursAt(s, b, i + |a|)
    ensures OccursAt(s, a + b, i)
  {
    assert s[i..i + |a + b|] == s[i..i + |a|] + s[i + |a|..i + |a| + |b|];
  }

  /** Case-insensitive `includes`: `s.toLowerCase().includes(sub.toLowerCase())`. */
  predicate ContainsIgnoringCase(s: string, sub: string) {
    Contains(Lower(s), Lower(sub))
  }

  /** `str.slice(start, end)`: negative positions count from the end, out-of-range ones are clamped. */
  function SlicePos(i: int, len: nat): (r: nat)
    ensures r <= len
    ensures 0 <= i <= len ==> r == i
  {
    if i < 0 then (if len + i < 0 then 0 else len + i) else if i > len then len else i
  }

  function JsSlice<T>(s: seq<T>, start: int, end: int): (r: seq<T>)
    ensures 0 <= start <= end <= |s| ==> r == s[start..end]
    ensures 0 <= start <= |s| <= end ==> r == s[start..]
    ensures |r| <= |s|
  {
    var a := SlicePos(start, |s|);
    var b := SlicePos(end, |s|);
    if a < b then s[a..b] else []
  }

  // ---------------------------------------------------------------------------
  // Trimming
  // ---------------------------------------------------------------------------

  /** `trimStart()`: the suffix left after the leading whitespace. */
  function TrimStart(s: string): (r: string)
    ensures |r| <= |s|
    ensures AllSpace(s[..|s| - |r|])
    ensures r != [] ==> !IsSpace(r[0])
  {
    if s != [] && IsSpace(s[0]) then TrimStart(s[1..]) else s
  }

  /** `trimEnd()`: the prefix left before the trailing whitespace. */
  function TrimEnd(s: string): (r: string)
    ensures |r| <= |s|
    ensures AllSpace(s[|r|..])
    ensures r != [] ==> !IsSpace(r[|r| - 1])
  {
    if s != [] && IsSpace(s[|s| - 1]) then TrimEnd(s[..|s| - 1]) else s
  }

  /** What trimStart leaves is a suffix of its input. */
  lemma {:induction false} TrimStartSuffix(s: string)
    ensures TrimStart(s) == s[|s| - |TrimStart(s)|..]
  {
    if s != [] && IsSpace(s[0]) {
      TrimStartSuffix(s[1..]);
    }
  }

  /** What trimEnd leaves is a prefix of its input. */
  lemma {:induction false} TrimEndPrefix(s: string)
    ensures TrimEnd(s) == s[..|TrimEnd(s)|]
  {
    if s != [] && IsSpace(s[|s| - 1]) {
      TrimEndPrefix(s[..|s| - 1]);
    }
  }

  /** `trim()`. */
  function Trim(s: string): (r: string)
    ensures r != [] ==> !IsSpace(r[0]) && !IsSpace(r[|r| - 1])
    ensures |r| <= |s|
  {
    TrimEndPrefix(TrimStart(s));
    TrimEnd(TrimStart(s))
  }

  lemma TrimStartNoop(s: string)
    requires s == [] || !IsSpace(s[0])
    ensures TrimStart(s) == s
  {
  }

  lemma TrimEndNoop(s: string)
    requires s == [] || !IsSpace(s[|s| - 1])
    ensures TrimEnd(s) == s
  {
  }

  /** A string that neither starts nor ends with whitespace is its own trim. */
  lemma TrimNoop(s: string)
    requires s == [] || (!IsSpace(s[0]) && !IsSpace(s[|s| - 1]))
    ensures Trim(s) == s
  {
    TrimStartNoop(s);
    TrimEndNoop(s);
  }

  lemma TrimIdempotent(s: string)
    ensures Trim(Trim(s)) == Trim(s)
  {
    TrimNoop(Trim(s));
  }

  lemma AllSpaceConcat(a: string, b: string)
    requires AllSpace(a) && AllSpace(b)
    ensures AllSpace(a + b)
  {
    forall k | 0 <= k < |a + b| ensures IsSpace((a + b)[k]) {
      if k < |a| {
        assert (a + b)[k] == a[k];
      } else {
        assert (a + b)[k] == b[k - |a|];
      }
    }
  }

  lemma {:induction false} TrimStartAllSpace(s: string)
    requires AllSpace(s)
    ensures TrimStart(s) == []
  {
    if s != [] {
      TrimStartAllSpace(s[1..]);
    }
  }

  /** `trim()` gives the empty string exactly for all-whitespace input. */
  lemma TrimEmptyIff(s: string)
    ensures Trim(s) == [] <==> AllSpace(s)
  {
    var t := TrimStart(s);
    if AllSpace(s) {
      TrimStartAllSpace(s);
    }
    if Trim(s) == [] {
      assert t[0..] == t;
      AllSpaceConcat(s[..|s| - |t|], t);
      assert s[..|s| - |t|] + t == s;
    }
  }

  // ---------------------------------------------------------------------------
  // Splitting on a character, joining
  // ---------------------------------------------------------------------------

  /** The position of the first occurrence of c. */
  function IndexOf(s: string, c: char): (i: nat)
    requires c in s
    ensures i < |s| && s[i] == c && c !in s[..i]
  {
    if s[0] == c then 0 else 1 + IndexOf(s[1..], c)
  }

  /** `s.split(sep)` for a one-character separator: n separators give n+1 pieces. */
  function Split(s: string, sep: char): (r: seq<string>)
    ensures |r| >= 1
    ensures forall k :: 0 <= k < |r| ==> sep !in r[k]
    decreases |s|
  {
    if sep !in s then [s]
    else
      var i := IndexOf(s, sep);
      [s[..i]] + Split(s[i + 1..], sep)
  }

  /** `parts.join(sep)`. */
  function Join(parts: seq<string>, sep: string): string {
    if parts == [] then ""
    else if |parts| == 1 then parts[0]
    else parts[0] + sep + Join(parts[1..], sep)
  }

  lemma JoinCons(x: string, rest: seq<string>, sep: string)
    requires rest != []
    ensures Join([x] + rest, sep) == x + sep + Join(rest, sep)
  {
    assert ([x] + rest)[1..] == rest;
  }

  /** Splitting and joining with the same character gives the string back. */
  lemma {:induction false} JoinSplit(s: string, sep: char)
    ensures Join(Split(s, sep), [sep]) == s
    decreases |s|
  {
    if sep in s {
      var i := IndexOf(s, sep);
      var rest := s[i + 1..];
      var pieces := Split(rest, sep);
      JoinSplit(rest, sep);
      assert Split(s, sep) == [s[..i]] + pieces;
      JoinCons(s[..i], pieces, [sep]);
      assert s == s[..i] + [sep] + rest;
    }
  }

  /** What `s.split(sep).slice(1).join(sep)` leaves: everything after the first separator. */
  function AfterFirst(s: string, sep: char): string {
    if sep in s then s[IndexOf(s, sep) + 1..] else ""
  }

  lemma AfterFirstIsJoinedTail(s: string, sep: char)
    ensures Join(Split(s, sep)[1..], [sep]) == AfterFirst(s, sep)
  {
    if sep in s {
      var i := IndexOf(s, sep);
      assert Split(s, sep)[1..] == Split(s[i + 1..], sep);
      JoinSplit(s[i + 1..], sep);
    }
  }

  /** `content.split(" ").slice(1).join(" ").trim()`, the argument text of a command. */
  function ArgsText(content: string): string {
    Trim(Join(Split(content, ' ')[1..], " "))
  }

  /** The argument text is everything after the first space, trimmed. */
  lemma ArgsTextIsRest(content: string)
    ensures ArgsText(content) == Trim(AfterFirst(content, ' '))
  {
    AfterFirstIsJoinedTail(content, ' ');
  }

  // ---------------------------------------------------------------------------
  // Splitting on whitespace runs
  // ---------------------------------------------------------------------------

  /** The length of the longest prefix without whitespace. */
  function WordEnd(s: string): (n: nat)
    ensures n <= |s| && NoSpace(s[..n])
    ensures n < |s| ==> IsSpace(s[n])
  {
    if s == [] || IsSpace(s[0]) then 0 else 1 + WordEnd(s[1..])
  }

  /** `s.split(/\s+/)`: leading or trailing whitespace gives an empty first or last piece. */
  function SplitWs(s: string): (r: seq<string>)
    ensures |r| >= 1
    ensures forall k :: 0 <= k < |r| ==> NoSpace(r[k])
    decreases |s|
  {
    var n := WordEnd(s);
    if n == |s| then [s] else [s[..n]] + SplitWs(TrimStart(s[n + 1..]))
  }

  /** `s.split(/\s+/).filter(Boolean)`: the maximal runs of non-whitespace characters. */
  function Words(s: string): (r: seq<string>)
    ensures forall k :: 0 <= k < |r| ==> r[k] != [] && NoSpace(r[k])
    decreases |s|
  {
    var t := TrimStart(s);
    if t == [] then []
    else
      var n := WordEnd(t);
      [t[..n]] + Words(t[n..])
  }

  /** The non-empty pieces of a sequence of strings, in order (`filter(Boolean)`). */
  function NonEmpty(parts: seq<string>): (r: seq<string>)
    ensures forall k :: 0 <= k < |r| ==> r[k] != []
    ensures |r| <= |parts|
  {
    if parts == [] then []
    else (if parts[0] == [] then [] else [parts[0]]) + NonEmpty(parts[1..])
  }

  lemma NonEmptyAppend(a: seq<string>, b: seq<string>)
    ensures NonEmpty(a + b) == NonEmpty(a) + NonEmpty(b)
  {
    if a == [] {
      assert a + b == b;
    } else {
      assert (a + b)[1..] == a[1..] + b;
      NonEmptyAppend(a[1..], b);
    }
  }

  lemma WordsOfSpaceStart(s: string)
    requires s != [] && IsSpace(s[0])
    ensures Words(s) == Words(s[1..])
  {
  }

  lemma {:induction false} WordsOfTrimStart(s: string)
    ensures Words(TrimStart(s)) == Words(s)
    decreases |s|
  {
    if s != [] && IsSpace(s[0]) {
      WordsOfTrimStart(s[1..]);
      WordsOfSpaceStart(s);
    }
  }

  /** Dropping the empty pieces of the regular-expression split gives the words. */
  lemma {:induction false} WordsAreNonEmptyPieces(s: string)
    ensures NonEmpty(SplitWs(s)) == Words(s)
    decreases |s|
  {
    var n := WordEnd(s);
    if n == |s| {
      if s != [] {
        TrimStartNoop(s);
        assert s[..n] == s;
        assert Words(s) == [s] + Words(s[n..]);
        assert s[n..] == [];
      }
    } else {
      var rest := TrimStart(s[n + 1..]);
      WordsAreNonEmptyPieces(rest);
      WordsOfTrimStart(s[n + 1..]);
      assert SplitWs(s) == [s[..n]] + SplitWs(rest);
      NonEmptyAppend([s[..n]], SplitWs(rest));
      assert s[n..][1..] == s[n + 1..];
      WordsOfSpaceStart(s[n..]);
      if n == 0 {
        WordsOfSpaceStart(s);
        assert s[n..] == s;
      } else {
        TrimStartNoop(s);
        assert Words(s) == [s[..n]] + Words(s[n..]);
      }
    }
  }

  /** Filtering out empty pieces when there are none changes nothing. */
  lemma {:induction false} NonEmptyNoop(parts: seq<string>)
    requires forall k :: 0 <= k < |parts| ==> parts[k] != []
    ensures NonEmpty(parts) == parts
  {
    if parts != [] {
      NonEmptyNoop(parts[1..]);
    }
  }

  /** A text without whitespace at either end splits into non-empty pieces only. */
  lemma {:induction false} SplitWsOfTrimmed(t: string)
    requires t != [] && !IsSpace(t[0]) && !IsSpace(t[|t| - 1])
    ensures forall k :: 0 <= k < |SplitWs(t)| ==> SplitWs(t)[k] != []
    decreases |t|
  {
    var n := WordEnd(t);
    if n < |t| {
      var x := t[n + 1..];
      assert x != [] && x[|x| - 1] == t[|t| - 1];
      var rest := TrimStart(x);
      TrimStartSuffix(x);
      assert rest[|rest| - 1] == x[|x| - 1];
      SplitWsOfTrimmed(rest);
      assert SplitWs(t) == [t[..n]] + SplitWs(rest);
    }
  }

  /** Trailing whitespace adds no word. */
  lemma {:induction false} WordsAppendSpace(a: string, sp: string)
    requires AllSpace(sp)
    ensures Words(a + sp) == Words(a)
    decreases |a|
  {
    var t := TrimStart(a);
    TrimStartSuffix(a);
    TrimStartOfAppend(a, sp);
    if t == [] {
      TrimStartAllSpace(sp);
    } else {
      var n := WordEnd(t);
      WordEndAppend(t, sp);
      assert (t + sp)[..n] == t[..n];
      assert (t + sp)[n..] == t[n..] + sp;
      WordsAppendSpace(t[n..], sp);
    }
  }

  lemma {:induction false} TrimStartOfAppend(a: string, sp: string)
    ensures TrimStart(a) != [] ==> TrimStart(a + sp) == TrimStart(a) + sp
    ensures TrimStart(a) == [] ==> TrimStart(a + sp) == TrimStart(sp)
  {
    if a != [] {
      assert (a + sp)[0] == a[0];
      if IsSpace(a[0]) {
        assert (a + sp)[1..] == a[1..] + sp;
        TrimStartOfAppend(a[1..], sp);
      }
    } else {
      assert a + sp == sp;
    }
  }

  lemma {:induction false} WordEndAppend(t: string, sp: string)
    requires AllSpace(sp)
    ensures WordEnd(t + sp) == WordEnd(t)
  {
    if t == [] {
      assert t + sp == sp;
    } else {
      assert (t + sp)[0] == t[0];
      if !IsSpace(t[0]) {
        assert (t + sp)[1..] == t[1..] + sp;
        WordEndAppend(t[1..], sp);
      }
    }
  }

  /** Trimming does not change the words. */
  lemma WordsOfTrim(s: string)
    ensures Words(Trim(s)) == Words(s)
  {
    var u := TrimStart(s);
    var t := TrimEnd(u);
    TrimEndPrefix(u);
    assert u == t + u[|t|..];
    WordsAppendSpace(t, u[|t|..]);
    WordsOfTrimStart(s);
  }

  /**
   * `s.trim().split(/\s+/)`: the words of s, or the single empty piece when s is all
   * whitespace.
   */
  lemma SplitWsOfTrim(s: string)
    ensures Trim(s) == [] ==> SplitWs(Trim(s)) == [""]
    ensures Trim(s) != [] ==> SplitWs(Trim(s)) == Words(s)
  {
    var t := Trim(s);
    if t != [] {
      SplitWsOfTrimmed(t);
      NonEmptyNoop(SplitWs(t));
      WordsAreNonEmptyPieces(t);
      WordsOfTrim(s);
    }
  }

  /** A word followed by nothing or by whitespace is the first word. */
  lemma WordsOfWordThen(w: string, t: string)
    requires w != [] && NoSpace(w) && (t == [] || IsSpace(t[0]))
    ensures Words(w + t) == [w] + Words(t)
  {
    var s := w + t;
    TrimStartNoop(s);
    WordEndOf(w, t);
    assert s[..|w|] == w && s[|w|..] == t;
  }

  lemma {:induction false} WordEndOf(w: string, t: string)
    requires NoSpace(w) && (t == [] || IsSpace(t[0]))
    ensures WordEnd(w + t) == |w|
  {
    if w != [] {
      assert (w + t)[1..] == w[1..] + t;
      WordEndOf(w[1..], t);
    } else {
      assert w + t == t;
    }
  }

  /** Every element is a word: non-empty and without whitespace. */
  predicate AllWords(ws: seq<string>) {
    forall k :: 0 <= k < |ws| ==> ws[k] != [] && NoSpace(ws[k])
  }

  lemma JoinUnfold(ws: seq<string>)
    requires |ws| > 1
    ensures Join(ws, " ") == ws[0] + (" " + Join(ws[1..], " "))
  {
  }

  lemma AllWordsTail(ws: seq<string>)
    requires AllWords(ws) && ws != []
    ensures AllWords(ws[1..])
  {
    forall k | 0 <= k < |ws| - 1 ensures ws[1..][k] != [] && NoSpace(ws[1..][k]) {
      assert ws[1..][k] == ws[k + 1];
    }
  }

  /** Joining words with single spaces and splitting again gives the words back. */
  lemma {:induction false} WordsOfJoin(ws: seq<string>)
    requires AllWords(ws)
    ensures Words(Join(ws, " ")) == ws
  {
    if |ws| == 1 {
      WordsOfWordThen(ws[0], "");
      assert ws[0] + "" == ws[0];
    } else if |ws| > 1 {
      AllWordsTail(ws);
      WordsOfJoin(ws[1..]);
      WordsOfJoinStep(ws);
    }
  }

  lemma WordsOfJoinStep(ws: seq<string>)
    requires AllWords(ws) && |ws| > 1
    requires Words(Join(ws[1..], " ")) == ws[1..]
    ensures Words(Join(ws, " ")) == ws
  {
    var rest := ws[1..];
    var t := " " + Join(rest, " ");
    JoinUnfold(ws);
    WordsOfWordThen(ws[0], t);
    WordsOfSpaceStart(t);
    assert t[1..] == Join(rest, " ");
    assert ws == [ws[0]] + rest;
  }

  /** Words joined with single spaces neither start nor end with whitespace. */
  lemma {:induction false} JoinOfWordsEdges(ws: seq<string>)
    requires AllWords(ws)
    ensures var j := Join(ws, " "); j != [] ==> !IsSpace(j[0]) && !IsSpace(j[|j| - 1])
  {
    if |ws| > 1 {
      AllWordsTail(ws);
      JoinOfWordsEdges(ws[1..]);
      JoinEdgesStep(ws);
    } else if |ws| == 1 {
      var j := Join(ws, " ");
      assert j[|j| - 1] == ws[0][|ws[0]| - 1];
    }
  }

  lemma JoinEdgesStep(ws: seq<string>)
    requires AllWords(ws) && |ws| > 1
    requires var r := Join(ws[1..], " "); r != [] ==> !IsSpace(r[0]) && !IsSpace(r[|r| - 1])
    ensures var j := Join(ws, " "); j != [] ==> !IsSpace(j[0]) && !IsSpace(j[|j| - 1])
  {
    var j := Join(ws, " ");
    var r := Join(ws[1..], " ");
    JoinUnfold(ws);
    assert j[0] == ws[0][0];
    if r != [] {
      assert j[|j| - 1] == r[|r| - 1];
    }
  }

  /** So trimming them changes nothing. */
  lemma JoinOfWordsTrimmed(ws: seq<string>)
    requires AllWords(ws)
    ensures Trim(Join(ws, " ")) == Join(ws, " ")
  {
    JoinOfWordsEdges(ws);
    TrimNoop(Join(ws, " "));
  }

  /** A string has no words exactly when it is all whitespace. */
  lemma {:induction false} WordsEmptyIff(s: string)
    ensures Words(s) == [] <==> AllSpace(s)
  {
    var t := TrimStart(s);
    TrimStartSuffix(s);
    assert s == s[..|s| - |t|] + t;
    if t == [] {
      assert s == s[..|s| - |t|];
    } else {
      assert !IsSpace(s[|s| - |t|]);
    }
  }

  // ---------------------------------------------------------------------------
  // Decimal numbers
  // ---------------------------------------------------------------------------

  function DigitChar(d: nat): (c: char)
    requires d < 10
    ensures IsDigit(c)
  {
    ('0' as int + d) as char
  }

  function DigitValue(c: char): (d: nat)
    requires IsDigit(c)
    ensures d < 10 && DigitChar(d) == c
  {
    c as int - '0' as int
  }

  /** `n.toString()` for a non-negative integer. */
  function NatToString(n: nat): (r: string)
    ensures r != [] && forall k :: 0 <= k < |r| ==> IsDigit(r[k])
    ensures |r| > 1 ==> r[0] != '0'
  {
    if n < 10 then [DigitChar(n)] else NatToString(n / 10) + [DigitChar(n % 10)]
  }

  /** `i.toString()` for an integer. */
  function IntToString(i: int): string {
    if i < 0 then "-" + NatToString(-i) else NatToString(i)
  }

  /** The value of a string of decimal digits. */
  function DigitsValue(s: string): nat
    requires forall k :: 0 <= k < |s| ==> IsDigit(s[k])
  {
    if s == [] then 0 else DigitsValue(s[..|s| - 1]) * 10 + DigitValue(s[|s| - 1])
  }

  /** The length of the longest prefix made of decimal digits. */
  function DigitRun(s: string): (n: nat)
    ensures n <= |s| && forall k :: 0 <= k < n ==> IsDigit(s[k])
    ensures n < |s| ==> !IsDigit(s[n])
  {
    if s == [] || !IsDigit(s[0]) then 0 else 1 + DigitRun(s[1..])
  }

  /**
   * `parseInt(s)` in base 10: leading whitespace, an optional sign, then the longest run
   * of digits; `None` stands for `NaN` (no digit at all).
   */
  function ParseInt(s: string): Option<int> {
    var t := TrimStart(s);
    var signed := |t| > 0 && (t[0] == '-' || t[0] == '+');
    var u := if signed then t[1..] else t;
    var n := DigitRun(u);
    if n == 0 then None
    else if signed && t[0] == '-' then Some(0 - DigitsValue(u[..n]))
    else Some(DigitsValue(u[..n]))
  }

  lemma {:induction false} DigitsValueOfNatToString(n: nat)
    ensures DigitsValue(NatToString(n)) == n
  {
    var r := NatToString(n);
    if n >= 10 {
      DigitsValueOfNatToString(n / 10);
      assert r[..|r| - 1] == NatToString(n / 10);
    }
  }

  /** Reading back a rendered index: `parseInt(i.toString()) == i`. */
  lemma ParseIntOfNatToString(n: nat)
    ensures ParseInt(NatToString(n)) == Some(n)
  {
    var r := NatToString(n);
    TrimStartNoop(r);
    assert DigitRun(r) == |r| by { DigitRunAll(r); }
    assert r[..|r|] == r;
    DigitsValueOfNatToString(n);
  }

  lemma {:induction false} DigitRunAll(s: string)
    requires forall k :: 0 <= k < |s| ==> IsDigit(s[k])
    ensures DigitRun(s) == |s|
  {
    if s != [] {
      DigitRunAll(s[1..]);
    }
  }
}
