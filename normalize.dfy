/**
 * `normalizeString`: lowercase, drop one leading article ("the", "a" or "an" followed
 * by whitespace), then trim. Used to compare artist and album names loosely.
 */
module Normalize {
  import opened Wrappers
  import opened Text

  /** The articles the pattern `^(the|a|an)\s+` removes. */
  const Articles: seq<string> := ["the", "a", "an"]

  /** The article at the start of t, if it is followed by whitespace. */
  function LeadingArticle(t: string): (r: Option<string>)
    ensures r.Some? ==> r.value in Articles && StartsWith(t, r.value) &&
                        |t| > |r.value| && IsSpace(t[|r.value|])
    ensures r.None? ==> forall w :: w in Articles && StartsWith(t, w) ==> |t| == |w| || !IsSpace(t[|w|])
  {
    if StartsWith(t, "the") && |t| > 3 && IsSpace(t[3]) then Some("the")
    else if StartsWith(t, "a") && |t| > 1 && IsSpace(t[1]) then Some("a")
    else if StartsWith(t, "an") && |t| > 2 && IsSpace(t[2]) then Some("an")
    else None
  }

  /** `.replace(/^(the|a|an)\s+/i, "")`: the article and the whole whitespace run after it go. */
  function StripArticle(t: string): (r: string)
    ensures LeadingArticle(t).None? ==> r == t
    ensures LeadingArticle(t).Some? ==> r == TrimStart(t[|LeadingArticle(t).value|..])
  {
    match LeadingArticle(t)
    case None => t
    case Some(w) => TrimStart(t[|w|..])
  }

  /** `normalizeString(value = "")`: an omitted value is the empty string. */
  function NormalizeString(value: Option<string>): string {
    Trim(StripArticle(Lower(value.GetOr(""))))
  }

  /** The result is lowercase. */
  lemma NormalizeLower(value: Option<string>)
    ensures IsLowerString(NormalizeString(value))
  {
    var t := Lower(value.GetOr(""));
    LowerIsLower(value.GetOr(""));
    StripArticleLower(t);
    TrimLower(StripArticle(t));
  }

  lemma StripArticleLower(t: string)
    requires IsLowerString(t)
    ensures IsLowerString(StripArticle(t))
  {
    var u := StripArticle(t);
    if LeadingArticle(t).Some? {
      var v := t[|LeadingArticle(t).value|..];
      SliceOfLower(t, |t| - |v|, |t|);
      TrimStartSuffix(v);
      assert v == t[|t| - |v|..|t|];
      SliceOfLower(v, |v| - |u|, |v|);
      assert u == v[|v| - |u|..|v|];
    }
  }

  lemma TrimLower(u: string)
    requires IsLowerString(u)
    ensures IsLowerString(Trim(u))
  {
    var w := TrimStart(u);
    TrimStartSuffix(u);
    TrimEndPrefix(w);
    SliceOfLower(u, |u| - |w|, |u|);
    assert w == u[|u| - |w|..|u|];
    SliceOfLower(w, 0, |TrimEnd(w)|);
  }

  lemma SliceOfLower(s: string, i: nat, j: nat)
    requires IsLowerString(s) && i <= j <= |s|
    ensures IsLowerString(s[i..j])
  {
    forall k | 0 <= k < j - i ensures !IsUpper(s[i..j][k]) {
      assert s[i..j][k] == s[i + k];
    }
  }

  /** The result neither starts nor ends with whitespace. */
  lemma NormalizeTrimmed(value: Option<string>)
    ensures var r := NormalizeString(value); r == [] || (!IsSpace(r[0]) && !IsSpace(r[|r| - 1]))
  {
    var u := StripArticle(Lower(value.GetOr("")));
    assert NormalizeString(value) == Trim(u);
  }

  /** An omitted or empty value normalizes to "". */
  lemma NormalizeEmpty()
    ensures NormalizeString(None) == ""
    ensures NormalizeString(Some("")) == ""
  {
  }

  /** Without a leading article followed by whitespace, normalizing is lowercasing and trimming. */
  lemma NormalizeNoArticle(s: string)
    requires LeadingArticle(Lower(s)).None?
    ensures NormalizeString(Some(s)) == Trim(Lower(s))
  {
  }

  /** With one, the article and its whitespace go before the rest is trimmed. */
  lemma NormalizeArticle(w: string, gap: string, rest: string)
    requires w in Articles && gap != [] && AllSpace(gap)
    requires rest == [] || !IsSpace(rest[0])
    ensures NormalizeString(Some(w + gap + rest)) == TrimEnd(Lower(rest))
  {
    LowerOfArticleGap(w, gap, rest);
    LowerKeepsNonSpaceStart(rest);
    StripArticleOf(w, gap, Lower(rest));
    TrimStartNoop(Lower(rest));
  }

  lemma LowerOfArticleGap(w: string, gap: string, rest: string)
    requires w in Articles && AllSpace(gap)
    ensures Lower(w + gap + rest) == w + gap + Lower(rest)
  {
    LowerAppend(w + gap, rest);
    LowerAppend(w, gap);
    ArticlesAreLower(w);
    LowerOfSpaces(gap);
  }

  lemma StripArticleOf(w: string, gap: string, rest: string)
    requires w in Articles && gap != [] && AllSpace(gap)
    requires rest == [] || !IsSpace(rest[0])
    ensures StripArticle(w + gap + rest) == rest
  {
    LeadingArticleOf(w, gap, rest);
    assert (w + gap + rest)[|w|..] == gap + rest;
    TrimStartAfterGap(gap, rest);
  }

  lemma ArticlesAreLower(w: string)
    requires w in Articles
    ensures Lower(w) == w
  {
    LowerOfLower(w);
  }

  lemma LowerOfSpaces(gap: string)
    requires AllSpace(gap)
    ensures Lower(gap) == gap
  {
    LowerOfLower(gap);
  }

  lemma LowerKeepsNonSpaceStart(s: string)
    requires s == [] || !IsSpace(s[0])
    ensures Lower(s) == [] || !IsSpace(Lower(s)[0])
  {
  }

  lemma LeadingArticleOf(w: string, gap: string, rest: string)
    requires w in Articles && gap != [] && AllSpace(gap)
    ensures LeadingArticle(w + gap + rest) == Some(w)
  {
    var t := w + gap + rest;
    assert t[..|w|] == w;
    assert t[|w|] == gap[0];
    if w == "an" {
      assert t[1] == 'n';
    }
  }

  lemma {:induction false} TrimStartAfterGap(gap: string, rest: string)
    requires AllSpace(gap)
    requires rest == [] || !IsSpace(rest[0])
    ensures TrimStart(gap + rest) == rest
  {
    if gap != [] {
      assert (gap + rest)[1..] == gap[1..] + rest;
      TrimStartAfterGap(gap[1..], rest);
    } else {
      assert gap + rest == rest;
      TrimStartNoop(rest);
    }
  }

  /**
   * A word that only begins like an article keeps it: "theory" is "the" followed by
   * a non-whitespace character, and normalizes to itself.
   */
  lemma NormalizeArticleWithoutSpace(tail: string)
    requires tail != [] && !IsSpace(tail[0])
    ensures NormalizeString(Some("the" + tail)) == Trim(Lower("the" + tail))
  {
    LowerAppend("the", tail);
    ArticlesAreLower("the");
    var t := Lower("the" + tail);
    LowerKeepsNonSpaceStart(tail);
    assert t[3] == Lower(tail)[0];
    assert LeadingArticle(t).None?;
  }

  lemma TrimOfSpacedArticle(gap: string, w: string, rest: string)
    requires AllSpace(gap) && w in Articles
    ensures Trim(gap + w + rest) == TrimEnd(w + rest)
  {
    assert gap + w + rest == gap + (w + rest);
    assert (w + rest)[0] == w[0];
    TrimStartAfterGap(gap, w + rest);
  }

  /** The article is removed before trimming, so whitespace before it protects it: " the x" gives "the x". */
  lemma NormalizeSpaceBeforeArticle(gap: string, w: string, rest: string)
    requires gap != [] && AllSpace(gap) && w in Articles
    ensures NormalizeString(Some(gap + w + rest)) == TrimEnd(w + Lower(rest))
  {
    LowerOfGapArticle(gap, w, rest);
    NoArticleAfterSpace(gap + w + Lower(rest));
    TrimOfSpacedArticle(gap, w, Lower(rest));
  }

  lemma LowerOfGapArticle(gap: string, w: string, rest: string)
    requires AllSpace(gap) && w in Articles
    ensures Lower(gap + w + rest) == gap + w + Lower(rest)
  {
    LowerAppend(gap + w, rest);
    LowerAppend(gap, w);
    ArticlesAreLower(w);
    LowerOfSpaces(gap);
  }

  lemma NoArticleAfterSpace(t: string)
    requires t != [] && IsSpace(t[0])
    ensures StripArticle(t) == t
  {
    PrefixFirst(t, "the");
    PrefixFirst(t, "a");
    PrefixFirst(t, "an");
  }

  lemma PrefixFirst(s: string, p: string)
    requires p != []
    ensures StartsWith(s, p) ==> s[0] == p[0]
  {
    if StartsWith(s, p) {
      assert s[0] == s[..|p|][0];
    }
  }

  lemma LowerTrimmed(s: string)
    requires IsLowerString(s) && (s == [] || !IsSpace(s[|s| - 1]))
    ensures TrimEnd(Lower(s)) == s
  {
    LowerOfLower(s);
    TrimEndNoop(s);
  }

  /**
   * Only one article is removed: "the the band" gives "the band", and normalizing
   * that again gives "band", so normalizing is not idempotent.
   */
  lemma NormalizeNotIdempotent(w: string, g1: string, g2: string, word: string)
    requires w in Articles && g1 != [] && AllSpace(g1) && g2 != [] && AllSpace(g2)
    requires word != [] && IsLowerString(word) && !IsSpace(word[0]) && !IsSpace(word[|word| - 1])
    ensures NormalizeString(Some(w + g1 + w + g2 + word)) == w + g2 + word
    ensures NormalizeString(Some(w + g2 + word)) == word
    ensures NormalizeString(Some(NormalizeString(Some(w + g1 + w + g2 + word)))) != NormalizeString(Some(w + g1 + w + g2 + word))
  {
    var second := w + g2 + word;
    assert w + g1 + w + g2 + word == w + g1 + second;
    assert second[0] == w[0];
    NormalizeArticle(w, g1, second);
    LowerOfArticleGap(w, g2, word);
    LowerOfLower(word);
    assert Lower(second) == second;
    assert second[|second| - 1] == word[|word| - 1];
    TrimEndNoop(second);
    NormalizeArticle(w, g2, word);
    LowerTrimmed(word);
    assert |second| > |word|;
  }
}
