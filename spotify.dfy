/**
 * `parseSpotifyUrl`: the leftmost match of the regular expression
 * `open\.spotify\.com\/(album|track|artist)\/([a-zA-Z0-9]+)` anywhere in a text,
 * returned as the matched type and id.
 */
module Spotify {
  import opened Wrappers
  import opened Text

  /** `{ type, id }`; `type` is a Dafny keyword, so the field is `kind`. */
  datatype SpotifyUrl = SpotifyUrl(kind: string, id: string)

  const Host: string := "open.spotify.com/"
  const Scheme: string := "https://"

  /** The alternatives of `(album|track|artist)`, in the order the pattern tries them. */
  const Kinds: seq<string> := ["album", "track", "artist"]

  /** Length of the longest prefix of s made of `[a-zA-Z0-9]` (the greedy `+` run). */
  function AlnumRun(s: string): (n: nat)
    ensures n <= |s|
    ensures forall k :: 0 <= k < n ==> IsAlnum(s[k])
    ensures n < |s| ==> !IsAlnum(s[n])
  {
    if s == [] || !IsAlnum(s[0]) then 0 else 1 + AlnumRun(s[1..])
  }

  /** At position k of s stands t followed by "/". */
  predicate WordSlashAt(s: string, k: nat, t: string) {
    k + |t| < |s| && s[k..k + |t|] == t && s[k + |t|] == '/'
  }

  /** The id the greedy run takes from position start on. */
  function IdAt(s: string, start: nat): (id: string)
    requires start <= |s|
    ensures |id| == AlnumRun(s[start..]) && start + |id| <= |s|
  {
    s[start..start + AlnumRun(s[start..])]
  }

  /** The first alternative in ts that stands at k, with a non-empty id after its "/". */
  function FirstKind(s: string, k: nat, ts: seq<string>): (r: Option<SpotifyUrl>)
    ensures r.Some? ==> r.value.kind in ts && WordSlashAt(s, k, r.value.kind)
    ensures r.Some? ==> r.value.id == IdAt(s, k + |r.value.kind| + 1) && r.value.id != []
  {
    if ts == [] then None
    else
      var t := ts[0];
      if WordSlashAt(s, k, t) && AlnumRun(s[k + |t| + 1..]) > 0 then Some(SpotifyUrl(t, IdAt(s, k + |t| + 1)))
      else FirstKind(s, k, ts[1..])
  }

  /** The pattern matched starting exactly at position i. */
  function MatchAt(s: string, i: nat): (r: Option<SpotifyUrl>)
    ensures r.Some? ==> i + |Host| <= |s| && s[i..i + |Host|] == Host
    ensures r.Some? ==> r.value.kind in Kinds && WordSlashAt(s, i + |Host|, r.value.kind)
  {
    if i + |Host| <= |s| && s[i..i + |Host|] == Host then FirstKind(s, i + |Host|, Kinds) else None
  }

  /** The first position j in [i, n] at which m finds something, and what it finds. */
  function Leftmost<T>(m: nat -> Option<T>, i: nat, n: nat): (r: Option<T>)
    decreases n - i
  {
    if i > n then None
    else
      match m(i)
      case Some(u) => Some(u)
      case None => Leftmost(m, i + 1, n)
  }

  /** The match test of one text, position by position. */
  function MatcherOf(text: string): nat -> Option<SpotifyUrl> {
    (j: nat) => MatchAt(text, j)
  }

  /** `parseSpotifyUrl(text)`: the leftmost match, or null when nothing matches. */
  function ParseSpotifyUrl(text: string): Option<SpotifyUrl> {
    Leftmost(MatcherOf(text), 0, |text|)
  }

  /** The URL the want command rebuilds from a parse result: `https://open.spotify.com/<type>/<id>`. */
  function Link(u: SpotifyUrl): string {
    Scheme + Host + u.kind + "/" + u.id
  }

  /** An id the pattern accepts: a non-empty run of ASCII letters and digits. */
  predicate ValidId(id: string) {
    id != [] && forall k :: 0 <= k < |id| ==> IsAlnum(id[k])
  }

  // ---------------------------------------------------------------------------
  // What a match is
  // ---------------------------------------------------------------------------

  lemma {:induction false} LeftmostSpec<T>(m: nat -> Option<T>, i: nat, n: nat)
    ensures Leftmost(m, i, n).None? <==> forall j :: i <= j <= n ==> m(j).None?
    ensures Leftmost(m, i, n).Some? ==>
      exists j :: i <= j <= n && m(j) == Leftmost(m, i, n) &&
                  forall j' :: i <= j' < j ==> m(j').None?
    decreases n - i
  {
    if i <= n && m(i).None? {
      LeftmostSpec(m, i + 1, n);
      if Leftmost(m, i, n).Some? {
        var j :| i + 1 <= j <= n && m(j) == Leftmost(m, i + 1, n) &&
                 forall j' :: i + 1 <= j' < j ==> m(j').None?;
        assert forall j' :: i <= j' < j ==> m(j').None?;
      }
    }
  }

  lemma {:induction false} LeftmostAt<T>(m: nat -> Option<T>, j: nat, i: nat, n: nat)
    requires j <= i <= n && m(i).Some?
    requires forall j' :: j <= j' < i ==> m(j').None?
    ensures Leftmost(m, j, n) == m(i)
    decreases i - j
  {
    if j < i {
      LeftmostAt(m, j + 1, i, n);
    }
  }

  /** null exactly when no position of the text starts a match. */
  lemma ParseNoneIff(text: string)
    ensures ParseSpotifyUrl(text).None? <==> forall j :: 0 <= j <= |text| ==> MatchAt(text, j).None?
  {
    var m := MatcherOf(text);
    LeftmostSpec(m, 0, |text|);
    MatcherIs(text);
    assert (forall j :: 0 <= j <= |text| ==> m(j).None?) <==> (forall j :: 0 <= j <= |text| ==> MatchAt(text, j).None?);
  }

  lemma MatcherIs(text: string)
    ensures forall j :: MatcherOf(text)(j) == MatchAt(text, j)
  {
  }

  /**
   * A result comes from the leftmost matching position j: the text holds
   * "open.spotify.com/" + type + "/" + id there, the type is one of the three,
   * and the id is a non-empty, maximal run of letters and digits.
   */
  lemma ParseSomeIsLeftmostMatch(text: string)
    requires ParseSpotifyUrl(text).Some?
    ensures exists j :: 0 <= j <= |text| && MatchAt(text, j) == ParseSpotifyUrl(text) &&
                        (forall j' :: 0 <= j' < j ==> MatchAt(text, j').None?) &&
                        MatchedText(text, ParseSpotifyUrl(text).value, j)
    ensures ParseSpotifyUrl(text).value.kind in Kinds
    ensures ValidId(ParseSpotifyUrl(text).value.id)
  {
    var m := MatcherOf(text);
    LeftmostSpec(m, 0, |text|);
    MatcherIs(text);
    var j :| 0 <= j <= |text| && m(j) == ParseSpotifyUrl(text) && forall j' :: 0 <= j' < j ==> m(j').None?;
    MatchAtShape(text, j);
  }

  /**
   * At j the text holds "open.spotify.com/" + type + "/" + id, and the character after
   * the id, if any, is not a letter or digit.
   */
  predicate MatchedText(s: string, u: SpotifyUrl, j: nat) {
    var m := Host + u.kind + "/" + u.id;
    OccursAt(s, m, j) && (j + |m| < |s| ==> !IsAlnum(s[j + |m|]))
  }

  lemma MatchAtShape(s: string, j: nat)
    requires MatchAt(s, j).Some?
    ensures MatchedText(s, MatchAt(s, j).value, j) && ValidId(MatchAt(s, j).value.id)
  {
    var u := MatchAt(s, j).value;
    MatchAtId(s, j);
    PieceShape(s, j, Host, u.kind, u.id);
  }

  /** A prefix h, then t and "/", then the greedy run at that point, occur as one text followed by no letter or digit. */
  lemma PieceShape(s: string, j: nat, h: string, t: string, id: string)
    requires j + |h| <= |s| && s[j..j + |h|] == h
    requires WordSlashAt(s, j + |h|, t)
    requires id == IdAt(s, j + |h| + |t| + 1) && id != []
    ensures OccursAt(s, h + t + "/" + id, j)
    ensures j + |h + t + "/" + id| < |s| ==> !IsAlnum(s[j + |h + t + "/" + id|])
    ensures ValidId(id)
  {
    var k := j + |h|;
    var start := k + |t| + 1;
    assert OccursAt(s, h, j);
    assert OccursAt(s, t, k);
    assert s[k + |t|..k + |t| + 1] == [s[k + |t|]];
    assert OccursAt(s, "/", k + |t|);
    IdAtOccurs(s, start);
    OccursAtConcat(s, h, t, j);
    OccursAtConcat(s, h + t, "/", j);
    OccursAtConcat(s, h + t + "/", id, j);
  }

  /** The id of a match is the non-empty run after the type's "/". */
  lemma MatchAtId(s: string, j: nat)
    requires MatchAt(s, j).Some?
    ensures j + |Host| + |MatchAt(s, j).value.kind| + 1 <= |s|
    ensures MatchAt(s, j).value.id == IdAt(s, j + |Host| + |MatchAt(s, j).value.kind| + 1)
    ensures MatchAt(s, j).value.id != []
  {
    assert MatchAt(s, j) == FirstKind(s, j + |Host|, Kinds);
  }

  /** The run taken at start occurs there, is made of letters and digits, and is not followed by one. */
  lemma IdAtOccurs(s: string, start: nat)
    requires start <= |s|
    ensures OccursAt(s, IdAt(s, start), start)
    ensures forall k :: 0 <= k < |IdAt(s, start)| ==> IsAlnum(IdAt(s, start)[k])
    ensures start + |IdAt(s, start)| < |s| ==> !IsAlnum(s[start + |IdAt(s, start)|])
  {
    var id := IdAt(s, start);
    var n := AlnumRun(s[start..]);
    assert forall k :: 0 <= k < |id| ==> id[k] == s[start..][k];
    if start + n < |s| {
      assert s[start + n] == s[start..][n];
    }
  }

  // ---------------------------------------------------------------------------
  // Round trip with the rebuilt link
  // ---------------------------------------------------------------------------

  lemma {:induction false} AlnumRunAll(id: string)
    requires forall k :: 0 <= k < |id| ==> IsAlnum(id[k])
    ensures AlnumRun(id) == |id|
  {
    if id != [] {
      AlnumRunAll(id[1..]);
    }
  }

  lemma SchemeHasNoO()
    ensures forall j :: 0 <= j < |Scheme| ==> Scheme[j] != 'o'
  {
  }

  lemma HostStartsWithO()
    ensures |Host| == 17 && Host[0] == 'o'
  {
  }

  lemma KindsFacts()
    ensures Kinds[0] == "album" && Kinds[1] == "track" && Kinds[2] == "artist"
    ensures |Kinds| == 3
  {
  }

  /** Which kind stands at k is told by its first two letters. */
  function KindOfLetters(a: char, b: char): string {
    if a == 't' then "track" else if b == 'l' then "album" else "artist"
  }

  lemma KindAt(s: string, k: nat, t: string)
    requires t in Kinds && WordSlashAt(s, k, t)
    ensures t == KindOfLetters(s[k], s[k + 1])
  {
    KindsFacts();
    assert s[k] == s[k..k + |t|][0] && s[k + 1] == s[k..k + |t|][1];
  }

  /** At most one of the alternatives, followed by "/", stands at a position. */
  lemma KindsDistinguishable(s: string, k: nat, t: string, t': string)
    requires t in Kinds && t' in Kinds
    requires WordSlashAt(s, k, t)
    ensures WordSlashAt(s, k, t') ==> t' == t
  {
    KindAt(s, k, t);
    if WordSlashAt(s, k, t') {
      KindAt(s, k, t');
    }
  }

  lemma {:induction false} FirstKindOf(s: string, k: nat, t: string, ts: seq<string>)
    requires t in ts && (forall t' :: t' in ts ==> t' in Kinds) && t in Kinds
    requires WordSlashAt(s, k, t) && AlnumRun(s[k + |t| + 1..]) > 0
    ensures FirstKind(s, k, ts).Some? && FirstKind(s, k, ts).value.kind == t
  {
    if ts[0] != t {
      KindsDistinguishable(s, k, t, ts[0]);
      FirstKindOf(s, k, t, ts[1..]);
    }
  }

  /** No position inside "https://" starts a match. */
  lemma LinkNoEarlierMatch(u: SpotifyUrl)
    ensures forall j :: 0 <= j < |Scheme| ==> MatchAt(Link(u), j).None?
  {
    var s := Link(u);
    assert s == Scheme + (Host + (u.kind + "/" + u.id));
    SchemeHasNoO();
    HostStartsWithO();
    forall j | 0 <= j < |Scheme| ensures MatchAt(s, j).None? {
      if j + |Host| <= |s| {
        assert s[j..j + |Host|][0] == Scheme[j];
      }
    }
  }

  /** Right after "https://" the link matches with the type and id it was built from. */
  lemma LinkMatch(u: SpotifyUrl)
    requires u.kind in Kinds && ValidId(u.id)
    ensures MatchAt(Link(u), |Scheme|) == Some(u)
  {
    var s := Link(u);
    var k := |Scheme| + |Host|;
    LinkPieces(u);
    AlnumRunAll(u.id);
    FirstKindOf(s, k, u.kind, Kinds);
    assert IdAt(s, k + |u.kind| + 1) == u.id;
  }

  lemma LinkPieces(u: SpotifyUrl)
    ensures var s := Link(u); var k := |Scheme| + |Host|;
      |s| == k + |u.kind| + 1 + |u.id| && s[|Scheme|..k] == Host && WordSlashAt(s, k, u.kind) &&
      s[k + |u.kind| + 1..] == u.id
  {
    var s := Link(u);
    var k := |Scheme| + |Host|;
    assert s == Scheme + (Host + (u.kind + "/" + u.id));
    assert s[|Scheme|..k] == Host;
    assert s[k..k + |u.kind|] == u.kind;
    assert s[k + |u.kind| + 1..] == u.id;
  }

  /** The rebuilt link parses back to the type and id it was made from. */
  lemma ParseLink(u: SpotifyUrl)
    requires u.kind in Kinds && ValidId(u.id)
    ensures ParseSpotifyUrl(Link(u)) == Some(u)
  {
    LinkNoEarlierMatch(u);
    LinkMatch(u);
    var s := Link(u);
    LeftmostAt(MatcherOf(s), 0, |Scheme|, |s|);
  }

  /** Whatever a text parses to, its rebuilt link parses to the same thing. */
  lemma ParseOfLinkOfParse(text: string)
    requires ParseSpotifyUrl(text).Some?
    ensures ParseSpotifyUrl(Link(ParseSpotifyUrl(text).value)) == ParseSpotifyUrl(text)
  {
    ParseSomeIsLeftmostMatch(text);
    ParseLink(ParseSpotifyUrl(text).value);
  }
}
