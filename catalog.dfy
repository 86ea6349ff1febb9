/**
 * `CheckAlbumExistence` (VinylBot/src/discogs): does the catalogue list a vinyl
 * pressing of an album? The search and the version lookup are inputs; only the first
 * master of the search is looked at.
 */
module Catalog {
  import opened Wrappers
  import opened Text
  import opened Seqs

  /** A master version: its `format`, `major_formats` and `title`, each possibly missing. */
  datatype Version = Version(format: Option<string>, majorFormats: Option<seq<string>>, title: Option<string>)

  /** `(v.major_formats || []).map(f => f.toLowerCase())`. */
  function LowerAll(fs: seq<string>): (r: seq<string>)
    ensures |r| == |fs| && forall i :: 0 <= i < |fs| ==> r[i] == Lower(fs[i])
  {
    seq(|fs|, i requires 0 <= i < |fs| => Lower(fs[i]))
  }

  /** The format text mentions vinyl, or one of the major formats is exactly "vinyl". */
  predicate IsVinyl(v: Version) {
    Contains(Lower(v.format.GetOr("")), "vinyl") || "vinyl" in LowerAll(v.majorFormats.GetOr([]))
  }

  /** The title mentions "promo". */
  predicate IsPromo(v: Version) {
    Contains(Lower(v.title.GetOr("")), "promo")
  }

  /** What `versions.some` looks for. */
  predicate Acceptable(v: Version) {
    IsVinyl(v) && !IsPromo(v)
  }

  /**
   * The decision: `results` are the ids the master search returned and `versionsOf`
   * gives the versions listed for a master id (missing when the lookup has none).
   */
  function CheckAlbumExistence(results: seq<nat>, versionsOf: nat -> Option<seq<Version>>): bool {
    if results == [] then false
    else
      match versionsOf(results[0])
      case None => false
      case Some(versions) => versions != [] && Any(versions, Acceptable)
  }

  /**
   * True exactly when the search found something and the first master has a vinyl
   * version that is not a promo.
   */
  lemma CheckAlbumExistenceIff(results: seq<nat>, versionsOf: nat -> Option<seq<Version>>)
    ensures CheckAlbumExistence(results, versionsOf) <==>
      results != [] && versionsOf(results[0]).Some? &&
      exists i :: 0 <= i < |versionsOf(results[0]).value| && Acceptable(versionsOf(results[0]).value[i])
  {
    if results != [] && versionsOf(results[0]).Some? {
      AnyIff(versionsOf(results[0]).value, Acceptable);
    }
  }

  /** Only the first master is consulted: later results never change the answer. */
  lemma FirstMasterOnly(id: nat, rest: seq<nat>, other: seq<nat>, versionsOf: nat -> Option<seq<Version>>)
    ensures CheckAlbumExistence([id] + rest, versionsOf) == CheckAlbumExistence([id] + other, versionsOf)
    ensures CheckAlbumExistence([id] + rest, versionsOf) == CheckAlbumExistence([id], versionsOf)
  {
  }

  /** No search results, or no versions, is false. */
  lemma NothingFound(results: seq<nat>, versionsOf: nat -> Option<seq<Version>>)
    requires results == [] || versionsOf(results[0]).None? || versionsOf(results[0]) == Some([])
    ensures !CheckAlbumExistence(results, versionsOf)
  {
  }

  /** More versions can only turn false into true. */
  lemma MoreVersionsMonotone(versions: seq<Version>, more: seq<Version>)
    ensures Any(versions, Acceptable) ==> Any(versions + more, Acceptable)
    ensures Any(versions + more, Acceptable) && !Any(more, Acceptable) ==> Any(versions, Acceptable)
  {
    AnyAppend(versions, more, Acceptable);
  }

  /** The major-format test is an exact match after lowercasing. */
  lemma MajorFormatIff(fs: seq<string>)
    ensures "vinyl" in LowerAll(fs) <==> exists i :: 0 <= i < |fs| && Lower(fs[i]) == "vinyl"
  {
    var r := LowerAll(fs);
    if "vinyl" in r {
      var i :| 0 <= i < |r| && r[i] == "vinyl";
      assert Lower(fs[i]) == "vinyl";
    }
  }

  /** A missing format, title or major-format list counts as empty. */
  lemma MissingFieldsAreEmpty(v: Version)
    requires v.format.None? && v.majorFormats.None?
    ensures !IsVinyl(v)
  {
    assert |Lower("")| == 0;
  }

  /** The format test ignores case: the format's letters may be in any case. */
  lemma FormatIgnoresCase(v: Version, w: Version)
    requires v.majorFormats == w.majorFormats && v.title == w.title
    requires v.format.Some? && w.format.Some? && Lower(v.format.value) == Lower(w.format.value)
    ensures Acceptable(v) == Acceptable(w)
  {
  }
}
