/**
 * The post-processing in VinylBot's database services: play-count and purchase-count
 * aggregations ranked by count, row mappings, and the insert status of a new vinyl.
 * The queries themselves are inputs: `data` and `error` as the client returns them.
 */
module Services {
  import opened Wrappers
  import Sorting
  import Tally
  import opened Seqs

  /** `AlbumCount`: a title with a count. */
  datatype TitleCount = TitleCount(title: string, count: int)

  /** The optional `vinyls(artist, album)` join attached to a play log. */
  datatype JoinedVinyl = JoinedVinyl(artist: Option<string>, album: Option<string>)

  /** A play-log row as the query returns it. */
  datatype PlayRow = PlayRow(albumId: nat, vinyls: Option<JoinedVinyl>)

  /** JavaScript's `x || fallback` on a string that may be missing. */
  function OrElse(x: Option<string>, fallback: string): (r: string)
    ensures r == fallback <==> x.None? || x.value == "" || x.value == fallback
    ensures r != fallback ==> x == Some(r)
  {
    if x.Some? && x.value != "" then x.value else fallback
  }

  // ---------------------------------------------------------------------------
  // Ranking counters
  // ---------------------------------------------------------------------------

  /** The comparator `(a, b) => b.count - a.count`: a may stay before b when b's count is not larger. */
  function CountDesc<T, K>(a: Tally.Bucket<T, K>, b: Tally.Bucket<T, K>): bool { b.count <= a.count }

  /** `.sort((a, b) => b.count - a.count)`. */
  function RankByCount<T, K>(bs: seq<Tally.Bucket<T, K>>): seq<Tally.Bucket<T, K>> {
    Sorting.SortBy(bs, CountDesc)
  }

  /** Ranking orders the counters by non-increasing count. */
  lemma RankByCountOrdered<T(!new), K(!new)>(bs: seq<Tally.Bucket<T, K>>)
    ensures forall i, j :: 0 <= i < j < |RankByCount(bs)| ==> RankByCount(bs)[j].count <= RankByCount(bs)[i].count
  {
    Sorting.SortBySorted(bs, CountDesc<T, K>);
  }

  /** Ranking keeps every counter, their sum and their distinct keys. */
  lemma RankByCountKeeps<T(!new), K(!new)>(bs: seq<Tally.Bucket<T, K>>)
    ensures |RankByCount(bs)| == |bs|
    ensures forall b :: b in RankByCount(bs) <==> b in bs
    ensures Tally.SumCounts(RankByCount(bs)) == Tally.SumCounts(bs)
    ensures Tally.DistinctKeys(bs) ==> Tally.DistinctKeys(RankByCount(bs))
  {
    var le := CountDesc<T, K>;
    Tally.SortedMembers(bs, le);
    Tally.SumCountsSorted(bs, le);
    if Tally.DistinctKeys(bs) {
      Tally.DistinctKeysSorted(bs, le);
    }
  }

  function SumTitleCounts(s: seq<TitleCount>): int {
    if s == [] then 0 else s[0].count + SumTitleCounts(s[1..])
  }

  /** Turn counters into title/count records, one per counter, in order. */
  function ToTitleCounts<T, K>(bs: seq<Tally.Bucket<T, K>>, title: Tally.Bucket<T, K> -> string): (r: seq<TitleCount>)
    ensures |r| == |bs|
    ensures forall i :: 0 <= i < |bs| ==> r[i] == TitleCount(title(bs[i]), bs[i].count)
  {
    if bs == [] then [] else [TitleCount(title(bs[0]), bs[0].count)] + ToTitleCounts(bs[1..], title)
  }

  lemma {:induction false} SumToTitleCounts<T, K>(bs: seq<Tally.Bucket<T, K>>, title: Tally.Bucket<T, K> -> string)
    ensures SumTitleCounts(ToTitleCounts(bs, title)) == Tally.SumCounts(bs)
  {
    if bs != [] {
      SumToTitleCounts(bs[1..], title);
    }
  }

  // ---------------------------------------------------------------------------
  // plays.api.ts: aggregateAlbumCounts
  // ---------------------------------------------------------------------------

  function AlbumIdOf(p: PlayRow): nat { p.albumId }

  /** The title a play log gives its album: "artist - album" with the "Unknown" fallbacks. */
  function PlayTitle(p: PlayRow): string {
    var artist := OrElse(if p.vinyls.Some? then p.vinyls.value.artist else None, "Unknown Artist");
    var album := OrElse(if p.vinyls.Some? then p.vinyls.value.album else None, "Unknown Album");
    artist + " - " + album
  }

  function BucketPlayTitle(b: Tally.Bucket<PlayRow, nat>): string { PlayTitle(b.first) }

  function KeyAscending(a: Tally.Bucket<PlayRow, nat>, b: Tally.Bucket<PlayRow, nat>): bool { a.key <= b.key }

  /**
   * The counters of `albumCountMap`, in the order `Object.values` lists them (ascending
   * numeric key), then ranked by count; ties keep ascending album id since the sort is stable.
   */
  function AlbumBuckets(logs: seq<PlayRow>): seq<Tally.Bucket<PlayRow, nat>> {
    RankByCount(Sorting.SortBy(Tally.Tally(logs, AlbumIdOf), KeyAscending))
  }

  /** The records `aggregateAlbumCounts` returns. */
  function AlbumCounts(logs: seq<PlayRow>): seq<TitleCount> {
    ToTitleCounts(AlbumBuckets(logs), BucketPlayTitle)
  }

  /** `aggregateAlbumCounts`: the counting loop over the play logs, then the two orderings. */
  method AggregateAlbumCounts(logs: seq<PlayRow>) returns (r: seq<TitleCount>)
    ensures r == AlbumCounts(logs)
  {
    var buckets := Tally.CountByKey(logs, AlbumIdOf);
    r := ToTitleCounts(RankByCount(Sorting.SortBy(buckets, KeyAscending)), BucketPlayTitle);
  }

  /** The ranked counters are exactly the counters of the loop. */
  lemma AlbumBucketsMembers(logs: seq<PlayRow>)
    ensures forall b :: b in AlbumBuckets(logs) <==> b in Tally.Tally(logs, AlbumIdOf)
    ensures |AlbumBuckets(logs)| == |Tally.Tally(logs, AlbumIdOf)|
  {
    var t := Tally.Tally(logs, AlbumIdOf);
    var k := Sorting.SortBy(t, KeyAscending);
    assert AlbumBuckets(logs) == RankByCount(k);
    Tally.SortedMembers(t, KeyAscending);
    RankByCountKeeps(k);
  }

  /** One entry per distinct album id. */
  lemma AlbumCountsDistinct(logs: seq<PlayRow>)
    ensures |AlbumCounts(logs)| == |Tally.Distinct(Tally.KeysOf(logs, AlbumIdOf))|
    ensures Tally.DistinctKeys(AlbumBuckets(logs))
  {
    var t := Tally.Tally(logs, AlbumIdOf);
    Tally.TallyKeys(logs, AlbumIdOf);
    Tally.TallyDistinct(logs, AlbumIdOf);
    Tally.DistinctKeysSorted(t, KeyAscending);
    RankByCountKeeps(Sorting.SortBy(t, KeyAscending));
  }

  /** Each entry counts exactly the logs of its album and is titled after the first of them. */
  lemma AlbumCountsExact(logs: seq<PlayRow>)
    ensures forall b :: b in AlbumBuckets(logs) ==>
              b.count == Tally.CountKey(logs, AlbumIdOf, b.key) &&
              exists p :: Tally.FirstAt(logs, AlbumIdOf, p) && logs[p] == b.first && logs[p].albumId == b.key
  {
    var t := Tally.Tally(logs, AlbumIdOf);
    AlbumBucketsMembers(logs);
    Tally.TallyCounts(logs, AlbumIdOf);
    forall b | b in AlbumBuckets(logs)
      ensures b.count == Tally.CountKey(logs, AlbumIdOf, b.key)
      ensures exists p :: Tally.FirstAt(logs, AlbumIdOf, p) && logs[p] == b.first && logs[p].albumId == b.key
    {
      var i :| 0 <= i < |t| && t[i] == b;
      Tally.TallyFirst(logs, AlbumIdOf, i);
    }
  }

  /** Every logged album has an entry. */
  lemma AlbumCountsCover(logs: seq<PlayRow>)
    ensures forall i :: 0 <= i < |logs| ==> exists b :: b in AlbumBuckets(logs) && b.key == logs[i].albumId
  {
    var t := Tally.Tally(logs, AlbumIdOf);
    AlbumBucketsMembers(logs);
    Tally.TallyKeys(logs, AlbumIdOf);
    forall i | 0 <= i < |logs| ensures exists b :: b in AlbumBuckets(logs) && b.key == logs[i].albumId {
      assert Tally.KeysOf(logs, AlbumIdOf)[i] == logs[i].albumId;
      var ks := Tally.BucketKeys(t);
      assert logs[i].albumId in ks;
      var j :| 0 <= j < |ks| && ks[j] == logs[i].albumId;
      assert t[j] in AlbumBuckets(logs);
    }
  }

  /** The counts are non-increasing and add up to the number of logs. */
  lemma AlbumCountsRanked(logs: seq<PlayRow>)
    ensures forall i, j :: 0 <= i < j < |AlbumCounts(logs)| ==> AlbumCounts(logs)[j].count <= AlbumCounts(logs)[i].count
    ensures SumTitleCounts(AlbumCounts(logs)) == |logs|
  {
    var t := Tally.Tally(logs, AlbumIdOf);
    var k := Sorting.SortBy(t, KeyAscending);
    RankByCountOrdered(k);
    RankByCountKeeps(k);
    Tally.TallySum(logs, AlbumIdOf);
    Tally.SumCountsSorted(t, KeyAscending);
    SumToTitleCounts(AlbumBuckets(logs), BucketPlayTitle);
  }

  // ---------------------------------------------------------------------------
  // Counts keyed by a name (locations.api.ts, vinyls.api.ts)
  // ---------------------------------------------------------------------------

  function BucketKey<T>(b: Tally.Bucket<T, string>): string { b.key }

  /** `Object.entries(counts).map(([title, count]) => ({title, count})).sort(byCountDesc)`. */
  function NameCounts<T>(items: seq<T>, name: T -> string): seq<TitleCount> {
    ToTitleCounts(RankByCount(Tally.Tally(items, name)), BucketKey)
  }

  /** The reduce-with-accumulator loop followed by the ranking. */
  method CountByName<T>(items: seq<T>, name: T -> string) returns (r: seq<TitleCount>)
    ensures r == NameCounts(items, name)
  {
    var buckets := Tally.CountByKey(items, name);
    r := ToTitleCounts(RankByCount(buckets), BucketKey);
  }

  /** One entry per distinct name, each titled by its name. */
  lemma NameCountsDistinct<T(!new)>(items: seq<T>, name: T -> string)
    ensures |NameCounts(items, name)| == |Tally.Distinct(Tally.KeysOf(items, name))|
    ensures forall i, j :: 0 <= i < j < |NameCounts(items, name)| ==>
              NameCounts(items, name)[i].title != NameCounts(items, name)[j].title
  {
    var t := Tally.Tally(items, name);
    Tally.TallyKeys(items, name);
    Tally.TallyDistinct(items, name);
    RankByCountKeeps(t);
  }

  /** Each entry counts exactly the items with its name. */
  lemma NameCountsExact<T(!new)>(items: seq<T>, name: T -> string)
    ensures forall e :: e in NameCounts(items, name) ==> e.count == Tally.CountKey(items, name, e.title)
  {
    var t := Tally.Tally(items, name);
    var r := RankByCount(t);
    Tally.TallyCounts(items, name);
    RankByCountKeeps(t);
    var out := NameCounts(items, name);
    forall e | e in out ensures e.count == Tally.CountKey(items, name, e.title) {
      var i :| 0 <= i < |out| && out[i] == e;
      assert r[i] in t;
    }
  }

  /** Every item's name has an entry. */
  lemma NameCountsCover<T(!new)>(items: seq<T>, name: T -> string)
    ensures forall i :: 0 <= i < |items| ==> exists e :: e in NameCounts(items, name) && e.title == name(items[i])
  {
    var out := NameCounts(items, name);
    forall i | 0 <= i < |items| ensures exists e :: e in out && e.title == name(items[i]) {
      var m := NameEntry(items, name, i);
      assert out[m] in out;
    }
  }

  /** The position of the entry for one item's name. */
  lemma NameEntry<T(!new)>(items: seq<T>, name: T -> string, i: nat) returns (m: nat)
    requires i < |items|
    ensures m < |NameCounts(items, name)| && NameCounts(items, name)[m].title == name(items[i])
  {
    var t := Tally.Tally(items, name);
    var r := RankByCount(t);
    var out := ToTitleCounts(r, BucketKey);
    assert NameCounts(items, name) == out;
    var k := name(items[i]);
    var j := KeyPosition(items, name, i);
    RankByCountKeeps(t);
    assert t[j] in r;
    m :| 0 <= m < |r| && r[m] == t[j];
    assert out[m] == TitleCount(BucketKey(r[m]), r[m].count);
  }

  /** The position of the counter for one item's name. */
  lemma KeyPosition<T>(items: seq<T>, name: T -> string, i: nat) returns (j: nat)
    requires i < |items|
    ensures j < |Tally.Tally(items, name)| && Tally.Tally(items, name)[j].key == name(items[i])
  {
    var t := Tally.Tally(items, name);
    var keys := Tally.KeysOf(items, name);
    var ks := Tally.BucketKeys(t);
    Tally.TallyKeys(items, name);
    assert keys[i] == name(items[i]);
    assert ks == Tally.Distinct(keys);
    assert name(items[i]) in ks;
    j :| 0 <= j < |ks| && ks[j] == name(items[i]);
  }

  /** The counts are non-increasing and add up to the number of items. */
  lemma NameCountsRanked<T(!new)>(items: seq<T>, name: T -> string)
    ensures forall i, j :: 0 <= i < j < |NameCounts(items, name)| ==>
              NameCounts(items, name)[j].count <= NameCounts(items, name)[i].count
    ensures SumTitleCounts(NameCounts(items, name)) == |items|
  {
    var t := Tally.Tally(items, name);
    RankByCountOrdered(t);
    RankByCountKeeps(t);
    Tally.TallySum(items, name);
    SumToTitleCounts(RankByCount(t), BucketKey);
  }

  /** A vinyl joined with its purchase location's name; the join is null for a vinyl without a location. */
  datatype VinylWithLocation = VinylWithLocation(owners: seq<string>, locationName: Option<string>)

  function LocationNameOf(v: VinylWithLocation): string { v.locationName.GetOr("") }

  predicate NoLocation(v: VinylWithLocation) { v.locationName.None? }

  /** What reading `.name` of a null join throws. */
  const NullJoin: string := "TypeError: Cannot read properties of null (reading 'name')"

  /**
   * `countVinylsByLocation`: the reduce reads `curr.purchaseLocation.name` of every
   * vinyl, so one vinyl without a location throws; otherwise the names are counted.
   */
  function CountVinylsByLocation(vinyls: seq<VinylWithLocation>): (r: Result<seq<TitleCount>>)
    ensures r.Err? <==> exists i :: 0 <= i < |vinyls| && vinyls[i].locationName.None?
    ensures r.Err? ==> r.message == NullJoin
    ensures r.Ok? ==> r.value == NameCounts(vinyls, LocationNameOf) &&
                      forall i :: 0 <= i < |vinyls| ==> vinyls[i].locationName == Some(LocationNameOf(vinyls[i]))
  {
    AnyIff(vinyls, NoLocation);
    if Any(vinyls, NoLocation) then Err(NullJoin) else Ok(NameCounts(vinyls, LocationNameOf))
  }

  /** A vinyl row selected with its artist and owners. */
  datatype ArtistRow = ArtistRow(artist: string, owners: seq<string>)

  function ArtistOf(v: ArtistRow): string { v.artist }

  /** `getArtistVinylCounts`: a query error is thrown, otherwise the rows are counted per artist. */
  function ArtistVinylCounts(rows: Result<seq<ArtistRow>>): (r: Result<seq<TitleCount>>)
    ensures rows.Err? ==> r == Err(rows.message)
    ensures rows.Ok? ==> r == Ok(NameCounts(rows.value, ArtistOf))
  {
    match rows
    case Err(m) => Err(m)
    case Ok(data) => Ok(NameCounts(data, ArtistOf))
  }

  /** The rows the query `.contains('owners', [userID])` selects. */
  function OwnedBy(rows: seq<ArtistRow>, userId: string): (r: seq<ArtistRow>)
    ensures forall v :: v in r <==> v in rows && userId in v.owners
  {
    if rows == [] then []
    else
      var last := rows[|rows| - 1];
      assert rows == rows[..|rows| - 1] + [last];
      OwnedBy(rows[..|rows| - 1], userId) + (if userId in last.owners then [last] else [])
  }

  /** `getArtistVinylCountByUserId`: the same count, over the user's own vinyls. */
  function ArtistVinylCountByUser(rows: Result<seq<ArtistRow>>, userId: string): (r: Result<seq<TitleCount>>)
    ensures rows.Err? ==> r == Err(rows.message)
    ensures rows.Ok? ==> r == Ok(NameCounts(OwnedBy(rows.value, userId), ArtistOf))
  {
    match rows
    case Err(m) => Err(m)
    case Ok(data) => Ok(NameCounts(OwnedBy(data, userId), ArtistOf))
  }

  /** Every per-user count is at most the household count for the same artist. */
  lemma {:induction false} OwnedCountAtMost(rows: seq<ArtistRow>, userId: string, artist: string)
    ensures Tally.CountKey(OwnedBy(rows, userId), ArtistOf, artist) <= Tally.CountKey(rows, ArtistOf, artist)
  {
    if rows != [] {
      var pre := rows[..|rows| - 1];
      var last := rows[|rows| - 1];
      OwnedCountAtMost(pre, userId, artist);
      var o := OwnedBy(pre, userId);
      if userId in last.owners {
        assert OwnedBy(rows, userId) == o + [last];
        assert (o + [last])[..|o|] == o;
      } else {
        assert OwnedBy(rows, userId) == o;
      }
    }
  }

  // ---------------------------------------------------------------------------
  // Row mappings
  // ---------------------------------------------------------------------------

  /** A play log after `getPlayLogs`: the row with the joined artist and album copied on. */
  datatype PlayLog = PlayLog(row: PlayRow, artist: Option<string>, album: Option<string>)

  function WithJoin(p: PlayRow): PlayLog {
    PlayLog(p, if p.vinyls.Some? then p.vinyls.value.artist else None,
            if p.vinyls.Some? then p.vinyls.value.album else None)
  }

  /** `getPlayLogs`: [] on a query error, otherwise each row (of `data ?? []`) with its join copied on. */
  function GetPlayLogs(data: Option<seq<PlayRow>>, error: bool): (r: seq<PlayLog>)
    ensures error || data.None? ==> r == []
    ensures !error && data.Some? ==> |r| == |data.value|
    ensures !error && data.Some? ==> forall i :: 0 <= i < |r| ==> r[i].row == data.value[i]
    ensures !error && data.Some? ==> forall i :: 0 <= i < |r| && data.value[i].vinyls.Some? ==>
              r[i].artist == data.value[i].vinyls.value.artist && r[i].album == data.value[i].vinyls.value.album
    ensures !error && data.Some? ==> forall i :: 0 <= i < |r| && data.value[i].vinyls.None? ==>
              r[i].artist.None? && r[i].album.None?
  {
    if error then [] else seq(|data.GetOr([])|, i requires 0 <= i < |data.GetOr([])| => WithJoin(data.GetOr([])[i]))
  }

  /** A location row. */
  datatype Location = Location(name: string, address: Option<string>, purchaseCount: int)

  /** `getPhysicalLocations`: [] on a query error, otherwise the rows (or [] when there are none). */
  function GetPhysicalLocations(data: Option<seq<Location>>, error: bool): (r: seq<Location>)
    ensures error ==> r == []
    ensures !error && data.Some? ==> r == data.value
    ensures data.None? ==> r == []
  {
    if error then [] else data.GetOr([])
  }

  /** `getLocationsByPurchaseCount`: an error is thrown, otherwise each location becomes {name, purchaseCount}. */
  function LocationsByPurchaseCount(data: Result<Option<seq<Location>>>): (r: Result<seq<TitleCount>>)
    ensures data.Err? ==> r == Err(data.message)
    ensures data.Ok? ==> r.Ok? && |r.value| == |data.value.GetOr([])|
    ensures data.Ok? ==> forall i :: 0 <= i < |r.value| ==>
              r.value[i] == TitleCount(data.value.GetOr([])[i].name, data.value.GetOr([])[i].purchaseCount)
  {
    match data
    case Err(m) => Err(m)
    case Ok(rows) =>
      var ls := rows.GetOr([]);
      Ok(seq(|ls|, i requires 0 <= i < |ls| => TitleCount(ls[i].name, ls[i].purchaseCount)))
  }

  /** A vinyl row with its play count (which may be null). */
  datatype VinylPlays = VinylPlays(artist: string, album: string, playCount: Option<int>)

  /** `getVinylsByPlayCount`: each row becomes {"artist - album", playCount || 0}, in query order. */
  function VinylsByPlayCount(data: Result<seq<VinylPlays>>): (r: Result<seq<TitleCount>>)
    ensures data.Err? ==> r == Err(data.message)
    ensures data.Ok? ==> r.Ok? && |r.value| == |data.value|
    ensures data.Ok? ==> forall i :: 0 <= i < |r.value| ==>
              r.value[i].title == data.value[i].artist + " - " + data.value[i].album &&
              r.value[i].count == data.value[i].playCount.GetOr(0)
  {
    match data
    case Err(m) => Err(m)
    case Ok(rows) =>
      Ok(seq(|rows|, i requires 0 <= i < |rows| =>
        TitleCount(rows[i].artist + " - " + rows[i].album, rows[i].playCount.GetOr(0))))
  }

  // ---------------------------------------------------------------------------
  // vinyls.api.ts: addVinyl
  // ---------------------------------------------------------------------------

  datatype AddStatus = Added | Duplicate | Error

  /** A database error: its code (PostgreSQL's SQLSTATE) and message. */
  datatype DbError = DbError(code: string, message: string)

  /** The unique-violation code PostgreSQL reports for a duplicate row. */
  const UniqueViolation: string := "23505"

  /** `addVinyl`: the insert's error, if any, decides the status. */
  function AddVinylStatus(error: Option<DbError>): (r: AddStatus)
    ensures r == Added <==> error.None?
    ensures r == Duplicate <==> error.Some? && error.value.code == UniqueViolation
    ensures r == Error <==> error.Some? && error.value.code != UniqueViolation
  {
    match error
    case None => Added
    case Some(e) => if e.code == UniqueViolation then Duplicate else Error
  }
}
