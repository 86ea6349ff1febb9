/**
 * The Google Sheets lists of the first generation (VinylBot/src/google): a sheet is a
 * sequence of rows of cell strings, the first row a header. The fetch itself is an
 * input; what these functions model is what is done with the rows afterwards.
 */
module Sheets {
  import opened Wrappers
  import opened Text
  import opened Seqs
  import opened Sorting
  import opened Normalize
  import opened Commands

  type Row = seq<string>

  /** `row[i]`: undefined past the end of the row. */
  function Cell(row: Row, i: nat): (r: Option<string>)
    ensures r.Some? <==> i < |row|
  {
    if i < |row| then Some(row[i]) else None
  }

  /** A cell in a template literal: a missing one prints as "undefined". */
  function CellText(row: Row, i: nat): string {
    Cell(row, i).GetOr("undefined")
  }

  /**
   * `row[i] && row[i].toLowerCase().includes(term.toLowerCase())`: a missing or empty
   * cell never matches.
   */
  predicate CellContains(row: Row, i: nat, term: string) {
    i < |row| && row[i] != "" && ContainsIgnoringCase(row[i], term)
  }

  // ---------------------------------------------------------------------------
  // GetData.js
  // ---------------------------------------------------------------------------

  /** `row.length > 0 ? row.slice(1) : row`: the album sheet's first column is dropped. */
  function DropFirstCell(row: Row): Row {
    if |row| > 0 then row[1..] else row
  }

  /**
   * `getData(sheetName)` after the fetch: no data or only a header gives [], otherwise
   * the rows after the header, each without its first cell when the sheet is the
   * album sheet.
   */
  function GetData(values: Option<seq<Row>>, isAlbumSheet: bool): (r: seq<Row>)
    ensures values.None? || |values.value| <= 1 ==> r == []
    ensures values.Some? && |values.value| > 1 ==> |r| == |values.value| - 1
    ensures values.Some? && |values.value| > 1 ==>
      forall i :: 0 <= i < |r| ==>
        r[i] == if isAlbumSheet then DropFirstCell(values.value[i + 1]) else values.value[i + 1]
  {
    if values.None? || |values.value| <= 1 then []
    else
      var rows := values.value;
      var mapped := if isAlbumSheet then seq(|rows|, i requires 0 <= i < |rows| => DropFirstCell(rows[i])) else rows;
      mapped[1..]
  }

  // ---------------------------------------------------------------------------
  // GetAlbumList.js
  // ---------------------------------------------------------------------------

  /** The want list names the user in column 3, the have list in column 5. */
  function UserColumn(isWantList: bool): nat {
    if isWantList then 3 else 5
  }

  /** Which rows `getAlbumList` keeps for a query. */
  function AlbumKeep(ctx: Context, isWantList: bool): Row -> bool {
    (row: Row) =>
      match ctx.kind
      case User => CellContains(row, UserColumn(isWantList), ctx.term)
      case Search => CellContains(row, 0, ctx.term) || CellContains(row, 1, ctx.term)
      case _ => true
  }

  function ArtistKey(row: Row): string { NormalizeString(Cell(row, 0)) }
  function AlbumKey(row: Row): string { NormalizeString(Cell(row, 1)) }

  /**
   * `getAlbumList(listType, ctx)` on the fetched sheet: filter by the query, then sort
   * by normalized artist and, among equal artists, by normalized album. `le` is
   * `localeCompare(…, { sensitivity: "base" }) <= 0`.
   */
  function GetAlbumList(isWantList: bool, ctx: Context, values: Option<seq<Row>>,
                        le: (string, string) -> bool): seq<Row>
  {
    var rows := GetData(values, !isWantList);
    SortBy(Filter(rows, AlbumKeep(ctx, isWantList)), ThenBy(ArtistKey, AlbumKey, le))
  }

  /**
   * The list holds exactly the fetched rows the query keeps, each as often as it was
   * fetched, and (under a consistent comparator) ordered by artist, then album.
   */
  lemma GetAlbumListSpec(isWantList: bool, ctx: Context, values: Option<seq<Row>>,
                                 le: (string, string) -> bool)
    requires TotalPreorder(le)
    ensures var rows := GetData(values, !isWantList);
      var keep := AlbumKeep(ctx, isWantList);
      var r := GetAlbumList(isWantList, ctx, values, le);
      multiset(r) == multiset(Filter(rows, keep)) &&
      (forall row :: row in r <==> row in rows && keep(row)) &&
      SortedBy(r, ThenBy(ArtistKey, AlbumKey, le))
  {
    var rows := GetData(values, !isWantList);
    var keep := AlbumKeep(ctx, isWantList);
    var kept := Filter(rows, keep);
    SortByPermutes(kept, ThenBy(ArtistKey, AlbumKey, le));
    FilterMembers(rows, keep);
    ThenByPreorder(ArtistKey, AlbumKey, le);
    SortBySorted(kept, ThenBy(ArtistKey, AlbumKey, le));
    var r := GetAlbumList(isWantList, ctx, values, le);
    forall row ensures row in r <==> row in kept {
      assert row in r <==> row in multiset(r);
      assert row in kept <==> row in multiset(kept);
    }
  }

  /** The two-key order: artists never decrease, and equal artists have albums in order. */
  lemma AlbumListOrder(isWantList: bool, ctx: Context, values: Option<seq<Row>>,
                       le: (string, string) -> bool, i: nat, j: nat)
    requires TotalPreorder(le)
    requires i < j < |GetAlbumList(isWantList, ctx, values, le)|
    ensures var r := GetAlbumList(isWantList, ctx, values, le);
      le(ArtistKey(r[i]), ArtistKey(r[j])) &&
      (le(ArtistKey(r[j]), ArtistKey(r[i])) ==> le(AlbumKey(r[i]), AlbumKey(r[j])))
  {
    GetAlbumListSpec(isWantList, ctx, values, le);
    var r := GetAlbumList(isWantList, ctx, values, le);
    ThenByMeaning(ArtistKey, AlbumKey, le, r[i], r[j]);
  }

  // ---------------------------------------------------------------------------
  // GetWantList.js
  // ---------------------------------------------------------------------------

  /** Which rows `getWantList` keeps: the user in column 3, or the artist in column 0. */
  function WantKeep(ctx: Context): Row -> bool {
    (row: Row) =>
      match ctx.kind
      case User => CellContains(row, 3, ctx.term)
      case Artist => CellContains(row, 0, ctx.term)
      case _ => true
  }

  /** `a[0] ?? ""`. */
  function FirstCellOrEmpty(row: Row): string { Cell(row, 0).GetOr("") }

  /**
   * `getWantList(ctx)` on the fetched "Searching For" sheet, whose values must be
   * present (the code calls `slice` on them): the header is dropped, the rows filtered
   * and sorted by their first cell alone.
   */
  function GetWantList(ctx: Context, values: Option<seq<Row>>, le: (string, string) -> bool): Result<seq<Row>> {
    match values
    case None => Err("Cannot read properties of undefined (reading 'slice')")
    case Some(rows) =>
      var body := if rows == [] then [] else rows[1..];
      Ok(SortBy(Filter(body, WantKeep(ctx)), By(FirstCellOrEmpty, le)))
  }

  /**
   * Missing values throw. Otherwise the want list is a sorted permutation of the kept
   * rows after the header (none for an empty sheet), and rows with equal first cells
   * stay in sheet order.
   */
  lemma GetWantListSpec(ctx: Context, values: Option<seq<Row>>, le: (string, string) -> bool, c: Row)
    requires TotalPreorder(le)
    ensures values.None? ==> GetWantList(ctx, values, le).Err?
    ensures values.Some? ==>
      var r := GetWantList(ctx, values, le);
      var rows := values.value;
      var kept := Filter(if rows == [] then [] else rows[1..], WantKeep(ctx));
      r.Ok? && multiset(r.value) == multiset(kept) &&
      SortedBy(r.value, By(FirstCellOrEmpty, le)) &&
      ClassOf(r.value, c, By(FirstCellOrEmpty, le)) == ClassOf(kept, c, By(FirstCellOrEmpty, le))
  {
    if values.Some? {
      var rows := values.value;
      var kept := Filter(if rows == [] then [] else rows[1..], WantKeep(ctx));
      SortByPermutes(kept, By(FirstCellOrEmpty, le));
      ByPreorder(FirstCellOrEmpty, le);
      SortBySorted(kept, By(FirstCellOrEmpty, le));
      SortByStable(kept, c, By(FirstCellOrEmpty, le));
    }
  }

  // ---------------------------------------------------------------------------
  // GetRandomRow.js
  // ---------------------------------------------------------------------------

  /** `filterColumnIndex !== null && filterValue`: the filter applies. */
  predicate FilterApplies(column: Option<nat>, value: Option<string>) {
    column.Some? && value.Some? && value.value != ""
  }

  function RowFilter(column: nat, value: string): Row -> bool {
    (row: Row) => CellContains(row, column, value)
  }

  /** The rows a random pick draws from. */
  function Candidates(rows: seq<Row>, column: Option<nat>, value: Option<string>): seq<Row> {
    if FilterApplies(column, value) then Filter(rows, RowFilter(column.value, value.value)) else rows
  }

  /**
   * `getRandomRow({ sheetName, filterColumnIndex, filterValue })` with `random` the
   * value of `Math.random()`: null when no row is left, else the row at
   * `floor(random * length)`.
   */
  function GetRandomRow(rows: seq<Row>, column: Option<nat>, value: Option<string>, random: real): Option<Row>
    requires 0.0 <= random < 1.0
  {
    var pool := Candidates(rows, column, value);
    if pool == [] then None else Some(pool[RandomIndex(random, |pool|)])
  }

  /**
   * null exactly when no row is left; otherwise the pick is one of the rows and, when
   * the filter applies, its cell contains the value.
   */
  lemma GetRandomRowSpec(rows: seq<Row>, column: Option<nat>, value: Option<string>, random: real)
    requires 0.0 <= random < 1.0
    ensures var r := GetRandomRow(rows, column, value, random);
      (r.None? <==> Candidates(rows, column, value) == []) &&
      (r.Some? ==> r.value in rows) &&
      (r.Some? && FilterApplies(column, value) ==> CellContains(r.value, column.value, value.value))
    ensures !FilterApplies(column, value) ==> (GetRandomRow(rows, column, value, random).None? <==> rows == [])
  {
    if FilterApplies(column, value) {
      FilterMembers(rows, RowFilter(column.value, value.value));
    }
  }

  // ---------------------------------------------------------------------------
  // CheckAlbumExists.js
  // ---------------------------------------------------------------------------

  /** Artist and album of one row normalize to the (already normalized) query. */
  predicate RowMatches(row: Row, artist: string, album: string) {
    ArtistKey(row) == artist && AlbumKey(row) == album
  }

  /** The test `rows.some` applies. */
  function MatcherFor(artist: string, album: string): Row -> bool {
    (row: Row) => RowMatches(row, artist, album)
  }

  /**
   * `checkIfAlbumExists(sheetName, artist, album)` on the rows `getData` returns: the
   * query is normalized once, each row's first two cells for every comparison.
   */
  function CheckIfAlbumExists(rows: seq<Row>, artist: Option<string>, album: Option<string>): bool {
    Any(rows, MatcherFor(NormalizeString(artist), NormalizeString(album)))
  }

  /** `checkIfAlbumExists` is true exactly when one row matches both artist and album. */
  lemma CheckIff(rows: seq<Row>, artist: Option<string>, album: Option<string>)
    ensures CheckIfAlbumExists(rows, artist, album) <==>
      exists i :: 0 <= i < |rows| && RowMatches(rows[i], NormalizeString(artist), NormalizeString(album))
  {
    AnyIff(rows, MatcherFor(NormalizeString(artist), NormalizeString(album)));
  }

  /** The order of the rows does not matter. */
  lemma RowOrderIrrelevant(rows: seq<Row>, other: seq<Row>, artist: Option<string>, album: Option<string>)
    requires multiset(rows) == multiset(other)
    ensures CheckIfAlbumExists(rows, artist, album) == CheckIfAlbumExists(other, artist, album)
  {
    AnyPermutation(rows, other, MatcherFor(NormalizeString(artist), NormalizeString(album)));
  }

  /** A header-only sheet, or no data at all, holds nothing. */
  lemma CheckEmptySheet(values: Option<seq<Row>>, isAlbumSheet: bool, artist: Option<string>, album: Option<string>)
    requires values.None? || |values.value| <= 1
    ensures !CheckIfAlbumExists(GetData(values, isAlbumSheet), artist, album)
  {
  }

  /** The match ignores letter case on the query side. */
  lemma CheckIgnoresCase(rows: seq<Row>, artist: string, album: string)
    ensures CheckIfAlbumExists(rows, Some(artist), Some(album)) ==
            CheckIfAlbumExists(rows, Some(Lower(artist)), Some(Lower(album)))
  {
    LowerIsLower(artist);
    LowerOfLower(Lower(artist));
    LowerIsLower(album);
    LowerOfLower(Lower(album));
  }
}
