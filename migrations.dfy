/**
 * The one-off migration scripts that move the Google Sheets data into the stores of
 * the later generations. The sheet rows, the user and location maps, and the fetches
 * are inputs; the inserts and writes are what the functions and methods return.
 * `parseInt`, `parseFloat` and `new Date` stay abstract: they are parameters, or the
 * cell text is kept.
 */
module Migrations {
  import opened Wrappers
  import opened Text
  import opened Seqs
  import opened Sheets
  import UserMaps

  // ---------------------------------------------------------------------------
  // FirestoreBot/src/scripts/migateStoresFromSheets.ts
  // ---------------------------------------------------------------------------

  /** A store document as written. `notes` is `None` when it is left undefined. */
  datatype Store = Store(name: string, address: string, recommended: bool, purchaseCount: nat, notes: Option<string>)

  datatype StoreWrite = StoreWrite(id: string, store: Store)

  /** A character the store id keeps: `[a-z0-9]`. */
  predicate IsSlugChar(c: char) { 'a' <= c <= 'z' || IsDigit(c) }

  /** The length of the leading run of characters outside `[a-z0-9]`. */
  function OtherRun(s: string): (n: nat)
    ensures n <= |s| && forall k :: 0 <= k < n ==> !IsSlugChar(s[k])
    ensures n < |s| ==> IsSlugChar(s[n])
  {
    if s == [] || IsSlugChar(s[0]) then 0 else 1 + OtherRun(s[1..])
  }

  /** `s.replace(/[^a-z0-9]+/g, "-")`: every maximal run of other characters becomes one "-". */
  function Slug(s: string): (r: string)
    decreases |s|
  {
    if s == [] then []
    else if IsSlugChar(s[0]) then [s[0]] + Slug(s[1..])
    else "-" + Slug(s[OtherRun(s)..])
  }

  /** `name.toLowerCase().replace(/[^a-z0-9]+/g, "-")`. */
  function StoreId(name: string): string {
    Slug(Lower(name))
  }

  /** Only `[a-z0-9-]`, and never two "-" in a row. */
  predicate SlugShaped(t: string) {
    (forall k :: 0 <= k < |t| ==> IsSlugChar(t[k]) || t[k] == '-') &&
    (forall k :: 0 <= k < |t| - 1 ==> !(t[k] == '-' && t[k + 1] == '-'))
  }

  /** The slug of a non-empty string is not empty; it starts with "-" exactly when the string starts outside the class. */
  lemma SlugHead(s: string)
    requires s != []
    ensures Slug(s) != [] && (Slug(s)[0] == '-' <==> !IsSlugChar(s[0]))
  {
  }

  lemma {:induction false} SlugIsShaped(s: string)
    ensures SlugShaped(Slug(s))
    decreases |s|
  {
    if s != [] {
      if IsSlugChar(s[0]) {
        SlugIsShaped(s[1..]);
        var r := Slug(s[1..]);
        assert Slug(s) == [s[0]] + r;
      } else {
        var n := OtherRun(s);
        SlugIsShaped(s[n..]);
        var r := Slug(s[n..]);
        assert Slug(s) == "-" + r;
        if r != [] {
          SlugHead(s[n..]);
        }
      }
    }
  }

  /** A slug-shaped string is its own slug. */
  lemma {:induction false} ShapedIsFixed(t: string)
    requires SlugShaped(t)
    ensures Slug(t) == t
    decreases |t|
  {
    if t != [] {
      assert SlugShaped(t[1..]);
      ShapedIsFixed(t[1..]);
      if !IsSlugChar(t[0]) {
        assert OtherRun(t) == 1;
      }
    }
  }

  /** Slugging twice is slugging once. */
  lemma SlugIdempotent(s: string)
    ensures Slug(Slug(s)) == Slug(s)
  {
    SlugIsShaped(s);
    ShapedIsFixed(Slug(s));
  }

  /**
   * The store id holds only `[a-z0-9-]` with no "--", is not empty for a non-empty name,
   * is the name itself for a lowercase alphanumeric name, and is its own id.
   */
  lemma StoreIdSpec(name: string)
    ensures SlugShaped(StoreId(name))
    ensures name != [] ==> StoreId(name) != []
    ensures (forall k :: 0 <= k < |name| ==> IsSlugChar(name[k])) ==> StoreId(name) == name
    ensures StoreId(StoreId(name)) == StoreId(name)
  {
    SlugIsShaped(Lower(name));
    if name != [] {
      SlugHead(Lower(name));
    }
    if forall k :: 0 <= k < |name| ==> IsSlugChar(name[k]) {
      LowerOfLower(name);
      ShapedIsFixed(name);
    }
    var id := StoreId(name);
    LowerOfLower(id);
    ShapedIsFixed(id);
  }

  /** `String(raw).toLowerCase() === "true" || ... === "yes"`: an absent cell prints "undefined". */
  function StoreRecommended(raw: Option<string>): (r: bool)
    ensures raw.None? ==> !r
  {
    var t := Lower(raw.GetOr("undefined"));
    assert |t| == 9 || raw.Some?;
    t == "true" || t == "yes"
  }

  /** There is no trimming: a cell with leading whitespace is never recommended. */
  lemma RecommendedNoTrim(s: string)
    requires |s| > 0 && IsSpace(s[0])
    ensures !StoreRecommended(Some(s))
  {
    assert Lower(s)[0] == s[0];
  }

  /** `!name || !address` skips a row. */
  predicate ValidStoreRow(row: Row) {
    Cell(row, 0).Some? && row[0] != "" && Cell(row, 1).Some? && row[1] != ""
  }

  /** The document written for a valid row. */
  function StoreWriteOf(row: Row): (w: StoreWrite)
    requires ValidStoreRow(row)
    ensures w.store.purchaseCount == 0 && w.store.name == row[0] && w.store.address == row[1]
    ensures w.store.notes.None? <==> Cell(row, 3).None? || row[3] == ""
  {
    var notes := if Cell(row, 3).Some? && row[3] != "" then Some(row[3]) else None;
    StoreWrite(StoreId(row[0]), Store(row[0], row[1], StoreRecommended(Cell(row, 2)), 0, notes))
  }

  /** The writes for a run of rows, in order. */
  function StoreWrites(rows: seq<Row>): seq<StoreWrite>
    decreases |rows|
  {
    if rows == [] then []
    else
      var last := rows[|rows| - 1];
      StoreWrites(rows[..|rows| - 1]) + (if ValidStoreRow(last) then [StoreWriteOf(last)] else [])
  }

  function ValidKeep(): Row -> bool { row => ValidStoreRow(row) }

  /**
   * One write per valid row and none for the others, each write that of a valid row,
   * with purchase count 0 and a slug-shaped id.
   */
  lemma {:induction false} StoreWritesSpec(rows: seq<Row>)
    ensures |StoreWrites(rows)| == |Filter(rows, ValidKeep())|
    ensures forall w :: w in StoreWrites(rows) ==>
      (exists j :: 0 <= j < |rows| && ValidStoreRow(rows[j]) && w == StoreWriteOf(rows[j])) &&
      w.store.purchaseCount == 0 && SlugShaped(w.id)
    decreases |rows|
  {
    if rows != [] {
      var pre := rows[..|rows| - 1];
      StoreWritesSpec(pre);
      var last := rows[|rows| - 1];
      forall w | w in StoreWrites(rows)
        ensures (exists j :: 0 <= j < |rows| && ValidStoreRow(rows[j]) && w == StoreWriteOf(rows[j])) &&
          w.store.purchaseCount == 0 && SlugShaped(w.id)
      {
        if w in StoreWrites(pre) {
          var j :| 0 <= j < |pre| && ValidStoreRow(pre[j]) && w == StoreWriteOf(pre[j]);
          assert rows[j] == pre[j];
        } else {
          assert ValidStoreRow(last) && w == StoreWriteOf(last);
          StoreIdSpec(last[0]);
        }
      }
    }
  }

  /**
   * `migrateStores()` after the sheet fetch: no rows write nothing; otherwise each valid
   * row is written under its id, invalid ones are skipped, and the counter counts the writes.
   */
  method MigrateStores(values: Option<seq<Row>>) returns (writes: seq<StoreWrite>, migrated: nat)
    ensures values.None? ==> writes == []
    ensures values.Some? ==> writes == StoreWrites(values.value)
    ensures migrated == |writes|
  {
    writes := [];
    migrated := 0;
    if values.None? || |values.value| == 0 {
      return;
    }
    var rows := values.value;
    for i := 0 to |rows|
      invariant writes == StoreWrites(rows[..i]) && migrated == |writes|
    {
      assert rows[..i + 1][..i] == rows[..i];
      var row := rows[i];
      if !ValidStoreRow(row) {
        continue;
      }
      writes := writes + [StoreWriteOf(row)];
      migrated := migrated + 1;
    }
    assert rows[..|rows|] == rows;
  }

  // ---------------------------------------------------------------------------
  // SupabaseBot/src/scripts/migrateLocations.ts
  // ---------------------------------------------------------------------------

  /** A location row as inserted. `purchaseCount` is `parseInt(...) || 0`, a parameter here. */
  datatype LocationRecord = LocationRecord(name: string, address: Option<string>, recommended: Option<bool>,
                                           purchaseCount: int, notes: Option<string>)

  /**
   * The tri-state `recommended`: unknown for an absent or empty cell; otherwise the
   * lowercased, trimmed text decides: "true"/"yes" true, "false"/"no" false, else unknown.
   */
  function Recommended(raw: Option<string>): (r: Option<bool>)
    ensures raw.None? || raw == Some("") ==> r.None?
    ensures raw.Some? && raw.value != "" ==> (
      var t := Trim(Lower(raw.value));
      (r == Some(true) <==> t == "true" || t == "yes") &&
      (r == Some(false) <==> t == "false" || t == "no"))
  {
    if raw.None? || raw.value == "" then None
    else
      var t := Trim(Lower(raw.value));
      if t == "true" || t == "yes" then Some(true)
      else if t == "false" || t == "no" then Some(false)
      else None
  }

  /** Whitespace around the word does not matter here, unlike for the stores. */
  lemma RecommendedTrims(w: string, gap: string)
    requires w != "" && AllSpace(gap) && !IsSpace(w[0]) && !IsSpace(w[|w| - 1])
    ensures Recommended(Some(gap + w)) == Recommended(Some(w))
  {
    LowerTrimOfSpaced(w, gap);
  }

  lemma LowerTrimOfSpaced(w: string, gap: string)
    requires w != "" && AllSpace(gap) && !IsSpace(w[0]) && !IsSpace(w[|w| - 1])
    ensures Trim(Lower(gap + w)) == Trim(Lower(w))
  {
    LowerAppend(gap, w);
    LowerKeepsSpace(gap);
    LowerKeepsEnds(w);
    TrimOfSpaced(Lower(gap), Lower(w));
  }

  lemma LowerKeepsSpace(s: string)
    requires AllSpace(s)
    ensures AllSpace(Lower(s))
  {
  }

  lemma LowerKeepsEnds(w: string)
    requires w != "" && !IsSpace(w[0]) && !IsSpace(w[|w| - 1])
    ensures Lower(w) != "" && !IsSpace(Lower(w)[0]) && !IsSpace(Lower(w)[|w| - 1])
  {
  }

  lemma TrimOfSpaced(gap: string, w: string)
    requires AllSpace(gap) && w != "" && !IsSpace(w[0]) && !IsSpace(w[|w| - 1])
    ensures Trim(gap + w) == Trim(w)
  {
    TrimStartSuffix(gap + w);
    TrimNoop(w);
    TrimStartOfSpaceThen(gap, w);
  }

  lemma {:induction false} TrimStartOfSpaceThen(gap: string, w: string)
    requires AllSpace(gap) && w != "" && !IsSpace(w[0])
    ensures TrimStart(gap + w) == TrimStart(w)
    decreases |gap|
  {
    if gap != [] {
      assert (gap + w)[1..] == gap[1..] + w;
      TrimStartOfSpaceThen(gap[1..], w);
    } else {
      assert gap + w == w;
    }
  }

  /** The mapped row: `[name, address, recommendedRaw, totalPurchased, notes]`. */
  function LocationRow(row: Row, parseCount: Option<string> -> int): (r: LocationRecord)
    ensures Cell(row, 0).None? || row[0] == "" ==> r.name == "Unknown Store"
    ensures Cell(row, 1).None? || row[1] == "" ==> r.address.None?
    ensures Cell(row, 4).None? || row[4] == "" ==> r.notes.None?
    ensures r.recommended == Recommended(Cell(row, 2))
  {
    LocationRecord(
      if Cell(row, 0).Some? && row[0] != "" then row[0] else "Unknown Store",
      if Cell(row, 1).Some? && row[1] != "" then Some(row[1]) else None,
      Recommended(Cell(row, 2)),
      parseCount(Cell(row, 3)),
      if Cell(row, 4).Some? && row[4] != "" then Some(row[4]) else None)
  }

  /** `migrateLocations()` after the fetch: the rows mapped one to one, or no insert for an empty sheet. */
  function MigrateLocations(rows: seq<Row>, parseCount: Option<string> -> int): (r: Option<seq<LocationRecord>>)
    ensures r.None? <==> rows == []
    ensures r.Some? ==> |r.value| == |rows| && forall i :: 0 <= i < |rows| ==> r.value[i] == LocationRow(rows[i], parseCount)
  {
    if rows == [] then None
    else Some(seq(|rows|, i requires 0 <= i < |rows| => LocationRow(rows[i], parseCount)))
  }

  // ---------------------------------------------------------------------------
  // SupabaseBot/src/scripts/migrateWantlist.ts
  // ---------------------------------------------------------------------------

  /** A cell with its metadata: the formatted value and the formula, each possibly missing. */
  datatype MetaCell = MetaCell(formatted: Option<string>, formula: Option<string>)

  type MetaRow = seq<MetaCell>

  /** `cells[i]?.formattedValue`. */
  function Formatted(cells: MetaRow, i: nat): Option<string> {
    if i < |cells| then cells[i].formatted else None
  }

  /** `cells[i]?.formattedValue?.trim()`. */
  function TrimmedCell(cells: MetaRow, i: nat): (r: Option<string>)
    ensures r.Some? <==> Formatted(cells, i).Some?
    ensures r.Some? ==> r.value == Trim(Formatted(cells, i).value)
  {
    match Formatted(cells, i)
    case None => None
    case Some(v) => Some(Trim(v))
  }

  /** The length of the leading run of characters other than '"'. */
  function QuoteFree(s: string): (n: nat)
    ensures n <= |s| && '"' !in s[..n]
    ensures n < |s| ==> s[n] == '"'
  {
    if s == [] || s[0] == '"' then 0
    else
      var n := 1 + QuoteFree(s[1..]);
      assert s[..n] == [s[0]] + s[1..][..n - 1];
      n
  }

  /** The capture of `/"([^"]+)"/` when its match starts at position i. */
  function QuotedAt(s: string, i: nat): (r: Option<string>)
    requires i <= |s|
    ensures r.Some? ==> r.value != "" && '"' !in r.value
  {
    if i < |s| && s[i] == '"' then
      var n := QuoteFree(s[i + 1..]);
      if n > 0 && i + 1 + n < |s| then Some(s[i + 1..i + 1 + n]) else None
    else None
  }

  /** The leftmost match at or after position i. */
  function FirstQuoted(s: string, i: nat): (r: Option<string>)
    requires i <= |s|
    ensures r.Some? ==> r.value != "" && '"' !in r.value
    decreases |s| - i
  {
    if i == |s| then None
    else if QuotedAt(s, i).Some? then QuotedAt(s, i) else FirstQuoted(s, i + 1)
  }

  /** `formula.match(/"([^"]+)"/)?.[1] || ""`. */
  function ImageUrl(formula: string): string {
    FirstQuoted(formula, 0).GetOr("")
  }

  /** The URL of an `=IMAGE("...")`-style formula: the first quoted non-empty text. */
  lemma ImageUrlOfFormula(prefix: string, url: string, suffix: string)
    requires '"' !in prefix && url != "" && '"' !in url
    ensures ImageUrl(prefix + "\"" + url + "\"" + suffix) == url
  {
    var s := prefix + "\"" + url + "\"" + suffix;
    var i := |prefix|;
    assert s[..i] == prefix;
    NoQuoteBefore(s, prefix, 0);
    assert s[i] == '"';
    var tail := "\"" + suffix;
    assert s[i + 1..] == url + tail;
    QuoteFreeOf(url, tail);
    assert i + 1 + |url| < |s|;
    assert s[i + 1..i + 1 + |url|] == url;
    assert QuotedAt(s, i) == Some(url);
  }

  lemma {:induction false} NoQuoteBefore(s: string, prefix: string, i: nat)
    requires '"' !in prefix && |prefix| < |s| && s[..|prefix|] == prefix && i <= |prefix|
    ensures FirstQuoted(s, i) == FirstQuoted(s, |prefix|)
    decreases |prefix| - i
  {
    if i < |prefix| {
      assert s[i] == prefix[i];
      NoQuoteBefore(s, prefix, i + 1);
    }
  }

  lemma {:induction false} QuoteFreeOf(t: string, rest: string)
    requires '"' !in t && rest != [] && rest[0] == '"'
    ensures QuoteFree(t + rest) == |t|
    decreases |t|
  {
    if t != [] {
      assert (t + rest)[1..] == t[1..] + rest;
      assert t[0] in t;
      assert forall c :: c in t[1..] ==> c in t;
      QuoteFreeOf(t[1..], rest);
    } else {
      assert t + rest == rest;
    }
  }

  /** A wanted item as inserted. */
  datatype WantedItem = WantedItem(artist: string, album: string, imageUrl: string, searcher: seq<string>, notes: string)

  /** The mapped row: trimmed names with defaults only for absent cells, the image URL, the searcher's ids. */
  function WantedRow(cells: MetaRow, userMap: map<string, seq<string>>): (r: WantedItem)
    ensures r.artist == (if Formatted(cells, 0).Some? then Trim(Formatted(cells, 0).value) else "Unknown Artist")
    ensures r.album == (if Formatted(cells, 1).Some? then Trim(Formatted(cells, 1).value) else "Unknown Album")
    ensures var who := Formatted(cells, 3).GetOr("");
      r.searcher == if who in userMap then userMap[who] else []
  {
    var formula := if 2 < |cells| && cells[2].formula.Some? then cells[2].formula.value else "";
    var who := Formatted(cells, 3).GetOr("");
    WantedItem(
      TrimmedCell(cells, 0).GetOr("Unknown Artist"),
      TrimmedCell(cells, 1).GetOr("Unknown Album"),
      ImageUrl(formula),
      if who in userMap then userMap[who] else [],
      Formatted(cells, 4).GetOr(""))
  }

  predicate HasSearcher(item: WantedItem) { |item.searcher| > 0 }

  function SearcherKeep(): WantedItem -> bool { item => HasSearcher(item) }

  /** `migrateWantlist()` after the fetches: the mapped items with a searcher, or no insert when none remain. */
  function MigrateWantlist(rows: seq<MetaRow>, userMap: map<string, seq<string>>): Option<seq<WantedItem>> {
    var items := seq(|rows|, i requires 0 <= i < |rows| => WantedRow(rows[i], userMap));
    var valid := Filter(items, SearcherKeep());
    if valid == [] then None else Some(valid)
  }

  /**
   * What is inserted is exactly the mapped items that have a searcher, in row order
   * (a filter of the mapped rows); nothing is inserted when no item has one.
   */
  lemma WantlistSpec(rows: seq<MetaRow>, userMap: map<string, seq<string>>)
    ensures var items := seq(|rows|, i requires 0 <= i < |rows| => WantedRow(rows[i], userMap));
      (MigrateWantlist(rows, userMap).None? <==> forall i :: 0 <= i < |rows| ==> !HasSearcher(items[i])) &&
      (MigrateWantlist(rows, userMap).Some? ==>
        MigrateWantlist(rows, userMap).value == Filter(items, SearcherKeep()) &&
        forall x :: x in MigrateWantlist(rows, userMap).value <==> x in items && HasSearcher(x))
  {
    var items := seq(|rows|, i requires 0 <= i < |rows| => WantedRow(rows[i], userMap));
    FilterMembers(items, SearcherKeep());
    var valid := Filter(items, SearcherKeep());
    if valid == [] {
      forall i | 0 <= i < |rows| ensures !HasSearcher(items[i]) {
        assert items[i] in items;
      }
    } else {
      assert valid[0] in valid;
    }
  }

  // ---------------------------------------------------------------------------
  // SupabaseBot/src/scripts/migratePlayLogs.ts
  // ---------------------------------------------------------------------------

  /** A play log as inserted; `date` keeps the trimmed cell text that `new Date` would read. */
  datatype PlayLog = PlayLog(artist: string, album: string, date: Option<string>, listeners: seq<string>)

  /** Some of its first three trimmed values is not empty. */
  predicate IsNonEmptyPlayLogRow(cells: MetaRow) {
    (TrimmedCell(cells, 0).Some? && TrimmedCell(cells, 0).value != "") ||
    (TrimmedCell(cells, 1).Some? && TrimmedCell(cells, 1).value != "") ||
    (TrimmedCell(cells, 2).Some? && TrimmedCell(cells, 2).value != "")
  }

  /** `mapRowToPlayLog(row, listeners)`. */
  function MapRowToPlayLog(cells: MetaRow, listeners: seq<string>): (r: PlayLog)
    ensures r.listeners == listeners
    ensures Formatted(cells, 0).None? ==> r.artist == "Unknown Artist"
    ensures Formatted(cells, 0).Some? ==> r.artist == Trim(Formatted(cells, 0).value)
    ensures Formatted(cells, 1).None? ==> r.album == "Unknown Album"
    ensures Formatted(cells, 1).Some? ==> r.album == Trim(Formatted(cells, 1).value)
    ensures r.date.None? <==> Formatted(cells, 2).None? || Trim(Formatted(cells, 2).value) == ""
  {
    var d := TrimmedCell(cells, 2);
    PlayLog(TrimmedCell(cells, 0).GetOr("Unknown Artist"), TrimmedCell(cells, 1).GetOr("Unknown Album"),
            if d.Some? && d.value != "" then d else None, listeners)
  }

  function NonEmptyKeep(): MetaRow -> bool { cells => IsNonEmptyPlayLogRow(cells) }

  /** `rowData.filter(isNonEmptyPlayLogRow).map(row => mapRowToPlayLog(row, listeners))`. */
  function UserPlays(rows: seq<MetaRow>, listeners: seq<string>): (r: seq<PlayLog>)
    ensures var kept := Filter(rows, NonEmptyKeep());
      |r| == |kept| && forall k :: 0 <= k < |r| ==> r[k] == MapRowToPlayLog(kept[k], listeners)
  {
    var kept := Filter(rows, NonEmptyKeep());
    seq(|kept|, k requires 0 <= k < |kept| => MapRowToPlayLog(kept[k], listeners))
  }

  /** The range read for one user's plays. */
  function SheetRange(name: string): string {
    name + "'s Play Log!A2:C"
  }

  function ListenersFor(userMap: map<string, seq<string>>, name: string): seq<string> {
    if name in userMap then userMap[name] else []
  }

  /** The plays collected from the sheets of `names`, in order; a fetch that throws is `None` and skipped. */
  function PlaysOf(names: seq<string>, userMap: map<string, seq<string>>, fetch: string -> Option<seq<MetaRow>>): seq<PlayLog> {
    FlatMap(names, SheetsOf(userMap, fetch))
  }

  function SheetsOf(userMap: map<string, seq<string>>, fetch: string -> Option<seq<MetaRow>>): string -> seq<PlayLog> {
    name => SheetPlays(name, userMap, fetch)
  }

  /** The plays one name's sheet contributes: none when its fetch throws. */
  function SheetPlays(name: string, userMap: map<string, seq<string>>, fetch: string -> Option<seq<MetaRow>>): seq<PlayLog> {
    match fetch(SheetRange(name))
    case None => []
    case Some(rows) => UserPlays(rows, ListenersFor(userMap, name))
  }

  /** Every play collected carries the listeners of a user whose sheet could be read. */
  lemma {:induction false} PlaysOfListeners(names: seq<string>, userMap: map<string, seq<string>>,
                                            fetch: string -> Option<seq<MetaRow>>)
    ensures forall p :: p in PlaysOf(names, userMap, fetch) ==>
      exists i :: 0 <= i < |names| && fetch(SheetRange(names[i])).Some? && p.listeners == ListenersFor(userMap, names[i])
    decreases |names|
  {
    if names != [] {
      var pre := names[..|names| - 1];
      var name := names[|names| - 1];
      PlaysOfListeners(pre, userMap, fetch);
      forall p | p in PlaysOf(names, userMap, fetch)
        ensures exists i :: 0 <= i < |names| && fetch(SheetRange(names[i])).Some? && p.listeners == ListenersFor(userMap, names[i])
      {
        if p in PlaysOf(pre, userMap, fetch) {
          var i :| 0 <= i < |pre| && fetch(SheetRange(pre[i])).Some? && p.listeners == ListenersFor(userMap, pre[i]);
          assert names[i] == pre[i];
        } else {
          var rows := fetch(SheetRange(name)).value;
          var k :| 0 <= k < |UserPlays(rows, ListenersFor(userMap, name))| && UserPlays(rows, ListenersFor(userMap, name))[k] == p;
          assert names[|names| - 1] == name;
        }
      }
    }
  }

  /** The plays of a longer list of names are those of its parts, one after the other. */
  lemma PlaysOfAppend(a: seq<string>, b: seq<string>, userMap: map<string, seq<string>>,
                      fetch: string -> Option<seq<MetaRow>>)
    ensures PlaysOf(a + b, userMap, fetch) == PlaysOf(a, userMap, fetch) + PlaysOf(b, userMap, fetch)
  {
    FlatMapAppend(a, b, SheetsOf(userMap, fetch));
  }

  lemma PlaysOfStep(names: seq<string>, i: nat, userMap: map<string, seq<string>>, fetch: string -> Option<seq<MetaRow>>)
    requires i < |names|
    ensures PlaysOf(names[..i + 1], userMap, fetch) == PlaysOf(names[..i], userMap, fetch) + SheetPlays(names[i], userMap, fetch)
  {
    assert names[..i + 1][..i] == names[..i];
  }

  /**
   * `migratePlayLogs()` after the user fetch: for each key of the user map in its key
   * order, the non-empty rows of that user's sheet become plays with that key's ids; a
   * sheet that cannot be read is skipped.
   */
  method MigratePlayLogs(users: seq<UserMaps.User>, fetch: string -> Option<seq<MetaRow>>) returns (plays: seq<PlayLog>)
    ensures plays == PlaysOf(UserMaps.KeyOrder(users), UserMaps.UserMapOf(users), fetch)
  {
    var userMap := UserMaps.ResolveUserMap(users);
    var names := UserMaps.KeyOrder(users);
    plays := [];
    for i := 0 to |names|
      invariant plays == PlaysOf(names[..i], userMap, fetch)
    {
      PlaysOfStep(names, i, userMap, fetch);
      var rowData := fetch(SheetRange(names[i]));
      if rowData.None? {
        continue;
      }
      var listeners := if names[i] in userMap then userMap[names[i]] else [];
      plays := plays + UserPlays(rowData.value, listeners);
    }
    assert names[..|names|] == names;
  }

  // ---------------------------------------------------------------------------
  // SupabaseBot/src/scripts/migrateVinyls.ts
  // ---------------------------------------------------------------------------

  /** A vinyl as inserted; the number, price, length and play count parsers are parameters, the date its cell. */
  datatype VinylRecord = VinylRecord(purchaseNumber: int, artist: string, album: string, purchaseDate: Option<string>,
                                     purchaseLocation: string, price: real, owner: seq<string>, length: int,
                                     notes: string, playCount: int, likedBy: seq<string>)

  /** The first id of each trimmed token found in the user map, in token order. */
  function LikedBy(tokens: seq<string>, userMap: map<string, seq<string>>): seq<string>
    decreases |tokens|
  {
    if tokens == [] then []
    else
      var key := Trim(tokens[|tokens| - 1]);
      LikedBy(tokens[..|tokens| - 1], userMap) + (if key in userMap && userMap[key] != [] then [userMap[key][0]] else [])
  }

  /** `String(likes).split(",")` followed by the `forEach(push)` over the tokens. */
  method LikedByArray(likes: Option<string>, userMap: map<string, seq<string>>) returns (liked: seq<string>)
    ensures liked == LikedBy(Split(likes.GetOr("undefined"), ','), userMap)
  {
    var tokens := Split(likes.GetOr("undefined"), ',');
    liked := [];
    var i := 0;
    while i < |tokens|
      invariant 0 <= i <= |tokens|
      invariant liked == LikedBy(tokens[..i], userMap)
    {
      LikedByStep(tokens, i, userMap);
      var userId := Trim(tokens[i]);
      if userId in userMap && userMap[userId] != [] {
        liked := liked + [userMap[userId][0]];
      }
      i := i + 1;
    }
    assert tokens[..|tokens|] == tokens;
  }

  lemma LikedByStep(tokens: seq<string>, i: nat, userMap: map<string, seq<string>>)
    requires i < |tokens|
    ensures var key := Trim(tokens[i]);
      LikedBy(tokens[..i + 1], userMap) ==
      LikedBy(tokens[..i], userMap) + (if key in userMap && userMap[key] != [] then [userMap[key][0]] else [])
  {
    assert tokens[..i + 1][..i] == tokens[..i];
  }

  /** Each liked id is the first id of some token's user, and unknown tokens add nothing. */
  lemma {:induction false} LikedBySpec(tokens: seq<string>, userMap: map<string, seq<string>>)
    ensures |LikedBy(tokens, userMap)| <= |tokens|
    ensures forall x :: x in LikedBy(tokens, userMap) ==>
      exists j :: 0 <= j < |tokens| && Trim(tokens[j]) in userMap && userMap[Trim(tokens[j])] != [] &&
                  x == userMap[Trim(tokens[j])][0]
    ensures (forall j :: 0 <= j < |tokens| ==> Trim(tokens[j]) !in userMap) ==> LikedBy(tokens, userMap) == []
    decreases |tokens|
  {
    if tokens != [] {
      var pre := tokens[..|tokens| - 1];
      LikedBySpec(pre, userMap);
      forall x | x in LikedBy(tokens, userMap)
        ensures exists j :: 0 <= j < |tokens| && Trim(tokens[j]) in userMap && userMap[Trim(tokens[j])] != [] &&
                            x == userMap[Trim(tokens[j])][0]
      {
        if x in LikedBy(pre, userMap) {
          var j :| 0 <= j < |pre| && Trim(pre[j]) in userMap && userMap[Trim(pre[j])] != [] && x == userMap[Trim(pre[j])][0];
          assert tokens[j] == pre[j];
        }
      }
      if forall j :: 0 <= j < |tokens| ==> Trim(tokens[j]) !in userMap {
        assert forall j :: 0 <= j < |pre| ==> pre[j] == tokens[j];
      }
    }
  }

  /** The number parsers `parseInt(x) || 0` and `parseFloat(x) || 0`. */
  datatype Parsers = Parsers(int0: Option<string> -> int, real0: Option<string> -> real)

  /**
   * The mapped row `[purchaseNum, artist, album, date, loc, price, owner, len, notes,
   * plays, likes]`: names trimmed with defaults for absent cells, location and owner
   * looked up verbatim with "" and [] when missing.
   */
  function VinylRow(row: Row, userMap: map<string, seq<string>>, locationMap: map<string, string>, p: Parsers): (r: VinylRecord)
    ensures r.artist == (if Cell(row, 1).Some? then Trim(row[1]) else "Unknown Artist")
    ensures r.album == (if Cell(row, 2).Some? then Trim(row[2]) else "Unknown Album")
    ensures r.owner == (if Cell(row, 6).Some? && row[6] in userMap then userMap[row[6]] else [])
    ensures r.purchaseLocation == (if Cell(row, 4).Some? && row[4] in locationMap then locationMap[row[4]] else "")
    ensures r.likedBy == LikedBy(Split(Cell(row, 10).GetOr("undefined"), ','), userMap)
  {
    VinylRecord(
      p.int0(Cell(row, 0)),
      if Cell(row, 1).Some? then Trim(row[1]) else "Unknown Artist",
      if Cell(row, 2).Some? then Trim(row[2]) else "Unknown Album",
      if Cell(row, 3).Some? && row[3] != "" then Some(row[3]) else None,
      if Cell(row, 4).Some? && row[4] in locationMap then locationMap[row[4]] else "",
      p.real0(Cell(row, 5)),
      if Cell(row, 6).Some? && row[6] in userMap then userMap[row[6]] else [],
      p.int0(Cell(row, 7)),
      Cell(row, 8).GetOr(""),
      p.int0(Cell(row, 9)),
      LikedBy(Split(Cell(row, 10).GetOr("undefined"), ','), userMap))
  }

  /** `migrateVinyls()` after the fetches: the rows mapped one to one, or no insert for an empty sheet. */
  function MigrateVinyls(rows: seq<Row>, userMap: map<string, seq<string>>, locationMap: map<string, string>,
                         p: Parsers): (r: Option<seq<VinylRecord>>)
    ensures r.None? <==> rows == []
    ensures r.Some? ==> |r.value| == |rows| && forall i :: 0 <= i < |rows| ==> r.value[i] == VinylRow(rows[i], userMap, locationMap, p)
  {
    if rows == [] then None
    else Some(seq(|rows|, i requires 0 <= i < |rows| => VinylRow(rows[i], userMap, locationMap, p)))
  }
}
