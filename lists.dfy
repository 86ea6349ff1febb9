/**
 * The list commands and how they render pages: the generic `EmbeddedResponse`, the two
 * Sheets-era handlers (`ProcessWantList` and `ProcessList` in JavaScript), and the two
 * database-era `ProcessList` handlers. Each handler decides how the command opens (no
 * reply, a text reply, or a paginated session); the session itself is `Pager.Session`,
 * and `Render` turns the session's view into the embed it shows.
 */
module ListCommands {
  import opened Wrappers
  import opened Text
  import opened Commands
  import opened Pager
  import opened Sheets

  const Green: nat := 0x1db954
  const Blue: nat := 0x3498db
  const PageSize: nat := 10
  const NoItemsOnPage: string := "No items found on this page."
  const NoItems: string := "❌ No items found."
  const FetchError: string := "⚠️ An error occurred while fetching the list from the database."

  datatype ListType = WantList | HaveList

  /** One entry of a database-era list (`SearchResponse`). */
  datatype Item = Item(artist: string, album: string)

  /** How a session's pages look: the title before " (Page x/y)", the colour, and whether an empty page says so. */
  datatype Look = Look(heading: string, colour: nat, fallback: bool)

  /** How a list command opens: nothing (an error escaped the handler), a text reply, or a session. */
  datatype Opening<T> = Silent | Reply(text: string) | Paged(items: seq<T>, look: Look, pageSize: nat, rule: NextRule)

  datatype Embed = Embed(title: string, description: string, colour: nat)

  // ---------------------------------------------------------------------------
  // Rendering a page
  // ---------------------------------------------------------------------------

  /** `shown.map((item, idx) => formatItem(item, start + idx))`. */
  function FormatFrom<T>(shown: seq<T>, start: int, format: (T, int) -> string): (r: seq<string>)
    ensures |r| == |shown|
    ensures forall k :: 0 <= k < |r| ==> r[k] == format(shown[k], start + k)
  {
    seq(|shown|, k requires 0 <= k < |shown| => format(shown[k], start + k))
  }

  /** The title of a page: `<heading> (Page <page + 1>/<totalPages>)`. */
  function PageTitle(heading: string, pageNumber: int, totalPages: nat): string {
    heading + " (Page " + IntToString(pageNumber) + "/" + NatToString(totalPages) + ")"
  }

  /** `generateEmbed(page)`: the title with the page numbers, the numbered lines, the colour. */
  function Render<T>(look: Look, format: (T, int) -> string, v: View<T>): Embed {
    var description := Join(FormatFrom(v.shown, v.start, format), "\n");
    Embed(PageTitle(look.heading, v.pageNumber, v.totalPages),
          if description == "" && look.fallback then NoItemsOnPage else description,
          look.colour)
  }

  /** Formatting a slice from its start position is slicing the formatted list. */
  lemma FormatSlice<T>(items: seq<T>, a: int, b: int, format: (T, int) -> string)
    requires 0 <= a <= b <= |items|
    ensures FormatFrom(items[a..b], a, format) == FormatFrom(items, 0, format)[a..b]
  {
  }

  lemma JoinNonEmpty(parts: seq<string>, sep: string)
    requires parts != [] && parts[0] != ""
    ensures Join(parts, sep) != ""
  {
  }

  /** The title carries the one-based page number and the page count; the colour is the look's. */
  lemma RenderTitle<T>(items: seq<T>, look: Look, pageSize: nat, rule: NextRule, format: (T, int) -> string, page: int)
    requires pageSize > 0
    ensures var e := Render(look, format, PageView(items, pageSize, rule, page));
      e.title == PageTitle(look.heading, page + 1, TotalPages(|items|, pageSize)) && e.colour == look.colour
  {
  }

  /**
   * A page in range shows the lines of its slice of the list, each numbered with its
   * position in the whole list, and is never empty when no line is.
   */
  lemma RenderInRange<T>(items: seq<T>, look: Look, pageSize: nat, rule: NextRule, format: (T, int) -> string, page: int)
    requires pageSize > 0 && InRange(page, TotalPages(|items|, pageSize))
    requires forall x: T, n: int :: format(x, n) != ""
    ensures var e := Render(look, format, PageView(items, pageSize, rule, page));
      var stop := if (page + 1) * pageSize <= |items| then (page + 1) * pageSize else |items|;
      0 <= page * pageSize < stop <= |items| &&
      e.description == Join(FormatFrom(items, 0, format)[page * pageSize..stop], "\n") && e.description != ""
  {
    var v := PageView(items, pageSize, rule, page);
    PageContents(items, pageSize, rule, page);
    var stop := if (page + 1) * pageSize <= |items| then (page + 1) * pageSize else |items|;
    FormatSlice(items, page * pageSize, stop, format);
    var lines := FormatFrom(v.shown, v.start, format);
    assert lines[0] == format(v.shown[0], v.start);
    JoinNonEmpty(lines, "\n");
  }

  /** A page past the end shows nothing, or the fallback text where the look has one. */
  lemma RenderPastEnd<T>(items: seq<T>, look: Look, pageSize: nat, rule: NextRule, format: (T, int) -> string, page: int)
    requires pageSize > 0 && |items| > 0 && page >= TotalPages(|items|, pageSize)
    ensures Render(look, format, PageView(items, pageSize, rule, page)).description ==
            if look.fallback then NoItemsOnPage else ""
  {
    OutOfRangeShowsNothing(items, pageSize, rule, page);
  }

  // ---------------------------------------------------------------------------
  // VinylBot/src/utils/discord/EmbeddedResponse.ts
  // ---------------------------------------------------------------------------

  /** `EmbeddedResponse({title, list, pageSize, color})`: an empty list is answered, anything else is paged. */
  function Embedded<T>(title: string, list: seq<T>, pageSize: nat, colour: Option<nat>): (r: Opening<T>)
    requires pageSize > 0
    ensures list == [] <==> r == Reply(NoItems)
    ensures list != [] ==> r == Paged(list, Look(title, colour.GetOr(Green), true), pageSize, AtOrPastLast)
  {
    if list == [] then Reply(NoItems)
    else Paged(list, Look(title, colour.GetOr(Green), true), pageSize, AtOrPastLast)
  }

  /** A paged opening can start a session: its list is not empty and its page size is positive. */
  predicate CanOpen<T>(o: Opening<T>) {
    o.Paged? ==> o.items != [] && o.pageSize > 0
  }

  // ---------------------------------------------------------------------------
  // VinylBot/src/discord/ProcessWantlist.js and ProcessList.js
  // ---------------------------------------------------------------------------

  /** `${n}. ${escapeColons(item[0])} - ${escapeColons(item[1])}` for the item at position `n - 1`. */
  function RowLine(escape: string -> string): (Row, int) -> string {
    (row: Row, n: int) => IntToString(n + 1) + ". " + escape(CellText(row, 0)) + " - " + escape(CellText(row, 1))
  }

  function WantListHeading(ctx: Context): string {
    if ctx.kind == Full then "The Want List" else "The Want List for \"" + ctx.term + "\""
  }

  /**
   * `ProcessWantList(message)`: parse the arguments (a single listed user, or an artist),
   * read the want list, and page it ten at a time. `values` is what the sheet read returns;
   * when it has no values the read throws and nothing is said.
   */
  function ProcessWantList(content: string, isInList: string -> bool, values: Option<seq<Row>>,
                           le: (string, string) -> bool): Opening<Row>
  {
    var ctx := ParseLocal(ArgsText(content), isInList, Artist);
    match GetWantList(ctx, values, le)
    case Err(_) => Silent
    case Ok(list) =>
      if list == [] then Reply("❌ There's nothing on the list.")
      else Paged(list, Look(WantListHeading(ctx), Green, false), PageSize, AtLast)
  }

  /** The want list is read with the parsed context; each opening and when it happens. */
  lemma ProcessWantListSpec(content: string, isInList: string -> bool, values: Option<seq<Row>>,
                            le: (string, string) -> bool)
    ensures var r := ProcessWantList(content, isInList, values, le);
      var ctx := ParseLocal(ArgsText(content), isInList, Artist);
      (r.Silent? <==> values.None?) &&
      (r == Reply("❌ There's nothing on the list.") <==> GetWantList(ctx, values, le) == Ok([])) &&
      (r.Paged? ==> GetWantList(ctx, values, le) == Ok(r.items) && CanOpen(r) &&
                    r.look == Look(WantListHeading(ctx), Green, false) && r.rule == AtLast && r.pageSize == 10)
    ensures var ctx := ParseLocal(ArgsText(content), isInList, Artist);
      ctx.kind == Artist ==> ctx.term == Trim(AfterFirst(content, ' '))
  {
    ArgsTextIsRest(content);
    ParseLocalCases(ArgsText(content), isInList, Artist);
  }

  function ListWord(t: ListType): string {
    if t == WantList then "want" else "have"
  }

  function SheetListName(t: ListType): string {
    if t == WantList then "Want List" else "Have List"
  }

  function SheetHeading(t: ListType, ctx: Context): string {
    if ctx.kind == Full then "The " + SheetListName(t)
    else "The " + SheetListName(t) + " for \"" + ctx.term + "\""
  }

  /** `ProcessList(message, listType)` of the Sheets era: the album list of that type, ten to a page. */
  function ProcessSheetList(content: string, listType: ListType, isInList: string -> bool,
                            values: Option<seq<Row>>, le: (string, string) -> bool): Opening<Row>
  {
    var ctx := ParseLocal(ArgsText(content), isInList, Search);
    var list := GetAlbumList(listType == WantList, ctx, values, le);
    if list == [] then Reply("❌ There's nothing on the " + ListWord(listType) + " list.")
    else Paged(list, Look(SheetHeading(listType, ctx), Green, false), PageSize, AtLast)
  }

  lemma ProcessSheetListSpec(content: string, listType: ListType, isInList: string -> bool,
                             values: Option<seq<Row>>, le: (string, string) -> bool)
    ensures var r := ProcessSheetList(content, listType, isInList, values, le);
      var ctx := ParseLocal(ArgsText(content), isInList, Search);
      var list := GetAlbumList(listType == WantList, ctx, values, le);
      !r.Silent? &&
      (r.Reply? <==> list == []) &&
      (r.Reply? ==> r.text == "❌ There's nothing on the " + ListWord(listType) + " list.") &&
      (r.Paged? ==> r.items == list && CanOpen(r) && r.rule == AtLast && r.look.colour == Green)
    ensures var r := ProcessSheetList(content, listType, isInList, values, le);
      var ctx := ParseLocal(ArgsText(content), isInList, Search);
      r.Paged? ==> (ctx.kind == Full <==> r.look.heading == "The " + SheetListName(listType))
  {
    var ctx := ParseLocal(ArgsText(content), isInList, Search);
    if ctx.kind != Full {
      var h := SheetHeading(listType, ctx);
      var base := "The " + SheetListName(listType);
      assert |h| > |base|;
    }
  }

  // ---------------------------------------------------------------------------
  // SupabaseBot/src/discord/ProcessList.ts and VinylBot/src/discord/ProcessList.ts
  // ---------------------------------------------------------------------------

  /** `${n}. **${escapeColons(item.artist)}** - ${escapeColons(item.album)}`. */
  function ItemLine(escape: string -> string): (Item, int) -> string {
    (it: Item, n: int) => IntToString(n + 1) + ". **" + escape(it.artist) + "** - " + escape(it.album)
  }

  function CollectionName(t: ListType): string {
    if t == WantList then "Want List" else "Collection"
  }

  /** Blue for the want list, green for the collection. */
  function ListColour(t: ListType): nat {
    if t == WantList then Blue else Green
  }

  function MatchesHeading(t: ListType, kind: Kind, shownTerm: string): string {
    if kind == Full then "The " + CollectionName(t)
    else CollectionName(t) + " matches for \"" + shownTerm + "\""
  }

  /** The list of that type: the want list API for want, the vinyls API for have. */
  function Fetch(t: ListType, ctx: Context, vinyls: Context -> Result<seq<Item>>,
                 wants: Context -> Result<seq<Item>>): Result<seq<Item>> {
    if t == HaveList then vinyls(ctx) else wants(ctx)
  }

  /**
   * `ProcessList(message, listType)` of the Supabase generation: a failed parse escapes
   * the handler; a failed fetch is answered with the error reply.
   */
  function ProcessDbList(content: string, listType: ListType, isInList: string -> bool,
                         lookup: string -> Option<string>, vinyls: Context -> Result<seq<Item>>,
                         wants: Context -> Result<seq<Item>>): Opening<Item>
  {
    match ParseArgs(ArgsText(content), isInList, lookup)
    case Err(_) => Silent
    case Ok(ctx) =>
      match Fetch(listType, ctx, vinyls, wants)
      case Err(_) => Reply(FetchError)
      case Ok(list) =>
        if list == [] then
          Reply("❌ Nothing found in the " + (if listType == HaveList then "collection" else "want list") + ".")
        else Paged(list, Look(MatchesHeading(listType, ctx.kind, ctx.term), ListColour(listType), true),
                   PageSize, AtOrPastLast)
  }

  lemma ProcessDbListSpec(content: string, listType: ListType, isInList: string -> bool,
                          lookup: string -> Option<string>, vinyls: Context -> Result<seq<Item>>,
                          wants: Context -> Result<seq<Item>>)
    ensures var r := ProcessDbList(content, listType, isInList, lookup, vinyls, wants);
      var p := ParseArgs(ArgsText(content), isInList, lookup);
      (r.Silent? <==> p.Err?) &&
      (p.Ok? && Fetch(listType, p.value, vinyls, wants).Err? ==> r == Reply(FetchError)) &&
      (p.Ok? && Fetch(listType, p.value, vinyls, wants) == Ok([]) ==>
         r == Reply("❌ Nothing found in the " + (if listType == HaveList then "collection" else "want list") + ".")) &&
      (r.Paged? <==> p.Ok? && Fetch(listType, p.value, vinyls, wants).Ok? && Fetch(listType, p.value, vinyls, wants).value != []) &&
      (r.Paged? ==> Fetch(listType, p.value, vinyls, wants) == Ok(r.items) && CanOpen(r) &&
                    r.look == Look(MatchesHeading(listType, p.value.kind, p.value.term), ListColour(listType), true) &&
                    r.rule == AtOrPastLast)
  {
  }

  /**
   * `ProcessList(message, listType)` of the newest generation, given what its parser
   * returned (`parsed`; none when the parser has already replied, which makes the
   * destructuring throw before the `try`). A failed name lookup or fetch is answered
   * with the error reply; the rest is delegated to `EmbeddedResponse`.
   */
  function ProcessList(parsed: Option<Context>, listType: ListType,
                       nameById: string -> Result<Option<string>>, vinyls: Context -> Result<seq<Item>>,
                       wants: Context -> Result<seq<Item>>): Opening<Item>
  {
    match parsed
    case None => Silent
    case Some(ctx) =>
      var name := if ctx.kind == User then nameById(ctx.term) else Ok(None);
      if name.Err? then Reply(FetchError)
      else
        match Fetch(listType, ctx, vinyls, wants)
        case Err(_) => Reply(FetchError)
        case Ok(list) =>
          var shown := if ctx.kind == User then name.value.GetOr("Unknown User") else ctx.term;
          Embedded(MatchesHeading(listType, ctx.kind, shown), list, PageSize, Some(ListColour(listType)))
  }

  lemma ProcessListSpec(parsed: Option<Context>, listType: ListType,
                        nameById: string -> Result<Option<string>>, vinyls: Context -> Result<seq<Item>>,
                        wants: Context -> Result<seq<Item>>)
    ensures var r := ProcessList(parsed, listType, nameById, vinyls, wants);
      r.Silent? <==> parsed.None?
    ensures var r := ProcessList(parsed, listType, nameById, vinyls, wants);
      parsed.Some? && (parsed.value.kind != User || nameById(parsed.value.term).Ok?) ==>
        var ctx := parsed.value;
        (Fetch(listType, ctx, vinyls, wants).Err? ==> r == Reply(FetchError)) &&
        (Fetch(listType, ctx, vinyls, wants) == Ok([]) ==> r == Reply(NoItems)) &&
        (r.Paged? <==> Fetch(listType, ctx, vinyls, wants).Ok? && Fetch(listType, ctx, vinyls, wants).value != []) &&
        (r.Paged? ==> Fetch(listType, ctx, vinyls, wants) == Ok(r.items) && CanOpen(r) &&
                      r.look.colour == ListColour(listType) && r.look.fallback && r.rule == AtOrPastLast &&
                      r.look.heading == MatchesHeading(listType, ctx.kind,
                        if ctx.kind == User then nameById(ctx.term).value.GetOr("Unknown User") else ctx.term))
    ensures var r := ProcessList(parsed, listType, nameById, vinyls, wants);
      parsed.Some? && parsed.value.kind == User && nameById(parsed.value.term).Err? ==> r == Reply(FetchError)
  {
  }

  /** Every line the new list shows starts with its one-based position in the whole list. */
  lemma ItemNumbering(escape: string -> string, items: seq<Item>, start: int, k: int)
    requires 0 <= k < |items| && start >= 0
    ensures StartsWith(FormatFrom(items, start, ItemLine(escape))[k], NatToString(start + k + 1) + ". **")
  {
    assert FormatFrom(items, start, ItemLine(escape))[k] == ItemLine(escape)(items[k], start + k);
    ItemLinePrefix(escape, items[k], start + k);
  }

  lemma ItemLinePrefix(escape: string -> string, it: Item, n: nat)
    ensures StartsWith(ItemLine(escape)(it, n), NatToString(n + 1) + ". **")
  {
    var p := NatToString(n + 1) + ". **";
    assert IntToString(n + 1) == NatToString(n + 1);
    assert p[..|p|] == p;
    StartsWithExtend(p, escape(it.artist), p);
    StartsWithExtend(p + escape(it.artist), "** - ", p);
    StartsWithExtend(p + escape(it.artist) + "** - ", escape(it.album), p);
  }
}
