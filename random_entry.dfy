/**
 * `!random` of the first generation (VinylBot/src/discord/ProcessRandom.js): the first
 * argument picks the sheet and the filter, and one random row of it is shown.
 */
module RandomEntry {
  import opened Wrappers
  import opened Text
  import opened Sheets

  const StoreSheet: string := "Location Info"
  const VinylSheet: string := "Vinyls"
  /** Column J: the owner column the name filter looks in. */
  const OwnerColumn: nat := 9
  const Blurple: nat := 0x5865f2

  /** The arguments `getRandomRow` is called with. */
  datatype Query = Query(sheet: string, column: Option<nat>, value: Option<string>)

  /** Nothing found, a failed fetch, or the embed "🎲 Random Pick" with this description. */
  datatype RandomReply = NoEntries | Failed | Pick(description: string, colour: nat)

  /** `message.content.split(" ").slice(1)[0]?.toLowerCase()`. */
  function Param(content: string): Option<string> {
    var pieces := Split(content, ' ');
    if |pieces| > 1 then Some(Lower(pieces[1])) else None
  }

  /** "store" is the store sheet, any other non-empty param filters the vinyls by owner. */
  function QueryFor(param: Option<string>): Query {
    if param == Some("store") then Query(StoreSheet, None, None)
    else if param.Some? && param.value != "" then Query(VinylSheet, Some(OwnerColumn), param)
    else Query(VinylSheet, None, None)
  }

  function Describe(row: Row, isStore: bool): string {
    if isStore then CellText(row, 0) + "\n" + CellText(row, 1)
    else "🎵 **" + CellText(row, 0) + "**\n💿 *" + CellText(row, 1) + "*"
  }

  /**
   * The handler. `fetch` gives, per sheet name, the rows `getData` returns or a thrown
   * error; `random` is the value of `Math.random()` and `escape` the colon escaping.
   */
  function ProcessRandom(content: string, fetch: string -> Result<seq<Row>>, random: real,
                         escape: string -> string): RandomReply
    requires 0.0 <= random < 1.0
  {
    var q := QueryFor(Param(content));
    match fetch(q.sheet)
    case Err(_) => Failed
    case Ok(rows) =>
      match GetRandomRow(rows, q.column, q.value, random)
      case None => NoEntries
      case Some(row) => Pick(escape(Describe(row, q.sheet == StoreSheet)), Blurple)
  }

  /** The three routes of the param. */
  lemma QueryRoutes(param: Option<string>)
    ensures param == Some("store") ==> QueryFor(param) == Query(StoreSheet, None, None)
    ensures param.Some? && param.value != "store" && param.value != "" ==>
      (var q := QueryFor(param);
       q.sheet == VinylSheet && FilterApplies(q.column, q.value) && q.column == Some(OwnerColumn) && q.value == param)
    ensures param.None? || param == Some("") ==> QueryFor(param) == Query(VinylSheet, None, None)
  {
  }

  /** The param is the lowercased first piece after the command, absent without a space. */
  lemma ParamIsFirstArgument(content: string)
    ensures ' ' !in content ==> Param(content).None?
    ensures ' ' in content ==> Param(content) == Some(Lower(Split(AfterFirst(content, ' '), ' ')[0]))
  {
    if ' ' in content {
      var i := IndexOf(content, ' ');
      assert Split(content, ' ') == [content[..i]] + Split(content[i + 1..], ' ');
    }
  }

  /**
   * The reply: a failed fetch of the chosen sheet is "❌ Failed to fetch random entry.",
   * no candidate row is "❌ No matching entries found.", and otherwise the description
   * is the escaped rendering of a row of the chosen sheet that passes the filter.
   */
  lemma ProcessRandomSpec(content: string, fetch: string -> Result<seq<Row>>, random: real,
                          escape: string -> string)
    requires 0.0 <= random < 1.0
    ensures var q := QueryFor(Param(content)); var r := ProcessRandom(content, fetch, random, escape);
      (r == Failed <==> fetch(q.sheet).Err?) &&
      (r == NoEntries <==> fetch(q.sheet).Ok? && Candidates(fetch(q.sheet).value, q.column, q.value) == []) &&
      (r.Pick? ==>
         r.colour == Blurple &&
         exists row :: row in fetch(q.sheet).value &&
           (FilterApplies(q.column, q.value) ==> CellContains(row, OwnerColumn, q.value.value)) &&
           r.description == escape(Describe(row, q.sheet == StoreSheet)))
  {
    var q := QueryFor(Param(content));
    if fetch(q.sheet).Ok? {
      GetRandomRowSpec(fetch(q.sheet).value, q.column, q.value, random);
    }
  }
}
