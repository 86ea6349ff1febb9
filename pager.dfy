/**
 * The paginated list sessions: `EmbeddedResponse` and the older per-command copies in
 * the list and want-list handlers. A session shows one page of a frozen list with a
 * "prev" and a "next" button; only the author may press them, a press moves the page
 * by one without any bound check, and at the end both buttons are disabled.
 */
module Pager {
  import opened Text

  /** When "next" is disabled: `page >= totalPages - 1`, or `page === totalPages - 1` in the older copies. */
  datatype NextRule = AtOrPastLast | AtLast

  datatype Buttons = Buttons(prevDisabled: bool, nextDisabled: bool)

  /**
   * What a message shows: the position the page starts at (the number the first item is
   * formatted with), the items shown, the displayed page number and page count, and
   * the buttons.
   */
  datatype View<T> = View(start: int, shown: seq<T>, pageNumber: int, totalPages: nat, buttons: Buttons)

  /** The answer to a button press: an ephemeral refusal, or an update of the message. */
  datatype Answer = Refused | Updated

  const Refusal: string := "You can't control this pagination."
  const DefaultPageSize: nat := 10

  /** `Math.ceil(length / pageSize)`. */
  function TotalPages(length: nat, pageSize: nat): nat
    requires pageSize > 0
  {
    (length + pageSize - 1) / pageSize
  }

  /** The page count is the ceiling: the pages hold all items and none is wholly empty. */
  lemma TotalPagesIsCeiling(length: nat, pageSize: nat)
    requires pageSize > 0
    ensures length <= TotalPages(length, pageSize) * pageSize
    ensures length > 0 ==> TotalPages(length, pageSize) > 0 && (TotalPages(length, pageSize) - 1) * pageSize < length
    ensures length == 0 ==> TotalPages(length, pageSize) == 0
  {
    var t := TotalPages(length, pageSize);
    var r := (length + pageSize - 1) % pageSize;
    assert length + pageSize - 1 == t * pageSize + r;
  }

  function NextDisabled(rule: NextRule, page: int, totalPages: nat): bool {
    match rule
    case AtOrPastLast => page >= totalPages - 1
    case AtLast => page == totalPages - 1
  }

  /** `generateRow(page)`. */
  function RowFor(rule: NextRule, page: int, totalPages: nat): Buttons {
    Buttons(page == 0, NextDisabled(rule, page, totalPages))
  }

  /** `generateEmbed(page)` with `generateRow(page)`. */
  function PageView<T>(items: seq<T>, pageSize: nat, rule: NextRule, page: int): View<T>
    requires pageSize > 0
  {
    var start := page * pageSize;
    var total := TotalPages(|items|, pageSize);
    View(start, JsSlice(items, start, start + pageSize), page + 1, total, RowFor(rule, page, total))
  }

  /** The move a button makes: "prev" goes back one page, "next" forward one, anything else stays. */
  function Step(customId: string): int {
    if customId == "prev" then -1 else if customId == "next" then 1 else 0
  }

  /** The button with this id is not disabled (ids without a button count as enabled). */
  predicate Enabled(b: Buttons, customId: string) {
    (customId == "prev" ==> !b.prevDisabled) && (customId == "next" ==> !b.nextDisabled)
  }

  predicate InRange(page: int, totalPages: nat) {
    0 <= page < totalPages
  }

  /** A page in range shows exactly its slice of the list, and the slice is not empty. */
  lemma PageContents<T>(items: seq<T>, pageSize: nat, rule: NextRule, page: int)
    requires pageSize > 0 && InRange(page, TotalPages(|items|, pageSize))
    ensures var v := PageView(items, pageSize, rule, page);
      var stop := if (page + 1) * pageSize <= |items| then (page + 1) * pageSize else |items|;
      v.start == page * pageSize && page * pageSize < stop &&
      v.shown == items[page * pageSize..stop] && v.shown != []
  {
    PageBounds(|items|, pageSize, page);
  }

  /** A page in range starts inside the list, and the next page starts pageSize further on. */
  lemma PageBounds(length: nat, pageSize: nat, page: int)
    requires pageSize > 0 && InRange(page, TotalPages(length, pageSize))
    ensures 0 <= page * pageSize < length
    ensures (page + 1) * pageSize == page * pageSize + pageSize
  {
    TotalPagesIsCeiling(length, pageSize);
    var total := TotalPages(length, pageSize);
    MulMonotone(0, page, pageSize);
    MulMonotone(page, total - 1, pageSize);
  }

  lemma MulMonotone(a: int, b: int, c: nat)
    requires a <= b
    ensures a * c <= b * c
  {
  }

  /** prev is disabled exactly on the first page; under both rules next is disabled exactly on the last page in range. */
  lemma ButtonsInRange(rule: NextRule, page: int, totalPages: nat)
    requires InRange(page, totalPages)
    ensures RowFor(rule, page, totalPages).prevDisabled <==> page == 0
    ensures RowFor(rule, page, totalPages).nextDisabled <==> page == totalPages - 1
    ensures RowFor(AtOrPastLast, page, totalPages) == RowFor(AtLast, page, totalPages)
  {
  }

  /** Past the last page the two rules part: only `>=` keeps next disabled. */
  lemma RulesDifferPastLast(page: int, totalPages: nat)
    requires page >= totalPages
    ensures NextDisabled(AtOrPastLast, page, totalPages)
    ensures NextDisabled(AtLast, page, totalPages) <==> totalPages == 0 && page == -1
  {
  }

  /** Pressing only enabled buttons keeps the page in range, though the move is never clamped. */
  lemma EnabledMoveStaysInRange(rule: NextRule, page: int, totalPages: nat, customId: string)
    requires InRange(page, totalPages)
    requires Enabled(RowFor(rule, page, totalPages), customId)
    ensures InRange(page + Step(customId), totalPages)
  {
  }

  /** A press on a disabled button leaves the range: there is no clamp. */
  lemma DisabledMoveLeavesRange(rule: NextRule, page: int, totalPages: nat, customId: string)
    requires InRange(page, totalPages)
    requires (customId == "prev" || customId == "next") && !Enabled(RowFor(rule, page, totalPages), customId)
    ensures !InRange(page + Step(customId), totalPages)
  {
  }

  /** Out of range nothing is shown, which `generateEmbed` renders as its fallback text. */
  lemma OutOfRangeShowsNothing<T>(items: seq<T>, pageSize: nat, rule: NextRule, page: int)
    requires pageSize > 0 && |items| > 0 && page >= TotalPages(|items|, pageSize)
    ensures PageView(items, pageSize, rule, page).shown == []
  {
    TotalPagesIsCeiling(|items|, pageSize);
    MulMonotone(TotalPages(|items|, pageSize), page, pageSize);
  }

  /** One session: the frozen list, its author and the current page. */
  class Session<T(==)> {
    const items: seq<T>
    const owner: string
    const pageSize: nat
    const rule: NextRule
    var page: int
    var view: View<T>
    var ended: bool

    /** The message shows the current page. */
    predicate Valid()
      reads this
    {
      pageSize > 0 && |items| > 0 && view == PageView(items, pageSize, rule, page)
    }

    function Pages(): nat
      requires pageSize > 0
    {
      TotalPages(|items|, pageSize)
    }

    /** The session starts on page 0 (the caller has already answered an empty list). */
    constructor (items: seq<T>, owner: string, pageSize: nat, rule: NextRule)
      requires |items| > 0 && pageSize > 0
      ensures this.items == items && this.owner == owner && this.pageSize == pageSize && this.rule == rule
      ensures page == 0 && !ended && Valid()
      ensures InRange(page, Pages())
    {
      this.items := items;
      this.owner := owner;
      this.pageSize := pageSize;
      this.rule := rule;
      page := 0;
      view := PageView(items, pageSize, rule, 0);
      ended := false;
      TotalPagesIsCeiling(|items|, pageSize);
    }

    /** The collect handler: a stranger is refused; the author moves the page and the message is re-rendered. */
    method OnAction(actor: string, customId: string) returns (answer: Answer)
      requires Valid() && !ended
      modifies this
      ensures Valid() && !ended
      ensures actor != owner ==> answer == Refused && page == old(page) && view == old(view)
      ensures actor == owner ==> answer == Updated && page == old(page) + Step(customId)
      ensures actor == owner && InRange(old(page), Pages()) && Enabled(old(view).buttons, customId) ==>
                InRange(page, Pages())
    {
      if actor != owner {
        return Refused;
      }
      if customId == "prev" {
        page := page - 1;
      } else if customId == "next" {
        page := page + 1;
      }
      view := PageView(items, pageSize, rule, page);
      answer := Updated;
    }

    /** The end handler: the buttons are re-rendered disabled; the page and the embed stay. */
    method OnEnd()
      requires Valid()
      modifies this
      ensures ended && page == old(page)
      ensures view == old(view).(buttons := Buttons(true, true))
    {
      view := view.(buttons := Buttons(true, true));
      ended := true;
    }
  }

  /**
   * Fifteen items at ten per page: two pages; next from the first page shows page 2 of 2
   * with next disabled, and prev from there returns to page 1 with prev disabled.
   */
  method FifteenItems<T(==)>(items: seq<T>, owner: string, stranger: string)
    requires |items| == 15 && stranger != owner
  {
    var s := new Session(items, owner, DefaultPageSize, AtLast);
    assert s.Pages() == 2;
    assert s.view.pageNumber == 1 && s.view.totalPages == 2;
    var a := s.OnAction(owner, "next");
    assert s.view.pageNumber == 2 && s.view.buttons == Buttons(false, true);
    a := s.OnAction(owner, "prev");
    assert s.view.pageNumber == 1 && s.view.buttons == Buttons(true, false);
    a := s.OnAction(stranger, "next");
    assert a == Refused && s.page == 0;
  }
}
