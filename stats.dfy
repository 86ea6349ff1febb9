/**
 * The statistics commands of the newest generation: `ProcessPlayCount` (albums by play
 * count) and `ProcessTop` (artists by album count). Both parse the message, pick a list
 * and a title suffix, and hand the list to `EmbeddedResponse`. The name lookup and the
 * list queries are inputs (`Err` when they throw).
 */
module Stats {
  import opened Wrappers
  import opened Text
  import opened Commands
  import opened ListCommands

  /** `AlbumCount`: a title and its count. */
  datatype Tally = Tally(title: string, count: nat)

  const ListError: string := "⚠️ An error occurred while fetching the list."
  const InvalidUsage: string := "❌ Invalid usage. Mention a user or leave the command empty."
  const PlayTitle: string := "Top Albums by Play Count"
  const TopTitle: string := "Top Artists by Album Count"

  /** A name in a template literal: a missing one prints as "null". */
  function NameText(name: Option<string>): string {
    name.GetOr("null")
  }

  /** `${prefix} ${suffix}`.trim() */
  function TitleWith(prefix: string, suffix: string): string {
    Trim(prefix + " " + suffix)
  }

  /**
   * With a prefix that has no space at its ends, the trimmed title is the prefix alone
   * for an empty suffix, and the prefix, a space and the suffix when the suffix does
   * not end in whitespace.
   */
  lemma {:induction false} TitleWithSpec(prefix: string, suffix: string)
    requires prefix != [] && !IsSpace(prefix[0]) && !IsSpace(prefix[|prefix| - 1])
    requires suffix == [] || !IsSpace(suffix[|suffix| - 1])
    ensures TitleWith(prefix, suffix) == if suffix == [] then prefix else prefix + " " + suffix
  {
    if suffix == [] {
      assert prefix + " " + suffix == prefix + " ";
      TrimStartNoop(prefix + " ");
      TrimEndOfWordThenSpace(prefix, " ");
    } else {
      TrimNoop(prefix + " " + suffix);
    }
  }

  lemma TitlesHaveNoSpaceAtTheEnds()
    ensures PlayTitle != [] && !IsSpace(PlayTitle[0]) && !IsSpace(PlayTitle[|PlayTitle| - 1])
    ensures TopTitle != [] && !IsSpace(TopTitle[0]) && !IsSpace(TopTitle[|TopTitle| - 1])
  {
    assert PlayTitle[0] == 'T' && PlayTitle[|PlayTitle| - 1] == 't';
    assert TopTitle[0] == 'T' && TopTitle[|TopTitle| - 1] == 't';
  }

  // ---------------------------------------------------------------------------
  // VinylBot/src/discord/stats/ProcessPlayCount.ts
  // ---------------------------------------------------------------------------

  /** `term.replace(/^plays\s*\/i, "").trim()`. */
  function StripPlays(term: string): string {
    var rest := if |term| >= 5 && Lower(term[..5]) == "plays" then TrimStart(term[5..]) else term;
    Trim(rest)
  }

  /**
   * A leading "plays" in any case is dropped and the rest trimmed; a term without it is
   * only trimmed. Either way the result is trimmed, and the word "plays" alone leaves nothing.
   */
  lemma StripPlaysSpec(term: string)
    ensures StripPlays(term) == if |term| >= 5 && Lower(term[..5]) == "plays" then Trim(term[5..]) else Trim(term)
    ensures Trim(StripPlays(term)) == StripPlays(term)
    ensures |term| == 5 && Lower(term) == "plays" ==> StripPlays(term) == ""
  {
    if |term| >= 5 && Lower(term[..5]) == "plays" {
      TrimOfTrimStart(term[5..]);
    }
    TrimIdempotent(if |term| >= 5 && Lower(term[..5]) == "plays" then TrimStart(term[5..]) else term);
    if |term| == 5 {
      assert term[..5] == term;
      assert term[5..] == [];
    }
  }

  lemma TrimOfTrimStart(s: string)
    ensures Trim(TrimStart(s)) == Trim(s)
  {
    TrimStartNoop(TrimStart(s));
  }

  /** Where the play list comes from. */
  datatype PlaySource = UserPlays(id: string) | SearchPlays(term: string) | AllPlays

  /** The term cleaning and type normalisation, then the `switch`. */
  function PlaySourceOf(ctx: Context): PlaySource {
    var term := if ctx.term != "" then StripPlays(ctx.term) else ctx.term;
    var kind := if term == "" && ctx.kind == Search then Full else ctx.kind;
    match kind
    case User => UserPlays(term)
    case Search => SearchPlays(term)
    case _ => AllPlays
  }

  /**
   * A user's plays for the cleaned id; a search for the cleaned term, which becomes the
   * all-time list when nothing is left of it; the all-time list for anything else. A
   * search term is never blank.
   */
  lemma PlaySourceSpec(ctx: Context)
    ensures ctx.kind == User ==> PlaySourceOf(ctx) == UserPlays(StripPlays(ctx.term))
    ensures ctx.kind == Search ==>
      PlaySourceOf(ctx) == if StripPlays(ctx.term) == "" then AllPlays else SearchPlays(StripPlays(ctx.term))
    ensures ctx.kind != User && ctx.kind != Search ==> PlaySourceOf(ctx) == AllPlays
    ensures PlaySourceOf(ctx).SearchPlays? ==> PlaySourceOf(ctx).term != "" && Trim(PlaySourceOf(ctx).term) == PlaySourceOf(ctx).term
  {
    assert StripPlays("") == "" by {
      TrimNoop("");
    }
    StripPlaysSpec(ctx.term);
  }

  function PlaySuffix(source: PlaySource, name: Option<string>): string {
    match source
    case UserPlays(_) => "for " + NameText(name)
    case SearchPlays(term) => "matching \"" + term + "\""
    case AllPlays => "(All Time)"
  }

  /** The list and, for a user, the name: both lookups of `Promise.all` must succeed. */
  function PlayFetch(source: PlaySource, nameById: string -> Result<Option<string>>,
                     userPlays: string -> Result<seq<Tally>>, searchPlays: string -> Result<seq<Tally>>,
                     allPlays: Result<seq<Tally>>): Result<(seq<Tally>, Option<string>)>
  {
    match source
    case UserPlays(id) =>
      if nameById(id).Err? then Err(nameById(id).message)
      else if userPlays(id).Err? then Err(userPlays(id).message)
      else Ok((userPlays(id).value, nameById(id).value))
    case SearchPlays(term) =>
      if searchPlays(term).Err? then Err(searchPlays(term).message) else Ok((searchPlays(term).value, None))
    case AllPlays =>
      if allPlays.Err? then Err(allPlays.message) else Ok((allPlays.value, None))
  }

  /** `${n}. **${escapeColons(item.title)}** — ${item.count} plays`. */
  function PlayLine(escape: string -> string): (Tally, int) -> string {
    (t: Tally, n: int) => IntToString(n + 1) + ". **" + escape(t.title) + "** — " + NatToString(t.count) + " plays"
  }

  /** `ProcessPlayCount(message)`, given the parser's outcome (a refusal has already been replied). */
  function ProcessPlayCount(outcome: Outcome, nameById: string -> Result<Option<string>>,
                            userPlays: string -> Result<seq<Tally>>, searchPlays: string -> Result<seq<Tally>>,
                            allPlays: Result<seq<Tally>>): Opening<Tally>
  {
    match outcome
    case Refused(_) => Silent
    case Parsed(ctx) =>
      var source := PlaySourceOf(ctx);
      match PlayFetch(source, nameById, userPlays, searchPlays, allPlays)
      case Err(_) => Reply(ListError)
      case Ok((list, name)) =>
        var suffix := PlaySuffix(source, name);
        if list == [] then Reply("⚠️ No plays found " + suffix + ".")
        else Embedded(TitleWith(PlayTitle, suffix), list, PageSize, None)
  }

  /**
   * The list comes from the query the source names; a failed lookup is the error reply,
   * an empty list the "No plays found" reply with the suffix, and anything else a
   * session titled with the suffix.
   */
  lemma ProcessPlayCountSpec(outcome: Outcome, nameById: string -> Result<Option<string>>,
                             userPlays: string -> Result<seq<Tally>>, searchPlays: string -> Result<seq<Tally>>,
                             allPlays: Result<seq<Tally>>)
    ensures outcome.Refused? ==> ProcessPlayCount(outcome, nameById, userPlays, searchPlays, allPlays) == Silent
    ensures outcome.Parsed? ==>
      var r := ProcessPlayCount(outcome, nameById, userPlays, searchPlays, allPlays);
      var source := PlaySourceOf(outcome.ctx);
      var f := PlayFetch(source, nameById, userPlays, searchPlays, allPlays);
      (f.Err? ==> r == Reply(ListError)) &&
      (f.Ok? && f.value.0 == [] ==> r == Reply("⚠️ No plays found " + PlaySuffix(source, f.value.1) + ".")) &&
      (r.Paged? <==> f.Ok? && f.value.0 != []) &&
      (r.Paged? ==> r.items == f.value.0 && CanOpen(r) &&
                    r.look == Look(TitleWith(PlayTitle, PlaySuffix(source, f.value.1)), Green, true))
    ensures outcome.Parsed? ==>
      var source := PlaySourceOf(outcome.ctx);
      var f := PlayFetch(source, nameById, userPlays, searchPlays, allPlays);
      f.Ok? ==> (source.UserPlays? ==> Ok(f.value.0) == userPlays(source.id) && Ok(f.value.1) == nameById(source.id)) &&
                (source.SearchPlays? ==> Ok(f.value.0) == searchPlays(source.term)) &&
                (source.AllPlays? ==> Ok(f.value.0) == allPlays)
  {
  }

  /** The titles: "for <name>", `matching "<term>"`, or "(All Time)" after the prefix and a space. */
  lemma PlayTitles(source: PlaySource, name: Option<string>)
    requires source.UserPlays? ==> NameText(name) != [] && !IsSpace(NameText(name)[|NameText(name)| - 1])
    ensures TitleWith(PlayTitle, PlaySuffix(source, name)) == PlayTitle + " " + PlaySuffix(source, name)
  {
    TitlesHaveNoSpaceAtTheEnds();
    var s := PlaySuffix(source, name);
    match source
    case UserPlays(_) =>
      assert s[|s| - 1] == NameText(name)[|NameText(name)| - 1];
    case SearchPlays(term) =>
      assert s[|s| - 1] == '"';
    case AllPlays =>
      assert s[|s| - 1] == ')';
    TitleWithSpec(PlayTitle, s);
  }

  // ---------------------------------------------------------------------------
  // VinylBot/src/discord/stats/ProcessTop.ts
  // ---------------------------------------------------------------------------

  /** `${n}. **${escapeColons(item.title)}** - ${item.count}`. */
  function TopLine(escape: string -> string): (Tally, int) -> string {
    (t: Tally, n: int) => IntToString(n + 1) + ". **" + escape(t.title) + "** - " + NatToString(t.count)
  }

  /**
   * `ProcessTop(message)`, given the parser's outcome: only a user or nothing may follow
   * the command; a user gets that user's artist counts, and nothing the household's.
   */
  function ProcessTop(outcome: Outcome, nameById: string -> Result<Option<string>>,
                      userCounts: string -> Result<seq<Tally>>, allCounts: Result<seq<Tally>>): Opening<Tally>
  {
    match outcome
    case Refused(_) => Silent
    case Parsed(ctx) =>
      if ctx.kind != User && Trim(ctx.term) != "" then Reply(InvalidUsage)
      else if ctx.kind == User then
        if nameById(ctx.term).Err? || userCounts(ctx.term).Err? then Reply(ListError)
        else Embedded(TitleWith(TopTitle, "for " + NameText(nameById(ctx.term).value)),
                      userCounts(ctx.term).value, PageSize, None)
      else if allCounts.Err? then Reply(ListError)
      else Embedded(TitleWith(TopTitle, ""), allCounts.value, PageSize, None)
  }

  /**
   * A blank term or a user is accepted and anything else refused; a user lists that
   * user's counts under "for <name>", the rest the household's counts under the bare
   * title; an empty list gets the `EmbeddedResponse` reply.
   */
  lemma ProcessTopSpec(outcome: Outcome, nameById: string -> Result<Option<string>>,
                       userCounts: string -> Result<seq<Tally>>, allCounts: Result<seq<Tally>>)
    ensures outcome.Refused? ==> ProcessTop(outcome, nameById, userCounts, allCounts) == Silent
    ensures outcome.Parsed? ==>
      var r := ProcessTop(outcome, nameById, userCounts, allCounts);
      var ctx := outcome.ctx;
      (r == Reply(InvalidUsage) <==> ctx.kind != User && !AllSpace(ctx.term)) &&
      (ctx.kind == User && nameById(ctx.term).Ok? && userCounts(ctx.term).Ok? ==>
         r == Embedded(TitleWith(TopTitle, "for " + NameText(nameById(ctx.term).value)),
                       userCounts(ctx.term).value, PageSize, None)) &&
      (ctx.kind != User && AllSpace(ctx.term) && allCounts.Ok? ==>
         r == Embedded(TopTitle, allCounts.value, PageSize, None))
  {
    TitlesHaveNoSpaceAtTheEnds();
    TitleWithSpec(TopTitle, "");
    if outcome.Parsed? {
      TrimEmptyIff(outcome.ctx.term);
      NotInvalidUsage();
    }
  }

  lemma NotInvalidUsage()
    ensures ListError != InvalidUsage && NoItems != InvalidUsage
  {
    assert |ListError| != |InvalidUsage|;
    assert |NoItems| != |InvalidUsage|;
  }

  /**
   * With the message parser: without a mentioned user the command is refused exactly
   * when words follow it.
   */
  lemma TopWithParser(content: string, mentions: seq<Mention>, userMap: map<string, seq<string>>,
                      dropdown: string -> string, nameById: string -> Result<Option<string>>,
                      userCounts: string -> Result<seq<Tally>>, allCounts: Result<seq<Tally>>)
    requires forall k :: 0 <= k < |mentions| ==> mentions[k].bot
    ensures ProcessTop(ParseMessage(content, mentions, userMap, dropdown), nameById, userCounts, allCounts) == Reply(InvalidUsage)
            <==> |Words(content)| > 1
  {
    var o := ParseMessage(content, mentions, userMap, dropdown);
    ParseMessageText(content, mentions, userMap, dropdown);
    ProcessTopSpec(o, nameById, userCounts, allCounts);
    if o.ctx.kind == Search {
      WordsEmptyIff(o.ctx.term);
      assert Words(o.ctx.term) == Rest(Words(content));
    }
    if o.ctx.kind == Full {
      assert AllSpace(o.ctx.term);
    }
  }
}
