/**
 * The command parsers: what a list, random or stats command asks for. Each turns the
 * message text (and, for the newest one, its mentions) into a context
 * `{ type: full | user | search | artist, term }`.
 */
module Commands {
  import opened Wrappers
  import opened Text
  import opened Seqs

  datatype Kind = Full | User | Search | Artist

  /** `CommandContext`. */
  datatype Context = Context(kind: Kind, term: string)

  /** A mentioned Discord user. */
  datatype Mention = Mention(username: string, bot: bool)

  /** The parse of a message: a context, or a reply and no context (`undefined`). */
  datatype Outcome = Parsed(ctx: Context) | Refused(reply: string)

  /** `words.slice(1)`. */
  function Rest(words: seq<string>): (r: seq<string>)
    ensures |r| == if words == [] then 0 else |words| - 1
    ensures forall k :: 0 <= k < |r| ==> r[k] == words[k + 1]
  {
    if words == [] then [] else words[1..]
  }

  lemma RestOfWords(s: string)
    ensures AllWords(Rest(Words(s)))
  {
  }

  // ---------------------------------------------------------------------------
  // VinylBot/src/utils/parseCommand.ts
  // ---------------------------------------------------------------------------

  predicate IsHuman(m: Mention) { !m.bot }

  /** `words.slice(1).join(" ").trim()` for the words of the message. */
  function MessageArgs(content: string): string {
    Trim(Join(Rest(Words(content)), " "))
  }

  /**
   * `parseCommand(message)`: a single non-bot mention selects that user through the
   * user map (keyed by the lowercased dropdown name); otherwise the words after the
   * command are a search, or the full list when there are none.
   */
  function ParseMessage(content: string, mentions: seq<Mention>, userMap: map<string, seq<string>>,
                        dropdown: string -> string): Outcome
  {
    var humans := Filter(mentions, IsHuman);
    if |humans| > 0 then
      if |humans| > 1 then Refused("⚠️ Only one user can be mentioned at this time.")
      else
        var user := humans[0];
        var name := Lower(dropdown(user.username));
        if name in userMap && |userMap[name]| > 0 && userMap[name][0] != "" then
          Parsed(Context(User, userMap[name][0]))
        else Refused("⚠️ I couldn't find a database entry for **" + user.username + "**.")
    else
      var args := MessageArgs(content);
      if args == "" then Parsed(Context(Full, "")) else Parsed(Context(Search, args))
  }

  /** The search term is the words after the command joined by single spaces. */
  lemma MessageArgsCollapse(content: string)
    ensures MessageArgs(content) == Join(Rest(Words(content)), " ")
    ensures Words(MessageArgs(content)) == Rest(Words(content))
    ensures MessageArgs(content) == "" <==> |Words(content)| <= 1
  {
    RestOfWords(content);
    JoinOfWordsTrimmed(Rest(Words(content)));
    WordsOfJoin(Rest(Words(content)));
  }

  /**
   * Without non-bot mentions: the full list exactly when there is at most one word,
   * and otherwise a search for the remaining words joined by single spaces.
   */
  lemma ParseMessageText(content: string, mentions: seq<Mention>, userMap: map<string, seq<string>>,
                         dropdown: string -> string)
    requires forall k :: 0 <= k < |mentions| ==> mentions[k].bot
    ensures var r := ParseMessage(content, mentions, userMap, dropdown);
      r.Parsed? && (r.ctx.kind == Full || r.ctx.kind == Search) &&
      (r.ctx.kind == Full <==> |Words(content)| <= 1) &&
      (r.ctx.kind == Full ==> r.ctx.term == "") &&
      (r.ctx.kind == Search ==> Words(r.ctx.term) == Rest(Words(content)))
  {
    NoHumans(mentions);
    TextOnly(content, mentions, userMap, dropdown);
    MessageArgsCollapse(content);
  }

  lemma TextOnly(content: string, mentions: seq<Mention>, userMap: map<string, seq<string>>,
                 dropdown: string -> string)
    requires Filter(mentions, IsHuman) == []
    ensures var args := MessageArgs(content);
      ParseMessage(content, mentions, userMap, dropdown) ==
      if args == "" then Parsed(Context(Full, "")) else Parsed(Context(Search, args))
  {
  }

  lemma {:induction false} NoHumans(mentions: seq<Mention>)
    requires forall k :: 0 <= k < |mentions| ==> mentions[k].bot
    ensures Filter(mentions, IsHuman) == []
  {
    if mentions != [] {
      NoHumans(mentions[..|mentions| - 1]);
    }
  }

  /**
   * A non-bot mention overrides the text: the result is the mentioned user's first
   * database id, or a refusal, and never a full list or a search.
   */
  lemma ParseMessageMention(content: string, mentions: seq<Mention>, userMap: map<string, seq<string>>,
                            dropdown: string -> string)
    requires exists k :: 0 <= k < |mentions| && IsHuman(mentions[k])
    ensures var r := ParseMessage(content, mentions, userMap, dropdown);
      r.Refused? || r.ctx.kind == User
    ensures var r := ParseMessage(content, mentions, userMap, dropdown);
      var humans := Filter(mentions, IsHuman);
      r.Parsed? ==> |humans| == 1 && var name := Lower(dropdown(humans[0].username));
                    name in userMap && r.ctx.term == userMap[name][0] && r.ctx.term != ""
  {
    var k :| 0 <= k < |mentions| && IsHuman(mentions[k]);
    FilterMembers(mentions, IsHuman);
    assert mentions[k] in Filter(mentions, IsHuman);
  }

  // ---------------------------------------------------------------------------
  // SupabaseBot/src/utils/parseCommand.ts
  // ---------------------------------------------------------------------------

  /**
   * `parseCommand(messageArgs)`: no words is the full list, a single listed word is a
   * user looked up by name (throwing "Error parsing User" when the lookup finds no
   * one), and anything else is a search for the argument text exactly as given.
   */
  function ParseArgs(messageArgs: string, isInList: string -> bool,
                     lookup: string -> Option<string>): Result<Context> {
    var words := Words(messageArgs);
    if words == [] then Ok(Context(Full, ""))
    else if |words| == 1 && isInList(words[0]) then
      match lookup(words[0])
      case None => Err("Error parsing User")
      case Some(id) => Ok(Context(User, id))
    else Ok(Context(Search, messageArgs))
  }

  /** Each outcome, and exactly when it happens. */
  lemma ParseArgsCases(messageArgs: string, isInList: string -> bool, lookup: string -> Option<string>)
    ensures var r := ParseArgs(messageArgs, isInList, lookup);
      r == Ok(Context(Full, "")) <==> AllSpace(messageArgs)
    ensures var r := ParseArgs(messageArgs, isInList, lookup); var words := Words(messageArgs);
      r.Err? <==> |words| == 1 && isInList(words[0]) && lookup(words[0]).None?
    ensures var r := ParseArgs(messageArgs, isInList, lookup); var words := Words(messageArgs);
      r.Ok? && r.value.kind == User <==> |words| == 1 && isInList(words[0]) && lookup(words[0]).Some?
    ensures var r := ParseArgs(messageArgs, isInList, lookup);
      r.Ok? && r.value.kind == Search ==> r.value.term == messageArgs && !AllSpace(messageArgs)
  {
    WordsEmptyIff(messageArgs);
  }

  // ---------------------------------------------------------------------------
  // The local parsers of VinylBot/src/discord/ProcessWantlist.js and ProcessList.js
  // ---------------------------------------------------------------------------

  /**
   * No words is the full list, a single word the user list accepts is that user, and
   * anything else is `otherwise` (artist for the want list, search for the lists) with
   * the whole argument text.
   */
  function ParseLocal(messageArgs: string, isInList: string -> bool, otherwise: Kind): (r: Context)
  {
    var words := Words(messageArgs);
    if words == [] then Context(Full, "")
    else if |words| == 1 && isInList(words[0]) then Context(User, words[0])
    else Context(otherwise, messageArgs)
  }

  lemma ParseLocalCases(messageArgs: string, isInList: string -> bool, otherwise: Kind)
    requires otherwise != Full && otherwise != User
    ensures var r := ParseLocal(messageArgs, isInList, otherwise);
      (r.kind == Full <==> AllSpace(messageArgs)) && (r.kind == Full ==> r.term == "")
    ensures var r := ParseLocal(messageArgs, isInList, otherwise); var words := Words(messageArgs);
      r.kind == User <==> |words| == 1 && isInList(words[0])
    ensures var r := ParseLocal(messageArgs, isInList, otherwise);
      r.kind == User ==> r.term == Trim(messageArgs) && r.term != [] && NoSpace(r.term)
    ensures var r := ParseLocal(messageArgs, isInList, otherwise);
      r.kind == otherwise ==> r.term == messageArgs
  {
    WordsEmptyIff(messageArgs);
    var words := Words(messageArgs);
    if |words| == 1 {
      OneWordIsTrim(messageArgs);
    }
  }

  /** A text with a single word is that word surrounded by whitespace. */
  lemma OneWordIsTrim(s: string)
    requires |Words(s)| == 1
    ensures Trim(s) == Words(s)[0]
  {
    var t := TrimStart(s);
    var n := WordEnd(t);
    assert Words(s) == [t[..n]] + Words(t[n..]);
    assert Words(t[n..]) == [];
    WordsEmptyIff(t[n..]);
    TrimEndOfWordThenSpace(t[..n], t[n..]);
    assert t == t[..n] + t[n..];
  }

  lemma {:induction false} TrimEndOfWordThenSpace(w: string, gap: string)
    requires w != [] && !IsSpace(w[|w| - 1]) && AllSpace(gap)
    ensures TrimEnd(w + gap) == w
    decreases |gap|
  {
    if gap == [] {
      assert w + gap == w;
      TrimEndNoop(w);
    } else {
      var g := gap[..|gap| - 1];
      assert (w + gap)[..|w + gap| - 1] == w + g;
      TrimEndOfWordThenSpace(w, g);
    }
  }
}
