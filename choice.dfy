/**
 * The single-choice dropdown commands: `!play` in its three versions and `!info`.
 * A search with several results is answered with a select menu of at most 25 options
 * whose values are the positions "0", "1", ...; the author's choice of value i acts on
 * item i of the frozen result list, anybody else is refused, and a timeout with
 * nothing collected edits the message. Fetches, inserts and the Spotify lookup are
 * inputs: a thrown error is an `Err` or a `Some(message)`.
 */
module Choice {
  import opened Wrappers
  import opened Text
  import opened Seqs
  import opened Spotify
  import opened Sheets
  import Commands

  // ---------------------------------------------------------------------------
  // Options and the selection
  // ---------------------------------------------------------------------------

  /** Discord select menus allow at most 25 options. */
  const MaxOptions: nat := 25

  /** One option of a select menu. */
  datatype SelectOption = SelectOption(caption: string, value: string)

  /** `data.slice(0, 25).map((row, i) => ({ label: labelOf(row), value: i.toString() }))`. */
  function Options<T>(data: seq<T>, labelOf: T -> string): (r: seq<SelectOption>)
    ensures |r| == if |data| < MaxOptions then |data| else MaxOptions
    ensures forall k :: 0 <= k < |r| ==> r[k].caption == labelOf(data[k]) && r[k].value == NatToString(k)
  {
    var shown := JsSlice(data, 0, MaxOptions);
    seq(|shown|, k requires 0 <= k < |shown| => SelectOption(labelOf(shown[k]), NatToString(k)))
  }

  /** `data[parseInt(value)]`: undefined for a value that is not a number or not a position. */
  function Selected<T>(data: seq<T>, value: string): (r: Option<T>)
    ensures r.Some? ==> r.value in data
  {
    match ParseInt(value)
    case None => None
    case Some(i) => if 0 <= i < |data| then Some(data[i]) else None
  }

  /** Choosing option k selects item k of the whole result list. */
  lemma SelectingAnOption<T>(data: seq<T>, labelOf: T -> string, k: nat)
    requires k < |Options(data, labelOf)|
    ensures Selected(data, Options(data, labelOf)[k].value) == Some(data[k])
  {
    ParseIntOfNatToString(k);
  }

  /** No two options share a value, so a value names exactly one option. */
  lemma OptionValuesDistinct<T>(data: seq<T>, labelOf: T -> string, j: nat, k: nat)
    requires j < k < |Options(data, labelOf)|
    ensures Options(data, labelOf)[j].value != Options(data, labelOf)[k].value
  {
    ParseIntOfNatToString(j);
    ParseIntOfNatToString(k);
  }

  // ---------------------------------------------------------------------------
  // The session
  // ---------------------------------------------------------------------------

  /** What a selection does: an ephemeral refusal, the chosen item, or an undefined item. */
  datatype Event<T> = Refusal(text: string) | Chosen(item: T) | NoSuchItem

  /**
   * One dropdown session over the frozen result list (`max: 1`). Whether a stranger's
   * selection counts towards the one collected interaction is discord.js's business;
   * it is the parameter `strangerCounts`. `timeoutText` is the edit for a timeout with
   * nothing collected, where the command has an end handler.
   */
  class Picker<T(==)> {
    const data: seq<T>
    const owner: string
    const refusal: string
    const strangerCounts: bool
    const timeoutText: Option<string>
    var collected: nat
    var ended: bool

    constructor (data: seq<T>, owner: string, refusal: string, strangerCounts: bool, timeoutText: Option<string>)
      ensures this.data == data && this.owner == owner && this.refusal == refusal
      ensures this.strangerCounts == strangerCounts && this.timeoutText == timeoutText
      ensures collected == 0 && !ended
    {
      this.data := data;
      this.owner := owner;
      this.refusal := refusal;
      this.strangerCounts := strangerCounts;
      this.timeoutText := timeoutText;
      collected := 0;
      ended := false;
    }

    /**
     * The collect handler: a stranger is refused; the author's selection of `value`
     * picks `data[parseInt(value)]` and, being the one collected item, ends the session.
     */
    method OnAction(actor: string, value: string) returns (e: Event<T>)
      requires !ended
      modifies this
      ensures actor != owner ==> (e == Refusal(refusal) &&
        collected == old(collected) + (if strangerCounts then 1 else 0) && ended == strangerCounts)
      ensures actor == owner ==> collected == old(collected) + 1 && ended
      ensures actor == owner && Selected(data, value).Some? ==> e == Chosen(Selected(data, value).value)
      ensures actor == owner && Selected(data, value).None? ==> e == NoSuchItem
    {
      if actor != owner {
        if strangerCounts {
          collected := collected + 1;
          ended := true;
        }
        return Refusal(refusal);
      }
      collected := collected + 1;
      ended := true;
      var s := Selected(data, value);
      if s.Some? {
        e := Chosen(s.value);
      } else {
        e := NoSuchItem;
      }
    }

    /** The end handler: only a timeout with nothing collected edits the message. */
    method OnEnd(reason: string) returns (edit: Option<string>)
      modifies this
      ensures ended && collected == old(collected)
      ensures reason == "time" && collected == 0 ==> edit == timeoutText
      ensures !(reason == "time" && collected == 0) ==> edit == None
    {
      ended := true;
      if reason == "time" && collected == 0 {
        edit := timeoutText;
      } else {
        edit := None;
      }
    }
  }

  /** The author picking option k of a fresh menu gets item k of the result list. */
  method AuthorPicksOption<T(==)>(data: seq<T>, labelOf: T -> string, owner: string, k: nat) returns (e: Event<T>)
    requires k < |Options(data, labelOf)|
    ensures e == Chosen(data[k])
  {
    var p := new Picker(data, owner, "", false, None);
    SelectingAnOption(data, labelOf, k);
    e := p.OnAction(owner, Options(data, labelOf)[k].value);
  }

  // ---------------------------------------------------------------------------
  // What the commands answer and log
  // ---------------------------------------------------------------------------

  /** A search result (`SearchResponse`): artist and album. */
  datatype Album = Album(artist: string, album: string)

  /** A logged play; its date is the clock's and is not modelled. */
  datatype Play = Play(artist: string, album: string, listeners: seq<string>)

  /** What a handler does: the reply it sends (if any) and the play it tries to log (if any). */
  datatype Effect = Effect(reply: Option<string>, attempted: Option<Play>)

  /** The first answer to a command: an effect, one item shown directly, or a menu over `data`. */
  datatype Start<T> = Done(effect: Effect) | Show(item: T) | Menu(prompt: string, options: seq<SelectOption>, data: seq<T>)

  const NoMatch: string := "No matching albums found!"
  const SelectPrompt: string := "Please select the correct album from the dropdown:"

  /** `${s.slice(0, 40)}`: the first 40 characters. */
  function Clip(s: string): (r: string)
    ensures |r| <= 40
    ensures |s| <= 40 ==> r == s
    ensures |s| > 40 ==> r == s[..40]
  {
    JsSlice(s, 0, 40)
  }

  /** The option label of a search result: both halves cut at 40 characters. */
  function AlbumLabel(a: Album): (r: string)
    ensures |r| <= 83
  {
    Clip(a.artist) + " - " + Clip(a.album)
  }

  /** `message.author?.username || "Unknown"`. */
  function RequesterName(author: Option<string>): (r: string)
    ensures r != ""
    ensures author.Some? && author.value != "" ==> r == author.value
  {
    if author.Some? && author.value != "" then author.value else "Unknown"
  }

  // ---------------------------------------------------------------------------
  // VinylBot/src/discord/ProcessPlay.ts: listeners
  // ---------------------------------------------------------------------------

  /** A mention's ids: those of its mapped, lowercased name, for a non-bot user in the map. */
  function IdsOf(m: Commands.Mention, userMap: map<string, seq<string>>, dropdown: string -> string): seq<string> {
    if m.bot then []
    else
      var name := Lower(dropdown(m.username));
      if name in userMap then userMap[name] else []
  }

  /** The ids of all mentions, in mention order. */
  function MentionIds(mentions: seq<Commands.Mention>, userMap: map<string, seq<string>>,
                      dropdown: string -> string): seq<string>
  {
    FlatMap(mentions, IdsFn(userMap, dropdown))
  }

  function IdsFn(userMap: map<string, seq<string>>, dropdown: string -> string): Commands.Mention -> seq<string> {
    m => IdsOf(m, userMap, dropdown)
  }

  /** An id comes from the mentions exactly when some mention's ids hold it. */
  lemma MentionIdsMembers(mentions: seq<Commands.Mention>, userMap: map<string, seq<string>>,
                          dropdown: string -> string, x: string)
    ensures x in MentionIds(mentions, userMap, dropdown) <==>
            exists k :: 0 <= k < |mentions| && x in IdsOf(mentions[k], userMap, dropdown)
  {
    FlatMapMembers(mentions, IdsFn(userMap, dropdown), x);
  }

  /** `Array.from(listenerSet)`: the requester's ids, then the mentions' ids, each once, in insertion order. */
  function Listeners(requesterIds: seq<string>, mentions: seq<Commands.Mention>, userMap: map<string, seq<string>>,
                     dropdown: string -> string): seq<string>
  {
    AddAll([], requesterIds + MentionIds(mentions, userMap, dropdown))
  }

  /**
   * The listeners are distinct; they are exactly the requester's ids and the ids of the
   * mentioned users found in the map; the requester's ids come first, and unchanged when
   * they are distinct.
   */
  lemma ListenersSpec(requesterIds: seq<string>, mentions: seq<Commands.Mention>,
                      userMap: map<string, seq<string>>, dropdown: string -> string)
    ensures NoDuplicates(Listeners(requesterIds, mentions, userMap, dropdown))
    ensures forall x :: x in Listeners(requesterIds, mentions, userMap, dropdown) <==>
      x in requesterIds || exists k :: 0 <= k < |mentions| && x in IdsOf(mentions[k], userMap, dropdown)
    ensures var own := AddAll([], requesterIds);
      |own| <= |Listeners(requesterIds, mentions, userMap, dropdown)| &&
      Listeners(requesterIds, mentions, userMap, dropdown)[..|own|] == own
    ensures NoDuplicates(requesterIds) ==> AddAll([], requesterIds) == requesterIds
  {
    var others := MentionIds(mentions, userMap, dropdown);
    AddAllSpec([], requesterIds + others);
    forall x ensures x in Listeners(requesterIds, mentions, userMap, dropdown) <==>
      x in requesterIds || exists k :: 0 <= k < |mentions| && x in IdsOf(mentions[k], userMap, dropdown)
    {
      MentionIdsMembers(mentions, userMap, dropdown, x);
    }
    AddAllAppend([], requesterIds, others);
    AddAllSpec([], requesterIds);
    AddAllSpec(AddAll([], requesterIds), others);
    if NoDuplicates(requesterIds) {
      AddAllFresh([], requesterIds);
    }
  }

  /** `ids.forEach(id => set.add(id))`. */
  method AddEach(acc: seq<string>, xs: seq<string>) returns (r: seq<string>)
    ensures r == AddAll(acc, xs)
  {
    r := acc;
    var i := 0;
    while i < |xs|
      invariant 0 <= i <= |xs|
      invariant r == AddAll(acc, xs[..i])
    {
      assert xs[..i + 1][..i] == xs[..i];
      if xs[i] !in r {
        r := r + [xs[i]];
      }
      i := i + 1;
    }
    assert xs[..|xs|] == xs;
  }

  /** The listener set: seeded with the requester's ids, then each human mention's ids are added. */
  method BuildListeners(requesterIds: seq<string>, mentions: seq<Commands.Mention>,
                        userMap: map<string, seq<string>>, dropdown: string -> string) returns (ids: seq<string>)
    ensures ids == Listeners(requesterIds, mentions, userMap, dropdown)
  {
    ids := AddEach([], requesterIds);
    assert requesterIds + MentionIds(mentions[..0], userMap, dropdown) == requesterIds;
    var i := 0;
    while i < |mentions|
      invariant 0 <= i <= |mentions|
      invariant ids == AddAll([], requesterIds + MentionIds(mentions[..i], userMap, dropdown))
    {
      var m := mentions[i];
      ghost var before := requesterIds + MentionIds(mentions[..i], userMap, dropdown);
      ghost var more := IdsOf(m, userMap, dropdown);
      MentionIdsStep(requesterIds, mentions, i, userMap, dropdown);
      AddAllAppend([], before, more);
      if !m.bot {
        var name := Lower(dropdown(m.username));
        if name in userMap {
          ids := AddEach(ids, userMap[name]);
        }
      }
      i := i + 1;
    }
    assert mentions[..|mentions|] == mentions;
  }

  lemma MentionIdsStep(requesterIds: seq<string>, mentions: seq<Commands.Mention>, i: nat,
                       userMap: map<string, seq<string>>, dropdown: string -> string)
    requires i < |mentions|
    ensures requesterIds + MentionIds(mentions[..i + 1], userMap, dropdown) ==
            (requesterIds + MentionIds(mentions[..i], userMap, dropdown)) + IdsOf(mentions[i], userMap, dropdown)
  {
    assert mentions[..i + 1][..i] == mentions[..i];
  }

  // ---------------------------------------------------------------------------
  // VinylBot/src/discord/ProcessPlay.ts: the search text
  // ---------------------------------------------------------------------------

  /** The length of a `<@digits>` or `<@!digits>` token at the start of s, or 0 when none starts there. */
  function MentionLength(s: string): (n: nat)
    ensures n <= |s|
    ensures n > 0 ==> s[0] == '<'
  {
    if |s| < 2 || s[0] != '<' || s[1] != '@' then 0
    else
      var j := if |s| > 2 && s[2] == '!' then 3 else 2;
      var d := DigitRun(s[j..]);
      if d > 0 && j + d < |s| && s[j + d] == '>' then j + d + 1 else 0
  }

  /** `s.replace(/<@!?\d+>/g, "")`: one left-to-right pass that drops each token it meets. */
  function RemoveMentions(s: string): (r: string)
    ensures |r| <= |s|
    decreases |s|
  {
    if s == [] then []
    else
      var n := MentionLength(s);
      if n > 0 then RemoveMentions(s[n..]) else [s[0]] + RemoveMentions(s[1..])
  }

  /** A user mention as Discord writes it. */
  function MentionToken(digits: string, bang: bool): string {
    "<@" + (if bang then "!" else "") + digits + ">"
  }

  predicate AllDigits(s: string) {
    forall k :: 0 <= k < |s| ==> IsDigit(s[k])
  }

  lemma {:induction false} DigitRunStops(d: string, rest: string)
    requires AllDigits(d) && (rest == [] || !IsDigit(rest[0]))
    ensures DigitRun(d + rest) == |d|
    decreases |d|
  {
    if d != [] {
      assert (d + rest)[1..] == d[1..] + rest;
      DigitRunStops(d[1..], rest);
    } else {
      assert d + rest == rest;
    }
  }

  /** A mention token is removed. */
  lemma TokenRemoved(digits: string, bang: bool, rest: string)
    requires digits != [] && AllDigits(digits)
    ensures RemoveMentions(MentionToken(digits, bang) + rest) == RemoveMentions(rest)
  {
    var t := MentionToken(digits, bang);
    TokenLength(digits, bang, rest);
    assert (t + rest)[|t|..] == rest;
  }

  /** A token followed by anything is measured as the whole token. */
  lemma TokenLength(digits: string, bang: bool, rest: string)
    requires digits != [] && AllDigits(digits)
    ensures MentionLength(MentionToken(digits, bang) + rest) == |MentionToken(digits, bang)|
  {
    var t := MentionToken(digits, bang);
    var s := t + rest;
    var j := if bang then 3 else 2;
    assert |t| == j + |digits| + 1;
    assert s[0] == '<' && s[1] == '@';
    assert s[j..] == digits + (">" + rest);
    assert s[2] == '!' <==> bang by {
      if !bang {
        assert s[2] == digits[0];
      }
    }
    DigitRunStops(digits, ">" + rest);
    assert s[j + |digits|] == '>';
  }

  /** Any other character is kept. */
  lemma PlainKept(c: char, rest: string)
    requires c != '<'
    ensures RemoveMentions([c] + rest) == [c] + RemoveMentions(rest)
  {
    assert ([c] + rest)[1..] == rest;
  }

  /** Text without a '<' is left as it is. */
  lemma {:induction false} NoTokenUnchanged(s: string)
    requires '<' !in s
    ensures RemoveMentions(s) == s
    decreases |s|
  {
    if s != [] {
      assert s[0] in s;
      assert forall c :: c in s[1..] ==> c in s;
      NoTokenUnchanged(s[1..]);
      assert s == [s[0]] + s[1..];
    }
  }

  /** `content.split(" ").slice(1).join(" ").replace(/<@!?\d+>/g, "").trim()`. */
  function SearchText(content: string): string {
    Trim(RemoveMentions(Join(Split(content, ' ')[1..], " ")))
  }

  /** The search text is everything after the first space, without mention tokens, trimmed. */
  lemma SearchTextIsRest(content: string)
    ensures SearchText(content) == Trim(RemoveMentions(AfterFirst(content, ' ')))
    ensures ' ' !in content ==> SearchText(content) == ""
  {
    AfterFirstIsJoinedTail(content, ' ');
  }

  // ---------------------------------------------------------------------------
  // VinylBot/src/discord/ProcessPlay.ts: dispatch
  // ---------------------------------------------------------------------------

  const NotRegistered: string := "⚠️ You are not registered in the system."
  const NoParams: string := "Please provide an album name or Spotify URL."
  const NotForYou: string := "Not for you!"

  /** `${n} listener${n === 1 ? "" : "s"}`. */
  function ListenerCount(n: nat): (r: string)
    ensures n == 1 ==> r == "1 listener"
    ensures n != 1 ==> |r| > 0 && r[|r| - 1] == 's'
  {
    NatToString(n) + " listener" + (if n == 1 then "" else "s")
  }

  /** Logging a search result for the listeners, as the one-match case and the menu do. */
  function LogAlbum(a: Album, ids: seq<string>, insert: Play -> Option<string>): (r: Effect)
    ensures r.attempted == Some(Play(a.artist, a.album, ids))
  {
    var p := Play(a.artist, a.album, ids);
    var text := match insert(p)
      case None => "✅ Logged **" + a.artist + "** - **" + a.album + "** for " + ListenerCount(|ids|)
      case Some(m) => "❌ Error: " + m;
    Effect(Some(text), Some(p))
  }

  /**
   * `ProcessPlay(message)`. The requester's mapped, lowercased name must be in the user
   * map; the listeners are computed; an empty search text is refused; a Spotify link is
   * logged from its album data; otherwise the search decides between no match, one
   * match logged directly, and a menu. The search runs outside the `try`, so its failure
   * sends nothing.
   */
  function ListenerPlayStart(content: string, author: string, mentions: seq<Commands.Mention>,
                             userMap: map<string, seq<string>>, dropdown: string -> string,
                             spotifyOf: string -> Option<SpotifyUrl>, spotifyData: SpotifyUrl -> Result<Album>,
                             search: string -> Result<seq<Album>>, insert: Play -> Option<string>): Start<Album>
  {
    var name := Lower(dropdown(author));
    if name !in userMap then Done(Effect(Some(NotRegistered), None))
    else
      var ids := Listeners(userMap[name], mentions, userMap, dropdown);
      var params := SearchText(content);
      if params == "" then Done(Effect(Some(NoParams), None))
      else match spotifyOf(params)
        case Some(u) =>
          (match spotifyData(u)
           case Err(m) => Done(Effect(Some("❌ Spotify error: " + m), None))
           case Ok(a) =>
             var p := Play(a.artist, a.album, ids);
             var text := match insert(p)
               case None => "✅ Logged for **" + a.artist + "** - **" + a.album + "** for " + ListenerCount(|ids|)
               case Some(m) => "❌ Spotify error: " + m;
             Done(Effect(Some(text), Some(p))))
        case None =>
          match search(params)
          case Err(_) => Done(Effect(None, None))
          case Ok(data) =>
            if |data| == 0 then Done(Effect(Some(NoMatch), None))
            else if |data| == 1 then Done(LogAlbum(data[0], ids, insert))
            else Menu("Multiple matches found (" + ListenerCount(|ids|) + "):", Options(data, AlbumLabel), data)
  }

  /** The collect handler's effect: a refusal logs nothing. An undefined item throws before anything is sent. */
  function ListenerPicked(e: Event<Album>, ids: seq<string>, insert: Play -> Option<string>): (r: Effect)
    ensures r.attempted.Some? <==> e.Chosen?
    ensures e.Chosen? ==> r.attempted == Some(Play(e.item.artist, e.item.album, ids))
    ensures e.Refusal? ==> r.reply == Some(e.text)
  {
    match e
    case Refusal(t) => Effect(Some(t), None)
    case Chosen(a) => LogAlbum(a, ids, insert)
    case NoSuchItem => Effect(None, None)
  }

  /**
   * An unregistered requester and an empty search text log nothing; every play logged
   * has the listener list; a search with no match replies, one match is logged with no
   * menu, and more give a menu of the first 25 labelled results over all of them.
   */
  lemma ListenerPlaySpec(content: string, author: string, mentions: seq<Commands.Mention>,
                         userMap: map<string, seq<string>>, dropdown: string -> string,
                         spotifyOf: string -> Option<SpotifyUrl>, spotifyData: SpotifyUrl -> Result<Album>,
                         search: string -> Result<seq<Album>>, insert: Play -> Option<string>)
    ensures var r := ListenerPlayStart(content, author, mentions, userMap, dropdown, spotifyOf, spotifyData, search, insert);
      var name := Lower(dropdown(author));
      (name !in userMap ==> r == Done(Effect(Some(NotRegistered), None))) &&
      (name in userMap && SearchText(content) == "" ==> r == Done(Effect(Some(NoParams), None))) &&
      (r.Done? && r.effect.attempted.Some? ==>
        name in userMap && r.effect.attempted.value.listeners == Listeners(userMap[name], mentions, userMap, dropdown))
    ensures var r := ListenerPlayStart(content, author, mentions, userMap, dropdown, spotifyOf, spotifyData, search, insert);
      var name := Lower(dropdown(author));
      var params := SearchText(content);
      (name in userMap && params != "" && spotifyOf(params).None? && search(params).Ok? ==> (
        var data := search(params).value;
        (|data| == 0 ==> r == Done(Effect(Some(NoMatch), None))) &&
        (|data| == 1 ==> r.Done? && r.effect.attempted.Some? && r.effect.attempted.value.artist == data[0].artist &&
                         r.effect.attempted.value.album == data[0].album) &&
        (|data| > 1 ==> r.Menu? && r.data == data && r.options == Options(data, AlbumLabel))))
  {
  }

  // ---------------------------------------------------------------------------
  // SupabaseBot/src/discord/ProcessPlay.ts
  // ---------------------------------------------------------------------------

  const UserNotFound: string := "⚠️ User not found in system."
  const NotYours: string := "This isn't for you!"
  const TimedOut: string := "Selection timed out."

  function Logged(a: Album): string {
    "✅ Logged a play for **" + a.artist + " - " + a.album + "**"
  }

  /** Logging a result for one user; `failure` prefixes the thrown message. */
  function LogForUser(a: Album, userId: string, insert: Play -> Option<string>, failure: string): (r: Effect)
    ensures r.attempted == Some(Play(a.artist, a.album, [userId]))
  {
    var p := Play(a.artist, a.album, [userId]);
    Effect(Some(match insert(p) case None => Logged(a) case Some(m) => failure + m), Some(p))
  }

  /**
   * `ProcessPlay(message)`: the requester's mapped name must belong to a user; a Spotify
   * link in the argument text is logged; otherwise the search decides between no match,
   * one match logged directly, and the menu.
   */
  function UserPlayStart(content: string, author: Option<string>, dropdown: string -> string,
                         userByName: string -> Option<string>, spotifyData: SpotifyUrl -> Result<Album>,
                         search: string -> Result<seq<Album>>, insert: Play -> Option<string>): Start<Album>
  {
    var params := ArgsText(content);
    match userByName(dropdown(RequesterName(author)))
    case None => Done(Effect(Some(UserNotFound), None))
    case Some(userId) =>
      match ParseSpotifyUrl(params)
      case Some(u) =>
        (match spotifyData(u)
         case Err(m) => Done(Effect(Some("❌ Failed to log Spotify play: " + m), None))
         case Ok(a) => Done(LogForUser(a, userId, insert, "❌ Failed to log Spotify play: ")))
      case None =>
        match search(params)
        case Err(_) => Done(Effect(None, None))
        case Ok(data) =>
          if |data| == 0 then Done(Effect(Some(NoMatch), None))
          else if |data| == 1 then Done(LogForUser(data[0], userId, insert, "❌ Failed to log play: "))
          else Menu(SelectPrompt, Options(data, AlbumLabel), data)
  }

  /** The collect handler's effect: the chosen result is logged for the requesting user only. */
  function UserPicked(e: Event<Album>, userId: string, insert: Play -> Option<string>): (r: Effect)
    ensures r.attempted.Some? <==> e.Chosen?
    ensures e.Chosen? ==> r.attempted == Some(Play(e.item.artist, e.item.album, [userId]))
    ensures e.Refusal? ==> r.reply == Some(e.text)
  {
    match e
    case Refusal(t) => Effect(Some(t), None)
    case Chosen(a) => LogForUser(a, userId, insert, "❌ Error logging play: ")
    case NoSuchItem => Effect(None, None)
  }

  /**
   * An unknown requester logs nothing; a play is only ever logged for the requester's
   * user id; no match replies, one match is logged, more open the menu.
   */
  lemma UserPlaySpec(content: string, author: Option<string>, dropdown: string -> string,
                     userByName: string -> Option<string>, spotifyData: SpotifyUrl -> Result<Album>,
                     search: string -> Result<seq<Album>>, insert: Play -> Option<string>)
    ensures var r := UserPlayStart(content, author, dropdown, userByName, spotifyData, search, insert);
      var user := userByName(dropdown(RequesterName(author)));
      (user.None? ==> r == Done(Effect(Some(UserNotFound), None))) &&
      (r.Done? && r.effect.attempted.Some? ==> user.Some? && r.effect.attempted.value.listeners == [user.value])
    ensures var r := UserPlayStart(content, author, dropdown, userByName, spotifyData, search, insert);
      var user := userByName(dropdown(RequesterName(author)));
      var params := ArgsText(content);
      (user.Some? && ParseSpotifyUrl(params).None? && search(params).Ok? ==> (
        var data := search(params).value;
        (|data| == 0 ==> r == Done(Effect(Some(NoMatch), None))) &&
        (|data| == 1 ==> r.Done? && r.effect.attempted == Some(Play(data[0].artist, data[0].album, [user.value]))) &&
        (|data| > 1 ==> r == Menu(SelectPrompt, Options(data, AlbumLabel), data))))
  {
  }

  // ---------------------------------------------------------------------------
  // VinylBot/src/discord/ProcessPlay.js
  // ---------------------------------------------------------------------------

  /** The row filter: the artist or the album cell contains the search text, ignoring case. */
  predicate PlayRowKeep(params: string, row: Row) {
    CellContains(row, 0, params) || CellContains(row, 1, params)
  }

  function RowKeeper(params: string): Row -> bool {
    row => PlayRowKeep(params, row)
  }

  /** The label of a sheet row: its first two cells cut at 40 characters. */
  function RowLabel(row: Row): string {
    Clip(CellText(row, 0)) + " - " + Clip(CellText(row, 1))
  }

  /** `row[1].slice(0, 40)` throws for a row without a second cell, among the first 25 shown. */
  predicate LabelsDefined(data: seq<Row>) {
    forall k :: 0 <= k < |data| && k < MaxOptions ==> |data[k]| >= 2
  }

  /**
   * `ProcessPlay(message)`: a Spotify link is logged for the requester's mapped name;
   * otherwise the album sheet's rows are filtered and even one match goes through the
   * menu. Nothing here is inside a `try`: a failed lookup or log sends nothing, and so
   * does a matching row that has no album cell.
   */
  function SheetPlayStart(content: string, author: Option<string>, dropdown: string -> string,
                          spotifyOf: string -> Option<SpotifyUrl>, spotifyData: SpotifyUrl -> Result<Album>,
                          values: Option<seq<Row>>, logged: Play -> bool): Start<Row>
  {
    var params := ArgsText(content);
    var username := dropdown(RequesterName(author));
    match spotifyOf(params)
    case Some(u) =>
      (match spotifyData(u)
       case Err(_) => Done(Effect(None, None))
       case Ok(a) =>
         var p := Play(a.artist, a.album, [username]);
         Done(Effect(if logged(p) then Some("Logged a play for " + a.artist + " - " + a.album) else None, Some(p))))
    case None =>
      var data := Filter(GetData(values, true), RowKeeper(params));
      if |data| == 0 then Done(Effect(Some(NoMatch), None))
      else if !LabelsDefined(data) then Done(Effect(None, None))
      else Menu(SelectPrompt, Options(data, RowLabel), data)
  }

  /** The collect handler's effect: the chosen row's artist and album are logged for the requester. */
  function SheetPicked(e: Event<Row>, username: string, logged: Play -> bool): (r: Effect)
    ensures r.attempted.Some? <==> e.Chosen?
    ensures e.Chosen? ==> r.attempted == Some(Play(CellText(e.item, 0), CellText(e.item, 1), [username]))
    ensures e.Refusal? ==> r.reply == Some(e.text)
  {
    match e
    case Refusal(t) => Effect(Some(t), None)
    case Chosen(row) =>
      var p := Play(CellText(row, 0), CellText(row, 1), [username]);
      Effect(if logged(p) then Some("✅ Logged a play for **" + p.artist + " - " + p.album + "**") else None, Some(p))
    case NoSuchItem => Effect(None, None)
  }

  /**
   * Without a Spotify link: a menu lists exactly the album rows whose artist or album
   * contains the search text, in sheet order, and is opened even for one match; no
   * match replies.
   */
  lemma SheetPlaySpec(content: string, author: Option<string>, dropdown: string -> string,
                      spotifyOf: string -> Option<SpotifyUrl>, spotifyData: SpotifyUrl -> Result<Album>,
                      values: Option<seq<Row>>, logged: Play -> bool)
    requires spotifyOf(ArgsText(content)).None?
    ensures var r := SheetPlayStart(content, author, dropdown, spotifyOf, spotifyData, values, logged);
      var rows := GetData(values, true);
      var params := ArgsText(content);
      (r.Menu? ==> (forall row :: row in r.data <==> row in rows && PlayRowKeep(params, row)) &&
                   |r.data| >= 1 && r.options == Options(r.data, RowLabel)) &&
      ((forall row :: row in rows ==> !PlayRowKeep(params, row)) ==> r == Done(Effect(Some(NoMatch), None)))
    ensures var r := SheetPlayStart(content, author, dropdown, spotifyOf, spotifyData, values, logged);
      var data := Filter(GetData(values, true), RowKeeper(ArgsText(content)));
      |data| >= 1 && LabelsDefined(data) ==> r == Menu(SelectPrompt, Options(data, RowLabel), data)
  {
    var rows := GetData(values, true);
    var params := ArgsText(content);
    var data := Filter(rows, RowKeeper(params));
    assert SheetPlayStart(content, author, dropdown, spotifyOf, spotifyData, values, logged) ==
      if |data| == 0 then Done(Effect(Some(NoMatch), None))
      else if !LabelsDefined(data) then Done(Effect(None, None))
      else Menu(SelectPrompt, Options(data, RowLabel), data);
    KeptRows(rows, params);
    if forall row :: row in rows ==> !PlayRowKeep(params, row) {
      NoneKept(rows, params);
    }
  }

  /** When no row matches the filter keeps nothing. */
  lemma {:induction false} NoneKept(rows: seq<Row>, params: string)
    requires forall row :: row in rows ==> !PlayRowKeep(params, row)
    ensures Filter(rows, RowKeeper(params)) == []
    decreases |rows|
  {
    if rows != [] {
      var pre := rows[..|rows| - 1];
      assert forall row :: row in pre ==> row in rows;
      NoneKept(pre, params);
      assert rows[|rows| - 1] in rows;
    }
  }

  /** The filter keeps exactly the rows that match. */
  lemma KeptRows(rows: seq<Row>, params: string)
    ensures forall row :: row in Filter(rows, RowKeeper(params)) <==> row in rows && PlayRowKeep(params, row)
  {
    FilterMembers(rows, RowKeeper(params));
  }

  // ---------------------------------------------------------------------------
  // VinylBot/src/discord/ProcessInfo.ts
  // ---------------------------------------------------------------------------

  /** The fields of a vinyl that the info card shows (`purchaseLocation` is the joined location's name). */
  datatype Record = Record(artist: string, album: string, purchaseDate: string, location: Option<string>,
                           playCount: Option<int>, length: Option<int>, notes: Option<string>,
                           imageUrl: string, doubleLP: bool)

  datatype Field = Field(name: string, value: string, inline: bool)

  datatype InfoCard = InfoCard(title: string, colour: nat, thumbnail: Option<string>, fields: seq<Field>, footer: string)

  const Violet: nat := 0x8b5cf6
  const InvalidQuery: string := "Invalid query. Usage: `!info {search query}`"
  const FetchFailed: string := "There was an error fetching the vinyl data. Please try again later."
  const MultiplePrompt: string := "Multiple matches found. Please select one:"
  const NotYourMenu: string := "This menu is not for you!"
  const InfoTimedOut: string := "⚠️ Selection timed out. Please run the command again."
  const MissingVinyl: string := "Could not find the selected vinyl data."

  /**
   * `limit(str, max)`: a missing or empty string is a dash; a string longer than max
   * keeps its first max-3 characters and gets "...".
   */
  function Limit(s: Option<string>, max: nat): (r: string)
    ensures s.None? || s.value == "" ==> r == "—"
    ensures s.Some? && s.value != "" && |s.value| <= max ==> r == s.value
    ensures s.Some? && |s.value| > max && max >= 3 ==> r == s.value[..max - 3] + "..."
  {
    if s.None? || s.value == "" then "—"
    else if |s.value| > max then JsSlice(s.value, 0, max - 3) + "..." else s.value
  }

  /** With max at least 3 the result fits, a cut one exactly; what is kept is a prefix. */
  lemma LimitFits(s: Option<string>, max: nat)
    requires max >= 3
    ensures |Limit(s, max)| <= max
    ensures s.Some? && |s.value| > max ==> |Limit(s, max)| == max && StartsWith(s.value, Limit(s, max)[..max - 3])
  {
  }

  /** `buildVinylEmbed(vinyl)`. */
  function VinylCard(v: Record): InfoCard {
    InfoCard(
      Limit(Some(v.artist + " — " + v.album), 256),
      Violet,
      if v.imageUrl == "" then None else Some(v.imageUrl),
      [ Field("Purchased", Limit(Some(v.purchaseDate + (if v.location.Some? then " @ " + v.location.value else "")), 1024), false),
        Field("Play Count", if v.playCount.Some? then IntToString(v.playCount.value) else "0", true),
        Field("Length", if v.length.Some? && v.length.value != 0 then IntToString(v.length.value) + " min" else "Unknown", true),
        Field("Notes", Limit(v.notes, 1024), false) ],
      if v.doubleLP then "💿 Double LP" else "💿 Single LP")
  }

  /**
   * The card keeps to Discord's sizes (title at most 256, field values at most 1024),
   * and its defaults: no play count shows "0", no length or 0 shows "Unknown", missing
   * notes show a dash.
   */
  lemma VinylCardDefaults(v: Record)
    ensures var c := VinylCard(v);
      |c.title| <= 256 && |c.fields| == 4 && |c.fields[0].value| <= 1024 && |c.fields[3].value| <= 1024
    ensures v.playCount.None? ==> VinylCard(v).fields[1].value == "0"
    ensures v.length.None? || v.length == Some(0) ==> VinylCard(v).fields[2].value == "Unknown"
    ensures v.notes.None? ==> VinylCard(v).fields[3].value == "—"
    ensures VinylCard(v).title == v.artist + " — " + v.album || |VinylCard(v).title| == 256
  {
    LimitFits(Some(v.artist + " — " + v.album), 256);
    LimitFits(Some(v.purchaseDate + (if v.location.Some? then " @ " + v.location.value else "")), 1024);
    LimitFits(v.notes, 1024);
  }

  /** The option label of a record: "artist - album" limited to 100 characters. */
  function InfoLabel(v: Record): (r: string)
    ensures |r| <= 100
  {
    LimitFits(Some(v.artist + " - " + v.album), 100);
    Limit(Some(v.artist + " - " + v.album), 100)
  }

  /**
   * `ProcessInfo(message)`: without an argument the usage is shown; otherwise the
   * argument text is searched; a failure, no result, one result shown directly, or a menu.
   */
  function InfoStart(content: string, fetch: string -> Result<seq<Record>>): Start<Record> {
    var args := Split(content, ' ')[1..];
    if args == [] then Done(Effect(Some(InvalidQuery), None))
    else
      var term := Join(args, " ");
      match fetch(term)
      case Err(_) => Done(Effect(Some(FetchFailed), None))
      case Ok(vinyls) =>
        if |vinyls| == 0 then Done(Effect(Some("No matching records found for \"" + term + "\"."), None))
        else if |vinyls| == 1 then Show(vinyls[0])
        else Menu(MultiplePrompt, Options(vinyls, InfoLabel), vinyls)
  }

  lemma SplitSingle(s: string, sep: char)
    ensures |Split(s, sep)| == 1 <==> sep !in s
  {
  }

  /**
   * A message without a space gets the usage reply; otherwise the search term is
   * everything after the first space, and the reply follows the number of results:
   * none, one shown with no menu, or a menu.
   */
  lemma InfoSpec(content: string, fetch: string -> Result<seq<Record>>)
    ensures ' ' !in content ==> InfoStart(content, fetch) == Done(Effect(Some(InvalidQuery), None))
    ensures ' ' in content ==> (
      var term := AfterFirst(content, ' ');
      (fetch(term).Err? ==> InfoStart(content, fetch) == Done(Effect(Some(FetchFailed), None))) &&
      (fetch(term) == Ok([]) ==>
         InfoStart(content, fetch) == Done(Effect(Some("No matching records found for \"" + term + "\"."), None))) &&
      (fetch(term).Ok? && |fetch(term).value| == 1 ==> InfoStart(content, fetch) == Show(fetch(term).value[0])) &&
      (fetch(term).Ok? && |fetch(term).value| > 1 ==>
         InfoStart(content, fetch) == Menu(MultiplePrompt, Options(fetch(term).value, InfoLabel), fetch(term).value)))
  {
    SplitSingle(content, ' ');
    AfterFirstIsJoinedTail(content, ' ');
  }

  /** The selection update: the card of the chosen record, or the error for an undefined one. */
  function InfoSelection(selected: Option<Record>): (r: Result<InfoCard>)
    ensures r.Ok? <==> selected.Some?
    ensures selected.Some? ==> r == Ok(VinylCard(selected.value))
  {
    match selected
    case None => Err(MissingVinyl)
    case Some(v) => Ok(VinylCard(v))
  }

  /** The content of the selection update. */
  function InfoUpdateText(r: Result<InfoCard>): string {
    match r
    case Ok(_) => "✅ Record found:"
    case Err(m) => "❌ Error: " + m
  }
}
