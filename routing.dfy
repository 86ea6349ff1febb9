/**
 * The `messageCreate` routing of both bots: which handler a message is given to.
 * The handlers themselves are modelled elsewhere or left out; here a handler is a name.
 */
module Routing {
  import opened Wrappers
  import opened Text

  datatype Handler =
    | WantList | HaveList | AddWant | LogPlay | RandomStore | RandomAlbum | AddVinyl
    | TopPlays | TopLocations | TopArtists | Info | Exists | Help

  // ---------------------------------------------------------------------------
  // VinylBot/src/index.ts
  // ---------------------------------------------------------------------------

  /** The command words the switch knows. */
  const Commands: seq<string> := ["wantlist", "want", "have", "play", "random", "add", "top", "info", "exists", "help"]

  /** `message.content.slice(1).trim().split(/\s+/)`. */
  function CommandArgs(content: string): (r: seq<string>)
    requires content != []
    ensures |r| >= 1
  {
    SplitWs(Trim(content[1..]))
  }

  /** The switch on the command word, with the nested choice on the second argument. */
  function Dispatch(command: string, second: Option<string>): Option<Handler> {
    if command == "wantlist" then Some(WantList)
    else if command == "want" then Some(AddWant)
    else if command == "have" then Some(HaveList)
    else if command == "play" then Some(LogPlay)
    else if command == "random" then
      if second == Some("store") then Some(RandomStore) else Some(RandomAlbum)
    else if command == "add" then Some(AddVinyl)
    else if command == "top" then
      if second == Some("plays") then Some(TopPlays)
      else if second == Some("locations") then Some(TopLocations)
      else Some(TopArtists)
    else if command == "info" then Some(Info)
    else if command == "exists" then Some(Exists)
    else if command == "help" then Some(Help)
    else None
  }

  /** The handler a message is routed to. */
  function Route(fromBot: bool, content: string): Option<Handler> {
    if fromBot || !StartsWith(content, "!") then None
    else
      var args := CommandArgs(content);
      Dispatch(Lower(args[0]), if |args| > 1 then Some(Lower(args[1])) else None)
  }

  /** Bot messages and messages without the "!" prefix are ignored. */
  lemma RouteIgnored(fromBot: bool, content: string)
    requires fromBot || !StartsWith(content, "!")
    ensures Route(fromBot, content).None?
  {
  }

  /**
   * The command word is the first whitespace-separated word after "!", and the
   * second argument the next one, both lowercased; a message with nothing after "!"
   * has the empty command.
   */
  lemma RouteByWords(rest: string)
    ensures var ws := Words(rest);
      Route(false, "!" + rest) ==
      Dispatch(if ws == [] then "" else Lower(ws[0]), if |ws| > 1 then Some(Lower(ws[1])) else None)
  {
    var content := "!" + rest;
    assert content[1..] == rest;
    assert StartsWith(content, "!");
    SplitWsOfTrim(rest);
    WordsEmptyIff(rest);
    TrimEmptyIff(rest);
  }

  /** Exactly the known command words go to a handler; any other word goes nowhere. */
  lemma DispatchKnown(command: string, second: Option<string>)
    ensures Dispatch(command, second).Some? <==> command in Commands
  {
  }

  /** `random` picks the store picker exactly for "store", and the album picker otherwise. */
  lemma RandomRoute(second: Option<string>)
    ensures Dispatch("random", second) == Some(RandomStore) <==> second == Some("store")
    ensures Dispatch("random", second) != Some(RandomStore) ==> Dispatch("random", second) == Some(RandomAlbum)
  {
  }

  /** `top` has a default: anything but "plays" or "locations", or nothing, lists artists. */
  lemma TopRoute(second: Option<string>)
    requires second != Some("plays") && second != Some("locations")
    ensures Dispatch("top", second) == Some(TopArtists)
  {
  }

  /** The command word is compared after lowercasing. */
  lemma RouteIgnoresCase(w: string, t: string)
    requires w != [] && NoSpace(w) && (t == [] || IsSpace(t[0]))
    ensures Route(false, "!" + w + t) == Route(false, "!" + Lower(w) + t)
  {
    LowerNoSpace(w);
    assert "!" + w + t == "!" + (w + t);
    assert "!" + Lower(w) + t == "!" + (Lower(w) + t);
    RouteByWords(w + t);
    RouteByWords(Lower(w) + t);
    WordsOfWordThen(w, t);
    WordsOfWordThen(Lower(w), t);
    LowerIsLower(w);
    LowerOfLower(Lower(w));
  }

  lemma LowerNoSpace(w: string)
    requires w != [] && NoSpace(w)
    ensures Lower(w) != [] && NoSpace(Lower(w))
  {
    forall k | 0 <= k < |w| ensures !IsSpace(Lower(w)[k]) {
      assert Lower(w)[k] == LowerChar(w[k]);
    }
  }

  // ---------------------------------------------------------------------------
  // SupabaseBot/src/index.ts
  // ---------------------------------------------------------------------------

  /**
   * The if-chain of prefix tests: "!want2 " and "!play " are matched against the lowercased
   * text, "!2random", "!2wantlist" and "!2have" on the text as typed; the first test
   * that holds decides, and "!play " has its handler switched off.
   */
  function Route2(fromBot: bool, content: string): Option<Handler> {
    if fromBot then None
    else if StartsWith(Lower(content), "!want2 ") then Some(AddWant)
    else if StartsWith(Lower(content), "!play ") then None
    else if StartsWith(content, "!2random") then
      var pieces := Split(content, ' ');
      if |pieces| > 1 && Lower(pieces[1]) == "store" then Some(RandomStore) else Some(RandomAlbum)
    else if StartsWith(content, "!2wantlist") then Some(WantList)
    else if StartsWith(content, "!2have") then Some(HaveList)
    else None
  }

  /** A character of what a prefix test accepts. */
  lemma PrefixChar(content: string, p: string, i: nat)
    requires i < |p|
    ensures StartsWith(content, p) ==> content[i] == p[i]
  {
    if StartsWith(content, p) {
      assert content[..|p|][i] == content[i];
    }
  }

  /** The add-want test is case-insensitive and comes first. */
  lemma Route2Want(content: string)
    ensures Route2(false, content) == Some(AddWant) <==> StartsWith(Lower(content), "!want2 ")
  {
  }

  /**
   * A message starting with "!2random" goes to one of the random pickers: the store
   * picker exactly when the first argument lowercases to "store".
   */
  lemma Route2Random(content: string)
    requires StartsWith(content, "!2random")
    ensures var pieces := Split(content, ' ');
      Route2(false, content) ==
      if |pieces| > 1 && Lower(pieces[1]) == "store" then Some(RandomStore) else Some(RandomAlbum)
  {
    NotLowerPrefix(content, "!2random", "!want2 ");
    NotLowerPrefix(content, "!2random", "!play ");
  }

  /** "!2wantlist" and "!2have" reach the list handlers. */
  lemma Route2Lists(content: string)
    ensures StartsWith(content, "!2wantlist") ==> Route2(false, content) == Some(WantList)
    ensures StartsWith(content, "!2have") ==> Route2(false, content) == Some(HaveList)
  {
    PrefixChar(content, "!2random", 2);
    PrefixChar(content, "!2wantlist", 2);
    PrefixChar(content, "!2have", 2);
    NotLowerPrefix(content, "!2wantlist", "!want2 ");
    NotLowerPrefix(content, "!2wantlist", "!play ");
    NotLowerPrefix(content, "!2have", "!want2 ");
    NotLowerPrefix(content, "!2have", "!play ");
  }

  /** A text starting with "!2…" never passes a lowercased test for "!w…" or "!p…". */
  lemma NotLowerPrefix(content: string, p: string, q: string)
    requires |p| >= 2 && p[1] == '2'
    requires |q| >= 2 && q[1] != '2'
    ensures StartsWith(content, p) ==> !StartsWith(Lower(content), q)
  {
    PrefixChar(content, p, 1);
    PrefixChar(Lower(content), q, 1);
  }

  /** "!play " is recognised and deliberately routed nowhere. */
  lemma Route2Play(content: string)
    requires StartsWith(Lower(content), "!play ")
    ensures Route2(false, content).None?
  {
    PrefixChar(Lower(content), "!play ", 1);
    PrefixChar(Lower(content), "!want2 ", 1);
  }
}
