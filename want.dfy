/**
 * `ProcessWant` (the Supabase generation): `!want2 <spotify link> <notes…>` adds the
 * linked album to the want list and answers with an embed, or with a text reply.
 * Fetching the Spotify data, looking up the user and inserting the row are inputs.
 */
module Want {
  import opened Wrappers
  import opened Text
  import opened Spotify
  import opened Services

  /** What the Spotify lookup returns for a parsed link. */
  datatype SpotifyData = SpotifyData(artists: string, albumName: string, albumArt: string,
                                     releaseDate: string, totalTracks: nat)

  /** The embed of a saved (or already listed) item. */
  datatype WantEmbed = WantEmbed(title: string, description: string, colour: nat, url: string,
                                 thumbnail: string, releaseDate: string, tracks: string,
                                 requestedBy: string, notes: string)

  /** Nothing, a plain reply, or an embed. */
  datatype WantReply = Silent | Reply(text: string) | Listed(embed: WantEmbed)

  const Yellow: nat := 0xf1c40f
  const Green: nat := 0x1db954

  /** `const [spotifyLink, ...notesArray] = args.split(" ")`: the first piece. */
  function LinkOf(args: string): string {
    Split(args, ' ')[0]
  }

  /** `notesArray.join(" ").trim()`. */
  function NotesOf(args: string): string {
    Trim(Join(Split(args, ' ')[1..], " "))
  }

  /** `x || "N/A"` for a number: 0 is falsy. */
  function TracksText(n: nat): (r: string)
    ensures r == "N/A" <==> n == 0
  {
    if n == 0 then "N/A" else NatToString(n)
  }

  /** `s || fallback` for a string. */
  function OrText(s: string, fallback: string): (r: string)
    ensures s != [] ==> r == s
    ensures s == [] ==> r == fallback
  {
    if s == [] then fallback else s
  }

  /**
   * The handler. `fetched` is the outcome of fetching the Spotify data together with
   * the user id (either can throw, with a message), `status` that of the insert,
   * `requestedBy` the author's mapped display name and `escape` the colon escaping.
   */
  function ProcessWant(content: string, fetched: Result<(SpotifyData, Option<string>)>,
                       status: Result<AddStatus>, requestedBy: string,
                       escape: string -> string): WantReply
  {
    var args := ArgsText(content);
    var notes := NotesOf(args);
    match ParseSpotifyUrl(LinkOf(args))
    case None => Silent
    case Some(parsed) =>
      match fetched
      case Err(m) => Reply("❌ Error: " + m)
      case Ok((data, userId)) =>
        if userId.None? then Reply("⚠️ User not found in system.")
        else
          match status
          case Err(m) => Reply("❌ Error: " + m)
          case Ok(Error) => Reply("❌ System error: Could not save to database.")
          case Ok(s) =>
            var duplicate := s == Duplicate;
            Listed(WantEmbed(
              (if duplicate then "⚠️ Already Listed: " else "✅ Added: ") + escape(data.albumName),
              escape(data.artists),
              if duplicate then Yellow else Green,
              Link(parsed),
              data.albumArt,
              OrText(data.releaseDate, "N/A"),
              TracksText(data.totalTracks),
              requestedBy,
              OrText(notes, "None")))
  }

  // ---------------------------------------------------------------------------
  // Properties
  // ---------------------------------------------------------------------------

  /**
   * The link is the first space-separated piece of the arguments: it has no space, and
   * when there is a space the arguments are the link, a space and the rest; the notes
   * are that rest, trimmed.
   */
  lemma LinkAndNotes(args: string)
    ensures ' ' !in LinkOf(args)
    ensures ' ' in args ==> args == LinkOf(args) + " " + AfterFirst(args, ' ')
    ensures ' ' !in args ==> LinkOf(args) == args && NotesOf(args) == ""
    ensures NotesOf(args) == Trim(AfterFirst(args, ' '))
  {
    AfterFirstIsJoinedTail(args, ' ');
    if ' ' in args {
      var i := IndexOf(args, ' ');
      assert Split(args, ' ')[0] == args[..i];
      assert args == args[..i] + [' '] + args[i + 1..];
    }
  }

  /** The command says nothing at all exactly when its link does not parse. */
  lemma SilentIff(content: string, fetched: Result<(SpotifyData, Option<string>)>,
                  status: Result<AddStatus>, requestedBy: string, escape: string -> string)
    ensures ProcessWant(content, fetched, status, requestedBy, escape).Silent? <==>
            ParseSpotifyUrl(LinkOf(ArgsText(content))).None?
  {
  }

  /**
   * An embed is shown exactly when the link parses, both lookups succeed, the user is
   * known and the insert reports ADDED or DUPLICATE; it is yellow and "Already Listed"
   * for a duplicate and green and "Added" otherwise.
   */
  lemma ListedIff(content: string, fetched: Result<(SpotifyData, Option<string>)>,
                  status: Result<AddStatus>, requestedBy: string, escape: string -> string)
    ensures var r := ProcessWant(content, fetched, status, requestedBy, escape);
      r.Listed? <==> ParseSpotifyUrl(LinkOf(ArgsText(content))).Some? && fetched.Ok? &&
                     fetched.value.1.Some? && status.Ok? && status.value != Error
    ensures var r := ProcessWant(content, fetched, status, requestedBy, escape);
      r.Listed? ==> (r.embed.colour == Yellow <==> status.value == Duplicate) &&
                    (status.value == Duplicate ==> StartsWith(r.embed.title, "⚠️ Already Listed: ")) &&
                    (status.value == Added ==> StartsWith(r.embed.title, "✅ Added: "))
  {
  }

  /** The embed's link is rebuilt from the parsed link, and its notes are the notes or "None". */
  lemma ListedFields(content: string, fetched: Result<(SpotifyData, Option<string>)>,
                     status: Result<AddStatus>, requestedBy: string, escape: string -> string)
    ensures var r := ProcessWant(content, fetched, status, requestedBy, escape);
            var args := ArgsText(content);
            r.Listed? ==> ParseSpotifyUrl(LinkOf(args)).Some? &&
                          r.embed.url == Link(ParseSpotifyUrl(LinkOf(args)).value) &&
                          r.embed.notes == OrText(NotesOf(args), "None")
  {
  }

  /** The embed links back to the item: its URL parses to what the link parsed to. */
  lemma ListedUrlRoundTrip(content: string, fetched: Result<(SpotifyData, Option<string>)>,
                           status: Result<AddStatus>, requestedBy: string, escape: string -> string)
    requires ProcessWant(content, fetched, status, requestedBy, escape).Listed?
    ensures ParseSpotifyUrl(ProcessWant(content, fetched, status, requestedBy, escape).embed.url) ==
            ParseSpotifyUrl(LinkOf(ArgsText(content)))
  {
    ListedFields(content, fetched, status, requestedBy, escape);
    ParseOfLinkOfParse(LinkOf(ArgsText(content)));
  }

  /** A thrown error, from the lookups or from the insert, is reported with its message. */
  lemma ThrownErrorReply(content: string, fetched: Result<(SpotifyData, Option<string>)>,
                         status: Result<AddStatus>, requestedBy: string, escape: string -> string)
    requires ParseSpotifyUrl(LinkOf(ArgsText(content))).Some?
    ensures fetched.Err? ==>
      ProcessWant(content, fetched, status, requestedBy, escape) == Reply("❌ Error: " + fetched.message)
    ensures fetched.Ok? && fetched.value.1.Some? && status.Err? ==>
      ProcessWant(content, fetched, status, requestedBy, escape) == Reply("❌ Error: " + status.message)
  {
  }
}
