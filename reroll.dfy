/**
 * The "random pick" sessions: a random album (with Play and Reroll buttons) in two
 * generations, and a random record store (Reroll only). A session holds a frozen pool
 * and the current pick; a reroll draws again until the pick differs from the current
 * one by album title (or store name). `Math.random` is an oracle `draw`: the k-th call
 * returns `draw(k)`, a number in [0, 1).
 */
module Reroll {
  import opened Wrappers
  import opened Text
  import opened Seqs
  import opened Commands

  /** A collection entry: the database id (absent or 0 means none), the artist and the album. */
  datatype Vinyl = Vinyl(id: Option<int>, artist: string, album: string)

  /** A store: its name and its address, which may be null. */
  datatype Location = Location(name: string, address: Option<string>)

  /** A user profile. */
  datatype Profile = Profile(id: string, name: string)

  /** The button row: Play (when shown) and Reroll, all enabled or all disabled; or no row. */
  datatype Controls = Controls(showPlay: bool, disabled: bool) | Cleared

  /** What a button press does: refused, a play of the current pick, a reroll, or nothing. */
  datatype Event<T> = Refusal(text: string) | Played(item: T) | Rerolled(item: T) | Ignored

  /** How the command starts: nothing more to say, a reply, or a session over a pool. */
  datatype Launch<T> = Quiet | Say(text: string) | Start(pool: seq<T>, target: Option<Profile>)

  /** The embed of a pick. */
  datatype Card = Card(title: string, description: string, colour: nat)

  const Blurple: nat := 0x5865f2
  const PickTitle: string := "🎲 Random Pick"

  function AlbumOf(v: Vinyl): string { v.album }
  function NameOf(l: Location): string { l.name }

  // ---------------------------------------------------------------------------
  // Drawing
  // ---------------------------------------------------------------------------

  /** `list[Math.floor(Math.random() * list.length)]`. */
  function Pick<T>(items: seq<T>, random: real): (r: T)
    requires items != [] && 0.0 <= random < 1.0
    ensures r in items
  {
    items[RandomIndex(random, |items|)]
  }

  ghost predicate Draws(draw: nat -> real) {
    forall k: nat :: 0.0 <= draw(k) < 1.0
  }

  /** Some draw picks an item whose key differs from the current one. */
  ghost predicate Exits<T>(items: seq<T>, key: T -> string, current: T, draw: nat -> real)
    requires items != [] && Draws(draw)
  {
    exists k: nat :: key(Pick(items, draw(k))) != key(current)
  }

  /** `next` is the pick of the first draw whose key differs from the current one. */
  ghost predicate FirstDifferent<T>(items: seq<T>, key: T -> string, current: T, draw: nat -> real, next: T)
    requires items != [] && Draws(draw)
  {
    exists u: nat :: next == Pick(items, draw(u)) && key(next) != key(current) &&
      forall j: nat :: j < u ==> key(Pick(items, draw(j))) == key(current)
  }

  /**
   * The resample loop, `do { next = pick() } while (key(next) === key(current))`: it
   * returns the pick of the first draw with a different key. It ends only when such a
   * draw comes, which the caller must promise.
   */
  method Resample<T>(items: seq<T>, key: T -> string, current: T, draw: nat -> real) returns (next: T)
    requires items != [] && Draws(draw)
    requires Exits(items, key, current, draw)
    ensures next in items && key(next) != key(current)
    ensures FirstDifferent(items, key, current, draw, next)
  {
    ghost var bound: nat :| key(Pick(items, draw(bound))) != key(current);
    var used: nat := 0;
    next := Pick(items, draw(0));
    while key(next) == key(current)
      invariant used <= bound
      invariant next == Pick(items, draw(used))
      invariant forall j: nat :: j < used ==> key(Pick(items, draw(j))) == key(current)
      decreases bound - used
    {
      used := used + 1;
      next := Pick(items, draw(used));
    }
  }

  /** A pool of one always draws its only item. */
  lemma SingletonPick<T>(items: seq<T>, random: real, current: T)
    requires |items| == 1 && 0.0 <= random < 1.0 && current in items
    ensures Pick(items, random) == current
  {
  }

  // ---------------------------------------------------------------------------
  // The session
  // ---------------------------------------------------------------------------

  /**
   * One pick session. `key` tells picks apart (album title, or store name), `showPlay`
   * says whether there is a Play button, `refusal` is what a stranger is told.
   */
  class Session<T(==)> {
    const items: seq<T>
    const owner: string
    const key: T -> string
    const showPlay: bool
    const refusal: string
    var current: T
    var controls: Controls
    var stopped: bool

    /** The current pick is always an item of the pool. */
    predicate Valid()
      reads this
    {
      items != [] && current in items
    }

    /** The first pick is a random item of the pool, shown with enabled buttons. */
    constructor (items: seq<T>, owner: string, key: T -> string, showPlay: bool, refusal: string, random: real)
      requires items != [] && 0.0 <= random < 1.0
      ensures this.items == items && this.owner == owner && this.key == key
      ensures this.showPlay == showPlay && this.refusal == refusal
      ensures current == Pick(items, random) && controls == Controls(showPlay, false) && !stopped
      ensures Valid()
    {
      this.items := items;
      this.owner := owner;
      this.key := key;
      this.showPlay := showPlay;
      this.refusal := refusal;
      current := Pick(items, random);
      controls := Controls(showPlay, false);
      stopped := false;
    }

    /**
     * The collect handler. A stranger is refused. Play stops the session with the reason
     * "played" and removes the buttons. Reroll draws until the album (or name) differs
     * when the pool holds another one, and keeps the pick otherwise: the guard of the
     * loop is the corrected one of `PickOther` (the source's guard is `length > 1`,
     * see `SameAlbumNeverExits`).
     */
    method OnAction(actor: string, customId: string, draw: nat -> real) returns (e: Event<T>)
      requires Valid() && !stopped && Draws(draw)
      requires customId == "reroll" && Others(items, key, current) != [] ==> Exits(items, key, current, draw)
      modifies this
      ensures Valid()
      ensures actor != owner ==>
        e == Refusal(refusal) && current == old(current) && controls == old(controls) && !stopped
      ensures actor == owner && customId == "play" && showPlay ==>
        e == Played(current) && current == old(current) && controls == Cleared && stopped
      ensures actor == owner && customId == "reroll" ==>
        e == Rerolled(current) && controls == Controls(showPlay, false) && !stopped &&
        (Others(items, key, old(current)) != [] ==>
           key(current) != key(old(current)) && FirstDifferent(items, key, old(current), draw, current)) &&
        (Others(items, key, old(current)) == [] ==> current == old(current))
      ensures actor == owner && customId != "reroll" && !(customId == "play" && showPlay) ==>
        e == Ignored && current == old(current) && controls == old(controls) && !stopped
    {
      if actor != owner {
        return Refusal(refusal);
      }
      if customId == "play" && showPlay {
        stopped := true;
        controls := Cleared;
        return Played(current);
      }
      if customId == "reroll" {
        if Others(items, key, current) != [] {
          current := Resample(items, key, current, draw);
        }
        controls := Controls(showPlay, false);
        return Rerolled(current);
      }
      e := Ignored;
    }

    /**
     * The end handler: after a play (reason "played") an album session leaves the
     * message alone; any other end renders the buttons disabled. Either way the
     * collector delivers no press after it has ended.
     */
    method OnEnd(reason: string)
      requires Valid()
      modifies this
      ensures Valid() && current == old(current) && stopped
      ensures showPlay && reason == "played" ==> controls == old(controls)
      ensures !(showPlay && reason == "played") ==> controls == Controls(showPlay, true)
    {
      stopped := true;
      if !(showPlay && reason == "played") {
        controls := Controls(showPlay, true);
      }
    }
  }

  // ---------------------------------------------------------------------------
  // The reroll that hangs, and the intended one
  // ---------------------------------------------------------------------------

  /**
   * When every item of a pool of two or more shares the current album, the loop is
   * entered and no draw ever leaves it.
   */
  lemma SameAlbumNeverExits(items: seq<Vinyl>, current: Vinyl, draw: nat -> real)
    requires |items| > 1 && Draws(draw)
    requires forall i :: 0 <= i < |items| ==> items[i].album == current.album
    ensures !Exits(items, AlbumOf, current, draw)
  {
    forall k: nat ensures AlbumOf(Pick(items, draw(k))) == AlbumOf(current) {
      var i := RandomIndex(draw(k), |items|);
      assert Pick(items, draw(k)) == items[i];
    }
  }

  /** Two pressings of one album: the reroll button of such a pool hangs the handler. */
  lemma TwoPressings(draw: nat -> real)
    requires Draws(draw)
    ensures var pool := [Vinyl(Some(1), "The Beatles", "Abbey Road"), Vinyl(Some(2), "The Beatles", "Abbey Road")];
      |pool| > 1 && !Exits(pool, AlbumOf, pool[0], draw)
  {
    var pool := [Vinyl(Some(1), "The Beatles", "Abbey Road"), Vinyl(Some(2), "The Beatles", "Abbey Road")];
    SameAlbumNeverExits(pool, pool[0], draw);
  }

  function DiffersFrom<T>(key: T -> string, current: T): T -> bool {
    x => key(x) != key(current)
  }

  /** The items a reroll may land on. */
  function Others<T>(items: seq<T>, key: T -> string, current: T): seq<T> {
    Filter(items, DiffersFrom(key, current))
  }

  /**
   * The intended reroll: a random item with a different key when there is one, and the
   * current pick otherwise. It draws once and always ends.
   */
  function PickOther<T>(items: seq<T>, key: T -> string, current: T, random: real): T
    requires 0.0 <= random < 1.0
  {
    var others := Others(items, key, current);
    if others == [] then current else Pick(others, random)
  }

  /**
   * The intended reroll changes the key exactly when some item has another key, lands
   * on an item of the pool when it does, and keeps the pick when it does not.
   */
  lemma PickOtherSpec<T>(items: seq<T>, key: T -> string, current: T, random: real)
    requires 0.0 <= random < 1.0
    ensures var r := PickOther(items, key, current, random);
      (key(r) != key(current) <==> exists i :: 0 <= i < |items| && key(items[i]) != key(current)) &&
      (key(r) != key(current) ==> r in items) &&
      (key(r) == key(current) ==> r == current)
  {
    var others := Others(items, key, current);
    FilterMembers(items, DiffersFrom(key, current));
    if exists i :: 0 <= i < |items| && key(items[i]) != key(current) {
      var i :| 0 <= i < |items| && key(items[i]) != key(current);
      assert items[i] in others;
    }
  }

  /** Where the loop does end it lands among the items the intended reroll chooses from. */
  lemma ResampleLandsInOthers<T>(items: seq<T>, key: T -> string, current: T, next: T)
    requires next in items && key(next) != key(current)
    ensures next in Others(items, key, current)
  {
    FilterMembers(items, DiffersFrom(key, current));
  }

  // ---------------------------------------------------------------------------
  // VinylBot/src/discord/ProcessRandomAlbum.ts
  // ---------------------------------------------------------------------------

  const Unexpected: string := "❌ An unexpected error occurred."
  const NoProfile: string := "❌ No matching user profile found for logging."
  const EmptyCollection: string := "❌ The requested collection is empty."
  const RollerOnly: string := "Only the person who rolled this can use the buttons."

  /** `buildEmbed(artist, album)`. */
  function AlbumCard(escape: string -> string, v: Vinyl): Card {
    Card(PickTitle, escape("🎵 **" + v.artist + "**\n💿 *" + v.album + "*"), Blurple)
  }

  /**
   * The pool and the user plays are logged for: a mentioned user's liked vinyls, or a
   * search, or the whole collection for the requester. Lookups that throw are `Err`.
   */
  function AlbumLaunch(outcome: Outcome, userById: string -> Result<Option<Profile>>,
                       requester: Result<Option<Profile>>, liked: string -> Result<seq<Vinyl>>,
                       search: string -> Result<seq<Vinyl>>, all: Result<seq<Vinyl>>): Launch<Vinyl>
  {
    match outcome
    case Refused(_) => Quiet
    case Parsed(ctx) =>
      var found: Result<(Option<Profile>, seq<Vinyl>)> :=
        if ctx.kind == User then
          match userById(ctx.term)
          case Err(m) => Err(m)
          case Ok(None) => Ok((None, []))
          case Ok(Some(u)) => if liked(u.id).Err? then Err(liked(u.id).message) else Ok((Some(u), liked(u.id).value))
        else
          var pool := if ctx.kind == Search then search(ctx.term) else all;
          if pool.Err? then Err(pool.message)
          else if requester.Err? then Err(requester.message)
          else Ok((requester.value, pool.value));
      match found
      case Err(_) => Say(Unexpected)
      case Ok((target, pool)) =>
        if target.None? then Say(NoProfile)
        else if pool == [] then
          Say(if ctx.kind == Search then "❌ No entries found matching \"" + ctx.term + "\"." else EmptyCollection)
        else Start(pool, target)
  }

  /**
   * A session starts exactly when a target user is known and the pool is not empty; the
   * target is the mentioned user for a user context and the requester otherwise.
   */
  lemma AlbumLaunchSpec(outcome: Outcome, userById: string -> Result<Option<Profile>>,
                        requester: Result<Option<Profile>>, liked: string -> Result<seq<Vinyl>>,
                        search: string -> Result<seq<Vinyl>>, all: Result<seq<Vinyl>>)
    ensures outcome.Refused? ==> AlbumLaunch(outcome, userById, requester, liked, search, all) == Quiet
    ensures var r := AlbumLaunch(outcome, userById, requester, liked, search, all);
      r.Start? ==> (r.pool != [] && r.target.Some? && outcome.Parsed? &&
        (outcome.ctx.kind == User ==> userById(outcome.ctx.term) == Ok(r.target) &&
                                      liked(r.target.value.id) == Ok(r.pool)) &&
        (outcome.ctx.kind == Search ==> requester == Ok(r.target) && search(outcome.ctx.term) == Ok(r.pool)) &&
        (outcome.ctx.kind != User && outcome.ctx.kind != Search ==> requester == Ok(r.target) && all == Ok(r.pool)))
    ensures outcome.Parsed? && outcome.ctx.kind == User && userById(outcome.ctx.term) == Ok(None) ==>
      AlbumLaunch(outcome, userById, requester, liked, search, all) == Say(NoProfile)
    ensures outcome.Parsed? && outcome.ctx.kind != User && requester == Ok(None) && outcome.ctx.kind != Search && all.Ok? ==>
      AlbumLaunch(outcome, userById, requester, liked, search, all) == Say(NoProfile)
  {
  }

  /** An id that is absent or 0 counts as missing (`!currentVinyl?.id`). */
  predicate HasId(v: Vinyl) {
    v.id.Some? && v.id.value != 0
  }

  /** A play log: the album id, the listeners, and (not modelled) the date. */
  datatype AlbumPlay = AlbumPlay(albumId: int, listeners: seq<string>)

  /** What Play logs: the current album for the target user, or nothing when the album has no id. */
  function AlbumPlayLog(v: Vinyl, target: Profile): (r: Option<AlbumPlay>)
    ensures r.Some? <==> HasId(v)
    ensures r.Some? ==> r.value.albumId == v.id.value && r.value.listeners == [target.id]
  {
    if HasId(v) then Some(AlbumPlay(v.id.value, [target.id])) else None
  }

  /** The follow-up after Play: missing data, logged (`logged` is the outcome of the insert), or failed. */
  function AlbumPlayFollowUp(v: Vinyl, target: Profile, logged: bool): string {
    if !HasId(v) then "⚠️ Album data missing, couldn't log play."
    else if logged then "▶️ **Play logged for " + target.name + ":** " + v.artist + " — *" + v.album + "*"
    else "⚠️ Failed to log play to database."
  }

  /** A VinylBot session: Play and Reroll, told apart by album title. */
  method StartAlbumSession(pool: seq<Vinyl>, owner: string, random: real) returns (s: Session<Vinyl>)
    requires pool != [] && 0.0 <= random < 1.0
    ensures fresh(s) && s.Valid() && s.items == pool && s.owner == owner && s.key == AlbumOf
    ensures s.showPlay && s.refusal == RollerOnly && s.current == Pick(pool, random)
    ensures s.controls == Controls(true, false) && !s.stopped
  {
    s := new Session(pool, owner, AlbumOf, true, RollerOnly, random);
  }

  // ---------------------------------------------------------------------------
  // SupabaseBot/src/discord/ProcessRandomAlbum.ts
  // ---------------------------------------------------------------------------

  const NoUser: string := "❌ No matching user found."
  const NoEntries: string := "❌ No matching entries found."
  const FetchFailed: string := "❌ Failed to fetch random entry."
  const NotYours: string := "You can't use these buttons."

  /** `message.content.split(/\s+/).slice(1)[0]?.toLowerCase().trim()`. */
  function AlbumParam(content: string): Option<string> {
    var args := SplitWs(content)[1..];
    if args == [] then None else Some(Trim(Lower(args[0])))
  }

  /** The parameter is the second whitespace-separated piece, lowercased, and has no whitespace. */
  lemma AlbumParamSpec(content: string)
    ensures AlbumParam(content).None? <==> |SplitWs(content)| == 1
    ensures AlbumParam(content).Some? ==>
      AlbumParam(content).value == Lower(SplitWs(content)[1]) && NoSpace(AlbumParam(content).value)
  {
    var args := SplitWs(content)[1..];
    if args != [] {
      var w := args[0];
      assert w == SplitWs(content)[1];
      LowerNoSpaceWord(w);
      TrimNoop(Lower(w));
    }
  }

  lemma LowerNoSpaceWord(w: string)
    requires NoSpace(w)
    ensures NoSpace(Lower(w))
  {
    forall k | 0 <= k < |Lower(w)| ensures !IsSpace(Lower(w)[k]) {
      assert Lower(w)[k] == LowerChar(w[k]);
    }
  }

  /**
   * The requester must resolve; a non-empty parameter names the user whose liked vinyls
   * form the pool (and who is logged for), otherwise the whole collection is the pool.
   */
  function AlbumLaunch2(content: string, requester: Result<Option<Profile>>,
                        userByName: string -> Result<Option<Profile>>, liked: string -> Result<seq<Vinyl>>,
                        all: Result<seq<Vinyl>>): Launch<Vinyl>
  {
    match requester
    case Err(_) => Say(FetchFailed)
    case Ok(None) => Say(NoUser)
    case Ok(Some(me)) =>
      var param := AlbumParam(content);
      var found: Result<(Option<Profile>, seq<Vinyl>)> :=
        if param.Some? && param.value != "" then
          match userByName(param.value)
          case Err(m) => Err(m)
          case Ok(None) => Ok((None, []))
          case Ok(Some(u)) => if liked(u.id).Err? then Err(liked(u.id).message) else Ok((Some(u), liked(u.id).value))
        else if all.Err? then Err(all.message) else Ok((Some(me), all.value));
      match found
      case Err(_) => Say(FetchFailed)
      case Ok((None, _)) => Say(NoUser)
      case Ok((Some(u), pool)) => if pool == [] then Say(NoEntries) else Start(pool, Some(u))
  }

  lemma AlbumLaunch2Spec(content: string, requester: Result<Option<Profile>>,
                         userByName: string -> Result<Option<Profile>>, liked: string -> Result<seq<Vinyl>>,
                         all: Result<seq<Vinyl>>)
    ensures requester == Ok(None) ==> AlbumLaunch2(content, requester, userByName, liked, all) == Say(NoUser)
    ensures var r := AlbumLaunch2(content, requester, userByName, liked, all);
      var param := AlbumParam(content);
      r.Start? ==> (r.pool != [] && requester.Ok? && requester.value.Some? && r.target.Some? &&
        (param.Some? && param.value != "" ==>
           userByName(param.value) == Ok(r.target) && liked(r.target.value.id) == Ok(r.pool)) &&
        (!(param.Some? && param.value != "") ==> r.target == requester.value && all == Ok(r.pool)))
    ensures var param := AlbumParam(content);
      requester.Ok? && requester.value.Some? && param.Some? && param.value != "" && userByName(param.value) == Ok(None) ==>
        AlbumLaunch2(content, requester, userByName, liked, all) == Say(NoUser)
  {
    if requester.Ok? && requester.value.Some? {
      var param := AlbumParam(content);
      if param.Some? && param.value != "" {
        var u := userByName(param.value);
        if u.Ok? && u.value.Some? {
          var l := liked(u.value.value.id);
          assert l.Ok? && l.value != [] ==>
            AlbumLaunch2(content, requester, userByName, liked, all) == Start(l.value, u.value);
        }
      } else {
        assert all.Ok? && all.value != [] ==>
          AlbumLaunch2(content, requester, userByName, liked, all) == Start(all.value, requester.value);
      }
    }
  }

  /** A play log of this generation: artist, album and listeners. */
  datatype TitlePlay = TitlePlay(artist: string, album: string, listeners: seq<string>)

  function TitlePlayLog(v: Vinyl, user: Profile): (r: TitlePlay)
    ensures r.artist == v.artist && r.album == v.album && r.listeners == [user.id]
  {
    TitlePlay(v.artist, v.album, [user.id])
  }

  /** A Supabase session: Play and Reroll, told apart by album title. */
  method StartAlbumSession2(pool: seq<Vinyl>, owner: string, random: real) returns (s: Session<Vinyl>)
    requires pool != [] && 0.0 <= random < 1.0
    ensures fresh(s) && s.Valid() && s.items == pool && s.owner == owner && s.key == AlbumOf
    ensures s.showPlay && s.refusal == NotYours && s.current == Pick(pool, random)
    ensures s.controls == Controls(true, false) && !s.stopped
  {
    s := new Session(pool, owner, AlbumOf, true, NotYours, random);
  }

  // ---------------------------------------------------------------------------
  // SupabaseBot/src/discord/ProcessRandomStore.ts
  // ---------------------------------------------------------------------------

  /** `address || "Address not available"`. */
  function AddressText(address: Option<string>): (r: string)
    ensures address.Some? && address.value != "" ==> r == address.value
    ensures address.None? || address.value == "" ==> r == "Address not available"
  {
    if address.Some? && address.value != "" then address.value else "Address not available"
  }

  function StoreCard(escape: string -> string, l: Location): Card {
    Card(PickTitle, escape("**" + l.name + "**\n" + AddressText(l.address)), Blurple)
  }

  function StoreLaunch(stores: Result<seq<Location>>): (r: Launch<Location>)
    ensures stores.Err? ==> r == Say(FetchFailed)
    ensures stores == Ok([]) ==> r == Say(NoEntries)
    ensures stores.Ok? && stores.value != [] ==> r == Start(stores.value, None)
  {
    match stores
    case Err(_) => Say(FetchFailed)
    case Ok(list) => if list == [] then Say(NoEntries) else Start(list, None)
  }

  /** A store session: Reroll only, told apart by name. */
  method StartStoreSession(stores: seq<Location>, owner: string, random: real) returns (s: Session<Location>)
    requires stores != [] && 0.0 <= random < 1.0
    ensures fresh(s) && s.Valid() && s.items == stores && s.owner == owner && s.key == NameOf
    ensures !s.showPlay && s.refusal == NotYours && s.current == Pick(stores, random)
    ensures s.controls == Controls(false, false) && !s.stopped
  {
    s := new Session(stores, owner, NameOf, false, NotYours, random);
  }

  /** A store session never stops on a play: every end disables its Reroll button. */
  method StoreEnd(s: Session<Location>, reason: string)
    requires s.Valid() && !s.showPlay
    modifies s
    ensures s.controls == Controls(false, true) && s.current == old(s.current) && s.stopped
  {
    s.OnEnd(reason);
  }
}
