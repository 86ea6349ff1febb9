# Vinyl bot: a verified model

A Discord bot for a household's record collection, in three generations.

- **VinylBot** keeps the collection in Google Sheets. It later moves to a database: Supabase in its own services.
- **SupabaseBot** is the second generation on Supabase.
- **FirestoreBot** holds the first Firestore migration script.

Members read either:

- `!` commands: list, search, want, have, play, random, top, info; or
- presses on the buttons and menus those messages carry.

This project models the decision logic of those handlers and of the data helpers beside them. It covers:

- routing a message to a handler;
- parsing a command into a context (full list, a user, a search);
- the paginated list sessions;
- the random-pick sessions with their reroll loop;
- the single-choice dropdowns;
- the Sheets and database post-processing (filters, sorts, counts);
- the Spotify link parser;
- the string normaliser;
- the user and location maps;
- the one-off migration scripts.

Modules, one per file:

| module | what it holds |
|---|---|
| `Wrappers` | `Option` (JavaScript's `undefined`/`null`) and `Result` (a thrown error) |
| `Text` | the JavaScript string operations used: `toLowerCase` (ASCII), `trim`, `split` on a character and on `/\s+/` with `filter(Boolean)`, `join`, `slice`, `toString`/`parseInt` of an index |
| `Seqs` | `filter`, `some`, `Math.floor(Math.random() * n)` and insertion-ordered `Set`s |
| `Sorting` | the stable `Array.prototype.sort` under a comparator, and ordering by two keys |
| `Tally` | counting items per key with a record of counters, in order of first appearance |
| `Normalize` | `normalizeString` |
| `Spotify` | `parseSpotifyUrl`: the leftmost match of the link pattern |
| `Commands` | the `parseCommand` variants |
| `Routing` | both bots' `messageCreate` dispatch |
| `Pager` | the paginated session (`EmbeddedResponse` and its older copies), as a class whose fields the button presses update |
| `ListCommands` | the list and want-list handlers that open a pager |
| `Stats` | the play-count and top-artist commands |
| `Reroll` | the random album and random store sessions with their resample loop, as a class |
| `Choice` | the `!play` and `!info` dropdowns, as a class, and their listener, mention and option logic |
| `Want` | adding a Spotify link to the want list |
| `Catalog` | the catalogue check for a vinyl pressing of an album |
| `Sheets` | the Google Sheets readers and filters of the first generation |
| `RandomEntry` | the first generation's `!random` |
| `Services` | the post-processing in the database services: aggregations ranked by count, row mappings, the insert status |
| `UserMaps` | `resolveUserMap` and `resolveLocationMap` |
| `Migrations` | the scripts that move sheet rows into the database stores |

I/O is an input to the model, not something it performs. This covers:

- the chat client;
- the Sheets, database, catalogue and Spotify fetches;
- timers and `Math.random`.

A fetch result arrives as a value, with a thrown error as `Err`. A random number is a real in [0, 1), or an oracle `draw(k)` for the k-th call. The end of a collector is an event with a reason. What a handler sends back is its result: a reply text, an embed record, or the new state of its session.

## Model

| member | source | states |
|---|---|---|
| Catalog.CheckAlbumExistenceIff | VinylBot/src/discogs/CheckAlbumExistence.ts:19-37 | the check is true exactly when the search returned a master, that first master has versions, and one of them is vinyl and not a promo |
| Catalog.FirstMasterOnly | VinylBot/src/discogs/CheckAlbumExistence.ts:21-24 | only the first search result is looked at: any other tail of results gives the same answer as the first result alone |
| Catalog.NothingFound | VinylBot/src/discogs/CheckAlbumExistence.ts:19-26 | no results, no versions, or an empty version list answer false |
| Catalog.MoreVersionsMonotone | VinylBot/src/discogs/CheckAlbumExistence.ts:28 | adding versions can turn false into true but never true into false, and a true answer over added versions without a match among them was already true |
| Catalog.LowerAll | VinylBot/src/discogs/CheckAlbumExistence.ts:30 | the major formats lowercased one by one, same length and order |
| Catalog.MajorFormatIff | VinylBot/src/discogs/CheckAlbumExistence.ts:30-32 | the major-format test holds exactly when some major format lowercases to exactly "vinyl" |
| Catalog.MissingFieldsAreEmpty | VinylBot/src/discogs/CheckAlbumExistence.ts:29-32 | a version with no format and no major formats is not vinyl |
| Catalog.FormatIgnoresCase | VinylBot/src/discogs/CheckAlbumExistence.ts:29-36 | two versions that differ only in the case of their format text are judged the same |
| Catalog.CheckAlbumExistence | VinylBot/src/discogs/CheckAlbumExistence.ts:19-37 | the decision after the Discogs search: false without results, false when the first master has no versions, otherwise whether some version is a non-promo vinyl; its properties are stated by `CheckAlbumExistenceIff` and the lemmas below it |
| Commands.MessageArgsCollapse | VinylBot/src/utils/parseCommand.ts:11-12 | the argument text is the words after the command joined by single spaces, so whitespace runs collapse; its words are exactly those words, and it is empty exactly when the message has at most one word |
| Commands.ParseMessageText | VinylBot/src/utils/parseCommand.ts:36-41 | with no non-bot mention the parse is the full list exactly when there are no words after the command (term ""), and otherwise a search whose words are the words after the command |
| Commands.ParseMessageMention | VinylBot/src/utils/parseCommand.ts:15-34 | any non-bot mention overrides the text: the result is a refusal or a user context, and a user context only arises for exactly one such mention whose lowercased dropdown name is in the user map, with the first (non-empty) database id as term |
| Commands.ParseArgsCases | SupabaseBot/src/utils/parseCommand.ts:9-31 | the full list exactly for whitespace-only arguments; "Error parsing User" exactly for one listed word the lookup misses; a user exactly for one listed word it finds; otherwise a search whose term is the argument string verbatim |
| Commands.ParseLocalCases | VinylBot/src/discord/ProcessWantlist.js:7-13 | the full list (term "") exactly for whitespace-only arguments; a user exactly for a single word the list accepts, with that word as term; otherwise the artist (want list) or search (lists) kind with the whole argument text |
| Commands.ParseMessage | VinylBot/src/utils/parseCommand.ts:10-41 | the VinylBot parser: the words after the command, a refusal for several human mentions, a lookup of a single one through the user map, else full or search; its cases are stated by `ParseMessageText` and `ParseMessageMention` |
| Commands.ParseArgs | SupabaseBot/src/utils/parseCommand.ts:9-31 | the SupabaseBot parser on the argument text: full, a looked-up user for one listed word (or the thrown error), else search; its cases are stated by `ParseArgsCases` |
| Commands.ParseLocal | VinylBot/src/discord/ProcessWantlist.js:7-13 | the local parser of the Sheets-era handlers: full, a listed single word as user, else the handler's own kind; its cases are stated by `ParseLocalCases` |
| Routing.CommandArgs | VinylBot/src/index.ts:34 | splitting the trimmed text after "!" on whitespace always yields at least one piece, so `args[0]` exists |
| Routing.RouteIgnored | VinylBot/src/index.ts:31-32 | a message from a bot, or one not starting with "!", is routed nowhere |
| Routing.RouteByWords | VinylBot/src/index.ts:34-35 | the route depends only on the first whitespace-separated word after "!" and the next one, both lowercased; nothing after "!" is the empty command |
| Routing.DispatchKnown | VinylBot/src/index.ts:37-76 | a handler is chosen exactly for the ten known command words; any other word dispatches nothing, as the switch has no default |
| Routing.RandomRoute | VinylBot/src/index.ts:50-53 | "random" goes to the store picker exactly when the second argument lowercases to "store", and to the album picker otherwise |
| Routing.TopRoute | VinylBot/src/index.ts:58-66 | "top" with anything but "plays" or "locations", or with nothing, lists artist counts |
| Routing.RouteIgnoresCase | VinylBot/src/index.ts:35 | the command word may be typed in any case: the message routes as its lowercased command word does |
| Routing.Route2Want | SupabaseBot/src/index.ts:25-30 | a human message goes to the add-want handler exactly when its lowercased text starts with "!want2 " |
| Routing.Route2Play | SupabaseBot/src/index.ts:32-36 | a message whose lowercased text starts with "!play " is routed nowhere |
| Routing.Route2Random | SupabaseBot/src/index.ts:38-48 | a message starting with "!2random" (case-sensitive) goes to the store picker exactly when its first space-separated argument lowercases to "store", else to the album picker |
| Routing.Route2Lists | SupabaseBot/src/index.ts:50-60 | messages starting with "!2wantlist" or "!2have" reach the want-list and have-list handlers; no earlier test in the chain catches them |
| Routing.NotLowerPrefix | SupabaseBot/src/index.ts:26-60 | a text starting with "!2…" never passes the lowercased "!want2 " or "!play " tests, which is why the order of the chain does not shadow them |
| Routing.Route | VinylBot/src/index.ts:30-77 | the `messageCreate` listener of VinylBot: the bot and "!" guards, then the switch on the lowercased first word; stated by `RouteIgnored`, `RouteByWords` and `RouteIgnoresCase` |
| Routing.Dispatch | VinylBot/src/index.ts:37-76 | the switch: ten command words with the nested choices on the second argument and no default; stated by `DispatchKnown`, `RandomRoute` and `TopRoute` |
| Routing.Route2 | SupabaseBot/src/index.ts:22-61 | the SupabaseBot if-chain of prefix tests, the first that holds deciding; stated by `Route2Want`, `Route2Play`, `Route2Random` and `Route2Lists` |
| Pager.TotalPagesIsCeiling | VinylBot/src/utils/discord/EmbeddedResponse.ts:18 | `totalPages` is the ceiling of length over page size: the pages hold every item, the last page is not wholly empty, and an empty list has no pages |
| Pager.PageContents | VinylBot/src/utils/discord/EmbeddedResponse.ts:21-26 | a page in range starts at `page * pageSize` and shows exactly `list[page*pageSize .. min(len, (page+1)*pageSize))`, which is never empty |
| Pager.ButtonsInRange | VinylBot/src/utils/discord/EmbeddedResponse.ts:34-46 | on a page in range prev is disabled iff the page is 0 and next iff it is the last page, and the `>=` and `===` rules of the copies agree there |
| Pager.RulesDifferPastLast | VinylBot/src/discord/ProcessWantlist.js:31-43 | past the last page `>=` keeps next disabled, while the older `=== totalPages-1` test enables it again (except in the degenerate case of no pages at page -1) |
| Pager.EnabledMoveStaysInRange | VinylBot/src/utils/discord/EmbeddedResponse.ts:40-45 | pressing only enabled buttons from a page in range lands on a page in range, although the move is not clamped |
| Pager.DisabledMoveLeavesRange | VinylBot/src/utils/discord/EmbeddedResponse.ts:64-65 | a press of a disabled prev or next from a page in range leaves the range: the handler has no bound check |
| Pager.OutOfRangeShowsNothing | VinylBot/src/utils/discord/EmbeddedResponse.ts:22-26 | a page at or past the page count shows no items |
| Pager.Session.constructor | VinylBot/src/utils/discord/EmbeddedResponse.ts:18-19 | a session over a non-empty list starts on page 0, in range, not ended, showing page 0 |
| Pager.Session.OnAction | VinylBot/src/utils/discord/EmbeddedResponse.ts:58-71 | a stranger is refused and neither page nor view changes; the author's press changes the page by exactly -1, +1 or 0 and re-renders it; an enabled press keeps the page in range |
| Pager.Session.OnEnd | VinylBot/src/utils/discord/EmbeddedResponse.ts:73-77 | at the end both buttons are shown disabled and the page and the shown items stay as they were |
| Pager.TotalPages | VinylBot/src/utils/discord/EmbeddedResponse.ts:18 | `Math.ceil(list.length / pageSize)` in integer arithmetic; `TotalPagesIsCeiling` states that it is the ceiling |
| ListCommands.FormatFrom | VinylBot/src/utils/discord/EmbeddedResponse.ts:25 | each shown item is formatted with its global position `start + idx`, one line per item, in order |
| ListCommands.FormatSlice | VinylBot/src/utils/discord/EmbeddedResponse.ts:23-25 | formatting a slice from its start position gives the same lines as slicing the formatted whole list |
| ListCommands.RenderTitle | VinylBot/src/utils/discord/EmbeddedResponse.ts:29-31 | the title is `<title> (Page p+1/totalPages)` and the colour is the list's |
| ListCommands.RenderInRange | VinylBot/src/utils/discord/EmbeddedResponse.ts:21-30 | a page in range shows the formatted lines of its slice joined by newlines, numbered by their position in the whole list, and is never empty when no line is |
| ListCommands.RenderPastEnd | VinylBot/src/utils/discord/EmbeddedResponse.ts:30 | a page past the end shows "No items found on this page." where the handler has that fallback and nothing where it has not |
| ListCommands.Embedded | VinylBot/src/utils/discord/EmbeddedResponse.ts:12-19 | an empty list is answered with "❌ No items found." and nothing else is; a non-empty list is paged with the given page size, the colour defaulting to 0x1db954, the `>=` next rule and the fallback text |
| ListCommands.ProcessWantListSpec | VinylBot/src/discord/ProcessWantlist.js:45-58 | the want list is read with the local parse of the text after the first space; a failed read says nothing, an empty list says "❌ There's nothing on the list.", otherwise ten items a page, green, `===` rule, and an artist term is the trimmed rest of the message |
| ListCommands.ProcessSheetListSpec | VinylBot/src/discord/ProcessList.js:44-57 | the album list of that type is read with the local parse; an empty list says "❌ There's nothing on the <want/have> list.", otherwise it is paged green with the `===` rule, titled "The <List>" exactly for the full list |
| ListCommands.ProcessDbListSpec | SupabaseBot/src/discord/ProcessList.ts:42-62 | a failed parse escapes the handler and nothing is said; a failed fetch gets the error reply; an empty result gets "❌ Nothing found in the collection/want list."; otherwise the fetched list is paged, titled "The <name>" or `<name> matches for "<term>"`, blue for want and green for have |
| ListCommands.ProcessListSpec | VinylBot/src/discord/ProcessList.ts:9-36 | no parse means no reply; a failed name lookup or fetch gets the error reply; an empty list "❌ No items found."; otherwise the list from the want or vinyls API is paged with the user's resolved name ("Unknown User" if none) or the raw term in the title, blue for want, green for have |
| ListCommands.ItemNumbering | SupabaseBot/src/discord/ProcessList.ts:13-14 | every line of a page starts with its one-based position in the whole list followed by ". **" |
| ListCommands.Render | VinylBot/src/utils/discord/EmbeddedResponse.ts:21-32 | `generateEmbed(page)`: the title with the page numbers, the joined lines of the page or the fallback text, and the colour; stated by `RenderTitle`, `RenderInRange` and `RenderPastEnd` |
| ListCommands.ProcessWantList | VinylBot/src/discord/ProcessWantlist.js:45-58 | the want-list handler of the Sheets era; its outcomes are stated by `ProcessWantListSpec` |
| ListCommands.ProcessSheetList | VinylBot/src/discord/ProcessList.js:44-57 | the list handler of the Sheets era; its outcomes are stated by `ProcessSheetListSpec` |
| ListCommands.ProcessDbList | SupabaseBot/src/discord/ProcessList.ts:42-62 | the SupabaseBot list handler; its outcomes are stated by `ProcessDbListSpec` |
| ListCommands.ProcessList | VinylBot/src/discord/ProcessList.ts:9-36 | the VinylBot list handler; its outcomes are stated by `ProcessListSpec` |
| RandomEntry.QueryRoutes | VinylBot/src/discord/ProcessRandom.js:12-32 | "store" reads "Location Info" unfiltered; any other non-empty param reads "Vinyls" filtered on column 9 by the param; no param (or an empty one) reads "Vinyls" unfiltered |
| RandomEntry.ParamIsFirstArgument | VinylBot/src/discord/ProcessRandom.js:5-6 | the param is the lowercased first space-separated piece after the command, and absent when the message has no space |
| RandomEntry.ProcessRandomSpec | VinylBot/src/discord/ProcessRandom.js:8-61 | a failed fetch gives "❌ Failed to fetch random entry."; no candidate row gives "❌ No matching entries found."; otherwise the reply, colour 0x5865f2, is the escaped "row0\nrow1" (stores) or "🎵 **row0**\n💿 *row1*" (vinyls) of a row of the chosen sheet that passes the filter |
| RandomEntry.ProcessRandom | VinylBot/src/discord/ProcessRandom.js:8-61 | the `!random` handler of the Sheets era: the query chosen by the parameter, the random row and its reply; stated by `QueryRoutes` and `ProcessRandomSpec` |
| Reroll.Pick | VinylBot/src/discord/ProcessRandomAlbum.ts:46-48 | `list[floor(random * length)]` is always an element of the non-empty list |
| Reroll.Resample | VinylBot/src/discord/ProcessRandomAlbum.ts:126-133 | the do-while resample returns an item of the pool whose album differs from the current one, namely the pick of the first draw that differs; it is called only when such a draw exists, which its termination needs |
| Reroll.SingletonPick | SupabaseBot/src/discord/ProcessRandomAlbum.ts:123-130 | drawing from a pool of one gives its only item back, so a reroll of a single item re-picks the current one |
| Reroll.Session.constructor | VinylBot/src/discord/ProcessRandomAlbum.ts:80-84 | the first pick is a random item of the pool, shown with enabled buttons, and the session is not stopped |
| Reroll.Session.OnAction | VinylBot/src/discord/ProcessRandomAlbum.ts:91-139 | a stranger is refused with no change; the author's Play stops the session, removes the buttons and plays the current pick; Reroll yields the first draw with a different key when the pool holds another key (the corrected guard), and otherwise keeps the pick, and re-renders enabled buttons; any other id changes nothing; the pick is always in the pool |
| Reroll.Session.OnEnd | VinylBot/src/discord/ProcessRandomAlbum.ts:142-147 | after a play ("played") an album session leaves the message alone; every other end renders the buttons disabled; the pick does not change and the session accepts no further press |
| Reroll.SameAlbumNeverExits | VinylBot/src/discord/ProcessRandomAlbum.ts:127-131 | when a pool of two or more shares the current album, no draw ever leaves the resample loop |
| Reroll.TwoPressings | VinylBot/src/discord/ProcessRandomAlbum.ts:127-131 | a concrete pool of two pressings of "Abbey Road": Reroll enters the loop and no sequence of draws ends it |
| Reroll.PickOtherSpec | VinylBot/src/discord/ProcessRandomAlbum.ts:126-133 | the intended reroll changes the album exactly when the pool has another album, lands on an item of the pool when it does, and keeps the pick otherwise |
| Reroll.ResampleLandsInOthers | SupabaseBot/src/discord/ProcessRandomAlbum.ts:123-130 | wherever the resample loop ends, it ends on an item the intended reroll could also choose |
| Reroll.AlbumLaunchSpec | VinylBot/src/discord/ProcessRandomAlbum.ts:50-78 | a refused parse says nothing more; a session starts only with a known target and a non-empty pool: the mentioned user's liked vinyls for a user context, the search result or the whole collection for the requester otherwise; an unknown user gets "❌ No matching user profile found for logging." |
| Reroll.AlbumPlayLog | VinylBot/src/discord/ProcessRandomAlbum.ts:104-113 | Play logs exactly when the current album has an id: `album_id` is that id and the listeners are the target user's id alone |
| Reroll.StartAlbumSession | VinylBot/src/discord/ProcessRandomAlbum.ts:80-97 | the session has Play and Reroll, tells picks apart by album title, refuses strangers with "Only the person who rolled this can use the buttons." and starts on a random pick |
| Reroll.AlbumParamSpec | SupabaseBot/src/discord/ProcessRandomAlbum.ts:52-53 | the parameter is absent exactly when the message has one whitespace-separated piece, and otherwise is the second piece lowercased, with no whitespace |
| Reroll.AlbumLaunch2Spec | SupabaseBot/src/discord/ProcessRandomAlbum.ts:55-77 | an unresolved requester or named user gets "❌ No matching user found."; a session starts only with a non-empty pool: the named user's liked vinyls (and that user as target) when there is a parameter, the whole collection for the requester otherwise |
| Reroll.TitlePlayLog | SupabaseBot/src/discord/ProcessRandomAlbum.ts:109-115 | Play logs the current artist and album with the target user's id as the only listener |
| Reroll.StartAlbumSession2 | SupabaseBot/src/discord/ProcessRandomAlbum.ts:79-98 | the session has Play and Reroll, tells picks apart by album, refuses strangers with "You can't use these buttons." and starts on a random pick |
| Reroll.AddressText | SupabaseBot/src/discord/ProcessRandomStore.ts:7-9 | a missing or empty address renders as "Address not available", any other as itself |
| Reroll.StoreLaunch | SupabaseBot/src/discord/ProcessRandomStore.ts:29-37 | a failed fetch replies "❌ Failed to fetch random entry.", no stores "❌ No matching entries found.", otherwise a session over the stores starts |
| Reroll.StartStoreSession | SupabaseBot/src/discord/ProcessRandomStore.ts:37-67 | the store session has Reroll only, tells stores apart by name, refuses strangers with "You can't use these buttons." and starts on a random store |
| Reroll.StoreEnd | SupabaseBot/src/discord/ProcessRandomStore.ts:76-82 | every end, whatever its reason, renders the Reroll button disabled, keeps the current store and stops the session |
| Reroll.AlbumLaunch | VinylBot/src/discord/ProcessRandomAlbum.ts:50-78 | the VinylBot launch: the pool (a mentioned user's liked vinyls, a search, or the collection) and the user played for; stated by `AlbumLaunchSpec` |
| Reroll.AlbumLaunch2 | SupabaseBot/src/discord/ProcessRandomAlbum.ts:55-77 | the SupabaseBot launch: the requester and a named user resolved, then the liked vinyls or the collection; stated by `AlbumLaunch2Spec` |
| Reroll.PickOther | VinylBot/src/discord/ProcessRandomAlbum.ts:126-133 | the corrected reroll of the Findings row: one draw among the items with another key, or the current pick when there is none; stated by `PickOtherSpec` |
| Stats.TitleWithSpec | VinylBot/src/discord/stats/ProcessPlayCount.ts:50 | the trimmed title `${prefix} ${suffix}` is the bare prefix for an empty suffix and the prefix, one space and the suffix otherwise |
| Stats.StripPlaysSpec | VinylBot/src/discord/stats/ProcessPlayCount.ts:19-21 | a leading "plays" in any case is removed and the rest trimmed, a term without it is only trimmed; the result is trimmed and "plays" alone leaves nothing |
| Stats.PlaySourceSpec | VinylBot/src/discord/stats/ProcessPlayCount.ts:19-42 | a user context reads that user's plays, a search reads the cleaned term's plays unless nothing is left of the term, in which case, as for every other context, the all-time list is read; a search term is never blank |
| Stats.ProcessPlayCountSpec | VinylBot/src/discord/stats/ProcessPlayCount.ts:10-59 | a refused parse is silent; a failed query is the error reply; an empty list is "⚠️ No plays found <suffix>."; otherwise a session over exactly the queried list opens, titled with the suffix; for a user both the name and the list must be fetched |
| Stats.PlayTitles | VinylBot/src/discord/stats/ProcessPlayCount.ts:31-50 | the title is "Top Albums by Play Count" followed by a space and "for <name>", `matching "<term>"` or "(All Time)" |
| Stats.ProcessTopSpec | VinylBot/src/discord/stats/ProcessTop.ts:10-51 | a refused parse is silent; "❌ Invalid usage. Mention a user or leave the command empty." exactly when the context is not a user and its term is not blank; a user lists that user's artist counts under "for <name>", a blank term the household's counts under the bare "Top Artists by Album Count" |
| Stats.TopWithParser | VinylBot/src/discord/stats/ProcessTop.ts:12-23 | with the message parser and no human mention, the top command is refused exactly when words follow the command word |
| Stats.StripPlays | VinylBot/src/discord/stats/ProcessPlayCount.ts:19-21 | `/^plays\s*/i` removed, then `trim()`; stated by `StripPlaysSpec` |
| Stats.ProcessPlayCount | VinylBot/src/discord/stats/ProcessPlayCount.ts:10-59 | the play-count handler after the parse; its outcomes are stated by `ProcessPlayCountSpec` and `PlayTitles` |
| Stats.ProcessTop | VinylBot/src/discord/stats/ProcessTop.ts:10-51 | the top-artists handler after the parse; its outcomes are stated by `ProcessTopSpec` and `TopWithParser` |
| Choice.Options | VinylBot/src/discord/ProcessPlay.ts:68-71 | the menu shows the first 25 results at most, option k labelled from result k and valued "k" |
| Choice.Selected | VinylBot/src/discord/ProcessPlay.ts:83 | `data[parseInt(value)]` is either undefined or an element of the result list |
| Choice.SelectingAnOption | VinylBot/src/discord/ProcessPlay.ts:68-83 | choosing option k of the menu selects result k of the full result list |
| Choice.OptionValuesDistinct | VinylBot/src/discord/ProcessPlay.ts:68-71 | no two options share a value |
| Choice.Picker.constructor | SupabaseBot/src/discord/ProcessPlay.ts:89-93 | a new dropdown collector over the frozen results has collected nothing and has not ended |
| Choice.Picker.OnAction | SupabaseBot/src/discord/ProcessPlay.ts:95-101 | a stranger gets the ephemeral refusal and the session ends only if that interaction counts; the author's selection is the one collected item, ends the session and yields the selected result, or no item for a value that is not a position |
| Choice.Picker.OnEnd | SupabaseBot/src/discord/ProcessPlay.ts:125-129 | only a timeout with nothing collected edits the message, with the command's timeout text; the collected count is unchanged |
| Choice.AuthorPicksOption | SupabaseBot/src/discord/ProcessPlay.ts:72-101 | the author picking option k of a fresh menu acts on result k |
| Choice.Clip | VinylBot/src/discord/ProcessPlay.ts:69 | `slice(0, 40)` keeps a string of at most 40 characters and otherwise its first 40 |
| Choice.AlbumLabel | VinylBot/src/discord/ProcessPlay.ts:69 | an option label is at most 83 characters |
| Choice.RequesterName | SupabaseBot/src/discord/ProcessPlay.ts:15 | the requester name is the author's username unless that is missing or empty, and then "Unknown"; never empty |
| Choice.MentionIdsMembers | VinylBot/src/discord/ProcessPlay.ts:26-34 | an id comes from the mentions exactly when a human mention's mapped, lowercased name has it in the user map |
| Choice.ListenersSpec | VinylBot/src/discord/ProcessPlay.ts:25-36 | the listeners are distinct and are exactly the requester's ids and the found mentions' ids; the requester's ids come first, in their own order |
| Choice.AddEach | VinylBot/src/discord/ProcessPlay.ts:32 | adding ids one by one to an insertion-ordered set gives the set with the new ids appended once each |
| Choice.BuildListeners | VinylBot/src/discord/ProcessPlay.ts:25-36 | the loop over the mentions builds exactly the listener list specified by `Listeners` |
| Choice.MentionLength | VinylBot/src/discord/ProcessPlay.ts:40 | a mention token found at the start of the text lies within it and begins with '<' |
| Choice.RemoveMentions | VinylBot/src/discord/ProcessPlay.ts:40 | removing mention tokens never lengthens the text |
| Choice.TokenRemoved | VinylBot/src/discord/ProcessPlay.ts:40 | a `<@digits>` or `<@!digits>` token is removed entirely |
| Choice.PlainKept | VinylBot/src/discord/ProcessPlay.ts:40 | a character other than '<' is kept |
| Choice.NoTokenUnchanged | VinylBot/src/discord/ProcessPlay.ts:40 | text without '<' is unchanged |
| Choice.SearchTextIsRest | VinylBot/src/discord/ProcessPlay.ts:40 | the search text is what follows the first space, without mention tokens, trimmed; a message with no space has none |
| Choice.ListenerCount | VinylBot/src/discord/ProcessPlay.ts:50 | one listener is "1 listener"; any other count is pluralised |
| Choice.LogAlbum | VinylBot/src/discord/ProcessPlay.ts:58-64 | a search result is logged with exactly its artist, album and the listener list |
| Choice.ListenerPicked | VinylBot/src/discord/ProcessPlay.ts:81-87 | a play is logged exactly when a result was chosen, with that result and the listeners; a stranger gets "Not for you!" |
| Choice.ListenerPlaySpec | VinylBot/src/discord/ProcessPlay.ts:12-77 | an unregistered requester gets "⚠️ You are not registered in the system." and an empty search text "Please provide an album name or Spotify URL."; every logged play carries the listeners; no match, one match logged without a menu, or a menu of the labelled results |
| Choice.LogForUser | SupabaseBot/src/discord/ProcessPlay.ts:53-67 | a result is logged with its artist and album for the one requesting user |
| Choice.UserPicked | SupabaseBot/src/discord/ProcessPlay.ts:95-122 | a play is logged exactly when a result was chosen, for the requesting user only; a stranger gets the refusal |
| Choice.UserPlaySpec | SupabaseBot/src/discord/ProcessPlay.ts:13-87 | an unknown requester gets "⚠️ User not found in system."; a play is only ever logged for the requester's id; no match replies, one match is logged, more open the menu |
| Choice.SheetPicked | VinylBot/src/discord/ProcessPlay.js:59-74 | the chosen row's first two cells are logged for the requester; a stranger gets the refusal |
| Choice.SheetPlaySpec | VinylBot/src/discord/ProcessPlay.js:23-51 | without a Spotify link, the menu lists exactly the album rows whose artist or album contains the search text ignoring case, even a single match; no matching row gets "No matching albums found!" |
| Choice.NoneKept | VinylBot/src/discord/ProcessPlay.js:24-33 | when no row matches, the filter keeps nothing |
| Choice.KeptRows | VinylBot/src/discord/ProcessPlay.js:24-28 | the filter keeps exactly the matching rows |
| Choice.Limit | VinylBot/src/discord/ProcessInfo.ts:6-9 | a missing or empty text is a dash; a text that fits is itself; a longer one keeps its first max-3 characters followed by "..." |
| Choice.LimitFits | VinylBot/src/discord/ProcessInfo.ts:6-9 | with max at least 3 the result fits in max, and a cut one is exactly max long and keeps a prefix of the text |
| Choice.VinylCardDefaults | VinylBot/src/discord/ProcessInfo.ts:11-42 | the card keeps Discord's sizes; no play count shows "0", no length or 0 shows "Unknown", missing notes a dash; the title is "artist — album" unless it had to be cut |
| Choice.InfoLabel | VinylBot/src/discord/ProcessInfo.ts:47 | a record's option label is at most 100 characters |
| Choice.InfoSpec | VinylBot/src/discord/ProcessInfo.ts:108-135 | a message without a space gets the usage reply; otherwise the term is everything after the first space, and a failed fetch, no result, one result shown directly, or a menu follow |
| Choice.InfoSelection | VinylBot/src/discord/ProcessInfo.ts:69-95 | a selection shows the chosen record's card, and an undefined one the "Could not find the selected vinyl data." error |
| Choice.Listeners | VinylBot/src/discord/ProcessPlay.ts:25-36 | `Array.from(listenerSet)`: the requester's ids, then the mapped human mentions' ids, each once in insertion order; stated by `ListenersSpec`, computed by `BuildListeners` |
| Choice.ListenerPlayStart | VinylBot/src/discord/ProcessPlay.ts:12-77 | the VinylBot play handler up to the menu; its outcomes are stated by `ListenerPlaySpec` |
| Choice.UserPlayStart | SupabaseBot/src/discord/ProcessPlay.ts:13-87 | the SupabaseBot play handler up to the menu; its outcomes are stated by `UserPlaySpec` |
| Choice.SheetPlayStart | VinylBot/src/discord/ProcessPlay.js:23-51 | the Sheets-era play handler up to the menu; its outcomes are stated by `SheetPlaySpec` |
| Choice.InfoStart | VinylBot/src/discord/ProcessInfo.ts:108-135 | the info handler up to the menu; its outcomes are stated by `InfoSpec` |
| Choice.VinylCard | VinylBot/src/discord/ProcessInfo.ts:11-42 | `buildVinylEmbed(vinyl)`: the clipped fields and their defaults; stated by `VinylCardDefaults` |
| Migrations.SlugIsShaped | FirestoreBot/src/scripts/migateStoresFromSheets.ts:67-69 | replacing every run of characters outside `[a-z0-9]` by one "-" leaves only `[a-z0-9-]` with no two dashes in a row |
| Migrations.ShapedIsFixed | FirestoreBot/src/scripts/migateStoresFromSheets.ts:69 | the replacement leaves text of that shape unchanged |
| Migrations.SlugIdempotent | FirestoreBot/src/scripts/migateStoresFromSheets.ts:69 | replacing twice is replacing once |
| Migrations.StoreIdSpec | FirestoreBot/src/scripts/migateStoresFromSheets.ts:67-69 | a store id holds only `[a-z0-9-]` with no "--", is not empty for a non-empty name, is the name itself for a lowercase alphanumeric name, and is its own id |
| Migrations.StoreRecommended | FirestoreBot/src/scripts/migateStoresFromSheets.ts:63-65 | a store with no recommendation cell (printed "undefined") is not recommended |
| Migrations.RecommendedNoTrim | FirestoreBot/src/scripts/migateStoresFromSheets.ts:63-65 | the cell is not trimmed, so text starting with whitespace never recommends |
| Migrations.StoreWriteOf | FirestoreBot/src/scripts/migateStoresFromSheets.ts:71-80 | a valid row is written with its name and address, purchase count 0, and no notes exactly when the notes cell is missing or empty |
| Migrations.StoreWritesSpec | FirestoreBot/src/scripts/migateStoresFromSheets.ts:55-83 | there is one write per row with a name and an address, each write comes from such a row, and every write has purchase count 0 and a well-formed id |
| Migrations.MigrateStores | FirestoreBot/src/scripts/migateStoresFromSheets.ts:46-85 | no rows write nothing; otherwise the loop writes exactly the valid rows, in order, and the migrated counter equals the number of writes |
| Migrations.Recommended | SupabaseBot/src/scripts/migrateLocations.ts:12-22 | a missing or empty cell leaves the recommendation unknown; otherwise the lowercased, trimmed text is true exactly for "true" or "yes", false exactly for "false" or "no", and unknown for anything else |
| Migrations.RecommendedTrims | SupabaseBot/src/scripts/migrateLocations.ts:15 | whitespace before the word does not change the recommendation |
| Migrations.LocationRow | SupabaseBot/src/scripts/migrateLocations.ts:10-30 | a missing or empty name becomes "Unknown Store", a missing or empty address or notes cell becomes null, and the recommendation is the tri-state of its cell |
| Migrations.MigrateLocations | SupabaseBot/src/scripts/migrateLocations.ts:7-36 | an empty sheet inserts nothing; otherwise every row is inserted as its mapped location, in order |
| Migrations.TrimmedCell | SupabaseBot/src/scripts/migrateWantlist.ts:22-23 | `cells[i]?.formattedValue?.trim()` is present exactly when the formatted value is, and is that value trimmed |
| Migrations.QuotedAt | SupabaseBot/src/scripts/migrateWantlist.ts:19 | a match of `"([^"]+)"` captures non-empty text with no quote |
| Migrations.FirstQuoted | SupabaseBot/src/scripts/migrateWantlist.ts:19 | the leftmost match's capture is non-empty text with no quote |
| Migrations.ImageUrlOfFormula | SupabaseBot/src/scripts/migrateWantlist.ts:17-19 | for a formula whose first quote opens a non-empty quoted URL, as in `=IMAGE("url")`, the image URL is exactly that URL |
| Migrations.WantedRow | SupabaseBot/src/scripts/migrateWantlist.ts:14-34 | artist and album are the trimmed formatted values, defaulted only when absent; the searcher is the user map's ids for the fourth cell taken as written, or none |
| Migrations.WantlistSpec | SupabaseBot/src/scripts/migrateWantlist.ts:36-41 | exactly the mapped rows with a searcher are inserted, in row order; nothing is inserted when no row has one |
| Migrations.MapRowToPlayLog | SupabaseBot/src/scripts/migratePlayLogs.ts:19-29 | the play carries the given listeners; artist and album are the trimmed cells, "Unknown Artist" and "Unknown Album" when absent; the date is missing exactly when its cell is absent or blank |
| Migrations.UserPlays | SupabaseBot/src/scripts/migratePlayLogs.ts:50 | one play per row that has a visible artist, album or date, in order, each mapped with the user's listeners |
| Migrations.PlaysOfListeners | SupabaseBot/src/scripts/migratePlayLogs.ts:38-52 | every collected play carries the ids of a user-map key whose sheet could be read |
| Migrations.PlaysOfAppend | SupabaseBot/src/scripts/migratePlayLogs.ts:38-52 | the plays of a list of keys are the plays of its parts, concatenated in order |
| Migrations.MigratePlayLogs | SupabaseBot/src/scripts/migratePlayLogs.ts:31-56 | the loop over the user map's keys, in insertion order, collects each readable sheet's non-empty rows with that key's ids and skips sheets that cannot be read |
| Migrations.LikedByArray | SupabaseBot/src/scripts/migrateVinyls.ts:20-27 | the loop over the comma-separated "likes" text (an absent cell prints "undefined") gives the specified liked-by list |
| Migrations.LikedBySpec | SupabaseBot/src/scripts/migrateVinyls.ts:21-27 | the liked-by list is never longer than the tokens; each entry is the first id of a trimmed token's user; tokens of no known user add nothing |
| Migrations.VinylRow | SupabaseBot/src/scripts/migrateVinyls.ts:17-41 | artist and album are trimmed with defaults for absent cells; location and owner are looked up as written, "" and no owner when missing; the liked-by list comes from the likes cell |
| Migrations.MigrateVinyls | SupabaseBot/src/scripts/migrateVinyls.ts:15-44 | an empty sheet inserts nothing; otherwise every row is inserted as its mapped vinyl, in order |
| Migrations.StoreId | FirestoreBot/src/scripts/migateStoresFromSheets.ts:67-69 | the store id: the lowercased name with each run outside `[a-z0-9]` replaced by "-"; stated by `StoreIdSpec`, `SlugIsShaped` and `SlugIdempotent` |
| Migrations.MigrateWantlist | SupabaseBot/src/scripts/migrateWantlist.ts:14-41 | the mapped rows with a searcher, or no insert when none remain; stated by `WantlistSpec` |
| Migrations.LikedBy | SupabaseBot/src/scripts/migrateVinyls.ts:20-27 | the first ids of the trimmed tokens found in the user map, in token order; stated by `LikedBySpec`, computed by `LikedByArray` |
| UserMaps.AssignedKeys | SupabaseBot/src/utils/resolveUserMap.ts:9-11 | after one `Map.set` per record the keys are exactly the records' keys |
| UserMaps.AssignedLastWins | SupabaseBot/src/utils/resolveUserMap.ts:9-11 | a key holds the value of the last record that set it |
| UserMaps.AllIds | SupabaseBot/src/utils/resolveUserMap.ts:7 | every user's id, one per user, in list order |
| UserMaps.ResolveUserMap | SupabaseBot/src/utils/resolveUserMap.ts:4-15 | the loop of `set` calls builds exactly the specified user map |
| UserMaps.UserMapSpec | SupabaseBot/src/utils/resolveUserMap.ts:6-12 | "both" holds every id in list order, overriding a user called "both"; the other keys are exactly the lowercased names, each with one id, that of the last user with the name; no users leave only "both" |
| UserMaps.KeyOrderSpec | SupabaseBot/src/scripts/migratePlayLogs.ts:34 | the key list of the user map names every key exactly once |
| UserMaps.ResolveLocationMap | SupabaseBot/src/utils/resolveLocationMap.ts:3-13 | the loop of `set` calls builds exactly the specified location map |
| UserMaps.LocationMapSpec | SupabaseBot/src/utils/resolveLocationMap.ts:6-10 | the keys are exactly the names as written; a name holds the id of the last location with it, or "" when that id is missing; no locations, no keys |
| UserMaps.UserMapOf | SupabaseBot/src/utils/resolveUserMap.ts:4-15 | the user map: one `set` per user on its lowercased name, then "both" to every id; stated by `UserMapSpec`, computed by `ResolveUserMap` |
| UserMaps.KeyOrder | SupabaseBot/src/scripts/migratePlayLogs.ts:34 | `Array.from(userMap.keys())`: the keys in order of first insertion; stated by `KeyOrderSpec` |
| Normalize.LeadingArticle | SupabaseBot/src/utils/normalizeString.ts:2 | an article is found only when the text starts with "the", "a" or "an" followed by whitespace, and when none is found no article is so followed |
| Normalize.StripArticle | SupabaseBot/src/utils/normalizeString.ts:2 | text without a leading article is unchanged; otherwise the article and the whole whitespace run after it are removed |
| Normalize.NormalizeLower | SupabaseBot/src/utils/normalizeString.ts:1-3 | the normalized text has no upper-case letter |
| Normalize.NormalizeTrimmed | SupabaseBot/src/utils/normalizeString.ts:2 | the normalized text neither starts nor ends with whitespace |
| Normalize.NormalizeEmpty | SupabaseBot/src/utils/normalizeString.ts:1 | an omitted value, which defaults to "", and the empty string both normalize to "" |
| Normalize.NormalizeNoArticle | SupabaseBot/src/utils/normalizeString.ts:2 | without a leading article, normalizing is lowercasing and trimming |
| Normalize.NormalizeArticle | SupabaseBot/src/utils/normalizeString.ts:2 | an article, whitespace and a rest normalize to the rest, lowercased and trimmed at its end |
| Normalize.StripArticleOf | SupabaseBot/src/utils/normalizeString.ts:2 | removing the article from an article, whitespace and a rest leaves the rest |
| Normalize.NormalizeArticleWithoutSpace | SupabaseBot/src/utils/normalizeString.ts:2 | a word that only begins like an article ("theory") keeps it |
| Normalize.NormalizeSpaceBeforeArticle | SupabaseBot/src/utils/normalizeString.ts:2 | whitespace before the article protects it, because the article is removed before trimming: " the x" gives "the x" |
| Normalize.NormalizeNotIdempotent | SupabaseBot/src/utils/normalizeString.ts:2 | only one article is removed: "the the band" gives "the band", which normalizes again to "band" |
| Normalize.NormalizeString | SupabaseBot/src/utils/normalizeString.ts:1-3 | lowercase, strip one leading article with its whitespace, trim; stated by `NormalizeLower`, `NormalizeTrimmed` and the lemmas below them |
| Spotify.AlnumRun | SupabaseBot/src/spotify/parseSpotifyUrl.ts:5 | the greedy `[a-zA-Z0-9]+` run takes letters and digits only and stops before the first other character |
| Spotify.FirstKind | SupabaseBot/src/spotify/parseSpotifyUrl.ts:5 | a found alternative is one of the types, stands with a "/" after it, and is followed by a non-empty id that the greedy run takes |
| Spotify.MatchAt | SupabaseBot/src/spotify/parseSpotifyUrl.ts:5 | a match at a position begins with "open.spotify.com/" and continues with one of album, track or artist and a "/" |
| Spotify.LeftmostSpec | SupabaseBot/src/spotify/parseSpotifyUrl.ts:4-6 | the search finds nothing exactly when no position matches, and otherwise returns the match at the first position that matches |
| Spotify.ParseNoneIff | SupabaseBot/src/spotify/parseSpotifyUrl.ts:8 | the parse is null exactly when no position of the text starts a match |
| Spotify.ParseSomeIsLeftmostMatch | SupabaseBot/src/spotify/parseSpotifyUrl.ts:4-13 | a result comes from the leftmost match: the text holds "open.spotify.com/" + type + "/" + id there, the type is album, track or artist, and the id is a non-empty, maximal run of ASCII letters and digits |
| Spotify.KindsDistinguishable | SupabaseBot/src/spotify/parseSpotifyUrl.ts:5 | at most one of the three types followed by "/" stands at a position |
| Spotify.ParseLink | SupabaseBot/src/discord/ProcessWant.ts:45 | a link rebuilt as `https://open.spotify.com/<type>/<id>` from a valid type and id parses back to that type and id |
| Spotify.ParseOfLinkOfParse | SupabaseBot/src/discord/ProcessWant.ts:16-45 | whatever a text parses to, the rebuilt link parses to the same thing |
| Want.TracksText | SupabaseBot/src/discord/ProcessWant.ts:48 | the track count shows "N/A" exactly when it is 0 |
| Want.OrText | SupabaseBot/src/discord/ProcessWant.ts:47-50 | `s \|\| fallback` is s unless s is empty, and then the fallback |
| Want.LinkAndNotes | SupabaseBot/src/discord/ProcessWant.ts:12-14 | the link is the first space-separated piece of the arguments and has no space; the arguments are the link, a space and the rest; the notes are that rest, trimmed, and empty when there is no space |
| Want.SilentIff | SupabaseBot/src/discord/ProcessWant.ts:16-17 | the command says nothing at all exactly when its link does not parse |
| Want.ListedIff | SupabaseBot/src/discord/ProcessWant.ts:19-53 | an embed is shown exactly when the link parses, both lookups succeed, the user is known and the insert reports ADDED or DUPLICATE; a duplicate is yellow and "⚠️ Already Listed: ", an added item "✅ Added: " |
| Want.ListedFields | SupabaseBot/src/discord/ProcessWant.ts:45-50 | the embed's URL is rebuilt from the parsed link and its notes are the notes or "None" |
| Want.ListedUrlRoundTrip | SupabaseBot/src/discord/ProcessWant.ts:16-45 | the embed's URL parses to what the message's link parsed to |
| Want.ThrownErrorReply | SupabaseBot/src/discord/ProcessWant.ts:55-59 | an error thrown by the lookups or the insert is replied as "❌ Error: " and its message |
| Spotify.ParseSpotifyUrl | SupabaseBot/src/spotify/parseSpotifyUrl.ts:4-13 | the leftmost match of the pattern, or null; stated by `ParseNoneIff` and `ParseSomeIsLeftmostMatch` |
| Want.ProcessWant | SupabaseBot/src/discord/ProcessWant.ts:11-59 | the add-want handler; its outcomes are stated by `SilentIff`, `ListedIff`, `ListedFields` and `ThrownErrorReply` |
| Sheets.Cell | VinylBot/src/google/GetAlbumList.js:16 | `row[i]` is defined exactly for a position inside the row |
| Sheets.GetData | VinylBot/src/google/GetData.js:12-22 | no data or only a header gives no rows; otherwise one row per row after the header, without its first cell on the album sheet |
| Sheets.GetAlbumListSpec | VinylBot/src/google/GetAlbumList.js:4-45 | the list holds exactly the fetched rows the query keeps (the user's column for a user, artist or album for a search, all otherwise), each as often as fetched, sorted by normalized artist then album |
| Sheets.AlbumListOrder | VinylBot/src/google/GetAlbumList.js:28-42 | of two rows in the list, the earlier artist is not after the later one, and for equal artists the earlier album is not after the later one |
| Sheets.GetWantListSpec | VinylBot/src/google/GetWantList.js:23-45 | missing values throw; otherwise, after the header (an empty sheet has none), the kept rows (the user's column 3 or the artist's column 0) are sorted by their first cell, form a permutation of the kept rows, and rows with equal first cells keep sheet order |
| Sheets.GetRandomRowSpec | VinylBot/src/google/GetRandomRow.js:3-19 | null exactly when no row is left; otherwise the pick is one of the rows and, when the filter applies, its filtered cell contains the value ignoring case; without a filter null only for an empty sheet |
| Sheets.CheckIff | VinylBot/src/google/CheckAlbumExists.js:4-16 | the album exists exactly when one row's normalized artist and album both equal the normalized query |
| Sheets.RowOrderIrrelevant | VinylBot/src/google/CheckAlbumExists.js:10-14 | the order of the rows does not change the answer |
| Sheets.CheckEmptySheet | VinylBot/src/google/CheckAlbumExists.js:6-14 | a sheet with no data or only a header holds no album |
| Sheets.CheckIgnoresCase | VinylBot/src/google/CheckAlbumExists.js:7-8 | the query's letter case does not change the answer |
| Sheets.GetAlbumList | VinylBot/src/google/GetAlbumList.js:4-45 | the fetched album rows filtered by the query and sorted by artist, then album; stated by `GetAlbumListSpec` and `AlbumListOrder` |
| Sheets.GetWantList | VinylBot/src/google/GetWantList.js:23-45 | the want rows after the header, filtered and sorted by their first cell; stated by `GetWantListSpec` |
| Sheets.GetRandomRow | VinylBot/src/google/GetRandomRow.js:3-19 | the optionally filtered rows and the row at `floor(random * length)`, or null; stated by `GetRandomRowSpec` |
| Sheets.CheckIfAlbumExists | VinylBot/src/google/CheckAlbumExists.js:4-16 | `rows.some` over normalized artist and album equality; stated by `CheckIff` and `RowOrderIrrelevant` |
| Sorting.Insert | VinylBot/src/google/GetWantList.js:39-43 | inserting one element adds exactly that element and lengthens the list by one |
| Sorting.SortByPermutes | VinylBot/src/google/GetWantList.js:39-43 | `sort` rearranges the rows: its output is a permutation of its input |
| Sorting.SortBySorted | VinylBot/src/google/GetWantList.js:39-43 | under a consistent comparator the output is in order |
| Sorting.SortByStable | VinylBot/src/google/GetWantList.js:39-43 | rows the comparator treats as equal keep their input order, as the stable `Array.prototype.sort` does |
| Sorting.SortBySortedNoop | VinylBot/src/google/GetWantList.js:39-43 | an already ordered list is left as it is |
| Sorting.ThenByPreorder | VinylBot/src/google/GetAlbumList.js:28-42 | comparing by artist and then, on a tie, by album is itself a consistent comparator |
| Sorting.ThenByMeaning | VinylBot/src/google/GetAlbumList.js:28-42 | when the two-key comparator lets a come before b, a's artist is not after b's, and on equal artists a's album is not after b's |
| Sorting.SortBy | VinylBot/src/google/GetWantList.js:39-43 | `Array.prototype.sort` with a comparator, as a stable insertion sort; stated by `SortByPermutes`, `SortBySorted` and `SortByStable` |
| Tally.KeysOf | VinylBot/src/services/plays.api.ts:9 | one key per item, in item order, each the key of the item at the same position |
| Tally.BucketKeys | VinylBot/src/services/plays.api.ts:13 | one key per counter, in counter order |
| Tally.Distinct | VinylBot/src/services/plays.api.ts:13-20 | the keys without repetition: every key of the input appears, nothing else does, and no two entries are equal |
| Tally.CountKey | VinylBot/src/services/locations.api.ts:66 | the number of items with a given key is at most the number of items |
| Tally.Find | VinylBot/src/services/plays.api.ts:13 | a counter lookup: a found position holds that key, and nothing is found exactly when no counter has the key |
| Tally.CountByKey | VinylBot/src/services/plays.api.ts:8-21 | the counting loop (bump an existing counter, or open one at 1) ends with exactly the counters of the whole input |
| Tally.TallyKeys | VinylBot/src/services/plays.api.ts:13-20 | there is one counter per distinct key, in order of the key's first appearance |
| Tally.TallyDistinct | VinylBot/src/services/plays.api.ts:13-20 | no two counters share a key |
| Tally.TallyCounts | VinylBot/src/services/plays.api.ts:13-14 | each counter holds exactly the number of items with its key |
| Tally.TallyFirst | VinylBot/src/services/plays.api.ts:15-19 | each counter remembers the first item that had its key, which is where the source takes the entry's title from |
| Tally.TallySum | VinylBot/src/services/locations.api.ts:64-68 | the counters add up to the number of items |
| Tally.SumCountsSorted | VinylBot/src/services/locations.api.ts:72 | sorting the counters keeps their sum |
| Tally.DistinctKeysSorted | VinylBot/src/services/locations.api.ts:72 | sorting counters with distinct keys keeps the keys distinct |
| Tally.SortedMembers | VinylBot/src/services/locations.api.ts:72 | sorting keeps exactly the same counters |
| Services.OrElse | VinylBot/src/services/plays.api.ts:10-11 | `x \|\| fallback` gives the fallback exactly for a missing or empty value (or one equal to the fallback), and the value itself otherwise |
| Services.RankByCountOrdered | VinylBot/src/services/plays.api.ts:23 | sorting with `b.count - a.count` leaves the counts non-increasing |
| Services.RankByCountKeeps | VinylBot/src/services/vinyls.api.ts:154 | the ranking keeps the length, the counters, their sum and the distinctness of their keys |
| Services.ToTitleCounts | VinylBot/src/services/locations.api.ts:71 | one title/count record per counter, in order, with the counter's count |
| Services.SumToTitleCounts | VinylBot/src/services/locations.api.ts:70-71 | the records add up to the counters' sum |
| Services.AggregateAlbumCounts | VinylBot/src/services/plays.api.ts:5-24 | the loop over the play logs followed by the key order of `Object.values` and the ranking yields exactly the album-count records |
| Services.AlbumBucketsMembers | VinylBot/src/services/plays.api.ts:23 | the listed counters are exactly the loop's counters, as many of them |
| Services.AlbumCountsDistinct | VinylBot/src/services/plays.api.ts:13-20 | one entry per distinct `album_id`, no album listed twice |
| Services.AlbumCountsExact | VinylBot/src/services/plays.api.ts:8-19 | each entry counts exactly the logs of its album, and its title comes from the first log of that album |
| Services.AlbumCountsCover | VinylBot/src/services/plays.api.ts:13-20 | every logged album has an entry |
| Services.AlbumCountsRanked | VinylBot/src/services/plays.api.ts:21-23 | the counts are non-increasing and add up to the number of logs |
| Services.CountByName | VinylBot/src/services/locations.api.ts:63-73 | the reduce into an object of counters followed by the ranking yields exactly the name-count records |
| Services.NameCountsDistinct | VinylBot/src/services/locations.api.ts:64-71 | one entry per distinct name, no name listed twice |
| Services.NameCountsExact | VinylBot/src/services/locations.api.ts:65-66 | each entry counts exactly the items with its name |
| Services.NameCountsCover | VinylBot/src/services/locations.api.ts:64-71 | every item's name has an entry |
| Services.NameCountsRanked | VinylBot/src/services/locations.api.ts:70-72 | the counts are non-increasing and add up to the number of items |
| Services.ArtistVinylCounts | VinylBot/src/services/vinyls.api.ts:144-155 | a query error is passed on; otherwise the rows are counted per artist and ranked |
| Services.OwnedBy | VinylBot/src/services/vinyls.api.ts:165 | the rows kept are exactly those whose owners include the user |
| Services.ArtistVinylCountByUser | VinylBot/src/services/vinyls.api.ts:164-174 | a query error is passed on; otherwise the user's own rows are counted per artist and ranked |
| Services.OwnedCountAtMost | VinylBot/src/services/vinyls.api.ts:164-174 | a user's count for an artist never exceeds the household count for that artist |
| Services.GetPlayLogs | VinylBot/src/services/plays.api.ts:26-41 | a query error or missing data gives []; otherwise the logs keep their length and order, each gets the joined artist and album when the join is present and nothing otherwise |
| Services.GetPhysicalLocations | VinylBot/src/services/locations.api.ts:13-25 | a query error or missing data gives []; otherwise the rows as returned |
| Services.LocationsByPurchaseCount | VinylBot/src/services/locations.api.ts:89-97 | a query error is thrown; otherwise each location becomes {name, purchaseCount}, with its length and order kept |
| Services.VinylsByPlayCount | VinylBot/src/services/vinyls.api.ts:157-162 | a query error is thrown; otherwise each row becomes {"artist - album", playCount or 0}, with its length and order kept |
| Services.AddVinylStatus | VinylBot/src/services/vinyls.api.ts:99-111 | ADDED exactly when there is no error, DUPLICATE exactly for code 23505, ERROR for any other code |
| Tally.Tally | VinylBot/src/services/plays.api.ts:8-21 | the counters after the reduce, one per key in first-appearance order; stated by `TallyKeys`, `TallyCounts`, `TallyFirst` and `TallySum`, computed by `CountByKey` |
| Services.CountVinylsByLocation | VinylBot/src/services/locations.api.ts:63-73 | a vinyl without a location join throws the TypeError of reading `.name` of null, exactly when one exists; otherwise the ranked per-location counts |
| Seqs.Filter | VinylBot/src/google/GetRandomRow.js:7-11 | `filter` keeps no more elements than it was given, and only ones that pass |
| Seqs.FilterMultiset | VinylBot/src/google/GetRandomRow.js:7-11 | every passing element is kept as often as it occurs, and nothing else is kept |
| Seqs.FilterMembers | VinylBot/src/google/GetRandomRow.js:7-11 | an element is in the result exactly when it is in the input and passes |
| Seqs.AnyIff | VinylBot/src/discogs/CheckAlbumExistence.ts:28 | `some` holds exactly when one element passes |
| Seqs.AnyPermutation | VinylBot/src/google/CheckAlbumExists.js:10-14 | `some` does not depend on the order of the elements |
| Seqs.RandomIndex | VinylBot/src/discord/ProcessRandomAlbum.ts:46-48 | `Math.floor(Math.random() * length)` is a valid index of a non-empty list |
| Seqs.AddAllSpec | VinylBot/src/discord/ProcessPlay.ts:25-36 | adding to a JavaScript `Set` keeps it free of duplicates, its members are the old ones and the added ones, and the old members stay first in their order |
| Seqs.AddAllFresh | VinylBot/src/discord/ProcessPlay.ts:32 | adding distinct new members appends them in order |
| Text.Lower | VinylBot/src/index.ts:35 | `toLowerCase()` keeps the length and lowercases each character |
| Text.Trim | VinylBot/src/discord/ProcessList.ts:10 | `trim()` gives a string no longer than its input that neither starts nor ends with whitespace |
| Text.TrimEmptyIff | VinylBot/src/discord/stats/ProcessTop.ts:16 | trimming gives "" exactly for all-whitespace text |
| Text.JsSlice | VinylBot/src/discord/ProcessPlay.ts:40 | `slice` on in-range bounds is that sub-sequence, and never longer than its input |
| Text.Split | SupabaseBot/src/discord/ProcessWant.ts:13 | `split` on one character gives at least one piece and no piece contains the separator |
| Text.JoinSplit | SupabaseBot/src/discord/ProcessWant.ts:12-13 | joining the pieces of a split with the same separator gives back the text |
| Text.ArgsTextIsRest | SupabaseBot/src/discord/ProcessWant.ts:12 | `split(" ").slice(1).join(" ").trim()` is the text after the first space, trimmed |
| Text.Words | VinylBot/src/utils/parseCommand.ts:11 | `split(/\s+/).filter(Boolean)` gives only non-empty pieces without whitespace |
| Text.WordsEmptyIff | SupabaseBot/src/utils/parseCommand.ts:11-12 | there are no words exactly when the text is all whitespace |
| Text.NatToString | SupabaseBot/src/discord/ProcessPlay.ts:74 | an option's value `index.toString()` is a non-empty digit string with no leading zero |
| Text.ParseIntOfNatToString | SupabaseBot/src/discord/ProcessPlay.ts:100 | `parseInt` reads back the index written by `toString()` |

## Left out

- The chat client itself is not modelled. That covers `reply`, `update`, `followUp`, `edit`, `suppressEmbeds` and the embed, button and menu builders. A view is a record: the title, the text, the colour, the page shown and which buttons are enabled.
- Collector timers (`time: 60000`, five minutes) belong to the client. The end of a session is an event carrying its reason, and `max: 1` is the collected count.
- Whether a stranger's press counts toward `max: 1` is the client's business. `Choice.Picker` takes it as the constructor parameter `strangerCounts`.
- Events are strictly sequential. No two handlers interleave across `await`s.
- Database queries (`ilike`, `contains`, `or`, `rpc`, `maybeSingle`, `insert`) are inputs: the `data` and `error` the client returns.
  - The one filter the post-processing depends on, `.contains('owners', [id])`, is written out as `Services.OwnedBy`.
  - The thin wrappers in `vinyls.api.ts`, `locations.api.ts`, `users.api.ts`, `wantlist.api.ts` and `actions/processNewPlay.ts` are database calls and are not modelled. Examples are `getVinyls`, `getVinylsByQuery`, `getVinylID`, `addVinyls`, `deleteVinyl`, `updateVinyl`, `addLocation`, `findLocation` and `getLocationsByPurchaseCountForID`'s query.
- The Google Sheets client, `sheetUtils.ts`, `VinylBot/src/sheets.js`, `VinylBot/src/index.js`, `ProcessAdd.js`, VinylBot's `ProcessWant.js`, `populateAlbumArt.ts` and `populateDatabase.ts` are I/O only. Only what is done with fetched rows is modelled.
- The Spotify clients (`spotify.js`, `spotify.api.ts`, `getSpotifyData.ts`) are network calls, including the token-expiry arithmetic on `Date.now`. What they return is an input.
- `Math.random` is a real in [0, 1), or a sequence of them. The resample loops end only for draw sequences that do hit another item: `Reroll.Session.OnAction` requires such a sequence when the pool holds another album or store. Randomness itself, and "almost surely ends", are not modelled.
- `localeCompare` with sensitivity "base" is an abstract comparator `le`; lemmas that need it require it to be a total preorder.
- Unicode lowercasing is ASCII lowercasing, and Unicode whitespace beyond the `\s` set written in `Text.IsSpace` is not modelled. A character is one code point, so lengths such as the 25-option or 100-character limits count code points, not UTF-16 units.
- `parseInt`, `parseFloat` and `new Date` in the migration scripts stay abstract: prices and counts go through a parser parameter, and dates are kept as text. Floating-point arithmetic is not modelled.
- `discordToDropdown` and `userParser` read a JSON file from disk. The dropdown mapping (`getDropdownValue`) and `isInList` are parameters.
- `escapeColons`, VinylBot's `resolveUserMap.js`, VinylBot's `parseSpotifyUrl.js` and `getUserByName` are parameters. Their source is not part of this model.
- VinylBot's `normalizeString.js` is not part of this model either; wherever VinylBot normalises, the SupabaseBot `normalizeString` is used.
- `ListCommands`: VinylBot's `src/discord/ProcessList.ts` calls `parseCommand` with a string where a message is expected. Its handler takes the parse result as an input.
- The handlers with no decision logic of their own are not modelled: `ProcessHelp.ts`, `ProcessCheckExists.ts`, VinylBot's `src/discord/ProcessTop.ts`, `ProcessPlayCount.ts`, both `ProcessTopLocation.ts` and the interface files.
- VinylBot's `src/discord/ProcessPlay.ts` registers no end handler, so its session has none in the model either.
- `Choice`: the date of a logged play comes from the clock and is not modelled. The migrations keep a date as the cell text that `new Date` would read.
- `Migrations.LikedByArray`: for a token whose user-map entry is an empty array, the source pushes `undefined`. The model skips such a token, because a list of ids has no `undefined`.
- `Services.CountByName`, `Services.NameCountsDistinct` and the rest of the name counts: `Object.entries` lists integer-like keys first, in ascending order, and then the other keys in insertion order. The model keeps first-appearance order throughout. This only changes the order among entries with equal counts, since the ranking sort is stable.
- `Services.CountByName`: the counters are a map with no inherited keys. The source counts into a plain `{}` with `acc[k] = (acc[k] || 0) + 1`, so a name that is an `Object.prototype` property behaves differently there. For `constructor`, `toString` or `valueOf` the count becomes a string (the function's text followed by "1"), and the `b.count - a.count` comparator then gives NaN. A `__proto__` name is dropped, because that setter ignores a number. The model counts these names like any other.
- `Services.NameCounts`, `Services.NameCountsDistinct`, `Services.NameCountsExact`, `Services.NameCountsCover` and `Services.NameCountsRanked` hold only for names that are not `Object.prototype` properties, for the same reason.
- `Services.CountVinylsByLocation`, `Services.ArtistVinylCounts` and `Services.ArtistVinylCountByUser` count through `NameCounts`, so the same applies to location and artist names such as `constructor` or `__proto__`.
- `Services.AggregateAlbumCounts`: album ids are the integer keys of a record, so `Object.values` lists them in ascending id order before the ranking. That part is modelled (`KeyAscending`).
- `ListCommands.Embedded`: a page size of 0 is not modelled, so it requires a positive size; every handler leaves the default of 10.
- The `!vinyls` and `!list` halves of the emptiness guards are not modelled as separate cases: a list is a value, never `null`, so an empty list is the only way those guards fire.
- `GetWantList.test.js`, `ProcessInfo.test.ts`, `ProcessRandom.test.js` and `sheets.test.js` target other versions of those files.

## Findings

| source | as written | input that shows it | evidently intended | confidence | as-written member | corrected member |
|---|---|---|---|---|---|---|
| VinylBot/src/discord/ProcessRandomAlbum.ts:126-133 (also SupabaseBot/src/discord/ProcessRandomAlbum.ts:123-130 and SupabaseBot/src/discord/ProcessRandomStore.ts:57-67) | a Reroll press on a pool of more than one item draws again until the album (or store name) differs from the current one; the guard is only `length > 1` | a collection holding two pressings of "Abbey Road" (two rows, same album): no draw ever differs, so the handler never returns | reroll only when another album (store) exists, and keep the pick otherwise | not executed | Reroll.SameAlbumNeverExits, Reroll.TwoPressings | Reroll.PickOther, Reroll.PickOtherSpec (the guard `Reroll.Session.OnAction` uses) |
