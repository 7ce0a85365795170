# league-skins: a Dafny model of the catalog, the live-client normaliser and the overlay session

league-skins is a desktop tool that applies custom League of Legends skins through
the cslol-manager command-line tools. This project models three parts of its main
process and proves properties about them:

- **The catalog** (`src/main/metadata.ts`), in `metadata.dfy`. It covers the flat
  skin-identifier decode `getChampSkinIdFromSkinId`, which zero-pads the id to six
  digits and cuts it after the third. It also covers the champion key taken from a
  splash-art path by `/Characters\/([^/]+)/`, with its `KhaZix` respelling. Last come
  the two list builders `listChampions` and `listSkins`, each written as a method
  with the source's loop. `listChampions` keeps the first champion per id in an
  insertion-ordered map. `listSkins` pushes one skin per record whose champion is
  known.
- **The live-client side** (`src/main/league.ts`), in `league.dfy`. It covers the
  lockfile parsing of `getAuthDetails` and the choice `fetchLeague` makes between a
  local 404 and a request. It also covers the rewrite `getSkins` applies to the
  champion-select skin carousel: the ids made local, the shared champion name, the
  rebuilt loading URL and the rewritten child skins.
- **The overlay session** (`src/main/skins.ts`), in `skins.dfy`. It covers `setSkin`
  and the module-level `runningProcess` handle. `OverlaySession` is a class whose
  fields are the handle, the trace of effects performed so far and the next handle
  number. A call is cut at its `await`s into segments, each appending abstract
  effects: `Start` begins removing the temp directory, and `Settle` resumes a
  suspended call when the step it waits for settles (re-create the directory; kill
  the held overlay and start `import`; start `mkoverlay`; spawn `runoverlay` and
  hold it). Segments of different calls may interleave, as they can when the
  renderer fires `setSkin` again before the previous call has finished.
  `SetSkin` is one call awaited to completion with no other call in between. For
  such calls the trace supports the ordering lemmas and the invariant that at most
  one overlay is live. Under any interleaving, only a weaker invariant holds: the
  held overlay is live and nothing is killed twice. `OverlappingCallsOrphanOverlay`
  gives two overlapping calls that leave an overlay running with no handle.

Three support modules hold the JavaScript primitives the core relies on:

- `decimal.dfy`: `String(n)`, `Number(digits)` and `padStart`;
- `strings.dfy`: `replace` with a string pattern (first occurrence only), `split`,
  an index that may be `undefined`, and the leftmost match of `/\d+/`;
- `wrappers.dfy`: an `Option` datatype.

Inputs the source obtains by I/O are parameters:

- the feed file, as `Feed` (`None` when it is missing or not JSON);
- the lockfile text, `None` when it cannot be read;
- the network reply to the carousel request;
- the configured League path and the user-data directory;
- whether each awaited step of `setSkin` succeeds.

Ids are natural numbers.

## Model

| member | source | states |
|---|---|---|
| Decimal.Value | src/main/metadata.ts:72-73 | `Number` of a digit string; no contract of its own; characterised by Decimal.ValueShow, Decimal.ShowValue and Decimal.PadStartValue |
| Decimal.Show | src/main/metadata.ts:70 | `String(n)`: a non-empty digit string; characterised by Decimal.ValueShow and Decimal.ShowValue |
| Decimal.ValueShow | src/main/metadata.ts:70-74 | `Number(String(n)) == n`; `String(n)` has no leading zero unless it is "0" |
| Decimal.ShowValue | src/main/league.ts:90 | a digit string with no leading zero is exactly `String` of the number it denotes |
| Decimal.PadStart | src/main/metadata.ts:70 | `padStart(width, fill)`: length is max(width, length), the original text is the suffix, every added position is `fill` |
| Decimal.PadStartValue | src/main/metadata.ts:70-74 | zero-padding a digit string leaves its numeric value unchanged |
| Strings.ReplaceFirst | src/main/league.ts:90 | `replace` with a string pattern changes only the leftmost occurrence and leaves the text unchanged when there is none |
| Strings.Split | src/main/league.ts:45 | `split(sep)` gives one more part than separators, no part contains the separator, and joining the parts gives the text back |
| Strings.SplitJoin | src/main/league.ts:45 | splitting the join of separator-free parts gives the parts back |
| Strings.At | src/main/league.ts:45 | indexing past the end of an array is `undefined` |
| Strings.FirstDigitRun | src/main/league.ts:92 | `match(/\d+/)` is `null` exactly when there is no digit; otherwise it is the maximal digit run at the leftmost digit |
| Metadata.DecodeSkinId | src/main/metadata.ts:69-75 | `getChampSkinIdFromSkinId`; no contract of its own; characterised by Metadata.DecodeIsDivMod, Metadata.DecodeSixDigits, Metadata.DecodeEncode and Metadata.DecodeLongId |
| Metadata.ChampionKeyFromSplashArt | src/main/metadata.ts:45-52 | `getChampionKeyFromSplashArt`; no contract of its own; characterised by Metadata.SplashKeyIsLeftmostSegment and Metadata.KeyIsClean |
| Metadata.FixKeySpelling | src/main/metadata.ts:51 | the `KhaZix` respelling; no contract of its own; characterised by Metadata.SplashKeyIsLeftmostSegment and Metadata.KeyIsClean |
| Metadata.LoadingImage | src/main/metadata.ts:119 | the loading-image URL of a record; no contract of its own; characterised by Metadata.LoadingImageEnds and Metadata.SameFeedSkinFields |
| Metadata.ChampionFrom | src/main/metadata.ts:89-93 | the champion built from a record; no contract of its own; characterised by Metadata.ChampionsOfFirstWins |
| Metadata.FirstPerId | src/main/metadata.ts:83-96 | the first-wins walk with its insertion-ordered map; no contract of its own; characterised by Metadata.FirstPerIdFirstWins |
| Metadata.ChampionsOf | src/main/metadata.ts:81-97 | `listChampions` over the records; no contract of its own; characterised by Metadata.ChampionsOfFirstWins, Metadata.ChampionIdsDistinct and Metadata.ListChampions |
| Metadata.SkinFrom | src/main/metadata.ts:110-126 | the skin pushed for a record whose champion is found; no contract of its own; characterised by Metadata.SameFeedSkinFields and Metadata.ChromasOf |
| Metadata.KnownOnly | src/main/metadata.ts:107-129 | the skip-unknown walk that pushes onto `skins`; no contract of its own; characterised by Metadata.KnownOnlyBound, Metadata.KnownOnlyAt and Metadata.KnownOnlyFilters |
| Metadata.SkinsOf | src/main/metadata.ts:106-129 | `listSkins` over the records and the champion index; no contract of its own; characterised by Metadata.SkinsOfKeepsAll, Metadata.SkinsOfDropsUnknown, Metadata.SkinsOfBound and Metadata.ListSkins |
| Metadata.DecodeIsDivMod | src/main/metadata.ts:69-75 | the decode is division and remainder by 10^(w-3), where w is the padded width |
| Metadata.DecodeSixDigits | src/main/metadata.ts:69-75 | an id below 1 000 000 decodes to (id / 1000, id % 1000) |
| Metadata.DecodeEncode | src/main/metadata.ts:69-75 | round trip: decoding c*1000+s with c, s < 1000 gives (c, s) |
| Metadata.DecodeLongId | src/main/metadata.ts:70-74 | an id of seven digits or more is not padded: the first three digits, then the rest |
| Metadata.SplashKeyIsLeftmostSegment | src/main/metadata.ts:45-52 | the key is `None` exactly when `Characters/` followed by a non-`/` occurs nowhere; otherwise it is the respelled maximal `/`-free segment of the leftmost match |
| Metadata.KeyIsClean | src/main/metadata.ts:45-52 | a key is never `KhaZix`, never empty and never contains `/` |
| Metadata.LoadSkinData | src/main/metadata.ts:54-62 | a missing or unparsable file gives no records; otherwise the records as read |
| Metadata.ChampionsOfFirstWins | src/main/metadata.ts:81-97 | one champion per decoded id of the records, built from the first record of that id, in order of first occurrence |
| Metadata.ChampionIdsDistinct | src/main/metadata.ts:86-93 | no two champions share an id |
| Metadata.FirstPerIdFirstWins | src/main/metadata.ts:85-94 | the first-wins walk over an insertion-ordered map covers every id and builds each entry from its first record, in first-occurrence order |
| Metadata.ListChampions | src/main/metadata.ts:81-97 | the loop over the records with its map yields the first-wins champion list; a missing feed gives [] |
| Metadata.IndexById | src/main/metadata.ts:105 | `new Map(champions.map(...))` has exactly the champions' ids as keys, each mapped to a champion with that id |
| Metadata.IndexByIdDistinct | src/main/metadata.ts:105 | with distinct ids each champion is found under its own id |
| Metadata.ChromasOf | src/main/metadata.ts:120-125 | an absent chroma list gives []; otherwise chromas map one to one with decoded local id, parent champion id and name, and colours unchanged |
| Metadata.KnownOnlyBound | src/main/metadata.ts:109-112 | the skip-unknown walk never yields more elements than records, and yields none when no id is known |
| Metadata.KnownOnlyAt | src/main/metadata.ts:109-127 | when every id is known the walk keeps every record, in order, each element built from its own record |
| Metadata.SkinsOfKeepsAll | src/main/metadata.ts:109-127 | when every record's champion is known, one skin per record, in record order, built from that record |
| Metadata.SkinsOfBound | src/main/metadata.ts:110-112 | never more skins than records, and none when no record's champion is known |
| Metadata.KnownRecords | src/main/metadata.ts:110-112 | the records whose champion is known, no more: every element is known, and a record is in it exactly when it is in the input and known |
| Metadata.KnownOnlyFilters | src/main/metadata.ts:109-127 | the skip-unknown walk over the records is the same walk over the known records only |
| Metadata.SkinsOfDropsUnknown | src/main/metadata.ts:109-127 | for any mix of records: one skin per known record, in record order, each built from its own record; every skin's champion is in the map |
| Metadata.ListSkins | src/main/metadata.ts:103-130 | the loop that pushes onto `skins` yields the skip-unknown list over the champions of `listChampions` |
| Metadata.SameFeedKeepsEverySkin | src/main/metadata.ts:103-130 | when both reads see the same file, no record is dropped; skin j is built from record j and the champion of the first record of its id |
| Metadata.SameFeedSkinFields | src/main/metadata.ts:113-126 | the fields of skin j: the decoded ids, the first record's name as champion name, the record's name, an image ending `_<local id>.jpg`, and the decoded chromas |
| Metadata.LoadingImageEnds | src/main/metadata.ts:118 | every loading image URL ends `_<number>.jpg` |
| League.GetAuthDetails | src/main/league.ts:41-49 | credentials exist exactly when the lockfile could be read, and the user name is always `riot` |
| League.LockfileFields | src/main/league.ts:44-46 | a lockfile line of at least five fields gives exactly fields 2, 3 and 4 as port, password and protocol |
| League.LockfileShortLine | src/main/league.ts:45 | a line with fewer than five fields leaves the protocol `undefined` |
| League.FetchLeague | src/main/league.ts:58-71 | without credentials the answer is local with status 404, and otherwise a request is sent |
| League.LockfileToRequest | src/main/league.ts:59-70 | a well-formed lockfile leads to a request to `<protocol>://127.0.0.1:<port><path>` with credentials `riot:<password>` |
| League.LocalIdAgreesWithDecode | src/main/league.ts:90 | for champion 1..999 and local id 0..999, removing the champion's digits from the flat id gives the same local id as the metadata decode |
| League.LocalIdWithoutChampionDigits | src/main/league.ts:90 | an id whose text does not contain the champion id's text is kept as it is |
| League.LocalIdStripsChampion | src/main/league.ts:90 | for every champion id from 1 up (four digits and more included) and local id 0..999, removing the champion's text from the flat id gives the local id |
| League.SplashNumberIsFirstRun | src/main/league.ts:92 | the number in the URL is 0 without digits, and otherwise the value of the leftmost maximal digit run |
| League.LoadingURLShape | src/main/league.ts:86-92 | the URL is the base plus the sixth `/`-segment of the first splash path (`undefined` when missing), then `_<number>.jpg` |
| League.GetSkinsEmptyExactly | src/main/league.ts:77-101 | the result is [] exactly when there is no lockfile, the request fails, the status is not ok, the body is unreadable or the carousel is empty |
| League.NoLockfileNoSkins | src/main/league.ts:59-61 | without a lockfile the local 404 is used and the result is [] whatever the network would answer |
| League.GetSkinsMapsCarousel | src/main/league.ts:85-97 | same length and order; untouched fields kept; the first skin's name as champion name; the id made local; the URL rebuilt; the child skins rewritten one for one |
| League.ChildSkinsRewritten | src/main/league.ts:93-96 | a child skin keeps every field except its id, which is made local with its own champion id |
| League.OneChampionName | src/main/league.ts:85-91 | every returned skin carries the same champion name |
| League.ServedIdsAgreeWithCatalog | src/main/league.ts:88-90 | for well-formed flat ids the served skins' ids equal the metadata decode's local ids |
| League.LocalId | src/main/league.ts:90 | the id with the champion id's text removed once; no contract of its own; characterised by League.LocalIdStripsChampion, League.LocalIdAgreesWithDecode and League.LocalIdWithoutChampionDigits |
| League.SplashNumber | src/main/league.ts:92 | `Number(splashPath.match(/\d+/))`; no contract of its own; characterised by League.SplashNumberIsFirstRun |
| League.LoadingURL | src/main/league.ts:86-92 | the rebuilt loading URL; no contract of its own; characterised by League.LoadingURLShape |
| League.PlainName | src/main/league.ts:86 | `splashPath.split('/')[5]`; no contract of its own; characterised by League.LoadingURLShape |
| League.NormalizeChild | src/main/league.ts:93-96 | the rewrite of one child skin; no contract of its own; characterised by League.ChildSkinsRewritten |
| League.NormalizeSkin | src/main/league.ts:88-97 | the rewrite of one carousel skin; no contract of its own; characterised by League.GetSkinsMapsCarousel |
| League.NormalizeCarousel | src/main/league.ts:85-97 | the rewrite of a non-empty carousel; no contract of its own; characterised by League.GetSkinsMapsCarousel and League.OneChampionName |
| League.GetSkins | src/main/league.ts:77-101 | `getSkins`; no contract of its own; characterised by League.GetSkinsEmptyExactly, League.NoLockfileNoSkins, League.GetSkinsMapsCarousel, League.OneChampionName and League.ServedIdsAgreeWithCatalog |
| League.CarouselReply | src/main/league.ts:59-79 | the response `getSkins` reads: the local 404 without credentials, otherwise the network reply; no contract of its own; characterised by League.NoLockfileNoSkins |
| Skins.SetSkinEffects | src/main/skins.ts:30-58 | the effects of one `setSkin` call; no contract of its own; characterised by Skins.SetSkinOrder, Skins.SetSkinSteps, Skins.SetSkinPaths, Skins.SetSkinKeepsInvariant and Skins.SerialIsSetSkin |
| Skins.HeldAfter | src/main/skins.ts:39-57 | `runningProcess` after one call; no contract of its own; characterised by Skins.SetSkinHandle |
| Skins.Started | src/main/skins.ts:34-36 | the first segment of a call; no contract of its own; characterised by Skins.StartedKeepsHandles, Skins.SerialIsSetSkin and Skins.OverlaySession.Start |
| Skins.Settled | src/main/skins.ts:36-57 | the segment after each `await`; no contract of its own; characterised by Skins.SettledKeepsHandles, Skins.SerialIsSetSkin and Skins.OverlaySession.Settle |
| Skins.Run | src/main/skins.ts:30-58 | calls whose segments interleave in a given order; no contract of its own; characterised by Skins.RunKeepsHandles and Skins.OverlappingCallsOrphanOverlay |
| Skins.Serial | src/main/skins.ts:34-57 | one call's segments run back to back; no contract of its own; characterised by Skins.SerialIsSetSkin |
| Skins.SkinPath | src/main/skins.ts:33 | the skin archive path; no contract of its own; characterised by Skins.SetSkinPaths |
| Skins.GamePath | src/main/skins.ts:34 | the game directory; no contract of its own; characterised by Skins.SetSkinPaths |
| Skins.ImportCommand | src/main/skins.ts:46-48 | the `import` command; no contract of its own; characterised by Skins.SetSkinPaths and Skins.SlotMatchesMods |
| Skins.MkOverlayCommand | src/main/skins.ts:50-52 | the `mkoverlay` command; no contract of its own; characterised by Skins.SetSkinPaths and Skins.SlotMatchesMods |
| Skins.RunOverlayCommand | src/main/skins.ts:54-57 | the `runoverlay` command; no contract of its own; characterised by Skins.SetSkinPaths |
| Skins.SetSkinOrder | src/main/skins.ts:36-57 | effects come strictly in the order remove, ensure, kill, import, mkoverlay, spawn, so the temp directory is reset before any kill or tool run and both execs finish before the spawn |
| Skins.SetSkinSteps | src/main/skins.ts:36-57 | past the directory steps the held handle, and only it, is killed and `import` runs; a full success runs `mkoverlay` and ends with the spawn; a failure spawns nothing |
| Skins.SetSkinHandle | src/main/skins.ts:39-57 | after success the handle is exactly the one spawned; when `import` or `mkoverlay` fails none is held; when the directory steps fail it is unchanged |
| Skins.SetSkinPaths | src/main/skins.ts:31-55 | the archive is `<skins>\<championId>\<id>.fantome`; every tool run is `mod-tools.exe` under the cslol-manager location and gets `<league path>\Game`; `mkoverlay` builds and `runoverlay` starts the same overlay; directory steps touch only the temp directory |
| Skins.SlotMatchesMods | src/main/skins.ts:47-51 | the slot `import` stages into is the directory and mod name `mkoverlay` packages |
| Skins.QuietStep | src/main/skins.ts:36-51 | directory steps and awaited execs keep the session invariant |
| Skins.KillStep | src/main/skins.ts:39-42 | killing the held handle and forgetting it keeps the session invariant |
| Skins.SpawnStep | src/main/skins.ts:54-57 | spawning under a fresh handle while none is held keeps the session invariant |
| Skins.SetSkinKeepsInvariant | src/main/skins.ts:30-58 | every call that overlaps no other, whatever fails, keeps the invariant: the held handle is the only live one and no handle is killed twice |
| Skins.AtMostOneLiveOverlay | src/main/skins.ts:23 | under the invariant at most one overlay is live, and it is the held one |
| Skins.InvariantIsSound | src/main/skins.ts:23 | the one-live invariant implies the interleaving invariant, so a session can switch from whole calls to segments |
| Skins.SerialIsSetSkin | src/main/skins.ts:34-57 | the segments of one call run back to back append exactly `SetSkinEffects` and leave the handle and next handle `HeldAfter` and the outcomes give |
| Skins.QuietKeepsHandles | src/main/skins.ts:36-52 | directory steps and starting an exec keep the interleaving invariant |
| Skins.KillThenExecKeepsHandles | src/main/skins.ts:39-48 | killing and forgetting whatever is held, then starting `import`, keeps the interleaving invariant |
| Skins.SpawnKeepsHandles | src/main/skins.ts:54-57 | spawning under a fresh handle and holding it keeps the interleaving invariant, even when another handle was held |
| Skins.StartedKeepsHandles | src/main/skins.ts:34-36 | the first segment of a call keeps the interleaving invariant |
| Skins.SettledKeepsHandles | src/main/skins.ts:36-57 | every later segment of every call, whatever the outcome, keeps the interleaving invariant |
| Skins.RunKeepsHandles | src/main/skins.ts:23-58 | under every interleaving of calls the held overlay is live, every spawned handle is below the next one, and no handle is killed twice or without having been spawned |
| Skins.OverlapFirstHalf | src/main/skins.ts:34-48 | call A reaches its `import` await with nothing held, and call B then reaches its `ensureDir` await |
| Skins.OverlapSecondHalf | src/main/skins.ts:39-57 | B passes the kill with nothing held and starts `import`; then A and B finish in turn, each spawning and assigning `runningProcess`, B's handle replacing A's |
| Skins.OverlapTraceLive | src/main/skins.ts:39-57 | in that trace both spawned overlays are live: nothing kills A's |
| Skins.OverlappingCallsOrphanOverlay | src/main/skins.ts:30-58 | two overlapping calls end with B's handle held while A's overlay is also live, so the one-live-overlay invariant fails |
| Skins.OverlaySession.constructor | src/main/skins.ts:23 | a session starts with no handle and an empty trace, satisfying both invariants |
| Skins.OverlaySession.Start | src/main/skins.ts:34-36 | a call begins by removing the temp directory and is left waiting for that removal; the handles are unchanged and the interleaving invariant is kept |
| Skins.OverlaySession.Settle | src/main/skins.ts:36-57 | a settled step resumes its call up to the next `await`, with the effects and handle changes of that segment, or ends it on failure or after the spawn; the interleaving invariant is kept |
| Skins.OverlaySession.SetSkin | src/main/skins.ts:30-58 | a call awaited to completion with no other call in between appends exactly its effects and sets the handle and next handle as the outcomes dictate; it fails exactly when a step fails and keeps the invariant |

## Left out

- src/main/download.ts is not part of this model. It downloads and unzips the tools and the skin archives, which is network and file-system plumbing.
- src/main/config.ts is not part of this model. `getLeaguePath` becomes the `leaguePath` parameter, so a failure to read the configuration is not modelled.
- src/main/constants.ts: the locations are written out as functions of the user-data directory, which is a parameter.
- The Electron bootstrap and IPC (src/main/index.ts, src/main/api.ts, src/preload) and the renderer are not modelled.
- `fetchLeague` does not model the HTTPS transport, the TLS agent or the base64 encoding of the Basic header. The request carries the un-encoded `user:password` text.
- `console.log` in `setSkin` is not modelled.
- The command lines of `setSkin` are modelled as structured commands: the executable, the sub-command and its arguments. The text handed to the shell, with its quoting, is not modelled.
- Skins.OverlaySession.SetSkin: covers a call that overlaps no other. Overlapping calls are modelled by `Start` and `Settle`, and `OverlappingCallsOrphanOverlay` shows that they can leave an overlay running with no handle.
- Skins.SetSkinKeepsInvariant: the one-live-overlay invariant is proved only for calls that overlap no other, since overlapping calls break it. Under any interleaving, `RunKeepsHandles` proves the weaker invariant.
- The first `await` of `setSkin` (on `getLeaguePath`) comes before any effect. A call is therefore modelled as starting once the League path is known.
- `setSkin` models processes and the file system as abstract effects. Signal delivery, exit codes and shell quoting are not modelled, nor is the overlay process ending on its own. A spawn never fails, as `spawn` does not throw.
- Ids are natural numbers. Negative, fractional and non-safe-integer JSON ids, and floating-point precision, are not modelled.
- `getSkins` models the body as either the carousel array or unreadable. A body of another JSON shape, such as a skin without `childSkins` (which makes the source throw and return []), is not modelled.
- `loadSkinData`: the order in which `Object.values` lists the feed's records is taken as the given sequence.
- Metadata.ListSkins: the feed is read twice in the source, once directly and once inside `listChampions`. The model takes the two reads as two parameters. "No record is dropped" is proved for the case where both reads see the same file.
