# League of Legends statistics: a verified model of the core

This project models, in Dafny, the logic of a League of Legends statistics site: a
React front end that looks up a player by Riot id ("name#tag" and a region), shows the
player's ranked entries and recent matches, and expands a match into its participants;
and a FastAPI back end that validates the requests and forwards them to the Riot Games
API.

Each module follows one source file:

- the front end's helpers: queue names and match types (`GameConstants`), Data Dragon
  versions and asset URLs (`GameVersion`, `DataDragon`, `ChampionImage`, `ItemImage`,
  `ChampionAvatar`, `ItemsDisplay`), Arena sub-teams (`ArenaTeams`), durations and ages
  (`TimeUtils`), the name and tag rules (`Validation`);
- the front end's data layer: the endpoint table (`ConfigApi`), the API client
  (`ApiClient`), the query hooks (`Queries`), the shared reducer and its hook (`AppState`,
  `PlayerDataHook`);
- the pages and components: the summoner page (`SummonerPage`), the header's quick search
  (`Layout`), the search form (`SearchForm`), the player summary (`PlayerInfo`), the match
  card and its parts (`MatchCard`, `KdaStats`, `GameModeStats`, `PlayersList`,
  `ExpandedMatchDetails`), with the Arena grouping by placement that two of them share
  (`PlacementGrouping`);
- the back end: the exceptions (`RiotExceptions`), the Riot API client (`RiotClient`),
  the service guards (`Services`) and the routes (`Routes`).

`Wrappers` (Option and Result), `Strings` (JavaScript and Python string built-ins) and
`MatchTypes` (the match and player records) are shared.

Pure code is modelled as functions and lemmas. Code that changes state step by step is
imperative Dafny:

- `SummonerPage.PageState` (the page's three state variables);
- `PlayerDataHook.PlayerStore` (the reducer state behind the context);
- `RiotClient.RiotApiClient` (the time of the last request);
- the `forEach` that groups Arena players into a map (`PlacementGrouping.CollectGroups`).

The network, the clock and React's rendering are parameters or are left out:

- a request's outcome is an argument (`FetchOutcome`, `Outcome`);
- the time the rate limiter reads is an argument;
- a view is a datatype saying which branch is shown and with what data.

A few behaviours of the code are worth knowing before reading the model:

- Queues 1700 and 1710 both set the match card's Arena flag. The player list and the
  expanded view group players by placement only for queue 1700.
- The "latest version" helper returns the fixed "15.13.1"; it never reads the version
  list.
- "Load more" only advances the offset by the page size. Nothing removes a match id
  that a later page repeats.
- The rankings and match history routes put a list into an envelope whose `data` field
  is declared a dictionary, so a non-empty list is answered with 500 (see Findings).

## Model

| member | source | states |
|---|---|---|
| Strings.ToLower | frontend/src/utils/gameConstants.ts:171 | ASCII `toLowerCase`: same length, each character lowered |
| Strings.ToUpper | frontend/src/pages/SummonerPage.tsx:33 | ASCII `toUpperCase` / Python `upper()`: same length, each character raised |
| Strings.ToUpperIdempotent | frontend/src/pages/SummonerPage.tsx:33 | upper-casing twice is upper-casing once |
| Strings.IndexOf | frontend/src/components/layout/Layout.tsx:18 | -1 exactly when the character is absent, otherwise its first position |
| Strings.LastIndexOf | frontend/src/pages/SummonerPage.tsx:25 | -1 exactly when the character is absent, otherwise its last position |
| Strings.LastIndexOfJoin | frontend/src/pages/SummonerPage.tsx:25-31 | in a + "-" + b with no dash in b, the last dash is the one between them |
| Strings.Split | frontend/src/components/layout/Layout.tsx:18 | `split` gives at least one part, no part holds the separator, and joining the parts with it gives back the input |
| Strings.SplitFirst | frontend/src/components/layout/Layout.tsx:19 | the first part is everything before the first separator |
| Strings.SplitWithoutSeparator | frontend/src/components/layout/Layout.tsx:20 | a string without the separator splits into itself alone |
| Strings.SplitJoin | frontend/src/components/layout/Layout.tsx:18 | splitting undoes joining parts that do not hold the separator |
| Strings.TrimStart | frontend/src/components/SearchForm.tsx:72 | removes exactly the leading white space |
| Strings.TrimEnd | frontend/src/components/SearchForm.tsx:72 | removes exactly the trailing white space |
| Strings.Trim | frontend/src/components/SearchForm.tsx:72 | `trim` / `strip`: a contiguous part of the input with no white space at either end, empty exactly for an all-blank input |
| Strings.TrimBlank | frontend/src/components/SearchForm.tsx:72 | both trimming steps leave nothing exactly for an all-blank input |
| Strings.TrimLeadingBlank | frontend/src/components/SearchForm.tsx:72 | a leading white-space character does not change the trim |
| Strings.TrimUnchanged | frontend/src/components/SearchForm.tsx:59 | text without white space at either end is its own trim |
| Strings.OccurrenceChars | frontend/src/utils/gameConstants.ts:171-176 | each character of an occurring string occurs in the text |
| Strings.NatToString | frontend/src/hooks/useItemImageUrl.ts:26 | the decimal digits of a number, with no leading zero except for 0 itself |
| Strings.ParseNatToString | frontend/src/hooks/useItemImageUrl.ts:26 | reading the digits back gives the number |
| Strings.NatToStringInjective | frontend/src/hooks/useItemImageUrl.ts:26 | different numbers have different decimal texts |
| Strings.IntToString | frontend/src/components/match/GameModeStats.tsx:36 | a leading "-" exactly for a negative integer, digits only otherwise |
| Strings.IntToStringInjective | frontend/src/components/match/GameModeStats.tsx:36 | different integers have different texts |
| Strings.FirstSeparatorDetermined | backend/app/exceptions.py:15 | a + sep + b with no sep in a determines a and b |
| KdaStats.AtLeastByIntegers | frontend/src/components/match/KDAStats.tsx:25-27 | for d > 0 and r·d = n, r ≥ m exactly when n ≥ m·d |
| GameConstants.QueueMapping | frontend/src/utils/gameConstants.ts:2-99 | the queue table: each listed queue id with its name, description, short name and ranked/normal flags; no entry for an unlisted id (a table, no contract; GetQueueInfo and the per-queue lemmas state its entries) |
| GameConstants.GetQueueInfo | frontend/src/utils/gameConstants.ts:135-142 | a listed queue id gives its table entry; any other id gives "Unknown Queue" on "Unknown Map" |
| GameConstants.QueueNamesNonEmpty | frontend/src/utils/gameConstants.ts:2-99 | every listed queue has a non-empty name, so the `||` fallback never replaces a listed entry |
| GameConstants.GameModeDisplayName | frontend/src/utils/gameConstants.ts:149-153 | a listed game mode shows its readable name; an unlisted mode is shown unchanged |
| GameConstants.GameModeDisplayNameNonEmpty | frontend/src/utils/gameConstants.ts:102-123 | a non-empty game mode never displays as the empty string |
| GameConstants.MatchTypeOf | frontend/src/utils/gameConstants.ts:161-187 | ranked iff the lower-cased name contains "ranked"; normal iff not ranked and it names blind, draft, normal or quickplay; special iff neither; never both ranked and normal |
| GameConstants.IconForName | frontend/src/utils/gameConstants.ts:194-213 | the icon is one of the three ranked icons iff the lower-cased queue name contains "ranked"; the default icon only when no keyword occurs |
| GameConstants.GetMatchTypeInfo | frontend/src/utils/gameConstants.ts:161-187 | the queue's own name and map; exactly one of ranked, normal and special |
| GameConstants.GetQueueIcon | frontend/src/utils/gameConstants.ts:194-213 | a ranked icon (solo, flex or trophy) exactly when the match type says ranked |
| GameConstants.UnknownQueueName | frontend/src/utils/gameConstants.ts:137-212 | the fallback queue is a special mode and gets the default icon |
| GameConstants.UnknownQueueNotRanked | frontend/src/utils/gameConstants.ts:138-171 | "Unknown Queue" lower-cases to "unknown queue" and is not ranked |
| GameConstants.UnknownQueueNotNormal | frontend/src/utils/gameConstants.ts:138-177 | "Unknown Queue" is not a normal game |
| GameConstants.UnknownQueueNameLacks | frontend/src/utils/gameConstants.ts:204-210 | "unknown queue" contains none of the icon keywords |
| GameConstants.RankedSoloDuoName | frontend/src/utils/gameConstants.ts:171-199 | "Ranked Solo/Duo" is ranked and gets the solo icon |
| GameConstants.RankedFlexName | frontend/src/utils/gameConstants.ts:171-200 | "Ranked Flex" is ranked and gets the flex icon |
| GameConstants.DraftAndBlindPickNames | frontend/src/utils/gameConstants.ts:43-177 | "Draft Pick" and "Blind Pick" are normal games |
| GameConstants.AramCoopName | frontend/src/utils/gameConstants.ts:22-209 | "ARAM Co-op vs AI" gets the ARAM icon because "aram" is tested before "co-op" |
| GameConstants.ArenaName | frontend/src/utils/gameConstants.ts:89-206 | "Arena" is neither ranked nor normal and gets the Arena icon |
| GameConstants.UnknownQueueIsSpecial | frontend/src/utils/gameConstants.ts:135-213 | an unlisted queue id is a special mode named "Unknown Queue" with the default icon |
| GameConstants.RankedQueues | frontend/src/utils/gameConstants.ts:45-202 | queue 420 is ranked with the solo icon; queue 440 is ranked with the flex icon |
| GameConstants.NormalQueues | frontend/src/utils/gameConstants.ts:43-177 | queues 400 and 430 are normal games |
| GameConstants.SpecialQueues | frontend/src/utils/gameConstants.ts:22-206 | queue 67 gets the ARAM icon; queue 1700 is a special mode with the Arena icon |
| GameVersion.IsValidGameVersion | frontend/src/utils/gameVersion.ts:58-61 | `^\d+\.\d+\.\d+$`: exactly three non-empty runs of ASCII digits separated by dots (a predicate, no contract; LatestIsValid and FormattedIsValid use it) |
| GameVersion.LatestGameVersion | frontend/src/utils/gameVersion.ts:49-51 | the fixed latest version is "15.13.1" |
| GameVersion.LatestIsValid | frontend/src/utils/gameVersion.ts:49-60 | the latest version matches the version pattern |
| GameVersion.FormattedGameVersion | frontend/src/utils/gameVersion.ts:13-29 | a missing or empty version, or one without a dot, gives the fallback |
| GameVersion.GameVersionFromMatch | frontend/src/utils/gameVersion.ts:37-42 | no match gives the fallback; otherwise the match's version is formatted |
| GameVersion.FormatsMajorMinor | frontend/src/utils/gameVersion.ts:23-25 | "major.minor" followed by nothing or by ".rest" becomes "major.minor.1" |
| GameVersion.ExampleVersion | frontend/src/utils/gameVersion.ts:9-11 | "14.23.590.9183" becomes "14.23.1" |
| GameVersion.FormattedIsValid | frontend/src/utils/gameVersion.ts:25-60 | with digit-only major and minor parts the result matches the version pattern |
| GameVersion.FormatIdempotent | frontend/src/utils/gameVersion.ts:13-29 | formatting an already formatted version with the default fallback changes nothing |
| ArenaTeams.TeamNameMapping | frontend/src/utils/arenaTeams.ts:7-16 | the subteam table: ids 1 to 8 each with its own team name, no entry for any other id (a table, no contract; TeamNamesListed states its domain and injectivity) |
| ArenaTeams.TeamImageMapping | frontend/src/utils/arenaTeams.ts:19-28 | the image table: each team name with its image file name, no entry for any other name (a table, no contract; ArenaTeamImageUrl uses it) |
| ArenaTeams.TeamNamesListed | frontend/src/utils/arenaTeams.ts:7-16 | exactly the ids 1 to 8 have a name, and distinct ids have distinct names |
| ArenaTeams.TeamNamesInitials | frontend/src/utils/arenaTeams.ts:7-16 | no team name is empty or starts with "T" |
| ArenaTeams.ArenaTeamName | frontend/src/utils/arenaTeams.ts:35-41 | a missing id gives "Unknown Team"; a listed id its name; any other id "Team <id>" |
| ArenaTeams.DoubledTeamPrefix | frontend/src/utils/arenaTeams.ts:40-51 | as written, id 9 is displayed as "Team Team 9" |
| ArenaTeams.FormattedArenaTeamNameAsWritten | frontend/src/utils/arenaTeams.ts:48-51 | as written: a missing id gives "Unknown Team", a listed id "Team " and its name, an unlisted id "Team Team <id>" |
| ArenaTeams.FormattedArenaTeamName | frontend/src/utils/arenaTeams.ts:48-51 | a missing id gives "Unknown Team"; a listed id gives "Team " and its listed name; an unlisted id gives "Team <id>"; never "Team Team " |
| ArenaTeams.FormattedAgreesOnNamedTeams | frontend/src/utils/arenaTeams.ts:48-51 | the corrected display name equals the source's for a missing id and for every named id |
| ArenaTeams.ArenaTeamImageUrl | frontend/src/utils/arenaTeams.ts:58-74 | the URL is non-empty iff the id is 1 to 8, and it is then the badge image of that team |
| TimeUtils.JsRem | frontend/src/utils/timeUtils.ts:8 | JavaScript `%`: the remainder lies in [0, b) for a non-negative dividend and in (-b, 0] for a negative one |
| TimeUtils.DurationParts | frontend/src/utils/timeUtils.ts:6-10 | for a non-negative duration: minutes * 60 + seconds is the duration, with 0 <= seconds < 60 |
| TimeUtils.FormatGameDuration | frontend/src/utils/timeUtils.ts:6-10 | for a non-negative duration, the whole minutes, "m ", the remaining seconds (below 60), "s" |
| TimeUtils.FormatGameDurationInjective | frontend/src/utils/timeUtils.ts:6-10 | two non-negative durations with the same label are equal |
| TimeUtils.MinutesPrefix | frontend/src/utils/timeUtils.ts:9 | in a duration label the first 'm' is the one right after the minutes |
| TimeUtils.TimeAgoOf | frontend/src/utils/timeUtils.ts:19-28 | each band holds exactly its age range, and the count it shows is the age divided by the band's unit, between 1 and the next band's size |
| TimeUtils.Render | frontend/src/utils/timeUtils.ts:21-27 | "Just now" exactly for the first band; otherwise the count followed by "m ago", "h ago", "d ago" or "mo ago" for the minute, hour, day and month bands |
| TimeUtils.FormatTimeAgo | frontend/src/utils/timeUtils.ts:17-28 | "Just now" iff the timestamp is less than a minute old; below an hour the whole minutes and "m ago", below a day the whole hours and "h ago", below 30 days the whole days and "d ago", otherwise the whole 30-day months and "mo ago" |
| TimeUtils.TimeAgoMonotone | frontend/src/utils/timeUtils.ts:21-27 | an older timestamp never lands in an earlier band |
| Validation.UrlNameTagAtLastDash | frontend/src/utils/validation.ts:43 | the URL name-tag pattern matches iff the split at the last dash has a non-empty head without line terminators and a non-empty alphanumeric tail |
| Validation.IsRegion | frontend/src/utils/validation.ts:8-20 | the region is one of the eleven codes of the region enum; SearchForm.DefaultRegionListed shows the form's default is one of them |
| Validation.IsValidName | frontend/src/utils/validation.ts:24-28 | a summoner name has 1 to 16 ASCII letters, digits or white space; ParseNameTag accepts only such names |
| Validation.IsValidTag | frontend/src/utils/validation.ts:29-33 | a tag has 2 to 5 ASCII letters and digits |
| Validation.IsValidUrlNameTag | frontend/src/utils/validation.ts:40-43 | the URL segment matches `^.+-[a-zA-Z0-9]+$`; UrlNameTagAtLastDash shows the match is at the last dash |
| Validation.ParseNameTag | frontend/src/utils/validation.ts:154-169 | no dash is an error; on success name + "-" + tag gives back the input, and both halves satisfy the name and tag rules |
| Validation.ParseNameTagRoundTrip | frontend/src/utils/validation.ts:154-169 | a valid name and tag joined by a dash parse back to that name and tag |
| Validation.ParsedIsValidUrlNameTag | frontend/src/utils/validation.ts:38-44 | a parsed name-tag without line breaks also passes the URL segment pattern |
| ChampionImage.SpecialCasesAlnum | frontend/src/hooks/useChampionImageUrl.ts:8-19 | every key of the special-case table is a non-empty string of ASCII letters and digits |
| ChampionImage.StripNonAlnum | frontend/src/hooks/useChampionImageUrl.ts:21 | the result holds only ASCII letters and digits, is a subsequence of the name, and keeps all of its letters and digits |
| ChampionImage.StripAlnumUnchanged | frontend/src/hooks/useChampionImageUrl.ts:21 | stripping an alphanumeric name leaves it unchanged |
| ChampionImage.FormatChampionName | frontend/src/hooks/useChampionImageUrl.ts:6-22 | a listed name gives its table key, any other the stripped name; the key is always alphanumeric |
| ChampionImage.PlainNameUnchanged | frontend/src/hooks/useChampionImageUrl.ts:21 | an unlisted alphanumeric name is its own key |
| ChampionImage.TableExamples | frontend/src/hooks/useChampionImageUrl.ts:9-10 | "Wukong" gives "MonkeyKing" and "Nunu & Willump" gives "Nunu" |
| ChampionImage.FiddleSticksRewritten | frontend/src/hooks/useChampionImageUrl.ts:18 | the case-sensitive lookup rewrites "FiddleSticks" to "Fiddlesticks" |
| ChampionImage.FiddlesticksUnchanged | frontend/src/hooks/useChampionImageUrl.ts:18-21 | "Fiddlesticks" misses the table and is its own key |
| ChampionImage.ChampionUrlDeterminedByKey | frontend/src/hooks/useChampionImageUrl.ts:24-27 | for one game version, two champions share an image URL exactly when they share a key |
| ChampionImage.ChampionImageUrl | frontend/src/hooks/useChampionImageUrl.ts:24-27 | the champion folder of the given version, then an ASCII-alphanumeric file name, then ".png" |
| ChampionAvatar.SpellMapping | frontend/src/components/match/ChampionAvatar.tsx:13-31 | the summoner spell table: the sixteen listed spell ids with their image names, no entry for any other id (a table, no contract; SpellName and FlashIsDefault state its use) |
| ChampionAvatar.SpellName | frontend/src/components/match/ChampionAvatar.tsx:13-32 | a listed spell id gives its key; any other id gives "SummonerFlash" |
| ChampionAvatar.SpellImageUrl | frontend/src/components/match/ChampionAvatar.tsx:12-34 | the spell icon at the pinned version "14.24.1"; its properties are SpellUrlDeterminedByName |
| ChampionAvatar.SpellUrlDeterminedByName | frontend/src/components/match/ChampionAvatar.tsx:32-33 | two spell ids share an icon URL exactly when they share a spell name; an unlisted id shows the Flash icon |
| ChampionAvatar.FlashIsDefault | frontend/src/components/match/ChampionAvatar.tsx:16-32 | Flash is shown exactly for spell 4 and for every unlisted id |
| ChampionAvatar.AvatarChampionUrl | frontend/src/components/match/ChampionAvatar.tsx:8-10 | the portrait URL: the Data Dragon CDN, the pinned version 14.24.1, "/img/champion/", the raw champion name and ".png" (no contract; AvatarSkipsNormalisation relates it to the normalising builder) |
| ChampionAvatar.AvatarSkipsNormalisation | frontend/src/components/match/ChampionAvatar.tsx:8-10 | the avatar's portrait URL equals the normalising builder's URL at version 14.24.1 exactly when the name is its own key |
| ChampionAvatar.Avatar | frontend/src/components/match/ChampionAvatar.tsx:7-56 | the portrait uses the raw champion name; the two badges show the participant's first and second spells |
| ItemImage.IsValidItemId | frontend/src/hooks/useItemImageUrl.ts:36-38 | an item id is valid exactly when it is a positive integer (a predicate, no contract; ItemImageUrl answers a URL exactly for such ids) |
| ItemImage.ItemImageUrl | frontend/src/hooks/useItemImageUrl.ts:14-29 | the URL is non-empty iff the id is a positive integer; a negative or fractional id gives ""; a valid id gives the item's image at the game version |
| ItemImage.ItemUrlInjective | frontend/src/hooks/useItemImageUrl.ts:26 | distinct valid items have distinct URLs within one game version |
| ItemImage.ParticipantItems | frontend/src/hooks/useItemImageUrl.ts:54-64 | a participant has seven item slots, item0 to item6 in order |
| ItemImage.ParticipantItemUrls | frontend/src/hooks/useItemImageUrl.ts:45-47 | one URL per id, each the URL of the id at the same position |
| ItemImage.ParticipantItemUrlsFromData | frontend/src/hooks/useItemImageUrl.ts:71-73 | seven URLs, the i-th being the item image URL of the i-th item slot; a slot's URL is non-empty iff its item id is positive |
| ItemsDisplay.PinnedItemUrl | frontend/src/components/match/ItemsDisplay.tsx:8-11 | item 0 gives the empty URL; any other id gives the item image URL at the pinned version "14.24.1" |
| ItemsDisplay.MainItems | frontend/src/components/match/ItemsDisplay.tsx:13-20 | the first six item slots, item0 to item5, in order |
| ItemsDisplay.Trinket | frontend/src/components/match/ItemsDisplay.tsx:22 | the seventh slot, item6 |
| ItemsDisplay.SlotImage | frontend/src/components/match/ItemsDisplay.tsx:33-57 | a slot shows an image iff its item id is positive, and that image is the item's URL at version 14.24.1 |
| ItemsDisplay.SlotsPartition | frontend/src/components/match/ItemsDisplay.tsx:13-22 | the six main slots followed by the trinket are exactly the participant's seven slots |
| ConfigApi.BaseUrl | frontend/src/config/api.ts:3 | a set, non-empty `VITE_API_URL` is used; otherwise "http://127.0.0.1:8000" |
| ConfigApi.EndpointPath | frontend/src/config/api.ts:5-10 | the path of each of the four endpoints; EndpointPathInjective shows it determines the endpoint when names hold no "/" |
| ConfigApi.EndpointPathInjective | frontend/src/config/api.ts:4-11 | distinct endpoints have distinct paths when no argument that is followed by another segment holds a "/" |
| ConfigApi.SlashBreaksAccountPath | frontend/src/config/api.ts:5-6 | the accounts ("a/b", "c") and ("a", "b/c") share a path |
| ConfigApi.ApiUrl | frontend/src/config/api.ts:15-17 | the URL is the base URL followed by the endpoint |
| ApiClient.Rewrap | frontend/src/services/api.ts:51-58 | an `ApiError` passes unchanged; another `Error` keeps its message without a status; any other value becomes "Unknown API error" |
| ApiClient.ApiRequest | frontend/src/services/api.ts:26-59 | success iff the response is ok, parses and says success, and the payload is then `data`; a non-ok response fails with "API request failed: <status> <text>" and that status; `success: false` fails with the envelope's error or "API request failed"; every failure is an `ApiError` |
| ApiClient.StatusOnlyFromResponse | frontend/src/services/api.ts:36-54 | a failure carries a status only when a non-ok response gave it, or when an `ApiError` was thrown inside the request |
| ApiClient.ErrorMessage | frontend/src/services/api.ts:107-115 | an `ApiError` or other `Error` gives its message; anything else gives "An unexpected error occurred" |
| ApiClient.RewrapKeepsMessage | frontend/src/services/api.ts:51-115 | re-wrapping keeps the message of every `Error` and is idempotent |
| ApiClient.PlayerInfoUrlInjective | frontend/src/services/api.ts:63-71 | within one base URL, the player URL determines name, tag and region when the name holds no "/" and neither holds a "?" |
| ApiClient.MatchHistoryDefaults | frontend/src/services/api.ts:82-93 | omitting start and count gives the URL for start 0 and count 10 |
| ApiClient.StatusMessage | frontend/src/services/api.ts:36-42 | the message of a non-ok response: "API request failed: ", the status and its text |
| ApiClient.PlayerInfoUrl | frontend/src/services/api.ts:63-71 | the player endpoint under the base URL, then "?region=" and the region; PlayerInfoUrlInjective shows it determines name, tag and region |
| ApiClient.AccountInfoUrl | frontend/src/services/api.ts:73-77 | the account endpoint under the base URL, then "?region=" and the region |
| ApiClient.MatchHistoryUrl | frontend/src/services/api.ts:82-93 | the history path under the base URL with region, start (default 0) and count (default 10); MatchHistoryDefaults states the defaults |
| ApiClient.MatchDetailsUrl | frontend/src/services/api.ts:95-99 | the match path under the base URL, then "?region=" and the region |
| MatchTypes.PlacementOrLast | frontend/src/components/match/PlayersList.tsx:30 | a missing or zero Arena placement counts as 8 (last); any other placement is kept; the result is never 0 |
| MatchTypes.DisplayName | frontend/src/components/match/PlayersList.tsx:86-88 | the Riot id game name is shown unless it is empty, in which case the summoner name is |
| MatchTypes.Find | frontend/src/components/MatchCard.tsx:72-74 | `Array.find`: no result exactly when no element matches; otherwise the FIRST element that matches (used for the searched participant and for the team record, MatchCard.tsx:88-91) |
| MatchTypes.FindTeam | frontend/src/components/MatchCard.tsx:88-90 | the first team record whose id is the given one, none when no record has it (an instance of Find, whose contract states it) |
| KdaStats.CalculateKda | frontend/src/components/match/KDAStats.tsx:8-14 | "Perfect" exactly for a deathless game with kills + assists > 0, "0.00" for a deathless game without, otherwise the ratio r with r · deaths = kills + assists |
| KdaStats.KdaValue | frontend/src/components/match/KDAStats.tsx:17-23 | the colour's ratio is 10 for a perfect game, 0 for a deathless game without kills or assists, else (kills + assists) / deaths |
| KdaStats.KdaColorOf | frontend/src/components/match/KDAStats.tsx:16-29 | the four colour tiers partition the ratios: gold at ≥ 3, green in [2, 3), blue in [1, 2), red below 1 (each an if-and-only-if) |
| KdaStats.PerfectIsGold | frontend/src/components/match/KDAStats.tsx:10-25 | a game labelled "Perfect" is always coloured gold |
| KdaStats.ColorByIntegers | frontend/src/components/match/KDAStats.tsx:18-28 | with deaths, the tier is decided by whole numbers: gold iff kills + assists ≥ 3·deaths, green iff in [2·deaths, 3·deaths), blue iff in [deaths, 2·deaths), red iff below deaths |
| GameModeStats.BandOf | frontend/src/components/match/GameModeStats.tsx:24-30 | placement 1 yellow, otherwise up to 3 orange, 4 to 6 blue, above 6 gray (each an if-and-only-if) |
| GameModeStats.PlacementLabel | frontend/src/components/match/GameModeStats.tsx:34-36 | "WINNER" exactly for first place, "TOP n" for every other placement n |
| GameModeStats.PlacementLabelInjective | frontend/src/components/match/GameModeStats.tsx:34-36 | two placements with the same label are the same placement |
| GameModeStats.ModeStatsOf | frontend/src/components/match/GameModeStats.tsx:17-59 | the placement column exactly for an Arena game with a non-zero placement, the creep score (lane + neutral minions) exactly for non-Arena games, nothing for an Arena game without a placement |
| PlayerInfo.QueueName | frontend/src/components/PlayerInfo.tsx:29-36 | the three ranked queue types get their display names; any other queue type is shown unchanged |
| PlayerInfo.QueueIconOf | frontend/src/components/PlayerInfo.tsx:38-45 | the solo icon exactly for solo/duo, the flex icon exactly for 5v5 flex, the trophy exactly for 3v3 flex, the generic icon for anything else |
| PlayerInfo.ListedQueuesRenamed | frontend/src/components/PlayerInfo.tsx:29-45 | a queue type has its own icon exactly when it has a display name different from itself |
| PlayerInfo.TierColor | frontend/src/components/PlayerInfo.tsx:13-27 | white exactly outside the ten tiers; the colour is never empty (the ten colours are pairwise distinct by TierColorsDistinct) |
| PlayerInfo.TierColorsDistinct | frontend/src/components/PlayerInfo.tsx:13-27 | two different tiers never share a colour |
| PlayerInfo.TotalWins | frontend/src/components/PlayerInfo.tsx:101 | the sum of the wins over all ranking entries (no contract; TotalsSplit, EntryWithinTotals and NonNegativeTotals state its properties) |
| PlayerInfo.TotalLosses | frontend/src/components/PlayerInfo.tsx:107 | the sum of the losses over all ranking entries (no contract; same lemmas as TotalWins) |
| PlayerInfo.TotalsSplit | frontend/src/components/PlayerInfo.tsx:101-107 | the win and loss totals add up over any split of the ranked entries |
| PlayerInfo.EntryWithinTotals | frontend/src/components/PlayerInfo.tsx:101-107 | with non-negative counts, each entry's wins and losses lie between 0 and the totals |
| PlayerInfo.NonNegativeTotals | frontend/src/components/PlayerInfo.tsx:101-107 | non-negative entries give non-negative totals |
| PlayerInfo.SummaryOf | frontend/src/components/PlayerInfo.tsx:89-125 | the ranked-queue count is the number of entries; "No Ranked Games" exactly when there are none, with zero totals; the totals are the sums of wins and losses |
| MatchCard.FindParticipant | frontend/src/components/MatchCard.tsx:72-74 | the first participant with the searched PUUID, none when no participant has it (an instance of Find, whose contract states it) |
| MatchCard.TeamKills | frontend/src/components/MatchCard.tsx:88-91 | the champion kills of the first team record with the player's team id, 0 when there is none |
| MatchCard.KillParticipation | frontend/src/components/MatchCard.tsx:92-95 | with team kills, kp · teamKills = (kills + assists) · 100; without, exactly 0 |
| MatchCard.KillParticipationBounded | frontend/src/components/MatchCard.tsx:92-95 | a player involved in at most all of the team's kills has a participation between 0 and 100 |
| MatchCard.View | frontend/src/components/MatchCard.tsx:42-102 | loading first; then an error view exactly for an error or missing data, with the error or "Match data not found"; then "player not found" exactly when no participant has the puuid; otherwise the card of the FIRST participant with the puuid, with its team kills, kill participation, Arena flag for queues 1700 and 1710, the match's formatted game version and the champion image of that version |
| MatchCard.IsArenaMode | frontend/src/components/MatchCard.tsx:98-99 | the card's Arena flag: queue 1700 or 1710 |
| PlayersList.TruncateName | frontend/src/components/match/PlayersList.tsx:19-21 | names of at most 8 characters are unchanged; longer ones become their first 5 characters and "...", 8 in all |
| PlayersList.TruncateIdempotent | frontend/src/components/match/PlayersList.tsx:19-21 | truncating an already truncated name changes nothing |
| PlayersList.ListEntry | frontend/src/components/match/PlayersList.tsx:67-88 | an entry is highlighted exactly for the searched player and shows the truncated display name and the champion image of the game version |
| PlayersList.PlacedTop4 | frontend/src/components/match/PlayersList.tsx:39 | keeps exactly the placement groups with placement at most 4 |
| PlayersList.PlacedTop4Distinct | frontend/src/components/match/PlayersList.tsx:38-39 | filtering keeps the groups' placements distinct |
| PlayersList.TopTeams | frontend/src/components/match/PlayersList.tsx:26-41 | at most four groups, ascending by placement, each a placement ≤ 4 that occurs holding exactly its players in match order; a placement ≤ 4 left out is beaten by four shown ones |
| PlayersList.TopTeamsAreGroups | frontend/src/components/match/PlayersList.tsx:38-41 | every group kept after filter, sort and slice is a grouping's group with placement at most 4 |
| PlayersList.TopTeamsAreBest | frontend/src/components/match/PlayersList.tsx:38-41 | a placement at most 4 missing from the list means four better placements were shown |
| PlayersList.SplitTeams | frontend/src/components/match/PlayersList.tsx:101-102 | team 1 and team 2 hold at most 5 each and together the first 10 participants in order; team 2 is non-empty only when team 1 is full |
| PlayersList.RenderList | frontend/src/components/match/PlayersList.tsx:24-102 | the Arena layout exactly for queue 1700: at most four ascending groups, each a placement of at most 4 that some player has, holding exactly that placement's players in order, and no better placement left out; otherwise the positional 5v5 teams |
| PlacementGrouping.PlacementSeq | frontend/src/components/match/PlayersList.tsx:30 | one placement per player, each the player's placement or 8 |
| PlacementGrouping.KeySeq | frontend/src/components/match/PlayersList.tsx:38 | the groups' placements, in group order |
| PlacementGrouping.IndexOfPlacement | frontend/src/components/match/PlayersList.tsx:31 | -1 exactly when no group has the placement, else the index of a group that has it |
| PlacementGrouping.MembersOfAbsent | frontend/src/components/match/PlayersList.tsx:29-35 | a placement that no player has has no members |
| PlacementGrouping.ExtendByOne | frontend/src/components/match/PlayersList.tsx:29-35 | one more player joins only the members of its own placement and adds its placement at the end |
| PlacementGrouping.AddToGroup | frontend/src/components/match/PlayersList.tsx:34 | pushing a player onto the existing group of its placement keeps a grouping of the players seen |
| PlacementGrouping.AddNewGroup | frontend/src/components/match/PlayersList.tsx:31-34 | opening a group for a new placement, holding the player, keeps a grouping of the players seen |
| PlacementGrouping.CollectGroups | frontend/src/components/match/PlayersList.tsx:26-35 | the map built by the loop is a grouping: one group per placement that occurs, distinct placements, each holding exactly its players in match order |
| PlacementGrouping.InsertByPlacement | frontend/src/components/match/PlayersList.tsx:40 | inserting into an ascending list keeps it ascending and adds exactly the one group |
| PlacementGrouping.InsertAscending | frontend/src/components/match/PlayersList.tsx:40 | a smaller head placed before an ascending rest keeps the list ascending |
| PlacementGrouping.SortByPlacement | frontend/src/components/match/PlayersList.tsx:40 | the result is ascending by placement and a permutation of the groups |
| PlacementGrouping.FirstKeyFresh | frontend/src/components/match/PlayersList.tsx:38-40 | with distinct placements, the first group's placement occurs in no group taken from the rest |
| PlacementGrouping.SortKeepsGrouping | frontend/src/components/match/ExpandedMatchDetails.tsx:139-141 | sorting a grouping gives a grouping of the same players |
| PlacementGrouping.GroupByPlacement | frontend/src/components/match/ExpandedMatchDetails.tsx:127-141 | the Arena grouping of the expanded view: ascending by placement and a grouping of the participants |
| PlacementGrouping.SplitOffPlacement | frontend/src/components/match/ExpandedMatchDetails.tsx:130-136 | taking one more placement out moves exactly its members from the remaining players to their group |
| PlacementGrouping.WithoutAll | frontend/src/components/match/ExpandedMatchDetails.tsx:130-136 | nothing remains once every placement that occurs is taken out |
| PlacementGrouping.WithoutNothing | frontend/src/components/match/ExpandedMatchDetails.tsx:130-136 | taking out no placement leaves every player |
| PlacementGrouping.KeySet | frontend/src/components/match/ExpandedMatchDetails.tsx:139 | the set of the groups' placements |
| PlacementGrouping.FlattenAndRest | frontend/src/components/match/ExpandedMatchDetails.tsx:130-136 | the grouped players and those whose placement has no group make up all the players, as a multiset |
| PlacementGrouping.GroupingIsPermutation | frontend/src/components/match/ExpandedMatchDetails.tsx:130-141 | the groups together hold every participant exactly once: no player is lost or shown twice |
| PlacementGrouping.Members | frontend/src/components/match/PlayersList.tsx:29-35 | the players of one placement (missing counts as 8), in their original order; CollectGroups builds exactly these |
| PlacementGrouping.Flatten | frontend/src/components/match/ExpandedMatchDetails.tsx:139-145 | the players of the groups, group after group; GroupingIsPermutation shows it is a permutation of all players |
| PlacementGrouping.Without | frontend/src/components/match/ExpandedMatchDetails.tsx:130-136 | the players whose placement is not in a set, in order; WithoutAll and WithoutNothing state its ends |
| ExpandedMatchDetails.RenderParticipant | frontend/src/components/match/ExpandedMatchDetails.tsx:25-121 | the searched player's row is highlighted first; otherwise Arena rows are top-four or bottom-four by placement (missing counts as 8) and other rows neutral; the row shows the display name, the pinned champion image, the K/D/A, lane + neutral creep score, and an item image exactly for the seven slots holding an item; each of the seven item images is the slot image of the matching item slot |
| ExpandedMatchDetails.TeamMembers | frontend/src/components/match/ExpandedMatchDetails.tsx:179-180 | exactly the participants with the team id, never more than all of them |
| ExpandedMatchDetails.TeamMembersConcat | frontend/src/components/match/ExpandedMatchDetails.tsx:179-180 | the team filter keeps match order: filtering a concatenation concatenates the filtered parts |
| ExpandedMatchDetails.TeamsDisjoint | frontend/src/components/match/ExpandedMatchDetails.tsx:179-180 | no participant is in both teams, and one with another team id is in neither |
| ExpandedMatchDetails.TeamWon | frontend/src/components/match/ExpandedMatchDetails.tsx:182-185 | true exactly when the first team record with the id records a win; false with no record |
| ExpandedMatchDetails.FirstTeamUnique | frontend/src/components/match/ExpandedMatchDetails.tsx:182-185 | only one record can be the first with a given id |
| ExpandedMatchDetails.RenderTeams | frontend/src/components/match/ExpandedMatchDetails.tsx:124-185 | the Arena layout exactly for queue 1700, ascending and a grouping of the participants; otherwise the blue (100) and red (200) teams with their results |
| Queries.StaleTimesOrdered | frontend/src/hooks/useQueries.ts:72-137 | at every age, fresh player data implies a fresh match history and a fresh history implies fresh match details (never stale); between 2 and 5 minutes only the history is fresh; the history is stale exactly from 5 minutes |
| Queries.MatchHistoryQueryKey | frontend/src/hooks/useQueries.ts:89-97 | the history key holds the puuid and region and the count and start with the hook's defaults 20 and 0 filled in |
| Queries.PlayerQueryEnabled | frontend/src/hooks/useQueries.ts:70 | the player query runs exactly when the caller does not switch it off and the name, tag and region are non-empty |
| Queries.MatchHistoryQueryEnabled | frontend/src/hooks/useQueries.ts:107 | the history query runs exactly when not switched off and the puuid and region are non-empty |
| Queries.MatchQueryEnabled | frontend/src/hooks/useQueries.ts:135 | the match query runs exactly when not switched off and the match id and region are non-empty |
| Queries.MatchHistoryQueryUrl | frontend/src/hooks/useQueries.ts:98-104 | the history hook asks the service with its own defaults, start 0 and count 20; HookDefaultCountWins states the result |
| Queries.HookDefaultCountWins | frontend/src/hooks/useQueries.ts:92-104 | the history hook without arguments requests start 0 and count 20, overriding the service's default count |
| Queries.NextCursor | frontend/src/hooks/useQueries.ts:168-173 | a next page exactly when the page came back full, starting pageSize after this one |
| Queries.CursorAfter | frontend/src/hooks/useQueries.ts:161-177 | the cursor reached from an offset after a run of pages; FullPagesOffset and ShortPageStops state its value |
| Queries.FullPagesOffset | frontend/src/hooks/useQueries.ts:161-177 | after k full pages from an offset, the next page starts k · pageSize further |
| Queries.ShortPageStops | frontend/src/hooks/useQueries.ts:170-173 | once a page comes back short there are no further pages, whatever follows |
| Queries.PlayerQueryError | frontend/src/hooks/useQueries.ts:60-67 | the rethrown error is a plain Error with the caught error's message, carrying a status exactly when the caught value is an API error with a non-zero status |
| Queries.PlayerQuery | frontend/src/hooks/useQueries.ts:56-69 | succeeds exactly when the request does, with its data; otherwise fails with the transformed error |
| Queries.PlayerQueryKeepsHttpStatus | frontend/src/hooks/useQueries.ts:56-69 | a non-ok response reaches the caller with its status message, and with its status when non-zero |
| Queries.CacheAfterPlayerSearch | frontend/src/hooks/useQueries.ts:201-206 | after a successful search the data is cached under the player key of the search's name, tag and region; no other entry changes |
| Queries.CacheKeepsOtherSearches | frontend/src/hooks/useQueries.ts:201-206 | caching a second search under a different name, tag or region keeps the first search's data |
| SummonerPage.ParsedParams | frontend/src/pages/SummonerPage.tsx:19-34 | nothing for a missing or empty parameter; otherwise nothing exactly when the name-tag has no dash; a result splits the name-tag at its last dash (name + "-" + tag is the parameter, the tag has no dash) with the region upper-cased |
| SummonerPage.SummonerPath | frontend/src/pages/HomePage.tsx:14 | "/summoners/<region>/<name>-<tag>/overview"; ParsedParamsRoundTrip shows the page parses its name-tag segment back for a tag without "-" |
| SummonerPage.ParsedParamsRoundTrip | frontend/src/pages/HomePage.tsx:14 | the name-tag segment of a summoner path parses back to its name and tag for any tag without a dash, even when the name has dashes |
| SummonerPage.DashInTagSplitsLater | frontend/src/pages/SummonerPage.tsx:25-31 | a tag holding a dash does not round-trip: the split moves to the tag's last dash |
| SummonerPage.PageState.constructor | frontend/src/pages/SummonerPage.tsx:14-16 | the page starts loading, with no data and no error |
| SummonerPage.PageState.Load | frontend/src/pages/SummonerPage.tsx:36-61 | without parameters the invalid-URL error is set; otherwise the data or the error message is stored; loading ends in every case |
| SummonerPage.PageState.Retry | frontend/src/pages/SummonerPage.tsx:63-87 | without parameters nothing changes; otherwise the data is cleared and refetched, ending with the data or the error message and loading off |
| Layout.QuickSearch | frontend/src/components/layout/Layout.tsx:13-23 | no navigation exactly when the query is blank; otherwise the summoner page of the trimmed query's first "#"-segment, with its second segment as tag or "EUW" when that is missing or empty |
| Layout.QuickSearchNameTag | frontend/src/components/layout/Layout.tsx:17-22 | a query "name#tag" without surrounding blanks navigates to the page of that name and tag |
| Layout.QuickSearchIgnoresExtraSegments | frontend/src/components/layout/Layout.tsx:18-20 | segments after the second "#" are ignored |
| Layout.QuickSearchDefaultTag | frontend/src/components/layout/Layout.tsx:20 | a query without "#" gets the tag "EUW" |
| SearchForm.HasNameTagShape | frontend/src/components/SearchForm.tsx:31 | `^.+#.+$` with JavaScript's `.`: no line terminator anywhere and a "#" with at least one character on each side (a predicate, no contract; SplitHasTwoParts requires it and IsValidForm includes it) |
| SearchForm.IsValidForm | frontend/src/components/SearchForm.tsx:27-33 | the form schema: a non-empty name-tag of that shape and a non-empty region (a predicate, no contract; Submit requires it) |
| SearchForm.DefaultRegionListed | frontend/src/components/SearchForm.tsx:12-52 | the form's default region is one of the listed regions |
| SearchForm.Submit | frontend/src/components/SearchForm.tsx:55-60 | a valid name-tag has at least two "#"-segments; the name and the tag are the first two, trimmed (later segments are dropped), neither holding "#"; the region is passed unchanged |
| SearchForm.SplitHasTwoParts | frontend/src/components/SearchForm.tsx:31-58 | any input the schema accepts splits into at least two segments, so the destructured tag is defined |
| SearchForm.TrimKeepsAbsent | frontend/src/components/SearchForm.tsx:59 | trimming adds no character |
| SearchForm.SubmitNameTag | frontend/src/components/SearchForm.tsx:27-60 | "name#tag" without blanks at the ends, "#" or line breaks is accepted by the schema and searches for exactly that name, tag and region |
| SearchForm.EnabledButInvalid | frontend/src/components/SearchForm.tsx:31-73 | the button check and the schema disagree: "#ab" enables the button yet fails the schema |
| SearchForm.ValidButDisabled | frontend/src/components/SearchForm.tsx:31-73 | and " #b" passes the schema yet leaves the button disabled |
| SearchForm.TrimAfterBlank | frontend/src/components/SearchForm.tsx:72 | trimming a leading blank off a word leaves the word's length |
| SearchForm.AfterSubmit | frontend/src/components/SearchForm.tsx:55-63 | the form is reset to its defaults exactly when the search callback did not throw |
| SearchForm.HasValidFormat | frontend/src/components/SearchForm.tsx:70-72 | the input holds "#" and its trim is longer than 2 characters; EnabledButInvalid and ValidButDisabled compare it with the schema |
| SearchForm.ButtonDisabled | frontend/src/components/SearchForm.tsx:66-73 | the button is disabled while loading or submitting, or when the format check fails |
| AppState.InitialState | frontend/src/contexts/AppContext.tsx:26-31 | no player data, not loading, no error, no previous search (a constant; PlayerStore.constructor starts from it) |
| AppState.Reduce | frontend/src/contexts/AppContext.tsx:34-49 | each Set action replaces its own field and no other; reset clears the data and the error only; an unknown action changes nothing |
| AppState.ReduceIdempotent | frontend/src/contexts/AppContext.tsx:34-49 | dispatching the same action twice equals dispatching it once |
| AppState.Writes | frontend/src/contexts/AppContext.tsx:34-49 | an action writes no field exactly when the reducer does not know it |
| AppState.DisjointActionsCommute | frontend/src/contexts/AppContext.tsx:34-49 | actions writing disjoint fields give the same state in either order |
| AppState.UseAppContext | frontend/src/hooks/useAppContext.ts:17-23 | the context when it is provided; otherwise the error "useAppContext must be used within an AppProvider" |
| PlayerDataHook.SearchOutcome | frontend/src/hooks/usePlayerData.ts:8-30 | the state one search leaves behind: the fetched data and no error on success, no data and the error message on failure; loading finished and the search remembered either way (no contract; the searchPlayer method is proved against it) |
| PlayerDataHook.PlayerStore.constructor | frontend/src/contexts/AppContext.tsx:26-63 | the store starts in the initial state |
| PlayerDataHook.PlayerStore.Dispatch | frontend/src/contexts/AppContext.tsx:63 | a dispatch replaces the state by the reducer's result |
| PlayerDataHook.PlayerStore.SearchPlayer | frontend/src/hooks/usePlayerData.ts:8-30 | after a search, loading is off and the search is remembered; on success the data is stored with no error, on failure no data and the error message |
| PlayerDataHook.PlayerStore.RetryLastSearch | frontend/src/hooks/usePlayerData.ts:32-37 | nothing changes without a previous search; otherwise the state is that of repeating that search |
| PlayerDataHook.PlayerStore.ClearError | frontend/src/hooks/usePlayerData.ts:39-41 | only the error is cleared |
| PlayerDataHook.RetryRepeatsSearch | frontend/src/hooks/usePlayerData.ts:32-37 | a search remembers itself, and retrying it with the same outcome leaves the same state |
| RiotExceptions.Message | backend/app/exceptions.py:4-37 | the base exception's message is its own; not-found reads "Account not found: name#tag"; the rate-limit, API-key and unavailable exceptions have their fixed messages |
| RiotExceptions.StatusCode | backend/app/exceptions.py:6-37 | not-found 404, rate limit 429, API key 403, unavailable 503; the base exception carries the code it was given, if any |
| RiotExceptions.SubclassCodesDistinct | backend/app/exceptions.py:12-37 | the four subclasses are told apart by their status codes |
| RiotExceptions.AccountNotFoundMessageInjective | backend/app/exceptions.py:14-16 | for names without "#", the not-found message determines the name and the tag |
| RiotClient.PlatformEndpoint | backend/app/api.py:35-51 | the platform table: fifteen regions, each with its own server host (a table, no contract; TablesAgree states its domain) |
| RiotClient.RegionalEndpoint | backend/app/api.py:54-70 | the regional table: the same fifteen regions, each with one of the europe, americas, asia or sea hosts (a table, no contract; TablesAgree states its domain and range) |
| RiotClient.TablesAgree | backend/app/api.py:35-70 | the platform and regional tables have exactly the fifteen supported regions as keys, and every regional host is Europe, Americas, Asia or SEA |
| RiotClient.PlatformBaseUrl | backend/app/api.py:344-357 | the platform host exactly for a supported region; otherwise a ValueError naming the region and the table's keys |
| RiotClient.RegionalBaseUrl | backend/app/api.py:359-372 | the regional host exactly for a supported region; otherwise a ValueError naming the region and the table's keys |
| RiotClient.AccountPath | backend/app/api.py:151 | the Riot account path for a name and tag |
| RiotClient.SummonerPath | backend/app/api.py:183 | the summoner path for a PUUID |
| RiotClient.LeaguePath | backend/app/api.py:217 | the league entries path for a PUUID |
| RiotClient.MatchHistoryPath | backend/app/api.py:288-294 | the match id path for a PUUID with its start and capped count |
| RiotClient.MatchPath | backend/app/api.py:327 | the match path for a match id |
| RiotClient.ResponseError | backend/app/api.py:89-108 | no exception exactly for status 200; 404 not found for the searched account, 403 API key, 429 rate limit, 503 unavailable; any other status a generic error carrying the status and body |
| RiotClient.ResponseErrorKeepsStatus | backend/app/api.py:89-108 | every exception raised for a response carries that response's status code |
| RiotClient.Perform | backend/app/api.py:155-165 | the decoded body exactly for status 200; a response's exception carries its status; a timeout is the base exception with 408, another request failure a connection error without status |
| RiotClient.Request | backend/app/api.py:150-165 | a URL (base + path) is built exactly when the region lookup succeeds; then the response decides the result; otherwise the lookup's ValueError is raised before any request |
| RiotClient.SleepTime | backend/app/api.py:113-122 | no wait for the first request; otherwise the request is delayed until at least 100 ms after the previous one, by no more than needed, and by at most 100 ms when the clock has not gone back since the previous request |
| RiotClient.CappedCount | backend/app/api.py:293 | the count sent is at most 100, equal to the requested count when that is at most 100 |
| RiotClient.WrapUnexpected | backend/app/api.py:265-269 | Riot exceptions pass through unchanged; any other error becomes a Riot exception "Unexpected error: ..." without status |
| RiotClient.CompleteInfoResult | backend/app/api.py:236-269 | succeeds exactly when the region is supported and all three requests answer 200, with the account, summoner and rankings; an unsupported region gives the wrapped ValueError; for a supported region the error is, unchanged, the exception of the first of the account, summoner and league requests that did not answer 200 |
| RiotClient.CompleteInfoLaterStepStatus | backend/app/api.py:236-269 | a 403, 429 or 503 on the summoner or league request reaches the caller as ApiKey, RateLimit or ServiceUnavailable, not as an unexpected error |
| RiotClient.CompleteInfoAccountNotFound | backend/app/api.py:250-266 | a 404 on the account lookup reports the searched name and tag |
| RiotClient.RiotApiClient.constructor | backend/app/api.py:83 | a new client has made no request |
| RiotClient.RiotApiClient.RateLimitWait | backend/app/api.py:113-122 | the wait is SleepTime's, and consecutive recorded request times are at least 100 ms apart |
| RiotClient.RiotApiClient.GetAccountByRiotId | backend/app/api.py:131-165 | waits, then asks the regional host for the account path; the result is the request's |
| RiotClient.RiotApiClient.GetSummonerByPuuid | backend/app/api.py:169-198 | waits, then asks the platform host for the summoner path |
| RiotClient.RiotApiClient.GetLeagueEntries | backend/app/api.py:202-232 | waits, then asks the platform host for the league path |
| RiotClient.RiotApiClient.GetMatchHistory | backend/app/api.py:272-310 | waits, then asks the regional host for the id list with the start and the capped count |
| RiotClient.RiotApiClient.GetMatchDetails | backend/app/api.py:313-342 | waits, then asks the regional host for the match path |
| RiotClient.RiotApiClient.GetCompletePlayerInfo | backend/app/api.py:236-269 | the three requests in turn, each on the previous one's PUUID, give CompleteInfoResult; the last request time afterwards is the clock of the last request made plus that request's wait |
| Services.Strip | backend/app/services.py:30 | the stripped text is empty exactly for a blank input, never longer, and starts and ends with non-blank characters |
| Services.IsBlank | backend/app/services.py:21 | `not s.strip()`: every character is Python white space; AlnumNotBlank and ClientRulesAndGuard use it |
| Services.NameTagError | backend/app/services.py:21-28 | no error exactly for a non-blank name of at most 16 and a non-blank tag of at most 5 characters; otherwise the first failing check's message, in source order |
| Services.GetAccountInfo | backend/app/services.py:16-30 | the guard's error, or the account call with the stripped name (1-16 characters) and tag (1-5) and the upper-cased region |
| Services.GetCompletePlayerInfo | backend/app/services.py:33-48 | the same guard, or the aggregate call with the stripped name and tag and the upper-cased region |
| Services.AlnumNotBlank | backend/app/services.py:21 | no ASCII letter or digit is blank |
| Services.ClientRulesAndGuard | backend/app/services.py:21-28 | a name and tag the client accepts pass the backend guard exactly when the name is not blank |
| Services.GetSummonerByPuuid | backend/app/services.py:51-59 | the call exactly for a 78-character PUUID, with the upper-cased region; otherwise "Invalid PUUID format" |
| Services.GetLeagueEntries | backend/app/services.py:62-69 | the call exactly for a non-blank id, stripped and non-empty; otherwise "Summoner ID cannot be empty" |
| Services.GetMatchHistory | backend/app/services.py:76-89 | the call exactly for a 78-character PUUID, start ≥ 0 and 1 ≤ count ≤ 100; otherwise the first failing check's message |
| Services.HistoryCountNeverCapped | backend/app/services.py:86-89 | behind the guard the client's cap at 100 never changes the count |
| Services.MatchIdErrorAsWritten | backend/app/services.py:96-99 | no error exactly for a non-blank id that starts with the upper-cased region |
| Services.PlatformId | backend/app/api.py:35-51 | the platform id of a region's host (as it prefixes that server's match ids): non-empty, without "_", starting with a capital |
| Services.EuneMatchIdRejected | backend/app/services.py:98-99 | an EUNE match id "EUN1_..." is rejected with "Match ID must start with EUNE" |
| Services.UpperUnchanged | backend/app/services.py:98 | upper-casing leaves text without lower-case letters unchanged |
| Services.MatchIdError | backend/app/services.py:96-99 | for a supported region: no error exactly for a non-blank id starting with the region's platform id and "_"; for other regions the check as written |
| Services.OwnMatchIdsAccepted | backend/app/services.py:96-99 | every supported region accepts the match ids of its own server |
| Services.OtherMatchIdsRejected | backend/app/services.py:96-99 | and rejects those of any other server |
| Services.SeparatedPrefixesEqual | backend/app/services.py:98 | two prefixes of a text each followed by a separator they do not contain are equal |
| Services.GetMatchDetails | backend/app/services.py:92-101 | the corrected guard's error, or the match call with the stripped (non-empty) id and the upper-cased region |
| Routes.FromClient | backend/app/routes.py:38-43 | Riot exceptions stay Riot failures with the same exception; ValueErrors become other failures with their message |
| Routes.StatusOr500 | backend/app/routes.py:40 | Python's `code or 500`: the code when present and non-zero, else 500; never 0 |
| Routes.AccountRouteError | backend/app/routes.py:29-43 | not found 404, API key 403, rate limit 429, other Riot exceptions their code or 500, each with the exception's message; anything else 500 "Internal server error" |
| Routes.GenericRouteError | backend/app/routes.py:86-91 | Riot exceptions their code or 500 with their message; anything else 500 "Internal server error" |
| Routes.RouteErrorsAgree | backend/app/routes.py:29-43 | the account routes' explicit clauses answer exactly as the generic ones do: each subclass with its own status |
| Routes.RouteErrorShape | backend/app/routes.py:86-91 | a route never answers status 0 and never reveals the message of a non-Riot exception |
| Routes.Success | backend/app/models.py:46-51 | the success envelope: success set, the data present, no error and no status code |
| Routes.Respond | backend/app/routes.py:26-43 | the envelope exactly when the service succeeds, else the HTTP error of the failure |
| Routes.Served | backend/app/routes.py:27 | a guard's ValueError is the route's failure; past the guard the client's answer is |
| Routes.ClientResult | backend/app/routes.py:84 | the client's value, or its error as a route failure |
| Routes.RiotResult | backend/app/routes.py:56 | the aggregate's value, or its Riot exception as a route failure |
| Routes.GetAccountInfo | backend/app/routes.py:17-43 | a guard error is answered 500 "Internal server error"; otherwise the client's answer is enveloped or mapped to its HTTP error |
| Routes.GetCompletePlayerInfo | backend/app/routes.py:46-72 | likewise for the complete player information |
| Routes.PlayerNotFoundIs404 | backend/app/routes.py:58-60 | an unknown player is answered 404 with the account's not-found message |
| Routes.GetSummonerByPuuid | backend/app/routes.py:75-91 | a PUUID not of 78 characters is answered 500; otherwise the client's answer |
| Routes.ListEnvelopeAsWritten | backend/app/models.py:46-51 | `data: Optional[dict]` as written: a failure and an empty list pass unchanged; a non-empty list becomes a validation failure |
| Routes.GetLeagueEntries | backend/app/routes.py:94-110 | as written: a blank id is answered 500, and so is any non-empty ranking list (the envelope rejects it); otherwise the client's answer |
| Routes.GetLeagueEntriesCorrected | backend/app/routes.py:94-110 | with a list-typed envelope: a blank id is answered 500; otherwise the client's answer, and its rankings are sent whole |
| Routes.GetMatchHistory | backend/app/routes.py:113-131 | as written: a start below 0 or a count outside 1-100 is rejected with 422 before the handler; then a bad PUUID or any non-empty history is answered 500; otherwise the client's answer |
| Routes.ListRoutesSendOnlyEmpty | backend/app/routes.py:102-125 | as written, whenever the rankings or the history route sends an envelope its data is the empty list |
| Routes.NonEmptyHistoryIs500 | backend/app/routes.py:123-131 | a well-formed history request whose client answers one match id is answered 500 "Internal server error" |
| Routes.GetMatchHistoryCorrected | backend/app/routes.py:113-131 | with a list-typed envelope: the same 422 and PUUID checks; then the client's answer, its match ids sent whole |
| Routes.HistoryServiceBoundsUnreachable | backend/app/routes.py:117-118 | behind the query bounds the service's start and count checks never fire |
| Routes.HistoryQueryValid | backend/app/routes.py:117-118 | FastAPI's query bounds: start at least 0, count from 1 to 100 |
| Routes.GetMatchDetails | backend/app/routes.py:134-150 | an id the corrected guard rejects is answered 500; otherwise the client's answer |
| Routes.ValidationErrorsAre500 | backend/app/routes.py:41-43 | every guard error reaches the caller as 500 "Internal server error", whatever its message |
| Routes.RiotStatusPassesThrough | backend/app/routes.py:38-40 | a Riot exception with a non-zero status is answered with that status and its message |

## Left out

- Rendering: markup, CSS classes, icons, animations, skeletons, error boundaries and `onError` image fallbacks. A view is modelled only as which branch is shown and with what data.
- Number formatting: `toFixed`, `formatNumber`, `Math.round` of gold, CS per minute and the win-rate circle. The win rate of an entry with no games divides by zero in the source.
- KdaStats.CalculateKda: returns the exact ratio, not its two-decimal text.
- Case mapping covers ASCII letters only. JavaScript's and Python's full Unicode `toUpperCase`, `toLowerCase` and `upper()` are not modelled.
- Lookup tables are plain maps. JavaScript object-prototype keys such as "constructor" are not modelled: in the source they would find inherited members.
- RiotClient.RiotApiClient.RateLimitWait: the clock is taken to advance by exactly the sleep. The real `datetime.now()` after `time.sleep` may be later.
- Routes.ListEnvelopeAsWritten: an empty list is taken to pass the `Optional[dict]` field, as pydantic 1 coerces it to an empty dict; pydantic 2 rejects it too, answering 500. The pydantic version is not part of this model. A non-empty list is rejected by both and answered 500 (a match id is longer than two characters and a league entry has 13 fields, so no non-empty list of either coerces to a dict).
- Routes.GetAccountInfo and the other routes take region, start and count as required arguments. FastAPI's query defaults (region "EUW", start 0, count 20; backend/app/routes.py:97 and 116-118) are not modelled.
- SearchForm.HasValidFormat: counts code points. JavaScript's `.length` (SearchForm.tsx:72) counts UTF-16 code units, so a name with characters outside the Basic Multilingual Plane is measured differently.
- PlayersList.TruncateName: `.length` and `.slice` (PlayersList.tsx:20) are modelled on code points, not UTF-16 code units, so an emoji name can be cut at a different place.
- FastAPI's 422 body (the validation detail) is not modelled. `Routes.QueryRejected` carries only the status.
- Logging, the `print` debugging lines and `console` output are left out.
- The environment's API key check in the client's constructor is left out. So are the request headers and the 10-second timeout value: a timeout is an outcome.
- JSON decoding of a 200 response is taken to succeed. A body that does not fit the record is not modelled.
- Async interleaving is left out. Each request is one awaited outcome, and no two steps of a hook or page overlap. The same holds for timers in `useMatchData`.
- The React Query cache itself (deduplication, garbage-collection times, invalidation and prefetch hooks) is left out. Only the keys, the `enabled` rule, the stale times, the cursor and the cache write after a search are modelled.
- ApiClient.MatchHistoryUrl, ApiClient.MatchDetailsUrl and Queries.MatchHistoryQueryUrl take the endpoint path from the caller (`historyPath`, `matchPath`). `config/api.ts` defines no `MATCH_HISTORY` or `MATCH_DETAILS` builder, so as written `services/api.ts:88` and `:96` and `hooks/useMatchData.ts:29` call an undefined property and throw a TypeError before any request is made; that failure is not modelled.
- MatchCard.View: queue 1710 counts as Arena here, as in the source. The player list and the expanded view use only 1700 (`PlayersList.RenderList`, `ExpandedMatchDetails.RenderTeams`).
- `frontend/src/hooks/useMatchData.ts` (a fetch behind a 300 ms timer), `GameStats.tsx`, the static pages, the error and loading components and the routing in `App.tsx` are not part of this model.
- `backend/app/dependencies.py` and `backend/main.py` (dependency wiring, CORS, app start-up) are not part of this model.
- PlayerInfo.QueueIconOf: the icon glyphs are an enumeration, not the emoji text.
- DataDragon holds only the CDN root and the pinned version "14.24.1". It has no operations.
- Routes.GetMatchDetails and Services.GetMatchDetails use the corrected match id guard. The guard as written is `Services.MatchIdErrorAsWritten` (see Findings).

## Findings

| source | as written | input that shows it | evidently intended | confidence | as-written member | corrected member |
|---|---|---|---|---|---|---|
| frontend/src/utils/arenaTeams.ts:40-51 | the formatter puts "Team " before every name except "Unknown Team", but the fallback name of an unlisted sub-team id is already "Team <id>" | sub-team id 9 is shown as "Team Team 9" | a single "Team " prefix: "Team 9" | high; not executed | ArenaTeams.DoubledTeamPrefix | ArenaTeams.FormattedArenaTeamName |
| backend/app/services.py:98-99 | a match id must start with the upper-cased region code | the EUNE id "EUN1_7460265918" with region "EUNE" is rejected; so are the LAN, LAS and OCE ids ("LA1_", "LA2_", "OC1_") | the id starts with the region's platform id and "_", as Riot match ids do ("EUW1_", "EUN1_", "LA1_") | high; not executed | Services.EuneMatchIdRejected | Services.MatchIdError |
| backend/app/models.py:49 | `ApiResponse.data` is declared `Optional[dict]`, but the rankings route (routes.py:104) and the history route (routes.py:125) pass a list; the validation error is caught by `except Exception` and answered 500 | a well-formed history request whose Riot answer is ["EUW1_7460265918"] gets 500 "Internal server error" | `data` accepts a list, and the rankings and match ids are sent | high; not executed | Routes.NonEmptyHistoryIs500 | Routes.GetMatchHistoryCorrected |
