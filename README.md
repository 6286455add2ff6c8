# door-knocker, modelled in Dafny

door-knocker is a prospecting dashboard. A campaign backend finds leads (businesses) and contacts them. The dashboard follows the campaign through a Server-Sent Events stream, generates mock leads around a location, files leads into folders, and draws statistics, a map HUD and a mission history. It also answers chat commands about the leads.

This project models the logic of that dashboard and proves what it promises:

- **`monitor.dfy`** is the `monitorEvents` stream consumer. A `Connection` class holds the handle's `isActive` flag, the abort flag, the read loop's text buffer and the calls made to the callbacks.
  - `FeedChunk` appends a decoded chunk to the buffer, keeps the text after the last newline and runs the complete lines through the line parser. The parser's loop body is `HandleLine`.
  - The parser works line by line: `field: value` lines build an event marker and a data accumulator, and a blank line ends the record.
  - A record's data is decoded either as a self-describing `{campaign_id, event, data}` object or as a bare payload with default values.
  - The client-side filter decides whether `onEvent` fires.
  - `Connect`, `Read`, `Fail` and `Close` model the status checks, the read loop, the `catch`/`finally` and `close()`.
  - The pure side covers the query string of the monitor URL and the `is*Event` type guards.
  - Proofs: the read loop equals a framing of lines into records followed by decoding and filtering. Most of the lemmas rest on that equation.
- **`generate_leads.dfy`** covers three functions:
  - `generateLeads` pushes `count` leads and sorts them by descending score. `Math.random` and `Date.now` are supplied as oracle sequences.
  - `generateLeadName` works by index arithmetic.
  - `geocodeLocation` returns the first match by substring over an ordered table.
- **`leads_manager.dfy`** covers the `LeadsManager` component.
  - The selection updates (`toggleLeadSelection`, `selectAllInFolder`) and the folder grouping of `loadFolders` are functions.
  - A `LeadsManager` class holds the component state. Its handlers (`createFolder`, `deleteFolder`, `moveLeadsToFolder`, `handleDragStart`, `handleDrop`, the move select) update that state and return the HTTP requests they issue.
- **`stats_panel.dfy`** covers the "Scan Overview" figures: the high-score count and percentage, the five score buckets, the bar scale and the bar widths.
- **`map_panel.dfy`** covers the map:
  - region classification in `getHemisphere`;
  - the world grid, with major lines every 30 degrees;
  - the structure of the tactical grid and of the radar ring;
  - the HUD's score tiers.
- **`missions_history.dfy`** covers the "Last Missions" view, `missions.slice(-3).reverse()`.
- **`chat_route.dfy`** covers the `POST` handler of the chat API:
  - the case-insensitive command router;
  - the lead queries, over a store given as a sequence;
  - the good-email reply text, written with a loop;
  - the queued contacts;
  - the stored messages and their metadata;
  - the 500 reply when any awaited call throws.
- **`text.dfy`** and **`lists.dfy`** write out the JavaScript string and array operations the code relies on. For strings these are `trim`, `split`, `join`, `indexOf`, `includes`, decimal `toString`, and `toLowerCase`/`toUpperCase` for ASCII and Latin-1. For arrays they are `filter` and a prefix `take`.

## Model

| member | source | states |
|---|---|---|
| Text.TrimStartSpec | lib/api/monitor.ts:269-270 | `trim`'s left half removes exactly a whitespace prefix; what is left starts with non-whitespace |
| Text.TrimEndSpec | lib/api/monitor.ts:269-270 | `trim`'s right half removes exactly a whitespace suffix; what is left ends with non-whitespace |
| Text.TrimEmptyIff | lib/api/monitor.ts:199 | `line.trim() === ''` holds exactly when every character is ECMAScript whitespace or a line terminator |
| Text.TrimKeeps | lib/api/monitor.ts:270 | a value with no whitespace at either end survives `trim` unchanged |
| Text.IndexOf | lib/api/monitor.ts:266-267 | `indexOf` gives -1 exactly when the character is absent, otherwise its first position |
| Text.Split | lib/api/monitor.ts:192 | `split('\n')` yields at least one part and no part holds the separator |
| Text.JoinSplit | lib/api/monitor.ts:192-193 | joining the split parts with the separator gives back the text, so splitting loses nothing |
| Text.SplitJoin | lib/api/monitor.ts:192 | splitting a join of separator-free parts gives back those parts |
| Text.JoinAppend | lib/api/monitor.ts:276 | joining one more part adds the separator and that part |
| Text.JoinIsTerminatedPlusLast | lib/api/monitor.ts:192-193 | a split text is its complete lines, each followed by a newline, then the last part |
| Text.ContainsIff | lib/generateLeads.ts:118 | `includes` holds exactly when the needle occurs at some position |
| Text.ContainsPrefixOfNeedle | app/api/chat/route.ts:31 | a text that includes `a + b` includes `a` |
| Text.NatToString | lib/generateLeads.ts:83 | the decimal text of a number is non-empty digits with no leading zero |
| Text.DecimalRoundTrip | lib/generateLeads.ts:49-51 | reading the decimal text of `n` back as a number gives `n` |
| Text.NatToStringInjective | lib/generateLeads.ts:83 | different numbers have different decimal texts |
| Text.IntToString | lib/api/monitor.ts:141 | the text of a negative integer is `-` followed by the digits of its magnitude |
| Text.LowerChar | app/api/chat/route.ts:28 | `toLowerCase` maps `A`-`Z` to `a`-`z` and keeps lower-case letters and whitespace |
| Text.ToLower | app/api/chat/route.ts:28 | `toLowerCase` keeps the length and maps every character independently |
| Text.UpperChar | lib/generateLeads.ts:51 | `toUpperCase` of a character is non-empty and maps `a`-`z` to `A`-`Z` |
| Text.UpperFirst | lib/generateLeads.ts:51 | `charAt(0).toUpperCase() + slice(1)` keeps everything after the first character; empty stays empty |
| Lists.Filter | components/leads/LeadsManager.tsx:137 | `filter` keeps exactly the elements that pass, and no more elements than it was given |
| Lists.FilterAppend | components/leads/LeadsManager.tsx:144 | filtering a concatenation is concatenating the filtered halves |
| Lists.FilterKeepsAll | components/leads/LeadsManager.tsx:144 | a filter that keeps every element returns the list unchanged |
| Lists.FilterDropsAll | components/leads/LeadsManager.tsx:144 | a filter that keeps no element returns the empty list |
| Lists.Take | app/api/chat/route.ts:38 | `take: n` returns the first `min(n, length)` rows |
| Monitor.QueryString | lib/api/monitor.ts:139-147 | `queryParams.toString()`: the `campaign_id` pair, then the `event` pair, each only when set, joined by `&`; QueryStringRoundTrip and QueryCampaignDecodes prove that the query splits back into exactly those pairs and that the campaign pair reads back as the id |
| Monitor.IsEventOf | lib/api/monitor.ts:335-357 | the six type guards: the envelope's `event` equals the kind's wire name; GuardsExclusive proves that at most one guard holds of an envelope |
| Monitor.Classify | lib/api/monitor.ts:199-270 | a line is blank when `trim` leaves nothing, skipped when it has no colon, otherwise a field split at its first colon with both sides trimmed; ClassifyField and FieldSplitsAtFirstColon state the field case |
| Monitor.BareCampaignId | lib/api/monitor.ts:235 | the record's campaign id, else the filter's, else 0, each skipped when falsy: the filter's non-zero id, else 0, since the record never sets one; BareDefaults states the envelope that results |
| Monitor.BareEvent | lib/api/monitor.ts:236 | the first truthy of the record's event, the filter's and '': the record's non-empty `event:` value, else the filter's event, else ""; BareDefaults states the envelope that results |
| Monitor.ToEnvelope | lib/api/monitor.ts:207-238 | a self-describing payload gives its own three fields; any other payload becomes `data` with the defaults; SelfDescribingIgnoresMarker, BareDefaults, BareNeverFailsCampaignFilter and BareWithoutEventIsUnknown state each case |
| Monitor.Passes | lib/api/monitor.ts:214-227 | the client filter: every criterion that is set must equal the envelope's field; BlankLineEndsRecord states that a decoded record is emitted exactly when it passes |
| Monitor.Step | lib/api/monitor.ts:198-282 | one turn of the line loop: a blank line closes the record (decode, then emit or log), a line with no colon is skipped, a field updates the record; StepAppends, NoColonLineIgnored, BlankLineEndsRecord and StepDataLine state each case |
| Monitor.Process | lib/api/monitor.ts:195-282 | the loop over the complete lines of one chunk from a fresh record; ProcessSnoc, DataLinesJoin and ProcessIsFramedThenDecoded prove it equal to framing the lines into records and then decoding and filtering each |
| Monitor.IntToStringHasNoAmpersand | lib/api/monitor.ts:141 | a campaign id's text never holds the `&` that separates query pairs |
| Monitor.QueryPairsSeparatorFree | lib/api/monitor.ts:139-145 | no query pair holds `&` |
| Monitor.QueryStringRoundTrip | lib/api/monitor.ts:139-148 | the URL has a `?query` exactly when a parameter was given; the query splits on `&` back into the pairs, `campaign_id` first and `event` last |
| Monitor.QueryCampaignDecodes | lib/api/monitor.ts:140-142 | a non-negative campaign id in the query reads back as the same number |
| Monitor.GuardsExclusive | lib/api/monitor.ts:335-357 | at most one `is*Event` guard holds of an envelope |
| Monitor.ClassifyField | lib/api/monitor.ts:266-270 | a non-blank line with a colon at `i` is the field named by the trimmed text before `i`, with the trimmed text after it as value |
| Monitor.SelfDescribingIgnoresMarker | lib/api/monitor.ts:204-212 | a self-describing payload gives its own `campaign_id`, `event` and `data` (absent data stays absent), whatever `event:` line the record had and whatever the filter |
| Monitor.BareDefaults | lib/api/monitor.ts:233-238 | a bare payload becomes the data; the campaign id is the filter's or 0; the event is the record's marker, else the filter's event, else `''` |
| Monitor.BareNeverFailsCampaignFilter | lib/api/monitor.ts:235-245 | a bare payload always carries the campaign filter's own id, so it never fails that test |
| Monitor.BareWithoutEventIsUnknown | lib/api/monitor.ts:236 | a bare payload with no `event:` line and no event filter matches no type guard |
| Monitor.ProcessSnoc | lib/api/monitor.ts:198 | the `for` loop over lines is one step per line, in order |
| Monitor.StepAppends | lib/api/monitor.ts:198-282 | a line only appends to what was delivered and logged before it |
| Monitor.ChunkConservation | lib/api/monitor.ts:189-193 | the buffered text is exactly its complete lines, each with its newline, then the kept text, which has no newline |
| Monitor.UnterminatedTailPending | lib/api/monitor.ts:192-193 | the text after the last newline stays in the buffer and is not parsed as a line |
| Monitor.NoColonLineIgnored | lib/api/monitor.ts:266-267 | a non-blank line without a colon changes nothing |
| Monitor.FieldSplitsAtFirstColon | lib/api/monitor.ts:266-270 | a line splits at its first colon and both sides are trimmed |
| Monitor.BlankLineEndsRecord | lib/api/monitor.ts:199-262 | a whitespace-only line resets the record; empty data emits nothing; unparsable data is only logged; parsed data is emitted exactly when it passes the filter |
| Monitor.DataLines | lib/api/monitor.ts:274-276 | one `data:` line per value |
| Monitor.DataLinesJoin | lib/api/monitor.ts:274-276 | consecutive `data:` lines accumulate their values joined by newlines and emit nothing |
| Monitor.StepDataLine | lib/api/monitor.ts:274-276 | a `data:` line appends its value after a newline only when data is already there, and changes nothing else |
| Monitor.FieldLineParses | lib/api/monitor.ts:266-273 | a `name: value` line is the field `name` with value `value` |
| Monitor.DataLineParses | lib/api/monitor.ts:266-276 | a `data: v` line is the `data` field with value `v` |
| Monitor.TrimAfterSpace | lib/api/monitor.ts:270 | the single space after the colon is removed by the trim |
| Monitor.GateAppend | lib/api/monitor.ts:214-230 | filtering envelope by envelope distributes over concatenation |
| Monitor.GateNoFilter | lib/api/monitor.ts:217 | without filter options every envelope passes |
| Monitor.StepIsFrameStep | lib/api/monitor.ts:198-282 | each parser step is a framing step followed by decoding and filtering of the completed record |
| Monitor.ProcessIsFramedThenDecoded | lib/api/monitor.ts:198-282 | the chunk loop delivers the decoded, filter-passing completed records in line order, and logs exactly the unparsable ones |
| Monitor.NoFilterDeliversEveryRecord | lib/api/monitor.ts:214-254 | with no filter every decoded record reaches `onEvent` exactly once, in line order |
| Monitor.DecodedIgnoresFilter | lib/api/monitor.ts:207-212 | when every payload is self-describing, the filter does not change the envelopes built |
| Monitor.SelfDescribingFilterIsDownstream | lib/api/monitor.ts:214-231 | for self-describing payloads, filtering in the client equals filtering everything received without a filter |
| Monitor.OneRecord | lib/api/monitor.ts:199-276 | `data:` lines then an empty line deliver the parsed join of the values if it passes the filter, and nothing otherwise |
| Monitor.BareFilterIsNotDownstream | lib/api/monitor.ts:233-254 | a bare record under a campaign filter for `c` is delivered as campaign `c`, while without the filter it is campaign 0 and a later filter drops it |
| Monitor.FramingExact | lib/api/monitor.ts:189-193 | newline-ended lines and unterminated text frame back into exactly those lines and that text |
| Monitor.FeedFromSnoc | lib/api/monitor.ts:181-198 | each further chunk processes the complete lines of buffer plus chunk, with a fresh record |
| Monitor.DataLineSingle | lib/api/monitor.ts:274 | a `data:` line holds no newline when its value holds none |
| Monitor.DataChunkDeliversNothing | lib/api/monitor.ts:190-201 | a chunk holding one `data:` line and its newline leaves nothing buffered and emits nothing, since no blank line closes the record |
| Monitor.BlankChunkDeliversNothing | lib/api/monitor.ts:195-201 | a chunk holding only a newline is one blank line, which closes the fresh, empty record and emits nothing |
| Monitor.RecordSplitAcrossChunksIsLost | lib/api/monitor.ts:195-196 | a record whose blank line arrives in the next chunk is never delivered, under any filter |
| Monitor.RecordInOneChunkIsDelivered | lib/api/monitor.ts:189-231 | the same text in one chunk delivers the record |
| Monitor.WireIsPlain | lib/types/monitor.ts:1-10 | every event name is a word that trimming keeps whole |
| Monitor.WireHasNoColon | lib/types/monitor.ts:1-10 | no event name holds a colon |
| Monitor.WireHasNoAmpersand | lib/api/monitor.ts:143-145 | no event name holds `&`, so the `event` pair never splits |
| Monitor.EventLineParses | lib/api/monitor.ts:272-273 | an `event:` line naming a kind is the `event` field with that kind's name |
| Monitor.EventFilteredBareRecord | lib/api/monitor.ts:233-254 | an `event:` line, a bare payload and a blank line under an event filter for that kind deliver one envelope, with campaign 0 |
| Monitor.Connection.constructor | lib/api/monitor.ts:137-152 | the handle starts active, not aborted, with an empty buffer, the built URL and no callbacks made |
| Monitor.Connection.Fail | lib/api/monitor.ts:284-298 | an `AbortError` ends silently; any other error reaches `onError` once or is logged when there is none; the flag always goes down |
| Monitor.Connection.Connect | lib/api/monitor.ts:158-175 | a non-ok status or a missing body fails before any read with its message; an aborted fetch ends silently; otherwise reading starts |
| Monitor.Connection.FeedChunk | lib/api/monitor.ts:189-282 | the buffer keeps the text after the last newline, and the delivered and logged records are those of the complete lines; the flag is not consulted |
| Monitor.Connection.HandleLine | lib/api/monitor.ts:198-282 | one pass of the line loop updates the marker, the data and the callbacks as the parser step does |
| Monitor.Connection.Read | lib/api/monitor.ts:181-189 | the flag is tested before each read, and a lowered flag ends the stream as cancelled; done ends the stream and drops the buffer; a chunk is fed, delivering the envelopes of its complete lines and logging their unparsable data; a failed read goes through the `catch`: an `AbortError` ends it silently, any other error is passed to `onError` when given and logged otherwise; in each case nothing else changes |
| Monitor.Connection.ReadChunks | lib/api/monitor.ts:181-283 | the loop fed chunk after chunk delivers, keeps buffered and logs as unparsable exactly what the chunk-by-chunk stream function gives, and touches neither callback log |
| Monitor.Connection.Close | lib/api/monitor.ts:305-313 | the flag goes down and the controller aborts; nothing else changes, so a second call changes nothing |
| GenerateLeads.LeadName | lib/generateLeads.ts:43-51 | prefix, industry with its first character upper-cased, suffix, then `#` and a number taken from the random draw; LeadNameShape proves each part and that the number is 1 to 50 |
| GenerateLeads.Insert | lib/generateLeads.ts:95 | one step of the stable descending sort: the lead goes after every lead scoring at least as much; InsertOrdered, InsertMultiset and InsertBounded prove order, permutation and bound |
| GenerateLeads.SortByScore | lib/generateLeads.ts:95 | `leads.sort((a, b) => b.score - a.score)` as a stable insertion sort; SortByScoreCorrect proves the result ordered by descending score and a permutation of the input |
| GenerateLeads.Normalize | lib/generateLeads.ts:114 | `location.toLowerCase().trim()`; BlankNormalizesEmpty proves that a blank location normalizes to the empty text |
| GenerateLeads.FirstMatch | lib/generateLeads.ts:117-124 | the coordinates of the first entry whose key and the input contain one another, else Monterrey; FirstMatchAt, NoMatchIsMonterrey and FirstMatchInTable state both outcomes |
| GenerateLeads.FloorScaled | lib/generateLeads.ts:79-80 | `Math.floor(Math.random() * n)` is an index below `n` |
| GenerateLeads.NameNumber | lib/generateLeads.ts:49 | the number after `#` lies in 1..50 |
| GenerateLeads.LeadNameShape | lib/generateLeads.ts:43-51 | a name starts with `prefixes[i % 10]`, holds the industry with only its first character changed, and ends in `#n` with n in 1..50 |
| GenerateLeads.NameComboDistinct | lib/generateLeads.ts:47-48 | the first eighty indices get eighty different prefix and suffix pairs |
| GenerateLeads.NameComboPeriod | lib/generateLeads.ts:47-48 | index `i + 80` gets the same prefix and suffix as index `i` |
| GenerateLeads.HouseNumber | lib/generateLeads.ts:59 | the house number lies in 100..5099 |
| GenerateLeads.TrailingDigitsAfterDash | lib/generateLeads.ts:83 | an id ends in exactly the digits of its index |
| GenerateLeads.DashSuffixInjective | lib/generateLeads.ts:83 | two ids ending in `-` and an index are equal only for equal indices |
| GenerateLeads.LeadIdsDistinct | lib/generateLeads.ts:83 | ids built for different loop indices differ, whatever the clock read |
| GenerateLeads.MakeLead | lib/generateLeads.ts:78-91 | each pushed lead has a score in 0..99 and the industry passed in |
| GenerateLeads.Pushed | lib/generateLeads.ts:77-92 | the loop pushes exactly `count` leads |
| GenerateLeads.PushedAt | lib/generateLeads.ts:77-92 | the lead at position `k` is the one built in turn `k` |
| GenerateLeads.PushedDistinct | lib/generateLeads.ts:83 | the pushed leads have pairwise distinct ids |
| GenerateLeads.InsertOrdered | lib/generateLeads.ts:95 | inserting into a score-ordered list keeps it ordered |
| GenerateLeads.InsertMultiset | lib/generateLeads.ts:95 | inserting adds exactly the one lead |
| GenerateLeads.SortByScoreCorrect | lib/generateLeads.ts:95 | the sort returns the same leads, ordered by non-increasing score |
| GenerateLeads.PermutationKeepsDistinctIds | lib/generateLeads.ts:95 | sorting keeps the ids distinct |
| GenerateLeads.GenerateLeadList | lib/generateLeads.ts:68-96 | returns exactly `count` leads: the pushed ones, sorted by non-increasing score, with scores in 0..99, the given industry and distinct ids |
| GenerateLeads.PushedFields | lib/generateLeads.ts:79-85 | every pushed lead has a score in 0..99 and the given industry |
| GenerateLeads.PermutationKeepsFields | lib/generateLeads.ts:95 | sorting keeps those field ranges |
| GenerateLeads.FirstMatchAt | lib/generateLeads.ts:117-121 | the answer is the entry at the lowest index whose key matches |
| GenerateLeads.NoMatchIsMonterrey | lib/generateLeads.ts:123-124 | with no matching key the answer is the Monterrey default |
| GenerateLeads.GeocodeLocation | lib/generateLeads.ts:102-125 | the loop returns the first table entry whose key contains the lower-cased, trimmed input or is contained in it, else Monterrey; never null |
| GenerateLeads.BlankNormalizesEmpty | lib/generateLeads.ts:114 | a whitespace-only location normalizes to `''` |
| GenerateLeads.BlankLocationIsMonterrey | lib/generateLeads.ts:105-119 | a blank location resolves to the first key, `monterrey`, since every key contains `''` |
| GenerateLeads.FirstMatchInTable | lib/generateLeads.ts:104-124 | the answer is always one of the table's coordinates or the default |
| LeadsManager.Toggle | components/leads/LeadsManager.tsx:135-139 | drop the id when selected, else append it; ToggleFlips, ToggleKeepsOthers, ToggleAppends and ToggleTwice prove that only that id changes membership and that two toggles cancel |
| LeadsManager.SelectAll | components/leads/LeadsManager.tsx:141-148 | when the whole folder is selected, remove its ids, else append them; SelectAllEffect proves both outcomes |
| LeadsManager.Falsy | components/leads/LeadsManager.tsx:51 | `!lead.folderId`: no folder or the empty string; GroupContents and OrphanInNoGroup prove which group holds such a lead |
| LeadsManager.ToggleFlips | components/leads/LeadsManager.tsx:135-139 | after a toggle the id is selected exactly when it was not; every other id keeps its membership |
| LeadsManager.ToggleKeepsOthers | components/leads/LeadsManager.tsx:135-139 | the other ids keep their order and repetitions |
| LeadsManager.ToggleAppends | components/leads/LeadsManager.tsx:137 | an unselected id is appended at the end |
| LeadsManager.ToggleTwice | components/leads/LeadsManager.tsx:135-139 | toggling an unselected id twice restores the selection |
| LeadsManager.Ids | components/leads/LeadsManager.tsx:146 | the folder's ids, in lead order |
| LeadsManager.SelectAllEffect | components/leads/LeadsManager.tsx:141-148 | if all the folder's ids are selected, exactly they leave the selection; otherwise the old selection stays in front and all of them are selected |
| LeadsManager.SelectAllEmptyFolder | components/leads/LeadsManager.tsx:142-144 | a folder with no leads leaves the selection unchanged |
| LeadsManager.SelectAllTwice | components/leads/LeadsManager.tsx:141-148 | selecting an unselected folder twice restores the selection |
| LeadsManager.SelectAllDuplicates | components/leads/LeadsManager.tsx:146 | already selected ids are appended again, so duplicates arise |
| LeadsManager.Group | components/leads/LeadsManager.tsx:46-55 | one group per listed folder, plus the final one |
| LeadsManager.GroupContents | components/leads/LeadsManager.tsx:46-55 | each folder group holds exactly the leads filed under its id; the final `unassigned` group holds exactly those with a falsy folder id |
| LeadsManager.OrphanInNoGroup | components/leads/LeadsManager.tsx:46-55 | a lead filed under an unlisted folder appears in no group |
| LeadsManager.MoveRequests | components/leads/LeadsManager.tsx:101-109 | one `PUT` per id, in order, each to the same target |
| LeadsManager.Target | components/leads/LeadsManager.tsx:129 | the target is `null` exactly for `unassigned` |
| LeadsManager.LeadsManager.constructor | components/leads/LeadsManager.tsx:29-34 | no folders, no selection, no dragged lead, an empty name and the dialog closed |
| LeadsManager.LeadsManager.LoadFolders | components/leads/LeadsManager.tsx:40-60 | a successful listing regroups the leads; a failed one keeps the folders |
| LeadsManager.LeadsManager.ToggleLeadSelection | components/leads/LeadsManager.tsx:135-139 | the selection becomes its toggle |
| LeadsManager.LeadsManager.SelectAllInFolder | components/leads/LeadsManager.tsx:141-148 | the selection becomes its select-all for the folder's ids |
| LeadsManager.LeadsManager.SetNewFolderName | components/leads/LeadsManager.tsx:32 | the dialog's text field holds the typed name |
| LeadsManager.LeadsManager.CreateFolder | components/leads/LeadsManager.tsx:62-80 | a blank name does nothing; a failed post changes nothing; a successful one clears the dialog and reloads |
| LeadsManager.LeadsManager.DeleteFolder | components/leads/LeadsManager.tsx:82-97 | `unassigned` is never deleted; a successful delete reloads and notifies the parent |
| LeadsManager.LeadsManager.MoveLeadsToFolder | components/leads/LeadsManager.tsx:99-116 | one update per id; if none fails, reload, clear the selection and notify; if one fails, nothing else |
| LeadsManager.LeadsManager.HandleDragStart | components/leads/LeadsManager.tsx:118-120 | the dragged lead is remembered |
| LeadsManager.LeadsManager.HandleDrop | components/leads/LeadsManager.tsx:126-133 | no dragged lead means no request; otherwise one `PUT` moves it to the target (`null` for `unassigned`) and it is forgotten; on success the folders are reloaded, the selection is cleared and the parent is notified when it listens; on failure nothing else changes |
| LeadsManager.LeadsManager.MoveSelection | components/leads/LeadsManager.tsx:223-226 | one `PUT` per selected lead moves it to the chosen folder; on success the folders are reloaded, the selection is cleared and the parent is notified when it listens; on failure the folders and selection are unchanged and nobody is notified |
| StatsPanel.InBucket | components/insights/StatsPanel.tsx:15-21 | the filter of each of the five bars, as written; BucketOf and BucketsDisjoint prove that every score meets exactly one |
| StatsPanel.HighScoreLeads | components/insights/StatsPanel.tsx:11 | the count of scores above 80 never exceeds the number of leads |
| StatsPanel.Round | components/insights/StatsPanel.tsx:12 | `Math.round` gives the integer within half of its argument, halves up |
| StatsPanel.HighScorePercentage | components/insights/StatsPanel.tsx:10-12 | 0 without leads; otherwise within 0.5 of the exact share of high scores; always 0..100 |
| StatsPanel.BucketOf | components/insights/StatsPanel.tsx:15-21 | every score lands in a bar |
| StatsPanel.BucketsDisjoint | components/insights/StatsPanel.tsx:15-21 | a score lands in one bar only |
| StatsPanel.Count | components/insights/StatsPanel.tsx:16-20 | a bar counts no more than the number of leads |
| StatsPanel.BucketsCoverAll | components/insights/StatsPanel.tsx:15-21 | the five counts add up to `totalLeads` |
| StatsPanel.ScoreEightyBoundary | components/insights/StatsPanel.tsx:11-17 | a score of exactly 80 counts in `80-89` but not as a high score |
| StatsPanel.HighScoreBetweenBars | components/insights/StatsPanel.tsx:11-17 | the high count lies between the `90-100` count and the `90-100` plus `80-89` counts |
| StatsPanel.RangeCounts | components/insights/StatsPanel.tsx:15-23 | the counts in bar order |
| StatsPanel.MaxOf | components/insights/StatsPanel.tsx:23 | `Math.max` bounds every value and is one of them |
| StatsPanel.MaxCount | components/insights/StatsPanel.tsx:23 | the scale is at least 1, at least every count, and is 1 or some count |
| StatsPanel.BarWidth | components/insights/StatsPanel.tsx:60 | every bar width lies in 0..100 percent, with no division by zero |
| StatsPanel.FullestBarIsFull | components/insights/StatsPanel.tsx:23-60 | with any lead, some bar is drawn at full width |
| StatsPanel.MaxBarIsFull | components/insights/StatsPanel.tsx:23-60 | a bar whose count is the scale is drawn at 100 percent |
| StatsPanel.CountPositive | components/insights/StatsPanel.tsx:15-21 | the bar of a lead's score is not empty |
| MapPanel.GetHemisphere | components/map/MapPanel.tsx:179-192 | hemisphere by the sign of the latitude, region by the first box of the if-chain holding the point; HemisphereIffNorth, RegionIsFirstMatch, AfricaShadowed and AfricaReachable state both parts |
| MapPanel.IsMajor | components/map/MapPanel.tsx:86 | a zero truncating remainder by 30, or the zero line; MajorIffMultipleOf30 proves it holds exactly for multiples of 30 |
| MapPanel.GlobalGrid | components/map/MapPanel.tsx:85-114 | 13 parallels from -90 then 25 meridians from -180, every 15 degrees; GlobalGridShape proves the axes, the ranges and that the major lines are the multiples of 30 |
| MapPanel.HemisphereIffNorth | components/map/MapPanel.tsx:180 | the hemisphere is `Norte` exactly when the latitude is not negative |
| MapPanel.RegionIsFirstMatch | components/map/MapPanel.tsx:181-191 | the if-chain is the first match over the ordered table of boxes, `Océano` when none holds the point |
| MapPanel.FirstBoxIff | components/map/MapPanel.tsx:184-189 | a region is reported exactly when its box holds the point and no earlier box does |
| MapPanel.FirstBoxNotIn | components/map/MapPanel.tsx:181-189 | a region that is not in the table is never reported |
| MapPanel.AfricaShadowed | components/map/MapPanel.tsx:188-189 | `África` is never reported for longitudes 20..50 |
| MapPanel.AfricaReachable | components/map/MapPanel.tsx:184-189 | below latitude 35 a point of the Africa box is `África` exactly when its longitude is outside 20..50 |
| MapPanel.JsRem | components/map/MapPanel.tsx:86 | JavaScript's `%` takes the sign of the dividend and stays below the divisor in magnitude |
| MapPanel.MajorIffMultipleOf30 | components/map/MapPanel.tsx:86 | a line is major exactly when its degree is a multiple of 30 |
| MapPanel.CreateGlobalGridLines | components/map/MapPanel.tsx:81-120 | the loops push the 38 lines of the world grid |
| MapPanel.GlobalGridShape | components/map/MapPanel.tsx:85-114 | 13 parallels from -90 to 90, then 25 meridians from -180 to 180, every 15 degrees; major exactly on multiples of 30 |
| MapPanel.CreateGridLines | components/map/MapPanel.tsx:40-78 | 14 lines: seven horizontal at steps -3..3, then seven vertical |
| MapPanel.CreateCircle | components/map/MapPanel.tsx:17-37 | 65 points: the 64 sampled ones in order, then the first again, so that the ring closes |
| MapPanel.TierCount | components/map/MapPanel.tsx:483-493 | a tier counts no more than the number of leads |
| MapPanel.TiersPartition | components/map/MapPanel.tsx:483-493 | the three tier counts add up to `leads.length` |
| MapPanel.HighTierIsHighScore | components/map/MapPanel.tsx:483 | the HUD's high-value count equals the overview panel's high-score count |
| MissionsHistory.RecentMissions | components/insights/MissionsHistory.tsx:20 | `missions.slice(-3).reverse()`; RecentMissionsNewestFirst and ShortHistoryReversed prove that the last three are shown, newest first |
| MissionsHistory.SliceFrom | components/insights/MissionsHistory.tsx:20 | `slice(-3)` keeps the last `min(3, n)` missions |
| MissionsHistory.Reverse | components/insights/MissionsHistory.tsx:20 | `reverse` puts element `n-1-k` at position `k` |
| MissionsHistory.RecentMissionsNewestFirst | components/insights/MissionsHistory.tsx:20 | exactly `min(3, n)` missions are shown, and the k-th shown is the k-th most recent |
| MissionsHistory.ShortHistoryReversed | components/insights/MissionsHistory.tsx:20 | with three missions or fewer the whole history is shown, reversed |
| MissionsHistory.PlaceholderIffEmpty | components/insights/MissionsHistory.tsx:28-31 | the placeholder shows exactly when there are no missions |
| MissionsHistory.ReverseInvolution | components/insights/MissionsHistory.tsx:20 | reversing twice gives back the list |
| MissionsHistory.AppendShiftsView | components/insights/MissionsHistory.tsx:20 | a new mission is shown first, and the older ones shown shift down by one |
| ChatRoute.AsksGoodEmail | app/api/chat/route.ts:31 | the good-email test on the lower-cased message; GoodEmailIff proves that it reduces to `correo` and `bueno` |
| ChatRoute.AsksSend | app/api/chat/route.ts:52 | the send test on the lower-cased message; SendIff proves that it reduces to `manda` or `envia` |
| ChatRoute.Route | app/api/chat/route.ts:28-52 | the branch the lower-cased message picks, tests in source order; GoodEmailIff, SendIff and RouteIgnoresCase characterise each branch |
| ChatRoute.Matches | app/api/chat/route.ts:33-37 | the `where` clause: among `leadIds` when given, with an e-mail when asked, at least the minimum score when given; FindMany proves that every lead returned meets it |
| ChatRoute.HeaderLine | app/api/chat/route.ts:41 | the header of the good-email reply with the count; HeaderNoNewline proves it a single line |
| ChatRoute.LeadLine | app/api/chat/route.ts:43 | one numbered line per lead with name, e-mail and score; LeadLinesAt and LeadLineNoNewline prove the k-th line is lead k and a single line |
| ChatRoute.ContactFor | app/api/chat/route.ts:64-72 | the contact created for one lead, subject and body as written; ContactsFor proves one per lead with its id and e-mail and `enviado: false` |
| ChatRoute.QueuedResponse | app/api/chat/route.ts:77 | the send reply with the number of contacts; AnswerSend and Post prove that the number is that of the contacts created |
| ChatRoute.Reaches | app/api/chat/route.ts:10-135 | whether the branch of the message meets a failing step; ThrownIffReached and Post prove that the 500 reply comes exactly when it does |
| ChatRoute.GoodEmailIff | app/api/chat/route.ts:28-31 | the good-email branch is taken exactly when the lower-cased message contains `correo` and `bueno` |
| ChatRoute.SendIff | app/api/chat/route.ts:28-52 | the send branch is taken exactly when the good-email one is not and the message contains `manda` or `envia` |
| ChatRoute.ToLowerIdempotent | app/api/chat/route.ts:28 | lower-casing twice is lower-casing once |
| ChatRoute.RouteIgnoresCase | app/api/chat/route.ts:28 | a message and its lower-case form take the same branch |
| ChatRoute.FindMany | app/api/chat/route.ts:32-59 | the query returns at most `take` stored leads, each meeting the `where` clause |
| ChatRoute.LeadIds | app/api/chat/route.ts:48 | the action lists the found leads' ids in order |
| ChatRoute.LeadLinesAt | app/api/chat/route.ts:42-44 | line k of the list is `k+1. nombre - email (Score: s)` for lead k |
| ChatRoute.ShowLeadsResponse | app/api/chat/route.ts:41-44 | the `forEach` builds the header, a blank line, then one newline-ended line per lead |
| ChatRoute.LeadLinesStep | app/api/chat/route.ts:42-44 | each turn appends that lead's line and a newline |
| ChatRoute.LeadLineNoNewline | app/api/chat/route.ts:43 | a lead line holds no newline when the lead's fields hold none |
| ChatRoute.HeaderNoNewline | app/api/chat/route.ts:41 | the header line holds no newline |
| ChatRoute.ResponseLines | app/api/chat/route.ts:41-44 | split on newlines, the reply is the header, a blank line, lead k's line as line k+2, and an empty tail |
| ChatRoute.ContactsFor | app/api/chat/route.ts:62-75 | one contact per found lead, in order, with its id and e-mail and `enviado: false` |
| ChatRoute.UserMetadata | app/api/chat/route.ts:20 | the user message has metadata exactly when lead ids were given |
| ChatRoute.AnswerGoodEmail | app/api/chat/route.ts:31-50 | throws exactly when the query does; otherwise the leads with an e-mail and score at least 70, at most ten, are listed and their ids are the action |
| ChatRoute.AnswerSend | app/api/chat/route.ts:52-82 | throws when the query or a contact creation does; otherwise one contact per lead with an e-mail, at most twenty, and the count queued is the number of contacts |
| ChatRoute.AnswerFallback | app/api/chat/route.ts:84-112 | queries only when lead ids are given; the reply is the completion's text, or the fixed apology when it is empty or missing |
| ChatRoute.Post | app/api/chat/route.ts:10-135 | a failure on the path taken gives the 500 reply, with the user's message stored unless reading the body or that save threw, and contacts created only when the final save threw in the send branch; otherwise both messages are stored with their metadata, the action is null only for the fallback, and each branch's reply is as stated |
| ChatRoute.ThrownIffReached | app/api/chat/route.ts:10-135 | after the user message is saved, the handler fails exactly when the failing call lies on the path of the message's branch |
| ChatRoute.FailureIsServerError | app/api/chat/route.ts:128-133 | any thrown error gives status 500 with a non-empty `error` text |

## Left out

- Network, streaming and decoding: `fetch`, `AbortController`, `getReader()` and `TextDecoder` are not modelled. Decoded chunks and the outcomes of the fetch and of each read are inputs.
- Async plumbing: the fire-and-forget `startStream()` and the `createMonitorConnection` wrapper are not modelled. The model is sequential, so a `close()` happens between two steps of the read loop.
- JSON: `JSON.parse` is a given function from text to an optional value. JSON numbers are integers, and fractional numbers are not modelled. `JSON.stringify` of chat metadata is represented by a datatype, not by its text.
- Monitor.Connection: the authorization token from local storage and the request headers are not modelled.
- Randomness and the clock: `Math.random` and `Date.now` are oracle sequences. `generateRandomPoint`, the lat/lng fields of a lead and the address's dependence on them are not modelled, because they involve trigonometry on floating point.
- MapPanel.CreateGridLines: states the steps and order of the 14 lines, not their coordinates, which are floating-point values.
- MapPanel.CreateCircle: states the count and the closure of the ring through a given point function, not the trigonometry that computes each point.
- StatsPanel.HighScorePercentage and StatsPanel.BarWidth: numbers are exact reals, so the floating-point rounding of the division is not modelled.
- The HUD's average score with `toFixed`, the zoom clamps and the rest of the map view state are not modelled.
- Case mapping: `toLowerCase` and `toUpperCase` are modelled for ASCII and Latin-1 only.
- MissionsHistory: the `fecha` date and its `Intl.DateTimeFormat` formatting are not modelled.
- LeadsManager: the folder color and `editingFolder` are not modelled.
- LeadsManager.LeadsManager: the React state updaters run in order, in place. The closure-captured `selectedLeads` that `selectAllInFolder` reads is taken to be the current selection.
- LeadsManager.LeadsManager.MoveLeadsToFolder: failure is one flag for the whole `Promise.all`. Which `PUT`s reached the server before a rejection is not modelled.
- ChatRoute: Prisma and OpenAI are not modelled.
  - The lead store is a sequence, in the order Prisma returns rows.
  - The completion service is its optional reply text.
  - The system prompt and the context query's rows are not modelled; only whether that query throws is.
- ChatRoute.AnswerSend: when one contact creation rejects, the contacts already created by the other calls are not modelled; the model returns none.
- ChatRoute.Post: a `message` that is not a string is not modelled. `details` is the thrown error's message; non-`Error` throwables are not modelled. The `GET` handler of the chat route is not part of this model.
- Monitor: `onEvent` never throws. A throwing callback, which the parse `catch` swallows and logs, is not modelled.
- Console logging is recorded as sequences of messages; their formatting is not modelled.

## Where the code differs from its documented intent

The model follows the code in each of these cases.

- **Records across chunks.** The marker and the data accumulator are declared inside the read loop. A record is therefore reassembled only when all of its lines and its blank line arrive in the same chunk's complete lines. `Monitor.RecordSplitAcrossChunksIsLost` and `Monitor.RecordInOneChunkIsDelivered` show both cases.
- **Field values.** Values are trimmed on both sides, not stripped of one leading space.
- **Bad JSON.** Data that does not parse is only logged. `onError` is not called.
- **Filtering.** For bare payloads the client filter is not a downstream filter, because it supplies the payload's campaign id (`Monitor.BareFilterIsNotDownstream`).
- **Event guards.** There is no type guard for `sending_message`.
