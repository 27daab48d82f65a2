# Saturn IPTV playlists and players, in Dafny

Saturn is a small IPTV project. Its parts are:

- Maintenance scripts keep a tab-separated channel table:
  - `3_update_tsv.py` copies stream addresses found in a downloaded playlist into the table and flips `KEEP`/`SKIP` for the mapped channels;
  - `generate.py` and `4_generate.py` write M3U playlists from the table.
- A Cloudflare worker (`worker.js`) redirects `/<name>` to the stream recorded for that name, or lists the names.
- A series of browser players reads the playlist and lets the user step through the channels with the keyboard, clicks and swipes:
  - sidebar players: `App/v24.js`, `App/v25.js`, `App/v27.js`, `App/v28/controls.js`, `App/v29/controls.js`;
  - card-menu players: `App/v35/controls.js` and `App/controls.js`.

The model has one Dafny module per concern:

- `Text`: JavaScript `trim`, Python `strip`, `split`/`join`, ASCII case.
- `JsNumber`: JavaScript `Number` of a non-negative integer, a binary64 double.
- `Wrappers`: `Option`, flattening.
- `M3uWriter`: the line format the scripts write.
- `M3u`: the playlist reader every player shares.
- `ChannelNames`: the `digits)` channel-number prefix.
- `Navigation`: JavaScript `%` and the wrapped moves.
- `Input`: keys and swipes.
- `Platform`: `isDesktop`.
- `Sidebar` and `MenuBar`: the two list layouts.
- `RoundTrip`: what is written is read back.
- One module per script: `GeneratePlaylist`, `GenerateLists`, `UpdateTsv`, `Worker`.
- One class per player, whose fields are the script's globals: `PlayerV24`, `PlayerV25`, `PlayerV27`, `PlayerV28`, `PlayerV29`, `PlayerV35`, `MenuPlayer`.

Loops become methods with invariants, proved against specification functions. The properties that relate several operations are lemmas about those functions.

Input and output become parameters or fields:

- the fetched playlist is the `text` parameter;
- a table is a sequence of `Row` maps;
- the URLs handed to the video element or the Shaka player are the `played` field, oldest first;
- `localStorage` is the `stored` field.

## Model

| member | source | states |
|---|---|---|
| Text.TrimShape | App/v29/controls.js:212 | trimming cuts white space only, and all of it at both ends: the result is a slice of the input with nothing but white space of its dialect (JavaScript `trim` or Python `strip`) before and after it |
| Text.TrimEndDropsSpace | 3_update_tsv.py:26 | everything `strip` drops at the end is white space |
| Text.TrimStartDropsSpace | App/v29/controls.js:243 | everything `\s*` skips is white space, and what it leaves does not start with white space |
| Text.TrimUnchanged | App/v29/controls.js:215 | a text that neither starts nor ends with white space is left as it is by trimming |
| Text.TrimIdempotent | 3_update_tsv.py:33 | stripping a stripped line changes nothing |
| Text.TrimAvoids | App/v29/controls.js:212 | trimming never introduces a character the input avoids |
| Text.Split | App/v29/controls.js:205 | `split` always yields at least one part |
| Text.SplitAvoids | worker.js:14 | no part of a split holds a separator |
| Text.SplitJoin | generate.py:33 | splitting the `\n` join of separator-free lines gives the lines back |
| Text.JoinSplit | App/v29/controls.js:205 | joining the parts of a split with the separator gives the text back |
| Text.LowerIdempotent | App/v29/controls.js:47 | `toLowerCase` of a lower-cased text changes nothing |
| Text.UpperIdempotent | 3_update_tsv.py:66 | `upper()` of an upper-cased text changes nothing |
| Text.UpperMatchesAnyCase | generate.py:13 | `upper()` equals an upper-case word such as `KEEP` exactly when the text is that word in any mix of case |
| Text.ReplaceAvoids | 4_generate.py:23 | after `replace(" ", "_")` no space is left |
| Text.ReplaceBack | 4_generate.py:23 | on a text without `_`, replacing `_` back by a space undoes `replace(" ", "_")` |
| M3uWriter.WrittenShape | generate.py:28-30 | every listing contributes two lines, its `#EXTINF` line at position 2k and its stream at 2k+1 |
| M3uWriter.ExtinfOneLine | generate.py:28 | an `#EXTINF` line built from fields without a line feed holds no line feed |
| M3uWriter.LineCount | generate.py:33 | the written text splits at `\n` into exactly the header and the pairs, 1 + 2n lines for n listings |
| M3u.QuoteFreeRun | App/v29/controls.js:210 | the `[^"]+` run: the longest quote-free prefix, stopped by a quote or the end |
| M3u.FindAttr | App/v29/controls.js:210-211 | a `tvg-logo="…"` / `group-title="…"` match captures a non-empty, quote-free value |
| M3u.NameOf | App/v29/controls.js:212 | the name is never empty: the trimmed second comma field, or `Unknown` |
| M3u.Entries | App/v29/controls.js:208-217 | the loop looks at every line once: one outcome per line |
| M3u.ReadEntry | App/v29/controls.js:209-216 | the loop body at line i yields a channel exactly when the line starts `#EXTINF` and the next line, trimmed, starts with `http` |
| M3u.ReadChannels | App/v24.js:158-168 | the push loop appends exactly the channels the lines describe, in order, to the channels already present |
| M3u.AppendPlaylist | App/v24.js:157-168 | splitting the text at `\n` and scanning appends `Parse(text)` to the existing list |
| M3u.ReadPlaylist | App/v29/controls.js:205-218 | after `channels = []` the list is exactly the channels of the text |
| M3u.ParseOrder | App/v29/controls.js:208-217 | channels and the lines that introduce them correspond one to one, in increasing line order, and every accepting line contributes |
| M3u.ParseMember | App/v29/controls.js:208-217 | a channel is in the list if and only if some line yields it |
| M3u.EntryNeedsTag | App/v29/controls.js:209 | a line that does not start with `#EXTINF` yields no channel |
| M3u.EntryWellFormed | App/v29/controls.js:210-216 | a kept channel has a non-empty, comma-free name, quote-free logo and group, and an `http` URL |
| M3u.NameWithoutComma | App/v29/controls.js:212 | the name, a single comma field, holds no comma |
| M3u.ParseWellFormed | App/v29/controls.js:208-217 | every channel read is well formed |
| M3u.ParseTwo | App/v29/controls.js:209-216 | a two-line text yields exactly the channel of its first line and URL line, if any |
| M3u.ParseLinesAppend | App/v29/controls.js:208-217 | reading two blocks of lines is reading each in turn, unless the first ends on an `#EXTINF` line that would consume the second's first line |
| ChannelNames.DigitRun | App/controls.js:8 | `\d+` consumes the longest digit prefix and stops at a non-digit |
| ChannelNames.LineHead | App/v29/controls.js:94 | `.*` takes the longest prefix without a line terminator |
| ChannelNames.DigitRunOf | App/controls.js:8 | on digits followed by a non-digit, the digit run is exactly those digits |
| ChannelNames.ParseChannelIdOfNumbered | App/controls.js:7-10 | a name `d)rest` with digits `d` has as id `Number(d)`, the double nearest to the value of `d`: that value itself for up to 15 digits, `Infinity` from 2^1024 on; both splits show `d` as its number |
| ChannelNames.ShortNumeralExact | App/controls.js:9 | `Number` reads a numeral of at most 15 digits exactly |
| ChannelNames.IdsCollideBeyondPrecision | App/controls.js:9-13 | numerals of value 2^53 and 2^53+1 give the same id, so the search by id cannot tell such channels apart |
| JsNumber.ToDoubleExact | App/controls.js:9 | integers below 2^53 are doubles, and `Number` keeps them |
| JsNumber.ToDoubleOverflow | App/controls.js:9 | a value of 2^1024 or more reads as `Infinity`, which is not finite |
| JsNumber.ToDoubleCollides | App/controls.js:9 | 2^53+1 rounds to its even neighbour 2^53 |
| ChannelNames.ParseChannelIdShape | App/controls.js:7-10 | an id is only found on names of the shape `digits)rest` |
| ChannelNames.IdMatchesDisplayedNumber | App/controls.js:140-141 | the id exists exactly when the card shows a number; it is `Number` of that number, its exact value when it has at most 15 digits |
| ChannelNames.SidebarAgreesWithOverlay | App/v29/controls.js:243-246 | the sidebar's `replace` and the overlay's `match` show the same number, and the same caption up to the first line break; an unnumbered name shows whole |
| ChannelNames.LineHeadWhole | App/v29/controls.js:94 | on a text without line terminators `.*` takes all of it |
| ChannelNames.NumberedParts | App/v29/controls.js:94-99 | on `num)rest` the overlay shows `num` and the first line of `rest` without leading space; the sidebar shows all of that `rest` |
| ChannelNames.SplitNameRoundTrip | App/v35/controls.js:222-225 | the name `generate.py` writes, `num) caption`, splits back into `num` and `caption` |
| ChannelNames.TrimOneSpace | App/v29/controls.js:246 | `\s*` removes the single space the scripts put after `)` |
| Navigation.JsRem | App/v29/controls.js:59 | JavaScript `%` truncates: non-negative for a non-negative dividend, in (-n, 0] for a negative one |
| Navigation.JsRemAgrees | App/v29/controls.js:59 | on a non-negative dividend JavaScript `%` is the mathematical remainder |
| Navigation.JsRemOdd | App/v29/controls.js:135 | JavaScript `%` is odd in its dividend |
| Navigation.RotateInRange | App/v29/controls.js:59 | `(i + delta + n) % n` lands on a channel whenever `i + delta + n` is non-negative |
| Navigation.StepForward | App/v29/controls.js:155 | one step down from the last channel wraps to the first, otherwise moves to the next |
| Navigation.StepBack | App/v29/controls.js:154 | one step up from the first channel wraps to the last, otherwise moves to the previous |
| Navigation.RotateNear | App/v29/controls.js:59 | a move that overshoots by less than a lap wraps around at most once |
| Navigation.RotateInverse | App/v29/controls.js:59 | moving by `delta` and then by `-delta` returns to the channel started from |
| Navigation.IterateForward | App/v29/controls.js:134-138 | k forward steps from a channel land k places on, modulo n |
| Navigation.FullCircle | App/v29/controls.js:134-138 | n forward steps come back to the start |
| Navigation.HighlightByDelta | App/v29/controls.js:131-139 | the `do … while` loop stops after at most n+1 steps, on the first in-range index or when the safety counter runs out, and every index passed over is out of range |
| Navigation.HighlightMovesOnce | App/v29/controls.js:131-139 | from a move that does not go below zero, the loop stops after one step, on a channel |
| Navigation.HighlightOneStep | App/v29/controls.js:131-139 | for a non-negative start the highlight is the plain wrapped move, on a channel |
| Input.KeyOfName | App/v29/controls.js:153-165 | each handled key is recognised by its `e.key` name |
| Input.KeyOfHandled | App/v29/controls.js:150 | exactly the listed names, with both `f` and `F`, are handled keys |
| Input.NoSwipeWithinThreshold | App/v29/controls.js:191-197 | a touch is ignored if and only if it moves at most 50 px along both axes |
| Input.SwipeMirror | App/v29/controls.js:191-197 | mirroring the touch horizontally or vertically mirrors the swipe |
| Input.DiagonalIsVertical | App/v29/controls.js:191 | an exact diagonal is treated as a vertical swipe, never a horizontal one |
| Platform.TelevisionContainsTv | App/v29/controls.js:48-49 | a user agent containing `firetv` or `smarttv` contains `tv` |
| Platform.IsDesktopIff | App/v29/controls.js:46-52 | a desktop is a user agent that, lower-cased, contains no `tv` and is not an Android one without `mobile` |
| Sidebar.Items | App/v29/controls.js:239-250 | the items of a row list are channel items only |
| Sidebar.Headers | App/v29/controls.js:231-236 | the headers of a row list are group headers only |
| Sidebar.BuildSidebar | App/v29/controls.js:227-252 | the `forEach` with `lastGroup` builds exactly the rows of the channel list |
| Sidebar.ItemsInOrder | App/v29/controls.js:230-250 | the sidebar holds one item per channel, the i-th for channel i |
| Sidebar.ItemAtPosition | App/v29/controls.js:172-175 | the i-th `.channel` element is channel i, so a click on it selects channel i |
| Sidebar.LastHeaderTracks | App/v29/controls.js:229-237 | `lastGroup` is always the last non-empty group seen, the group of the last header |
| Sidebar.UnderItsHeader | App/v29/controls.js:231-236 | every channel with a group sits under a header for that group |
| Sidebar.HeadersChange | App/v29/controls.js:231 | headers are never empty and consecutive headers differ |
| MenuBar.Keys | App/controls.js:118-119 | one group key per channel |
| MenuBar.Menu | App/controls.js:117-124 | one menu group per distinct key |
| MenuBar.FileChannels | App/controls.js:117-122 | the `Map` filling loop files every channel index under its key, with keys in first-seen order |
| MenuBar.BuildMenuBar | App/controls.js:114-163 | the boxes built are exactly the menu of the channel list |
| MenuBar.GroupNameTrims | App/controls.js:119 | the key is the trimmed group, or `Other` when that is empty; it is never empty |
| MenuBar.FirstSeenDistinct | App/controls.js:124 | no two boxes share a title |
| MenuBar.FirstSeenMember | App/controls.js:120 | a key gets a box if and only if some channel has it |
| MenuBar.IndicesWithSpec | App/controls.js:121 | a box lists exactly the indices of the channels with its key, in increasing order |
| MenuBar.MenuPartition | App/controls.js:117-135 | the boxes have distinct titles and partition the channels: each channel is in exactly one box, the one for its key |
| MenuBar.MenuFirstAppearance | App/controls.js:124 | boxes are non-empty and ordered by their first channel |
| MenuPlayer.RestoreChannelId | App/controls.js:28-33 | a stored id comes back as itself exactly when it is finite; nothing stored, or `Infinity`, restores nothing |
| MenuPlayer.RestoreSelectsSaved | App/controls.js:12-20 | a channel's own id, once stored, is restored exactly when it is finite, and `findIndex` then finds a channel with that id at or before it, that channel itself when ids are unique |
| MenuPlayer.RestoreMissing | App/controls.js:13-19 | an id no channel has is not found |
| MenuPlayer.CardOfChannel | App/controls.js:135-153 | every card's index names a channel whose key is its box's title |
| MenuPlayer.Player.constructor | App/controls.js:2-4 | no channels, index 0, no current id; the stored id is the one saved before |
| MenuPlayer.Player.PersistChannelId | App/controls.js:22-26 | the current id and the stored id both become `id` |
| MenuPlayer.Player.SetCurrentById | App/controls.js:12-20 | true exactly when a channel has the id; then the index is the first such channel; otherwise nothing changes |
| MenuPlayer.Player.PlayCurrentChannel | App/controls.js:47-64 | on an index holding a channel its URL is played and its id stored; otherwise nothing changes |
| MenuPlayer.Player.ChangeChannel | App/controls.js:36-45 | nothing on an empty list; otherwise the index moves by `(i + delta + n) % n`, the channel landed on is played and its id stored |
| MenuPlayer.Player.RestoreCurrent | App/controls.js:99-108 | the saved channel is selected if it is present; otherwise the first channel is selected and its id (or none) stored |
| MenuPlayer.Player.ReadChannels | App/controls.js:79-97 | the list becomes the channels of the text and the menu its menu |
| MenuPlayer.Player.LoadM3U | App/controls.js:78-111 | the list is the text's channels, the menu is rebuilt, the selection is restored from the stored id |
| MenuPlayer.Player.PlayRestored | App/controls.js:168 | the restored channel is played |
| MenuPlayer.Player.Init | App/controls.js:166-169 | after loading, the channel saved in the previous session is playing when it is still listed, else the first one |
| MenuPlayer.Player.MenuClick | App/controls.js:150-154 | a card click selects that card's channel, whose key is the box title, plays it and stores its id |
| RoundTrip.FindAttrNone | App/v29/controls.js:210 | when the pattern matches at no position there is no match |
| RoundTrip.FindAttrOnly | App/v29/controls.js:210 | when the pattern can only match at one position, the match is that one |
| RoundTrip.AttrHereShape | App/v29/controls.js:210 | a match starts with the key, `=` and `"` |
| RoundTrip.QuoteFreeRunOf | App/v29/controls.js:210 | `[^"]+` stops at the first quote |
| RoundTrip.EqualsQuote | generate.py:28 | in a written `#EXTINF` line `="` occurs only after `tvg-logo` and `group-title` |
| RoundTrip.LogoOnlyAt | generate.py:28 | `tvg-logo="` occurs in a written line only where the writer put it |
| RoundTrip.GroupOnlyAt | generate.py:28 | `group-title="` occurs in a written line only where the writer put it |
| RoundTrip.LogoFound | App/v29/controls.js:210 | the reader finds the logo the writer wrote |
| RoundTrip.GroupFound | App/v29/controls.js:211 | the reader finds the group the writer wrote |
| RoundTrip.NameField | generate.py:28 | a written line has exactly two comma fields, the second the display name |
| RoundTrip.NameFound | App/v29/controls.js:212 | the reader finds the display name the writer wrote |
| RoundTrip.StreamFound | App/v29/controls.js:215 | a written stream is already trimmed |
| RoundTrip.ReadPair | App/v29/controls.js:209-216 | an `#EXTINF` line and its stream line read back as the listing's channel |
| RoundTrip.ReadWritten | App/v29/controls.js:208-217 | the written pairs read back as their channels, one each, in order |
| RoundTrip.HeaderYieldsNothing | App/v29/controls.js:209 | the `#EXTM3U` header adds no channel |
| RoundTrip.ReadBack | generate.py:33 | a written playlist reads back as exactly its listings' channels, in order |
| RoundTrip.ReadBackNumbers | generate.py:26 | a written channel's number reads back as its id, `Number` of the digits (exact for up to 15 digits), and its name as its caption |
| GeneratePlaylist.RowLines | generate.py:13-30 | a row adds no lines unless its status is `KEEP` and its number, name and stream are filled; then it adds its `#EXTINF` line and its stream |
| GeneratePlaylist.Generate | generate.py:10-30 | the lines are the header followed by the pair of every kept row, in row order |
| GeneratePlaylist.GenerateText | generate.py:33 | the file is the `\n` join of those lines |
| GeneratePlaylist.KeptInOrder | generate.py:12-30 | the listings are those of the accepted rows, one each, in increasing row order, and every accepted row contributes |
| GeneratePlaylist.KeptMember | generate.py:13-24 | a listing is written if and only if some row yields it |
| GeneratePlaylist.GeneratedLineCount | generate.py:33 | n kept rows give a file of 1 + 2n lines |
| GeneratePlaylist.KeptPortable | generate.py:17-28 | rows whose fields survive the format give listings that survive it |
| GeneratePlaylist.GeneratedReadsBack | generate.py:10-33 | the players read the generated file as exactly the kept rows' channels, in row order |
| GenerateLists.ListingLines | 4_generate.py:14-30 | a row without number or name adds nothing; otherwise its `#EXTINF` line and its worker stream |
| GenerateLists.RowLines | 4_generate.py:13-40 | one row adds its pair to the `sk` list when `KEEP` and to the `saturn` list when also not `ENG` |
| GenerateLists.Generate | 4_generate.py:10-40 | the two line lists are the header and the pairs of the rows each list takes, in row order |
| GenerateLists.GenerateTexts | 4_generate.py:43-47 | the two files are the `\n` joins of those lists |
| GenerateLists.SaturnIsSkWithoutEnglish | 4_generate.py:33-40 | the `saturn` list is the `sk` list with the `ENG` group removed, order kept |
| GenerateLists.NotEnglishMember | 4_generate.py:38 | a listing survives the filter if and only if its group, upper-cased, is not `ENG` |
| GenerateLists.SaturnWithinSk | 4_generate.py:33-40 | `saturn` is no longer than `sk` and holds exactly its non-`ENG` listings |
| GenerateLists.GeneratedShape | 4_generate.py:14-30 | a listing has the row's number, name and group; its id is the name with spaces replaced; stream and logo are built from the id; the stream is an `http` address |
| GenerateLists.ChannelIdAvoidsSpace | 4_generate.py:23 | the id has the name's length and no space; on a name without `_` turning `_` back into spaces gives the name again |
| GenerateLists.StreamScheme | 4_generate.py:26 | every generated stream starts with `http` |
| GenerateLists.GeneratedListsReadBack | 4_generate.py:43-47 | both files read back as exactly their listings' channels |
| UpdateTsv.ScannedLines | 3_update_tsv.py:26-37 | one scanned record per non-empty line |
| UpdateTsv.StrippedLinesStripped | 3_update_tsv.py:26 | every stripped line is its own strip: a non-empty one neither starts nor ends with white space |
| UpdateTsv.CleanLinesShape | 3_update_tsv.py:26 | the kept lines are non-empty and already stripped, no more than the file has |
| UpdateTsv.CleanLinesMember | 3_update_tsv.py:26 | a line is kept if and only if it is a non-empty stripped line of the file |
| UpdateTsv.ScanStreams | 3_update_tsv.py:24-37 | the `while` loop with its jumps of 1 and 2 computes `Streams`, the scan's dictionary |
| UpdateTsv.VisitsShape | 3_update_tsv.py:28-37 | the loop looks at headers only two or more lines apart, and at every header not directly after one it looked at |
| UpdateTsv.StreamsOnlyMapped | 3_update_tsv.py:31-34 | only names of the mapping get a stream |
| UpdateTsv.StreamsFound | 3_update_tsv.py:28-37 | a name has a stream if and only if a header the loop looks at maps to it and has a line after it; the stream is the stripped line after the last such header |
| UpdateTsv.RecordFor | 3_update_tsv.py:31-34 | one header records the next line under its mapped name and leaves other names alone |
| UpdateTsv.PatchRow | 3_update_tsv.py:45-47 | the row after step 2 |
| UpdateTsv.PatchRows | 3_update_tsv.py:44-48 | the patched rows, or no result when a row has no `ch_id` (the `KeyError`) |
| UpdateTsv.PatchedRowFields | 3_update_tsv.py:45-47 | patching changes only `source_stream`, to the scanned stream of the row's stripped `ch_id`, and only when there is one |
| UpdateTsv.PatchAllShape | 3_update_tsv.py:44-48 | step 2 fails if and only if some row lacks `ch_id`; otherwise it patches every row, one for one |
| UpdateTsv.PatchTwice | 3_update_tsv.py:44-48 | running step 2 again changes nothing |
| UpdateTsv.FlipRow | 3_update_tsv.py:64-70 | the row after step 3, or no result on a `KeyError` (no `NAME`, or a mapped row without `Status`) |
| UpdateTsv.FlipRows | 3_update_tsv.py:63-71 | the flipped rows, or no result on a `KeyError` |
| UpdateTsv.FlippedRowFields | 3_update_tsv.py:64-70 | the flip changes only `Status`, and only for mapped names: `KEEP` becomes `SKIP` and `SKIP` becomes `KEEP`; other statuses stay |
| UpdateTsv.FlipTwice | 3_update_tsv.py:63-71 | flipping twice restores every row, except that a mapped `KEEP`/`SKIP` comes back normalised to upper case without spaces |
| UpdateTsv.FlipTogglesKeep | 3_update_tsv.py:66-70 | a mapped row is `KEEP` after the flip if and only if it was not `KEEP` before |
| UpdateTsv.WriteRows | 3_update_tsv.py:50-53 | `writerows` writes the rows in order up to the first one with a key outside the header, where `extrasaction='raise'` stops it; it succeeds exactly when every row fits |
| UpdateTsv.PatchedRowsFit | 3_update_tsv.py:47-51 | rows that fit the header still fit after patching exactly when the header has `source_stream` or no row gets a stream |
| UpdateTsv.FlippedRowsFit | 3_update_tsv.py:68-76 | the flip only rewrites `Status`, which the row already has, so rows that fit still fit |
| UpdateTsv.Update | 3_update_tsv.py:23-76 | the script scans, patches and writes table 1, then flips and writes table 2; a `KeyError` in step 2 leaves table 1 as it was and stops it, a row that does not fit the header truncates table 1 after the rows before it and stops it before step 3 |
| Worker.ChannelKey | worker.js:4 | `replace("/", "")` removes the first slash only; a leading slash is dropped |
| Worker.ParseLine | worker.js:14-15 | a line gives a record only with a non-empty name and stream, neither holding a tab or a comma |
| Worker.ParseWrittenLine | worker.js:14 | a line `name<tab or comma>stream…` is read as that name and stream |
| Worker.Entries | worker.js:12 | one outcome per line of the text |
| Worker.BuildTable | worker.js:11-16 | the `forEach` builds exactly the name list and the table of the text |
| Worker.TableKeys | worker.js:22 | the names listed are the table's keys, each once |
| Worker.TableMember | worker.js:15 | a name is in the table if and only if some line records it |
| Worker.TableLast | worker.js:15 | a name maps to the stream of the last line recording it |
| Worker.NamesGrow | worker.js:15 | later lines never reorder names already recorded: the object's property creation order grows as a prefix |
| Worker.OthersGrow | worker.js:15-22 | the names that are not array indices keep that prefix order in what `Object.keys` lists |
| Worker.KeysShape | worker.js:22 | `Object.keys` lists each recorded name once: first the array-index names in increasing numeric order, then the others in creation order |
| Worker.KeysIndexFirst | worker.js:22 | for the lines `b,…` then `1,…` the list is `1`, `b` |
| Worker.ListHtmlAt | worker.js:22-24 | the list holds an item for each name, in place |
| Worker.Fetch | worker.js:2-28 | the response is the one the table and the requested key decide, listing the names in `Object.keys` order |
| Worker.RedirectWhenRecorded | worker.js:19-20 | the worker redirects, with status 302, exactly when some line records the requested name, to the stream of the last such line |
| Worker.PageListsRecorded | worker.js:21-27 | otherwise it answers with the HTML page listing every recorded name once, array-index names first in numeric order, then the rest in first-recorded order |
| PlayerV24.Player.constructor | App/v24.js:2-5 | no channels, index 0, playing, sidebar hidden, nothing played |
| PlayerV24.Player.SetPlayState | App/v24.js:28-38 | the play state is set and the pause overlay shows exactly when paused |
| PlayerV24.Player.SetSidebarVisibility | App/v24.js:58-63 | the sidebar's visibility becomes the value given |
| PlayerV24.Player.PlayCurrentChannel | App/v24.js:50-55 | an index holding a channel plays its URL and sets playing; otherwise nothing changes |
| PlayerV24.Player.HighlightChannelByDelta | App/v24.js:101-109 | the highlight takes one wrapped move |
| PlayerV24.Player.ChangeChannel | App/v24.js:41-48 | the index takes the wrapped move; the channel is played only when the sidebar is hidden |
| PlayerV24.Player.Step | App/v24.js:41-48 | a one-step move lands on a channel and keeps the player valid |
| PlayerV24.Player.OnKeyDown | App/v24.js:112-127 | up/down step back/forward, left/right toggle the sidebar, Enter/Space replay (sidebar visible) or toggle play, Escape/Backspace hide the sidebar, `f` toggles full screen on a desktop, other keys change nothing |
| PlayerV24.Player.PlayOrToggle | App/v24.js:130-133 | with the sidebar visible the current channel is replayed, otherwise play and pause swap |
| PlayerV24.Player.OnClick | App/v24.js:130-133 | a sidebar item click replays the current channel without selecting the item; a video click replays or toggles; other clicks change nothing |
| PlayerV24.Player.OnTouchEnd | App/v24.js:141-151 | a horizontal swipe toggles the sidebar, a swipe up steps forward, down back; a short touch changes nothing |
| PlayerV24.Player.Handle | App/v24.js:112-151 | every event keeps the list; Enter and video clicks with the sidebar hidden toggle play; clicks never move the index |
| PlayerV24.Player.LoadM3U | App/v24.js:154-171 | the text's channels are appended, the sidebar rebuilt, the current channel played when there is one |
| PlayerV24.Player.ShowChannels | App/v24.js:169-170 | the list grows to the given list, the sidebar shows it, the current channel plays |
| PlayerV25.Player.constructor | App/v25.js:2-5 | no channels, index 0, playing, sidebar hidden, nothing played |
| PlayerV25.Player.SetPlayState | App/v25.js:28-38 | the play state is set and the pause overlay shows exactly when paused |
| PlayerV25.Player.SetSidebarVisibility | App/v25.js:58-66 | the sidebar's visibility becomes the value given |
| PlayerV25.Player.PlayCurrentChannel | App/v25.js:50-55 | an index holding a channel plays its URL and sets playing; otherwise nothing changes |
| PlayerV25.Player.HighlightChannelByDelta | App/v25.js:121-132 | the highlight is what the bounded `do … while` loop computes |
| PlayerV25.Player.ChangeChannel | App/v25.js:41-48 | sidebar visible: only the highlight moves; hidden: the index takes the wrapped move and the channel plays |
| PlayerV25.Player.Step | App/v25.js:41-48 | a one-step move lands on a channel and keeps the player valid |
| PlayerV25.Player.OnKeyDown | App/v25.js:135-167 | up/down step, left/right toggle the sidebar, Enter/Space replay (sidebar visible) or toggle play, Escape/Backspace hide the sidebar, `f` toggles full screen on a desktop, other keys change nothing |
| PlayerV25.Player.PlayOrToggle | App/v25.js:153-157 | with the sidebar visible the current channel is replayed, otherwise play and pause swap |
| PlayerV25.Player.OnClick | App/v25.js:170-173 | an item click selects and plays that item's channel; a video click toggles play only while the sidebar is hidden |
| PlayerV25.Player.OnTouchEnd | App/v25.js:184-203 | a horizontal swipe toggles the sidebar, a swipe up steps forward, down back; a short touch changes nothing |
| PlayerV25.Player.Handle | App/v25.js:135-203 | every event keeps the list; an item click plays that item |
| PlayerV25.Player.LoadM3U | App/v25.js:206-223 | the text's channels are appended, the sidebar rebuilt, the current channel played when there is one |
| PlayerV25.Player.ShowChannels | App/v25.js:221-222 | the list grows to the given list, the sidebar shows it, the current channel plays |
| PlayerV27.Player.constructor | App/v27.js:9-11 | no channels, index 0, sidebar hidden, nothing played |
| PlayerV27.Player.SetSidebarVisibility | App/v27.js:58-62 | the sidebar's visibility becomes the value given |
| PlayerV27.Player.PlayCurrentChannel | App/v27.js:43-56 | the current channel's URL is played when the index holds one |
| PlayerV27.Player.HighlightChannelByDelta | App/v27.js:105-115 | the highlight is what the bounded loop computes |
| PlayerV27.Player.ChangeChannel | App/v27.js:33-41 | sidebar visible: only the highlight moves; hidden: the wrapped move and the channel plays |
| PlayerV27.Player.Step | App/v27.js:33-41 | a one-step move lands on a channel and keeps the player valid |
| PlayerV27.Player.OnKeyDown | App/v27.js:123-141 | up/down step, left/right toggle the sidebar, Enter/Space replay only with the sidebar visible, Escape/Backspace hide it, `f` toggles full screen on a desktop |
| PlayerV27.Player.OnClick | App/v27.js:144-154 | an item click selects that channel and hands its URL over twice (item handler and document handler); other clicks change nothing |
| PlayerV27.Player.OnTouchEnd | App/v27.js:163-174 | right shows the sidebar, left hides it, up steps forward, down back; a short touch changes nothing |
| PlayerV27.Player.Handle | App/v27.js:123-174 | every event keeps the list; arrows with the sidebar visible play nothing |
| PlayerV27.Player.LoadM3U | App/v27.js:177-194 | the text's channels are appended, the sidebar rebuilt, the current channel played |
| PlayerV27.Player.ShowChannels | App/v27.js:192-193 | the list grows to the given list, the sidebar shows it, the current channel plays |
| PlayerV28.Player.constructor | App/v28/controls.js:4-6 | no channels, index 0, sidebar hidden, nothing played |
| PlayerV28.Player.SetSidebarVisibility | App/v28/controls.js:77-81 | the sidebar's visibility becomes the value given |
| PlayerV28.Player.PlayCurrentChannel | App/v28/controls.js:31-33 | the current channel's URL is played when the index holds one |
| PlayerV28.Player.HighlightChannelByDelta | App/v28/controls.js:111-121 | the highlight is what the bounded loop computes |
| PlayerV28.Player.ChangeChannel | App/v28/controls.js:21-29 | sidebar visible: only the highlight moves; hidden: the wrapped move and the channel plays |
| PlayerV28.Player.Step | App/v28/controls.js:21-29 | a one-step move lands on a channel and keeps the player valid |
| PlayerV28.Player.OnKeyDown | App/v28/controls.js:130-147 | as in v27, except that `f` toggles full screen on every platform |
| PlayerV28.Player.OnClick | App/v28/controls.js:150-160 | an item click selects that channel and hands its URL over twice; other clicks change nothing |
| PlayerV28.Player.OnTouchEnd | App/v28/controls.js:165-175 | right shows the sidebar, left hides it, up steps forward, down back |
| PlayerV28.Player.Handle | App/v28/controls.js:130-175 | every event keeps the list; arrows with the sidebar visible play nothing |
| PlayerV28.Player.LoadM3U | App/v28/controls.js:178-195 | the text's channels are appended, the sidebar rebuilt, the current channel played |
| PlayerV28.Player.ShowChannels | App/v28/controls.js:193-194 | the list grows to the given list, the sidebar shows it, the current channel plays |
| PlayerV29.Player.constructor | App/v29/controls.js:8-10 | no channels, index 0, sidebar hidden, nothing played |
| PlayerV29.Player.SetSidebarVisibility | App/v29/controls.js:84-88 | the sidebar's visibility becomes the value given |
| PlayerV29.Player.PlayCurrentChannel | App/v29/controls.js:65-82 | the current channel's URL is loaded when the index holds one |
| PlayerV29.Player.HighlightChannelByDelta | App/v29/controls.js:131-141 | the highlight is what the bounded loop computes |
| PlayerV29.Player.ChangeChannel | App/v29/controls.js:55-63 | sidebar visible: only the highlight moves; hidden: the wrapped move and the channel plays |
| PlayerV29.Player.Step | App/v29/controls.js:55-63 | a one-step move lands on a channel and keeps the player valid |
| PlayerV29.Player.OnKeyDown | App/v29/controls.js:149-166 | up/down step, left/right toggle the sidebar, Enter/Space replay only with the sidebar visible, Escape/Backspace hide it, `f` toggles full screen on a desktop |
| PlayerV29.Player.OnClick | App/v29/controls.js:169-179 | an item click selects that channel and loads its URL twice; other clicks change nothing |
| PlayerV29.Player.OnTouchEnd | App/v29/controls.js:187-198 | right shows the sidebar, left hides it, up steps forward, down back |
| PlayerV29.Player.Handle | App/v29/controls.js:149-198 | every event keeps the list; arrows with the sidebar visible play nothing |
| PlayerV29.Player.LoadM3U | App/v29/controls.js:201-224 | the list is replaced by the text's channels and the sidebar rebuilt |
| PlayerV29.Player.OnContentLoaded | App/v29/controls.js:39-42 | after loading, the current channel is played |
| PlayerV29.Start | App/v29/controls.js:26-43 | on page load the list is the text's channels and the first one, if any, is the only URL loaded |
| PlayerV35.Cards | App/v35/controls.js:215-243 | one card per channel |
| PlayerV35.BuildMenuBar | App/v35/controls.js:215-243 | the cards built are exactly the cards of the channel list |
| PlayerV35.CardShowsId | App/v35/controls.js:222-225 | a card shows a number exactly when the name has an id, and the id is `Number` of that number, its exact value for up to 15 digits; an unnumbered name shows whole; group and logo are the channel's |
| PlayerV35.Player.constructor | App/v35/controls.js:9-14 | no channels, index 0, nothing played, the menu visible with no hide pending |
| PlayerV35.Player.ShowMenu | App/v35/controls.js:36-40 | the menu shows and one hide is pending |
| PlayerV35.Player.HideMenu | App/v35/controls.js:42-46 | the menu hides and no hide is pending |
| PlayerV35.Player.MenuTimerFires | App/v35/controls.js:48-51 | the pending hide hides the menu |
| PlayerV35.Player.PlayCurrentChannel | App/v35/controls.js:62-76 | the current channel is played and the menu shown when the index holds one; otherwise nothing changes |
| PlayerV35.Player.ChangeChannel | App/v35/controls.js:54-60 | nothing on an empty list; otherwise the wrapped move, the channel plays and the menu shows |
| PlayerV35.Player.Step | App/v35/controls.js:54-60 | a one-step move lands on a channel, plays it and keeps the player valid |
| PlayerV35.Player.OnKeyDown | App/v35/controls.js:114-152 | left/right step back/forward, up shows the menu, down toggles it, Enter/Space replay, Escape/Backspace hide it, `f` toggles full screen on a desktop |
| PlayerV35.Player.Pick | App/v35/controls.js:236-239 | a card click selects its channel, plays it and shows the menu |
| PlayerV35.Player.OnClick | App/v35/controls.js:155-167 | a card click selects its channel and hands its URL over twice; every click shows the menu |
| PlayerV35.Player.OnTouchEnd | App/v35/controls.js:177-189 | a swipe right steps back, left forward; every touch shows the menu |
| PlayerV35.Player.Handle | App/v35/controls.js:114-189 | clicks and touches show the menu, down toggles it, Escape hides it, a card click selects its channel |
| PlayerV35.Player.LoadM3U | App/v35/controls.js:192-212 | the text's channels are appended, the cards rebuilt, the current channel played and the menu shown |
| PlayerV35.Player.AppendChannels | App/v35/controls.js:195-208 | the list grows by the text's channels and the cards show it |

## Left out

- Network and files: the fetched playlist, the channel CSV and the tables are parameters; the file writes of the scripts are their results. A failed `fetch` (the `try`/`catch` of `App/v29/controls.js`) is not modelled.
- Playback engines (the `<video>` element, HLS, Shaka) are reduced to the list of URLs handed over, `played`. Spinners, the channel overlay, its timer, `highlightChannel` and its scroll arithmetic are DOM effects with no state the model keeps.
- `await` and the asynchrony of the handlers: every handler finishes before the next event is handled.
- The menu timer of `App/v35/controls.js` is the flag `hidePending`; the 4 s delay is not modelled.
- `localStorage` is the field `stored`, holding the id `persistChannelId` wrote. `String` of a finite double reads back through `Number` as that double, so the model keeps the number itself; text written there by other pages is not modelled.
- Full screen is a flag toggled by `toggleFullscreen`; the browser API and `document.fullscreenElement` are not modelled.
- Regular expressions are modelled for the patterns the players use (`^(\d+)\)\s*(.*)`, `tvg-logo="([^"]+)"`, `group-title="([^"]+)"`), not in general. `\d` is the ASCII digits.
- Python `strip`/`upper` and JavaScript `toLowerCase` are modelled on ASCII letters and the listed white-space characters; Unicode case mapping is not.
- Python opens text files with universal newlines; a lone `\r` as a line break in `3_update_tsv.py`'s input is not modelled (lines are split at `\n` and then stripped).
- `csv.DictReader` is reduced to its rows as column-to-cell maps, each with a key per header column. Short rows (`None` cells), long rows (the `None` rest key, which would also make `DictWriter` raise) and the written text of the table are not modelled; the header is given with the rows.
- `worker.js`: the table is a map rather than a JavaScript object, so names such as `__proto__` behave like any other; the property order `Object.keys` gives is modelled by `Keys` (array indices first, then creation order). `Response.redirect` URL validation is not modelled.
- PlayerV24.Player.ChangeChannel: requires a non-empty list. On an empty list the source computes `NaN` for the index and every later step stays `NaN`.
- PlayerV25.Player.ChangeChannel, PlayerV27.Player.ChangeChannel, PlayerV28.Player.ChangeChannel, PlayerV29.Player.ChangeChannel: require a non-empty list for the same reason. The arrow keys and vertical swipes that call them (OnKeyDown, OnTouchEnd, Handle) carry the same requirement.
- Page start-up of v24, v25, v27, v28 and v35 is the constructor followed by `LoadM3U`; only v29 has a separate `Start`, because it also plays after loading.
- Item clicks in v27, v28, v29 and v35 fire both the item's `onclick` and the document's click listener. The model plays the URL twice; the interleaving of the two asynchronous loads is not modelled.
- `App/v24.js` and `App/v25.js` throw a `TypeError` in `playCurrentChannel` when the index holds no channel. Every caller calls it last, so the model leaves the state unchanged there.
- MenuPlayer.Player.ChangeChannel: the index is an integer and a move of less than `-n` is allowed; only a move of at least `-n` is promised to land on a channel, as in the source.
- Navigation.HighlightByDelta: models the `channels[nextIndex].group === undefined` test as false for every parsed channel: the reader always sets `group` to a string.
