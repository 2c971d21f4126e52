# easyLoop pattern sequencer, modelled in Dafny

easyLoop is a Swing loop station. Each track holds a source `.wav` file and a
*pattern*. A pattern is a list of transpositions in semitones plus three control
tokens:

- `!` is a rest;
- `>` holds the clips already sounding;
- `|` layers the next entry onto the same beat.

Each track also has a *rate of occurrence*: it fires once every so many ticks
of a timer. This project models the sequencer core:

- **The `AudioTrack` class** (module `Track`). It covers:
  - the track's play order;
  - its cursor (`getValue`, `calculatePlay`);
  - one fire (`playNext`), with the stop rule, the `|` look-ahead and muting;
  - the rebuild of the order from a pattern (`setPlayOrder`);
  - the render cache that runs the external pitch-shifting tool at most once per output path (`createTransposedFile`);
  - `setTrack`.
- **The timer's tick** (module `Loop`, class `PlayManager`). It is one pass over the tracks: each takes its "Playing" box, fires when its counter equals its rate, and moves its counter.
- **The sequencer parts of the `EasyLoop` window** (module `Sequencer`, class `EasyLoop`):
  - the parallel per-track lists: tracks, patterns, pattern labels, rates, counters, "Playing" boxes and "Main Track" radio buttons;
  - addTrack's defaults;
  - removeTrack and the Remove Track input check;
  - Set Pattern: validation, rebuild and label;
  - Set Rate of Occurrence;
  - Main;
  - Set Loop Length clearing the main track;
  - Play's reset;
  - save's text building and load's decoding.
- **Pure helper modules**:
  - `Patterns`: tokens, the acceptance test, the display text;
  - `SaveText`: the `@`/`,` save format and its decoder;
  - `JavaLang`: 32-bit int arithmetic, `Integer.parseInt` and `Integer.toString`, `String.split`, `String.replace`, and the regular-expression `replaceAll(".wav", "")`.

Notes on how the model represents things:

- **Playback is abstract.** A started clip is its path appended to `sounding`, and stopping clears that list.
- **The external tool is abstract.** Each run is a `Render` record appended to `spawned`.
- **Dialog answers are parameters.** A cancelled dialog is `None`.
- **A track's length is a parameter.** Main takes the text the length computation would give for the track's file.
- **Where an operation fails.** The source throws there (`NumberFormatException`, `IndexOutOfBoundsException`). The model returns `None` or `false` instead.

The main results:

- **One fire.** `PlayNext` is proved against the pure function `Fire`. Lemmas give `Fire` its stop rule, its closed-form cursor, muting, the no-source case and termination.
- **The tick.** `Tick` is proved against `CounterStep` and `TrackTick`. Lemmas show that a track whose counter starts at 1 fires on exactly every rate-th tick, and that a counter set past its rate never fires until it wraps around at the largest int.
- **Save and load.** `RoundTrip` shows that decoding the saved line gives the state back for every session whose file paths contain no '@' and are not the text "null" (see Left out), with one exception: a muted track that has a file comes back playing. `Save` and `Load` are proved against `Encode` and `Decode`.
- **Set Pattern.** The model's handler accepts exactly the texts whose tokens are all valid and that have at least one token; this is the corrected check of the first Findings row, and the source also accepts a text with no tokens (see Left out). Confirming the pre-filled text gives the same pattern back.

## Model

| member | source | states |
|---|---|---|
| JavaLang.Wrap32 | src/easyLoop/PlayManager.java:65-66 | the result is an int, equals x when x is already an int, and differs from x by a multiple of 2^32 (Java's int `+ 1`) |
| JavaLang.IntToStringRoundTrip | src/easyLoop/EasyLoop.java:951-957 | `Integer.parseInt` gives back every int that `"" + n` wrote, so load reads save's rate and counter back |
| JavaLang.Split | src/easyLoop/EasyLoop.java:883 | no piece of `split(d)` contains the delimiter; which pieces come back is stated by JavaLang.SplitTerminated and JavaLang.DropTrailingEmpty |
| JavaLang.SplitTerminated | src/easyLoop/EasyLoop.java:883 | splitting fields that are each followed by the delimiter gives the fields back, provided no field contains the delimiter and the last is not empty |
| JavaLang.DropTrailingEmpty | src/easyLoop/EasyLoop.java:1387 | Java's split drops trailing empty pieces: the result is a prefix of the pieces and does not end with an empty one |
| Patterns.ControlStep | src/easyLoop/EasyLoop.java:1424-1425 | a control token is stored as a non-number entry that prints back as the same token |
| Patterns.ValidateTokens | src/easyLoop/EasyLoop.java:1386-1409 | the validation loop passes exactly when every token is `!`, `>`, `\|` or an int in [-60, 60] |
| Patterns.ReadSteps | src/easyLoop/EasyLoop.java:1419-1428 | the rebuild loop succeeds exactly when every token parses; then the entries are the tokens' entries in order and the text is the prefix plus each token and a space |
| Patterns.ParsePattern | src/easyLoop/EasyLoop.java:1383-1411 | an accepted pattern is non-empty, every transposition is in [-60, 60], and the as-written check accepts it too |
| Patterns.ParsePatternAccepts | src/easyLoop/EasyLoop.java:1386-1411 | the text is accepted if and only if it has at least one token and every token is valid |
| Patterns.ParsePatternContents | src/easyLoop/EasyLoop.java:1414-1428 | an accepted pattern holds exactly the typed tokens in order: control tokens as tokens, integers as their values |
| Patterns.TokenStepsAt | src/easyLoop/EasyLoop.java:1419-1426 | entry i of the rebuilt pattern is token i's entry |
| Patterns.ParseTokens | src/easyLoop/EasyLoop.java:928-937 | a pattern field that load reads has one entry per token, and every transposition is an int |
| Patterns.ParseTokensAll | src/easyLoop/EasyLoop.java:928-937 | load's pattern loop succeeds if and only if every token is a control token or an int, and then entry i is token i's |
| Patterns.ParseTokensSteps | src/easyLoop/EasyLoop.java:928-937 | on parsable tokens, load's pattern loop builds the same entries as the Set Pattern rebuild |
| Patterns.StepTextProperties | src/easyLoop/EasyLoop.java:838 | an entry prints as one non-empty token with no space, `,` or `@`, and that token reads back as the entry |
| Patterns.StepTextsRead | src/easyLoop/EasyLoop.java:837-839 | the printed entries of a pattern are delimiter-free tokens that read back as the pattern |
| Patterns.PrefillRoundTrip | src/easyLoop/EasyLoop.java:1369-1380 | confirming the pre-filled dialog text unchanged gives back the pattern in force |
| Patterns.StepTextsValid | src/easyLoop/EasyLoop.java:1390-1393 | every printed entry of a pattern in range passes the handler's token check |
| Patterns.DisplayKeepsTokens | src/easyLoop/EasyLoop.java:1427-1431 | the label text keeps every character of the tokens in order; collapsing `" \| "` to `"\|"` removes only spaces |
| Patterns.DisplayExample | src/easyLoop/EasyLoop.java:1415-1431 | the pattern `5 \| -3` is shown as `" 5\|-3 "` |
| Patterns.SpacesOnlyAccepted | src/easyLoop/EasyLoop.java:1386-1437 | the as-written check accepts the text `" "`, which gives an empty pattern; the corrected check refuses it; an empty text `""` is refused either way |
| Track.FileName | src/easyLoop/AudioTrack.java:96 | `getName()` is no longer than the path and contains no separator; Track.FileNameAfterLastSeparator fixes it as the text after the last separator |
| Track.FileNameAfterLastSeparator | src/easyLoop/AudioTrack.java:96 | the name is a suffix of the path, and it is either the whole path or preceded by a separator; with no separator inside it, it is exactly the text after the last separator |
| Track.RenderPath | src/easyLoop/AudioTrack.java:244-245 | a render path ends in the extension and is never a control token |
| Track.Fire | src/easyLoop/AudioTrack.java:186-208 | a fire fails only with a source and a cursor outside the order; it keeps the source, the play flag and the order |
| Track.AudioTrack.constructor | src/easyLoop/AudioTrack.java:48-71 | a new track has no source, is playing, has its cursor at 0, and has empty order, cache and clips |
| Track.AudioTrack.SetTrack | src/easyLoop/AudioTrack.java:93-103 | the source is bound and the name is `TrackName` of the file name, the literal removal of ".wav" (the corrected form of the second Findings row, not the source's regular expression; see Left out); the play order and the render cache become empty |
| Track.AudioTrack.Play | src/easyLoop/AudioTrack.java:110-134 | `!`, `>` and `\|` start nothing; any other path appends exactly one clip |
| Track.AudioTrack.StopAll | src/easyLoop/AudioTrack.java:190-197 | the iterator loop stops and removes every sounding clip |
| Track.AudioTrack.GetValue | src/easyLoop/AudioTrack.java:159-171 | the result is the cursor moved on `distance` times with wrap-around (`Advance`); the state is unchanged |
| Track.AudioTrack.CalculatePlay | src/easyLoop/AudioTrack.java:177-179 | the cursor moves on by exactly one, with wrap-around |
| Track.AudioTrack.PlayNext | src/easyLoop/AudioTrack.java:186-208 | one call leaves the track in the state `Fire` gives, or fails (index out of bounds) with the state unchanged |
| Track.AudioTrack.CreateTransposedFile | src/easyLoop/AudioTrack.java:242-269 | the tool runs only when the path is not yet in the cache, and afterwards the path is in the cache; the cache stays the runs since setTrack, each listed once |
| Track.AudioTrack.SetPlayOrder | src/easyLoop/AudioTrack.java:216-233 | with a source, the order is the pattern's entries; every transposition has been rendered and every audible entry is in the cache, and `notDone` is false on return; without a source the order and the cache are unchanged |
| Track.AdvanceInRange | src/easyLoop/AudioTrack.java:159-171 | from a cursor inside the order, getValue(d) is (cursor + d) mod length |
| Track.AdvanceEmpty | src/easyLoop/AudioTrack.java:159-171 | on an empty order getValue is 0 |
| Track.AdvanceOutOfRange | src/easyLoop/AudioTrack.java:159-171 | from a cursor past the end of a non-empty order, the first move wraps to 0 |
| Track.FireWithoutTrack | src/easyLoop/AudioTrack.java:188-207 | without a source nothing is stopped or started, and the cursor still moves on by one |
| Track.FireStopRule | src/easyLoop/AudioTrack.java:190-199 | the clips sounding afterwards are the earlier ones when the entry is `>` and none of them otherwise, followed by this fire's audible starts when the track plays; on any other entry than `>` every sounding clip is an audible entry of the order |
| Track.FireClosedForm | src/easyLoop/AudioTrack.java:201-207 | a fire with k layering hops from p ends at (p + 2k + 1) mod length |
| Track.FireKeepsRunnable | src/easyLoop/AudioTrack.java:186-208 | a track with a cursor inside a well-formed order fires without error and stays so |
| Track.FireEndsOffLayer | src/easyLoop/AudioTrack.java:201-207 | the fire leaves the cursor inside the order, on an entry that is not `\|` |
| Track.FireMuted | src/easyLoop/AudioTrack.java:199-203 | a muted fire stops and moves exactly as a playing one does, and starts nothing |
| Track.FireWithoutLayers | src/easyLoop/AudioTrack.java:186-208 | without `\|` in the order, a fire starts just the current entry (when audible) and moves on by one |
| Track.FireLayerExample | src/easyLoop/AudioTrack.java:201-207 | the order `[+5, \|, -3]` from 0 starts +5 and -3 in one fire and comes back to 0 |
| Track.FireHoldExample | src/easyLoop/AudioTrack.java:190-199 | a fire on `>` keeps the earlier clip sounding |
| Track.LayerLoopForever | src/easyLoop/AudioTrack.java:201-204 | when the entry after q is `\|` and two steps on lead back to q, the look-ahead never stops |
| Track.EndlessOrders | src/easyLoop/AudioTrack.java:201-204 | the orders of the patterns `[5, \|]` and `[\|]` make playNext loop forever |
| Track.NoLayersWellFormed | src/easyLoop/AudioTrack.java:201-204 | an order without `\|` always stops its look-ahead |
| Track.StartedInOrder | src/easyLoop/AudioTrack.java:199-203 | every entry a fire reaches is an entry of the order |
| Track.AudibleEntries | src/easyLoop/AudioTrack.java:112-114 | the clips a fire starts are entries of what it reached, and none is a control token |
| Track.PosClosedForm | src/easyLoop/AudioTrack.java:201-202 | after j layering hops from q the cursor is at (q + 2j) mod length |
| Track.OrderForShape | src/easyLoop/AudioTrack.java:220-230 | the order has the pattern's length; control tokens are copied at their positions, and a transposition n becomes directory + name + n + ".wav" |
| Track.OrderSnoc | src/easyLoop/AudioTrack.java:222-229 | one more pattern step appends its entry to the order and, for a transposition, its path to the paths to render |
| Track.OrderRendered | src/easyLoop/AudioTrack.java:222-229 | every audible entry of a built order is one of the pattern's render paths |
| Track.RememberAllContains | src/easyLoop/AudioTrack.java:244-266 | the cache only grows, holds every path asked for, and holds nothing else new |
| Track.RememberAllPresent | src/easyLoop/AudioTrack.java:244-245 | asking again for paths the cache holds changes nothing |
| Track.RememberAllIdempotent | src/easyLoop/AudioTrack.java:244-266 | rebuilding the same play order a second time renders nothing new |
| Track.RememberAllDistinct | src/easyLoop/AudioTrack.java:265-266 | the cache never lists a path twice |
| Track.TrackNameStripsExtension | src/easyLoop/AudioTrack.java:96 | for a base name without '.', the track name of base + ".wav" is the base |
| Track.TrackNameAsWrittenCollides | src/easyLoop/AudioTrack.java:96 | the regular expression turns both "lowave.wav" and "le.wav" into "le" |
| Track.TrackNameKeepsDistinct | src/easyLoop/AudioTrack.java:96 | the literal removal keeps "lowave" and "le" apart |
| SaveText.TrackFields | src/easyLoop/EasyLoop.java:836-842 | save writes exactly five fields per track |
| SaveText.AllTrackFields | src/easyLoop/EasyLoop.java:834-843 | the tracks' fields number five per track |
| SaveText.DecodePattern | src/easyLoop/EasyLoop.java:921-937 | a pattern field load accepts gives at least one entry, and every transposition is an int |
| SaveText.DecodeTrack | src/easyLoop/EasyLoop.java:898-957 | a track decodes only from five fields, into a non-empty pattern with int rate and counter; a track with a file always comes back playing |
| SaveText.DecodeTracks | src/easyLoop/EasyLoop.java:889-959 | k decoded tracks are k tracks, read from at least 5k fields |
| SaveText.DecodeEach | src/easyLoop/EasyLoop.java:889-959 | when the five fields of each track decode as its entry, all the tracks decode as that list |
| SaveText.DecodeStops | src/easyLoop/EasyLoop.java:890-957 | when one track's fields do not decode, the load of all the tracks fails |
| SaveText.Decode | src/easyLoop/EasyLoop.java:883-959 | a decoded session has at most ten tracks, an int main index and a loop length without '@', and the line had the fields for all of them |
| SaveText.Restored | src/easyLoop/EasyLoop.java:898-947 | load keeps the loop length, the main index and the track count |
| SaveText.PatternFieldRoundTrip | src/easyLoop/EasyLoop.java:921-937 | a saved pattern field splits into the entries' tokens and decodes back as the pattern |
| SaveText.TrackRoundTrip | src/easyLoop/EasyLoop.java:898-957 | a track's five saved fields decode as the track, with a track that has a file restored as playing |
| SaveText.TracksRoundTrip | src/easyLoop/EasyLoop.java:889-959 | the saved fields of all tracks decode as the restored tracks |
| SaveText.EncodeSplits | src/easyLoop/EasyLoop.java:883 | for a session whose file paths and loop length contain no '@' and whose paths are not "null", splitting the saved line at '@' gives back exactly the fields save wrote |
| SaveText.RoundTrip | src/easyLoop/EasyLoop.java:826-843 | for a session whose file paths contain no '@' and are not "null", load(save(s)) is s, except that a track with a file always comes back playing |
| SaveText.LoadedLabelOfSaved | src/easyLoop/EasyLoop.java:936-940 | load labels a saved pattern with its entries separated by spaces, `" \| "` collapsed |
| SaveText.MutedTrackLoadsPlaying | src/easyLoop/EasyLoop.java:904-905 | a muted track with a file is saved "false" and loaded playing |
| Sequencer.RemoveAt | src/easyLoop/EasyLoop.java:632-637 | `remove(w)` shortens the list by one, keeps the entries before w and shifts the ones after |
| Sequencer.RemoveIndex | src/easyLoop/EasyLoop.java:1003-1031 | a track is removed if and only if the answer is an int from 1 to the number of tracks, and then the index is inside the lists |
| Sequencer.MinIntPassesRemoveCheck | src/easyLoop/EasyLoop.java:1011-1012 | the answer "-2147483648" passes the check as written, with index 2147483647; the corrected check refuses it |
| Sequencer.RemoveChecksAgree | src/easyLoop/EasyLoop.java:1011-1012 | on every answer that is not the smallest int, the check as written and the corrected check agree |
| Sequencer.RateInput | src/easyLoop/EasyLoop.java:1683-1700 | a rate answer is taken if and only if it parses to an int above zero, and then it is that int |
| Sequencer.EasyLoop.constructor | src/easyLoop/EasyLoop.java:686-699 | the window starts with one default track and no main track |
| Sequencer.EasyLoop.AddTrack | src/easyLoop/EasyLoop.java:456-482 | the new track has pattern [0], rate 1 and counter 1; it is not playing and not main, and everything before it is unchanged |
| Sequencer.EasyLoop.AppendDefaults | src/easyLoop/EasyLoop.java:458-478 | each list gains exactly the new track's default entry |
| Sequencer.EasyLoop.RemoveTrack | src/easyLoop/EasyLoop.java:609-642 | entry w leaves every parallel list; the lists stay as long as the track count, which drops by one; the main index is not adjusted |
| Sequencer.EasyLoop.RemoveEntries | src/easyLoop/EasyLoop.java:624-640 | each list drops exactly entry w |
| Sequencer.EasyLoop.RemoveTrackCommand | src/easyLoop/EasyLoop.java:1002-1032 | the handler removes track v - 1 exactly when the answer v is from 1 to the number of tracks; otherwise nothing changes |
| Sequencer.EasyLoop.PrefillText | src/easyLoop/EasyLoop.java:1369-1374 | the dialog is pre-filled with every entry of the pattern followed by a space |
| Sequencer.EasyLoop.SetPattern | src/easyLoop/EasyLoop.java:1365-1442 | an accepted answer replaces only pattern k and its label, disables Play and enables Prepare; a refused one, including a text with no tokens (the corrected check of the first Findings row; see Left out), changes nothing |
| Sequencer.EasyLoop.SetRate | src/easyLoop/EasyLoop.java:1681-1708 | only an int above zero is taken, and it changes only rate k; the counters are untouched |
| Sequencer.EasyLoop.SelectMaster | src/easyLoop/EasyLoop.java:1199-1236 | track k becomes main, its rate becomes 1 and the other rates are unchanged; only radio k is selected; with a file, the loop length changes and Play is enabled unless Prepare is pending |
| Sequencer.EasyLoop.MainStep | src/easyLoop/EasyLoop.java:1200-1235 | one pass over radio button `index` selects it exactly when it is k, and sets rate 1 only there |
| Sequencer.EasyLoop.SetLoopLength | src/easyLoop/EasyLoop.java:1341-1360 | the length is set; the main track, if any, is deselected and no track is main any more; a stale main index fails after the length is set |
| Sequencer.EasyLoop.Save | src/easyLoop/EasyLoop.java:826-843 | the accumulated text is `Encode` of the window's state |
| Sequencer.AppendPattern | src/easyLoop/EasyLoop.java:837-839 | the inner loop appends every entry followed by ',' |
| Sequencer.SaveHeader | src/easyLoop/EasyLoop.java:832 | the header save writes is the count, the loop length and the main index, each followed by '@' |
| Sequencer.TrackTextAfter | src/easyLoop/EasyLoop.java:836-842 | the text one pass of the loop appends is that track's five fields, each followed by '@' |
| Sequencer.SaveStep | src/easyLoop/EasyLoop.java:834-843 | after track i the text is the header and the first i + 1 tracks' fields, terminated |
| Sequencer.EasyLoop.Load | src/easyLoop/EasyLoop.java:883-976 | load succeeds if and only if `Decode` does; then the state is the decoded session, each track is new and bound to its file, only the main index's radio is selected, labels are as load writes them, and Prepare is needed; a failed load changes nothing |
| Sequencer.EasyLoop.Install | src/easyLoop/EasyLoop.java:889-975 | the lists hold the read tracks, so the window's state is the decoded session |
| Sequencer.EasyLoop.SetSavedLists | src/easyLoop/EasyLoop.java:926-957 | entry j of the pattern, box, rate and counter lists is decoded track j's, and only the main index's radio is selected |
| Sequencer.ReadTracks | src/easyLoop/EasyLoop.java:889-959 | the track loop succeeds if and only if there are at most ten tracks and all of them decode; its tracks are then the decoded ones, new, bound to their files and labelled |
| Sequencer.ReadLoop | src/easyLoop/EasyLoop.java:890-959 | on success the loop read the saved count of tracks; on a failure below ten tracks it names the track whose fields do not decode |
| Sequencer.ReadNext | src/easyLoop/EasyLoop.java:891-959 | one pass adds one track read from the next five fields, or fails exactly where they do not decode |
| Sequencer.ReadSoFarSnoc | src/easyLoop/EasyLoop.java:891-959 | one more track read from the next five fields keeps everything the loop holds |
| Sequencer.ReadTrack | src/easyLoop/EasyLoop.java:891-957 | the pass succeeds if and only if the five fields decode; it makes a new track bound to the file (unless "null"), with the decoded fields and the label load shows |
| Sequencer.ReadFields | src/easyLoop/EasyLoop.java:918-957 | the fields after the file decode exactly when `DecodeTrack` accepts them, and give its result |
| Sequencer.EasyLoop.Play | src/easyLoop/EasyLoop.java:1139-1146 | every cursor goes to 0 and every counter to 1, then each track fires once, playing or muted as its box says |
| Sequencer.ResetCursors | src/easyLoop/EasyLoop.java:1139 | every track's cursor becomes 0 and nothing else changes |
| Sequencer.FireAll | src/easyLoop/EasyLoop.java:1143-1146 | each track fires exactly once from the first entry, with its box's state |
| Sequencer.Restart | src/easyLoop/EasyLoop.java:1139-1145 | a startable track fired from its first entry is fit to fire again |
| Sequencer.Fired | src/easyLoop/EasyLoop.java:1144-1145 | a runnable track that takes its box's state fires without failing, and stays runnable |
| Sequencer.FireAs | src/easyLoop/EasyLoop.java:1144-1145 | the track takes its box's state and fires once; its source and cache are unchanged |
| Loop.CounterStep | src/easyLoop/PlayManager.java:52-67 | the counter stays an int; it becomes 1 when it equals the rate, and otherwise goes up by one modulo 2^32 |
| Loop.TrackTick | src/easyLoop/PlayManager.java:45-61 | a track that is not due only takes its box's state; a due one fires exactly once, as `Fire` says |
| Loop.TickTrack | src/easyLoop/PlayManager.java:48-61 | the track's new state is `TrackTick`'s; its source and cache are unchanged |
| Loop.PlayManager.constructor | src/easyLoop/PlayManager.java:32-34 | the manager drives the window it is given |
| Loop.PlayManager.Tick | src/easyLoop/PlayManager.java:45-84 | every track takes its box and fires exactly when its counter equals its rate, and its counter moves as `CounterStep` says; rates, patterns, sources and caches are unchanged |
| Loop.PlayManager.TickOne | src/easyLoop/PlayManager.java:45-67 | one pass changes only counter i and track i, as `CounterStep` and `TrackTick` say |
| Loop.EveryRateTicks | src/easyLoop/PlayManager.java:52-67 | with rate R and the counter starting at 1, after t ticks the counter is t mod R + 1 |
| Loop.FiresEveryRate | src/easyLoop/PlayManager.java:52-67 | started at 1, the track fires on tick t exactly when t + 1 is a multiple of the rate: once every R ticks |
| Loop.CounterStaysInRange | src/easyLoop/PlayManager.java:52-74 | a counter between 1 and the rate stays there, so the countdown shown is never negative |
| Loop.OverRateNeverFires | src/easyLoop/PlayManager.java:52-67 | a counter above the rate climbs by one per tick and never fires, up to the largest int |
| Loop.OverRateWraps | src/easyLoop/PlayManager.java:65-66 | one tick past the largest int, that counter wraps to the smallest int |

## Left out

- Swing is not modelled: frames, panels, borders, most labels (only the pattern label is kept), dialogs, button enabling beyond the Play/Prepare flags, layout and hotkeys.
- The timer's display updates, PlayManager.java:69-83, are not modelled. They are labels: the countdown text and the next-transposition text.
- Audio playback is not modelled: `Clip`, the audio streams and recording. A started clip is a path in `sounding`.
- A play-order entry whose file is missing or unreadable is not modelled. In the source that ends in an error dialog or an exit.
- The external tool is not modelled: running `soundstretch` through `ProcessBuilder` and waiting for it. Each run is a `Render` record appended to `spawned`.
- `createShiftedFile` and the tempo change are not modelled, because they depend on `double` formatting.
- The loop length is text, and its `double` value is not modelled. This covers the Timer period, the track length computation and the length dialog's numeric check.
  - Main receives the computed length as a parameter.
  - Set Loop Length receives an already accepted answer.
  - Load does not model `Double.valueOf` failing on the second field.
- SaveText.RoundTrip and SaveText.EncodeSplits hold only for sessions whose file paths contain no '@' and are not the text "null" (`SavablePath`). save writes each track's path followed by '@' without escaping (EasyLoop.java:836), and load splits the whole line at '@' (EasyLoop.java:883). So a track loaded from a path such as "/home/u/a@b/x.wav" shifts every later field, and load then fails or reads the wrong data. A track whose path is "null" loads with no file (EasyLoop.java:898-903). Neither case is modelled as a round trip.
- Reading and writing the save file is not modelled. Only the line's encoding and decoding are. The line terminator `println` adds is also left out.
- Sequencer.EasyLoop.Load: a load that fails changes nothing in the model. In the source, load first removes every track and then adds tracks until the exception, so a failed load leaves a partial state.
- Sequencer.EasyLoop.Load: the model decodes every track before installing the lists. The source creates each track and sets that track's lists as it reads.
- Sequencer.EasyLoop.AddTrack: it requires fewer than ten tracks, and `Valid()` keeps the count at most ten, so an eleven-track window is not modelled. In the source the test that disables the Add Track item (EasyLoop.java:491) runs before the count is incremented (EasyLoop.java:563), so with ten tracks the item is still enabled. An eleventh addTrack grows every parallel list, sets the count to 11 and disables the item, and only then throws when it indexes the ten-entry hotkey table (EasyLoop.java:597-600). Tick, save and Remove Track then go on using all eleven tracks. Load's eleventh track fails there too, and the model's load fails at that point.
- Track.AudioTrack.SetTrack: it follows the corrected name of the second Findings row, `TrackName` (the literal removal of ".wav"). The source uses the regular expression `replaceAll(".wav", "")` (AudioTrack.java:96), so for "lowave.wav" the source's name is "le" and its render paths and cache entries differ from the model's. `TrackNameAsWritten` models the source's name and `TrackNameAsWrittenCollides` exhibits the difference.
- Sequencer.EasyLoop.SetPattern: it follows the corrected check of the first Findings row and changes nothing on a text with no tokens. On such a text (" ", say) the source passes the check, clears pattern k, sets its label to "Pattern:  " (EasyLoop.java:1414-1434), and then throws at `get(0)` (EasyLoop.java:1435-1436) with the Play and Prepare buttons unchanged. `Patterns.SpacesOnlyAccepted` models the source's check.
- Sequencer.EasyLoop.SelectMaster, Sequencer.EasyLoop.SetPattern and Sequencer.EasyLoop.SetRate take the track index k as given, with `0 <= k < trackNumber`. In the source k is `parseInt` of the last character of the button's action command (EasyLoop.java:989). The commands "Main" + i, "Set Pattern" + i and "Set Rate of Occurrence" + i are fixed when track i is created (EasyLoop.java:507, 536, 543), and removeTrack (EasyLoop.java:609-642) does not renumber them. So after Remove Track, the buttons of every later track act on the track after it, and the last track's buttons index past the end of the lists. The model does not capture these stale commands.
- The Set Pattern handler's "next transposition" label is not modelled. Its first-entry read is what fails on an empty pattern; see Findings.
- `Integer.parseInt` is modelled on ASCII digits only. Java also accepts other Unicode decimal digits.
- `File.getName()` is modelled as the text after the last '/' or '\\'. `java.io.File` path normalisation and `getAbsolutePath()` are not modelled; `trackDir` is the path as given.
- Track.AudioTrack.PlayNext requires the look-ahead of the current fire to stop (`Terminates`). The source loops forever otherwise; `EndlessOrders` shows two patterns where it does.
- Sequencer.EasyLoop.Play requires every track with a file to be `Startable`: a non-empty play order whose look-ahead stops from every entry. The source's Play handler (EasyLoop.java:1139-1146) needs less, and the model does not cover two cases.
  - An order whose look-ahead stops from the first entry but not from every entry. Set Pattern accepts "| 5 | |", whose order is ["|", r5, "|", "|"]. From entry 0 the first fire stops, so the source's Play completes, and the endless look-ahead comes at a later timer tick, from entry 1.
  - An empty order on a track with a file. playNext throws at its first `playOrder.get` (AudioTrack.java:190-199), the controls Play has already disabled (EasyLoop.java:1128-1136) stay disabled, and the timer is never started.
  - Loop.PlayManager.Tick's precondition `AllRunnable` is Play's postcondition, so Tick inherits the same restriction.
- Track.ChainEnds bounds the look-ahead by the order's length, as fuel: more hops than that count as not stopping. That this bound loses nothing (by pigeonhole) is not proved.
- Concurrency is not modelled: the Timer thread, the recording thread and the busy-wait on `notDone`. In the model `notDone` is only set and cleared.

## Findings

| source | as written | input that shows it | evidently intended | confidence | as-written member | corrected member |
|---|---|---|---|---|---|---|
| src/easyLoop/EasyLoop.java:1386-1437 | Set Pattern accepts any text whose tokens are all valid, including text that splits into no tokens at all | `" "`: `" ".split(" ")` is empty, so the pattern is cleared and then `get(0)` throws | refuse text with no tokens, as for an empty answer | not executed | Patterns.SpacesOnlyAccepted | Patterns.ParsePattern |
| src/easyLoop/AudioTrack.java:96 | `replaceAll(".wav", "")` treats ".wav" as a regular expression, so the dot matches any character | `"lowave.wav"` gives `"le"`, the same name as `"le.wav"`, so the two tracks share render paths | remove the literal extension | not executed | Track.TrackNameAsWrittenCollides | Track.TrackNameStripsExtension |
| src/easyLoop/EasyLoop.java:1011-1012 | the Remove Track check computes `Integer.valueOf(x) - 1` in int arithmetic | `"-2147483648"`: v - 1 wraps to 2147483647, which passes both tests, and removeTrack then indexes far past the end | refuse every answer outside 1 to the number of tracks | not executed | Sequencer.MinIntPassesRemoveCheck | Sequencer.RemoveChecksAgree |
