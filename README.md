# accApps in Dafny

accApps is an iPad app for augmentative communication. A user builds sentences from picture cards. Each card has a name, an optional photo and an optional voice recording. Cards are grouped into coloured sections.

- On the sections page (`ACSView`), tapping a card in a section (`SectionDetailView`) appends the card's trimmed name as a chip.
- "Done" opens `CombinedSentenceView`. It shows the chips as one capitalised, punctuated sentence. "Speak" plays, in word order, the recording of the newest card named like each word.
- `UCSView` lists every card and plays a card as soon as it is tapped.
- The card sheets (`AddCardView`, `EditCardView`) record, play and delete a voice clip and save the card.
- The section sheets (`AddSectionView`, `EditSectionView`) pick an icon and a colour.
- Colours are stored as hex strings and read back by `Color(hex:)`.
- `FlexibleChips` holds a greedy row-packing loop for chips. Its `asSubviews` helper always yields a single item, so in the app as shipped the loop never wraps.

The project models that core as Dafny modules, one per source concern:

| module | models |
|---|---|
| `Common`, `Text`, `Lists` | Option, bytes; whitespace trimming, joining and ASCII case folding; order-preserving filters, favourites-first ordering, selection toggling |
| `Models` | `CardItem`, `SectionItem` as value records, the per-item favourite star, the shared `LockState` |
| `ColorHex` | `Color(hex:)`: trimming, one `#`, Foundation's `scanHexInt64`, the 6/8-character rule, channel extraction; and the `#%06X`/`#%08X` formats `toHex` prints |
| `AudioRecorder` | the `AudioRecorderService` class, AVFoundation as a port whose outcomes are parameters |
| `CombinedSentence` | `sentence`, queue construction, and the `playCurrentIndex` state machine with its completions |
| `ACS` | chips (append, remove, clear, hand-off to the sentence sheet) and the sections page's selection, lock and star rules |
| `Grid`, `SectionDetail`, `UCS` | the card grid both card screens share, each screen's normal-mode tap, `ensureDefaultSection` |
| `CardEditors`, `SectionEditors` | the voice-control flag machine, the save rules of the four sheets, icon search |
| `FlexibleChips` | the greedy row-packing loop and the zero-size fallback of `intrinsicSize` |

State that the Swift code updates in place is a `class` whose methods change it. This covers the service, each view's `@State`, the view model and the lock. Everything else is a datatype or a function. Taps on buttons that SwiftUI disables are modelled as methods that do nothing while the button is disabled. The sections page and the card grid each gather their fields into one value (`PageState`, `GridState`), so every method states its whole new state as the old one with named fields replaced.

Playing a queue is described by two functions:

- `SkipFailures` gives where a chain of `playCurrentIndex` calls comes to rest.
- `Run` gives which clips a whole run starts and whether it stalls.

The methods are proved against them. Two behaviours of the code become visible this way:

- `startPlayback` returns silently when no file was ever loaded. So when the first clip's temporary file cannot be written, the queue stalls with `isPlayingQueue` still true (`RunStallsWhenFirstWriteFails`).
- When a later write fails, the previously loaded clip is heard again in place of the new one (`FailedWriteReplaysCurrentFile`).

## Model

| member | source | states |
|---|---|---|
| Text.Trim | accApps/View/CombinedSentenceView.swift:23 | the result is the slice of the input between its leading and trailing whitespace; it is empty exactly when the input is all whitespace, and it has no whitespace at either end |
| Text.TrimIdempotent | accApps/View/EditSectionView.swift:372 | trimming a trimmed string changes nothing |
| Text.JoinAppend | accApps/View/CombinedSentenceView.swift:23 | `joined(separator: " ")` of the words plus one more word is the old join, a space, and the new word |
| Text.JoinLength | accApps/View/CombinedSentenceView.swift:23 | the joined text is as long as all the words together plus one space between each pair |
| Text.ToUpperFacts | accApps/View/CombinedSentenceView.swift:25 | upper-casing keeps whitespace as whitespace and is idempotent |
| Text.LowerFacts | accApps/View/CombinedSentenceView.swift:204 | folding leaves no upper-case ASCII letter, folding twice is folding once, and a string matches its folded form ignoring case |
| Text.LowerAppend | accApps/View/EditSectionView.swift:587 | folding a concatenation folds each part |
| Lists.CompactMap | accApps/View/CombinedSentenceView.swift:190-207 | mapping each element to at most one value never yields more values than elements |
| Lists.CompactMapAppend | accApps/View/CombinedSentenceView.swift:190-207 | building from two word lists in turn gives the concatenation of the two results |
| Lists.CompactMapSkip | accApps/View/CombinedSentenceView.swift:190-207 | an element mapped to nothing can be removed from the input without changing the result |
| Lists.Filter | accApps/View/EditSectionView.swift:587 | exactly the elements satisfying the predicate are kept, and none is added |
| Lists.FilterAppend | accApps/View/EditSectionView.swift:587 | filtering distributes over concatenation |
| Lists.FilterIsSubsequence | accApps/View/EditSectionView.swift:587 | `filter` keeps the input order |
| Lists.FilterAll | accApps/View/EditSectionView.swift:586 | a predicate every element satisfies keeps the whole list |
| Lists.FilterKeepsEveryCopy | accApps/View/EditSectionView.swift:587 | every copy of an element that passes the predicate is kept, so duplicates are not collapsed |
| Lists.FilterSplit | accApps/View/ACSView.swift:56-64 | the elements that pass and those that fail together are a permutation of the input |
| Lists.FavouritesFirstSpec | accApps/View/ACSView.swift:56-64 | with the star on, the order is a permutation of the query result in which no non-favourite precedes a favourite |
| Lists.Displayed | accApps/View/SectionDetailView.swift:40-46 | with the star off the displayed list is the stored list; with it on it is a favourites-first permutation |
| Lists.Toggle | accApps/View/ACSView.swift:495-502 | membership of exactly the tapped id flips; every other id keeps its membership |
| Lists.ToggleTwice | accApps/View/UCSView.swift:425-432 | tapping the same item twice restores the selection |
| Lists.WithoutSelected | accApps/View/SectionDetailView.swift:427-432 | exactly the items whose ids are selected are removed, the rest keep their order and every copy, and an empty selection removes nothing |
| Models.ToggleSectionFavorite | accApps/View/ACSView.swift:428-431 | the section with the tapped id has its favourite flag flipped; every other section is unchanged |
| Models.ToggleSectionFavoriteTwice | accApps/View/ACSView.swift:428-431 | starring the same section twice restores every section |
| Models.ToggleCardFavorite | accApps/View/SectionDetailView.swift:356-359 | the card with the tapped id has its favourite flag flipped; every other card is unchanged |
| Models.ToggleCardFavoriteTwice | accApps/View/UCSView.swift:369-372 | starring the same card twice restores every card |
| Models.LockState.constructor | accApps/View/ACSView.swift:18 | the shared lock starts in the given state |
| ColorHex.HexRunLength | accApps/Service/Color+Hex.swift:12 | the scanner reads the longest run of hex digits at the start and stops at the first other character |
| ColorHex.HexRunValue | accApps/Service/Color+Hex.swift:12 | a run of n hex digits denotes a number below 16^n |
| ColorHex.ScanHex | accApps/Service/Color+Hex.swift:12 | `scanHexInt64` succeeds exactly when at least one hex digit follows the skipped whitespace and an optional `0x`; the value saturates at `UInt64.max` |
| ColorHex.ParseHex | accApps/Service/Color+Hex.swift:4-30 | a colour results exactly when the scan succeeds and the trimmed, `#`-stripped string has 6 or 8 characters; every channel is a byte; six characters give full alpha |
| ColorHex.ParseHexIgnoresSurroundingWhitespace | accApps/Service/Color+Hex.swift:6 | surrounding whitespace never changes the result |
| ColorHex.HexRunValueAppend | accApps/Service/Color+Hex.swift:12 | reading more digits shifts the earlier value left by one hex place per digit |
| ColorHex.ByteHexValue | accApps/Service/Color+Hex.swift:42 | a byte printed as two hex digits reads back as that byte |
| ColorHex.HexRunLengthAll | accApps/Service/Color+Hex.swift:12 | a string of hex digits is read to its end |
| ColorHex.ScanAllDigits | accApps/Service/Color+Hex.swift:12 | a string of hex digits that cannot look like `0x` scans to its full value, saturated |
| ColorHex.Hex6Value | accApps/Service/Color+Hex.swift:15-18 | the six digits `toHex` prints denote `r·65536 + g·256 + b` |
| ColorHex.ParseFormatHex6 | accApps/Service/Color+Hex.swift:15-19 | parsing what `#%06X` prints returns the three channels with alpha 255 (RRGGBB layout) |
| ColorHex.HexRunValueIgnoresCase | accApps/Service/Color+Hex.swift:12 | digit runs whose digits have equal values denote the same number, whatever the letter case |
| ColorHex.ParseLowerFormatHex6 | accApps/Service/Color+Hex.swift:4-19 | a stored colour written in lower-case digits ("#ff00aa") parses to the same channels as its upper-case form |
| ColorHex.Hex8Value | accApps/Service/Color+Hex.swift:20-24 | the eight digits of `#%08X` denote `r·2^24 + g·2^16 + b·2^8 + a` |
| ColorHex.ParseFormatHex8 | accApps/Service/Color+Hex.swift:20-24 | parsing what `#%08X` prints returns all four channels (RRGGBBAA layout) |
| ColorHex.DoubleHashRejected | accApps/Service/Color+Hex.swift:7-9 | only one `#` is removed; "##12345" is rejected |
| ColorHex.TrailingGarbageAccepted | accApps/Service/Color+Hex.swift:12-19 | the length check counts characters, not digits read, so "12345G" parses as 0x012345 |
| ColorHex.ScanStopsAtLetter | accApps/Service/Color+Hex.swift:12 | the scanner reads "12345" of "12345G" |
| ColorHex.HexRunLengthStops | accApps/Service/Color+Hex.swift:12 | the digit run ends at the first character that is not a hex digit |
| ColorHex.SevenDigitsRejected | accApps/Service/Color+Hex.swift:25-26 | any other character count, seven here, is rejected even when every character is a hex digit |
| AudioRecorder.AudioRecorderService.constructor | accApps/Service/AudioRecorderService.swift:3-11 | a fresh service has no recorder, no player, no current file and no pending completion |
| AudioRecorder.AudioRecorderService.StartRecording | accApps/Service/AudioRecorderService.swift:23-46 | throws exactly when the session or the recorder fails; after the session is up, the current file is the fresh URL even when the recorder then throws |
| AudioRecorder.AudioRecorderService.StopRecording | accApps/Service/AudioRecorderService.swift:49-52 | recording stops; the current file and the player are kept |
| AudioRecorder.AudioRecorderService.StartPlayback | accApps/Service/AudioRecorderService.swift:55-72 | without a current file it returns without throwing or storing a completion; otherwise it throws exactly when the session, the file or the player fails, and on success the player opens the current file and the new completion replaces any pending one |
| AudioRecorder.AudioRecorderService.StopPlayback | accApps/Service/AudioRecorderService.swift:74-78 | the player and the pending completion are dropped, so a later finish finds nothing to call |
| AudioRecorder.AudioRecorderService.DeleteRecording | accApps/Service/AudioRecorderService.swift:80-87 | recording and playback stop, the current file is removed from disk, and no file is current |
| AudioRecorder.AudioRecorderService.LoadExistingRecordingFrom | accApps/Service/AudioRecorderService.swift:90-96 | recording and playback stop and the given URL becomes current |
| AudioRecorder.AudioRecorderService.LoadExistingRecordingData | accApps/Service/AudioRecorderService.swift:99-108 | when the temporary write succeeds the new file holds the data and is current; when it fails nothing changes |
| AudioRecorder.AudioRecorderService.AudioPlayerDidFinishPlaying | accApps/Service/AudioRecorderService.swift:111-117 | the pending completion is handed out and cleared, so each stored completion runs at most once |
| CombinedSentence.Sentence | accApps/View/CombinedSentenceView.swift:22-31 | empty exactly when the joined words are all whitespace; otherwise it is the trimmed text with its first character upper-cased, ending in `.`, `!` or `?`, with a `.` added only when the text did not already end in one |
| CombinedSentence.SentenceIdempotent | accApps/View/CombinedSentenceView.swift:22-31 | formatting a formatted sentence again changes nothing |
| CombinedSentence.NewestMatch | accApps/View/CombinedSentenceView.swift:201-204 | none exactly when no card's trimmed name equals the word ignoring case; otherwise a matching card with the greatest `createdAt` |
| CombinedSentence.ResolveWord | accApps/View/CombinedSentenceView.swift:190-207 | a blank word contributes nothing; otherwise the clip is the newest matching card's recording, so no match gives none, a uniquely newest match gives its own audio (none if it has none), and any clip comes from a newest match |
| CombinedSentence.BuildQueue | accApps/View/CombinedSentenceView.swift:189-210 | the queue is never longer than the word list |
| CombinedSentence.BuildQueueStep | accApps/View/CombinedSentenceView.swift:189-207 | one more word extends the queue by that word's clip, if any, at the end |
| CombinedSentence.BuildQueueLast | accApps/View/CombinedSentenceView.swift:189-207 | the queue ends with the last word's clip, if any |
| CombinedSentence.BuildQueueAppend | accApps/View/CombinedSentenceView.swift:189-207 | the queue of two word lists is the first's queue followed by the second's (word order) |
| CombinedSentence.BuildQueueSkipsBlank | accApps/View/CombinedSentenceView.swift:190-192 | removing a whitespace-only word leaves the queue unchanged |
| CombinedSentence.BuildQueueSingle | accApps/View/CombinedSentenceView.swift:200-207 | one word yields exactly its resolved clip or nothing |
| CombinedSentence.BuildQueueFromCards | accApps/View/CombinedSentenceView.swift:204-205 | every clip in the queue is some card's recording |
| CombinedSentence.MatchIgnoresCaseAndSpaces | accApps/View/CombinedSentenceView.swift:203 | a card named " Hello " answers to "hello" |
| CombinedSentence.NewestMatchWithoutAudioSkipsWord | accApps/View/CombinedSentenceView.swift:200-207 | when the newest match has no audio the word is skipped although an older match has a recording |
| CombinedSentence.SkipFailures | accApps/View/CombinedSentenceView.swift:222-243 | a chain of starts that throw moves forward through the queue, never past its end, and never loses a loaded file |
| CombinedSentence.LandingPlaysItsClip | accApps/View/CombinedSentenceView.swift:229-232 | where the chain comes to rest on a clip whose file was written, the current file holds exactly that clip |
| CombinedSentence.FailedWriteReplaysCurrentFile | accApps/Service/AudioRecorderService.swift:99-108 | a clip whose temporary write fails replays the previously loaded file in its place |
| CombinedSentence.RunIncreasing | accApps/View/CombinedSentenceView.swift:230-242 | the clips a run starts are in strictly increasing queue order, each visited at most once |
| CombinedSentence.RunNeverStallsWithFile | accApps/View/CombinedSentenceView.swift:222-243 | once some file has been loaded the run always ends with the queue stopped |
| CombinedSentence.RunStallsWhenFirstWriteFails | accApps/Service/AudioRecorderService.swift:56-59 | with no file yet and a failed first write, `startPlayback` returns silently and the run stalls before any clip with `isPlayingQueue` still true |
| CombinedSentence.Range | accApps/View/CombinedSentenceView.swift:230-242 | the indices from `lo` up to `hi`, in order |
| CombinedSentence.RunAllSucceed | accApps/View/CombinedSentenceView.swift:230-242 | when every step succeeds, clips i, i+1, …, n-1 are each started once, in order, and the run ends cleanly |
| CombinedSentence.CombinedSentenceView.constructor | accApps/View/CombinedSentenceView.swift:4-17 | the sheet opens with its words, not playing, at index 0, with an empty queue |
| CombinedSentence.CombinedSentenceView.PlayCurrentIndex | accApps/View/CombinedSentenceView.swift:222-243 | stopped or past the end: marks not playing and plays nothing; otherwise stops the previous clip, loads and starts the current one, advancing on each throw, and comes to rest where `SkipFailures` says |
| CombinedSentence.CombinedSentenceView.CollectClips | accApps/View/CombinedSentenceView.swift:189-210 | the loop over the words builds exactly `BuildQueue` |
| CombinedSentence.CombinedSentenceView.PrepareQueueAndPlay | accApps/View/CombinedSentenceView.swift:183-220 | the queue is rebuilt from the words; an empty queue leaves the sheet not playing and starts nothing; otherwise playback starts at clip 0 as `SkipFailures` says |
| CombinedSentence.CombinedSentenceView.StopPlayback | accApps/View/CombinedSentenceView.swift:245-249 | not playing, index 0, and the service holds no player or completion |
| CombinedSentence.CombinedSentenceView.HandleSpeakTapped | accApps/View/CombinedSentenceView.swift:173-181 | stops a playing queue; otherwise rebuilds from a reset index and plays |
| CombinedSentence.CombinedSentenceView.OnClipFinished | accApps/View/CombinedSentenceView.swift:233-237 | a finish with a pending completion advances by exactly one and plays on; a finish after a stop changes nothing |
| ACS.RemoveChipWithIdKeepsOthers | accApps/View/ACSView.swift:584 | removing by id keeps exactly the chips with other ids, in their order |
| ACS.RemoveAbsentChip | accApps/View/ACSView.swift:584 | removing an id no chip has changes nothing |
| ACS.RemoveExactlyOneChip | accApps/View/ACSView.swift:584 | with unique ids, removing chip k's id removes only chip k |
| ACS.RemoveKeepsIdsIncreasing | accApps/View/ACSView.swift:584 | removal keeps the chip ids unique |
| ACS.RemoveKeepsTrimmedWords | accApps/View/ACSView.swift:584 | removal keeps every chip a non-blank trimmed word |
| ACS.JoinStartsWithFirstWord | accApps/View/CombinedSentenceView.swift:23 | the joined text starts with the first word's first character |
| ACS.ChipSentenceEmptyIff | accApps/View/ACSView.swift:359-362 | the sentence built from the chips is empty exactly when there are no chips |
| ACS.ACSView.constructor | accApps/View/ACSView.swift:16-40 | the page opens unlocked, in normal mode, with no chips |
| ACS.ACSView.OnAppear | accApps/View/ACSView.swift:367-369 | the page lock follows the shared lock; every other field of the page keeps its value |
| ACS.ACSView.ReceiveWord | accApps/View/ACSView.swift:371-381 | a blank word is ignored; otherwise exactly one chip with the trimmed word and a fresh id is appended, duplicates allowed; every other field of the page keeps its value |
| ACS.ACSView.RemoveChip | accApps/View/ACSView.swift:584 | only the removed chip disappears and the others keep their order; every other field of the page keeps its value |
| ACS.ACSView.ClearChips | accApps/View/ACSView.swift:390-392 | "Clear" empties the chips; every other field of the page keeps its value |
| ACS.ACSView.DoneTapped | accApps/View/ACSView.swift:359-365 | the sentence sheet opens with the chip texts as its words, not playing; every other field of the page keeps its value |
| ACS.ACSView.ToggleDeleteSelection | accApps/View/ACSView.swift:495-502 | exactly the tapped section's membership in the selection flips; every other field of the page keeps its value |
| ACS.ACSView.ExitDeleteSelectionMode | accApps/View/ACSView.swift:504-507 | delete selection ends with nothing selected; every other field of the page keeps its value |
| ACS.ACSView.PerformDeleteSelectedSections | accApps/View/ACSView.swift:509-519 | exactly the selected sections are deleted; an empty selection deletes nothing; every other field of the page keeps its value |
| ACS.ACSView.ConfirmDelete | accApps/View/ACSView.swift:324-327 | the selected sections are deleted and delete selection ends; every other field of the page keeps its value |
| ACS.ACSView.SectionTappedWhileSelecting | accApps/View/ACSView.swift:132-140 | ignored while the page is locked; otherwise it toggles the section in delete selection, or picks it and opens the edit sheet; every other field of the page keeps its value |
| ACS.ACSView.SectionTileTapped | accApps/View/ACSView.swift:122-142 | as laid out: in delete selection the disabled tile ignores the tap; in edit selection an unlocked tap picks the section and opens the edit sheet; every other field of the page keeps its value |
| ACS.ACSView.DeleteOneSectionAsWritten | accApps/View/ACSView.swift:122-142 | as laid out, "Select", a section tap and "Delete" leave every section in place; every other field of the page keeps its value |
| ACS.ACSView.DeleteOneSectionAsIntended | accApps/View/ACSView.swift:130-140 | with the tap reaching the handler, the same steps remove exactly the sections with the tapped id, order kept; every other field of the page keeps its value |
| ACS.ACSView.ToggleLock | accApps/View/ACSView.swift:236-243 | the page lock and the shared lock flip together; locking ends delete and edit selection and forgets the picked section; every other field of the page keeps its value |
| ACS.ACSView.StarTapped | accApps/View/ACSView.swift:252-261 | the favourites-first star flips only in normal mode while unlocked; every other field of the page keeps its value (the lock guards read the state before the tap) |
| ACS.ACSView.SectionStarTapped | accApps/View/ACSView.swift:428-444 | a section's star flips exactly that section's favourite flag, unless the page is locked or delete selection disables the tile; every other field of the page keeps its value (the lock guards read the state before the tap) |
| ACS.ACSView.SelectTapped | accApps/View/ACSView.swift:305-316 | enters delete selection with nothing selected, only from normal mode while unlocked; every other field of the page keeps its value (the lock guards read the state before the tap) |
| ACS.ACSView.EditTapped | accApps/View/ACSView.swift:280-289 | enters edit selection with nothing picked, only from normal mode while unlocked; every other field of the page keeps its value (the lock guards read the state before the tap) |
| ACS.ACSView.FinishEditSelection | accApps/View/ACSView.swift:194-212 | "Cancel"/"Done" leaves edit selection and forgets the pick, unless locked; every other field of the page keeps its value (the lock guards read the state before the tap) |
| ACS.ACSView.CancelDeleteSelection | accApps/View/ACSView.swift:216-221 | "Cancel" leaves delete selection with nothing selected, unless locked; every other field of the page keeps its value (the lock guards read the state before the tap) |
| Grid.CardGrid.constructor | accApps/View/SectionDetailView.swift:6-25 | the grid opens in normal mode with the star off, nothing selected and an idle service |
| Grid.CardGrid.DisplayedEmptyIff | accApps/View/SectionDetailView.swift:40-46 | the grid shows nothing exactly when there are no cards, whatever the star says |
| Grid.CardGrid.ToggleDeleteSelection | accApps/View/SectionDetailView.swift:413-420 | exactly the tapped card's membership flips; every other field of the grid keeps its value |
| Grid.CardGrid.ExitDeleteSelectionMode | accApps/View/SectionDetailView.swift:422-425 | delete selection ends with nothing selected; every other field of the grid keeps its value |
| Grid.CardGrid.PerformDeleteSelectedCards | accApps/View/SectionDetailView.swift:427-432 | exactly the selected cards are deleted, the rest keep their order; an empty selection deletes nothing; every other field of the grid keeps its value |
| Grid.CardGrid.ConfirmDelete | accApps/View/SectionDetailView.swift:270-273 | the selected cards are deleted and delete selection ends; every other field of the grid keeps its value |
| Grid.CardGrid.CardTappedWhileSelecting | accApps/View/SectionDetailView.swift:89-95 | in delete selection the card toggles; in edit selection it is picked and the edit sheet opens (the lock does not block taps); every other field of the grid keeps its value |
| Grid.CardGrid.ToggleLock | accApps/View/SectionDetailView.swift:168-182 | the shared lock flips; locking stops playback, ends delete and edit selection and forgets the picked card; every other field of the grid keeps its value |
| Grid.CardGrid.StarTapped | accApps/View/SectionDetailView.swift:185-195 | the favourites-first star flips only in normal mode while unlocked; every other field of the grid keeps its value |
| Grid.CardGrid.CardStarTapped | accApps/View/SectionDetailView.swift:356-359 | a card's star flips its favourite flag, also while locked; every other field of the grid keeps its value |
| Grid.CardGrid.SelectTapped | accApps/View/SectionDetailView.swift:238-252 | enters delete selection with nothing selected and no picked card, only from normal mode, unlocked, with cards; every other field of the grid keeps its value |
| Grid.CardGrid.EditTapped | accApps/View/SectionDetailView.swift:214-224 | enters edit selection with nothing picked, only from normal mode, unlocked, with cards; every other field of the grid keeps its value |
| Grid.CardGrid.FinishEditSelection | accApps/View/SectionDetailView.swift:121-142 | leaves edit selection and forgets the pick, unless locked; every other field of the grid keeps its value |
| Grid.CardGrid.CancelDeleteSelection | accApps/View/SectionDetailView.swift:144-164 | leaves delete selection with nothing selected, unless locked; every other field of the grid keeps its value |
| SectionDetail.SectionDetailView.constructor | accApps/View/SectionDetailView.swift:6-25 | the grid shows the section's cards in normal mode |
| SectionDetail.SectionDetailView.CardTapped | accApps/View/SectionDetailView.swift:89-109 | in normal mode a card with a blank name does nothing; otherwise its trimmed name becomes one new chip with the section colour and the screen dismisses; while selecting, delete selection toggles the card and edit selection picks it and opens the edit sheet, with no chip and no dismissal; the grid and the rest of the sections page are otherwise unchanged |
| UCS.FirstNamed | accApps/View/UCSView.swift:469-473 | the fetch finds a section exactly when one is called "Default", and returns one so called |
| UCS.CountNamed | accApps/View/UCSView.swift:469-473 | counts the sections called "Default"; zero exactly when there is none |
| UCS.CountNamedAppend | accApps/View/UCSView.swift:475-481 | inserting a section adds one to the count exactly when it is called "Default" |
| UCS.UCSView.constructor | accApps/View/UCSView.swift:7-28 | the screen opens with all cards, no default section resolved and no sheet |
| UCS.UCSView.EnsureDefaultSection | accApps/View/UCSView.swift:467-488 | a no-op once set or when the fetch fails; otherwise it reuses the first "Default" section or inserts one ("#F5F5F5", "square.stack.3d.up"); the number of "Default" sections never goes above one when there was none |
| UCS.UCSView.AddTapped | accApps/View/UCSView.swift:231-240 | only while unlocked and in normal mode: ensures the default section (reusing an existing "Default", otherwise inserting one that is remembered when the save succeeds; nothing when the fetch fails), then opens the add sheet |
| UCS.UCSView.CardTapped | accApps/View/UCSView.swift:96-114 | in normal mode a card without audio is ignored; otherwise playback stops, the clip is written and loaded, and the player opens the new file (or the previous one when the write failed) unless the start throws; while selecting, delete selection toggles the card and edit selection picks it and opens the edit sheet, with the audio service untouched; the add sheet and the rest of the grid are otherwise unchanged |
| CardEditors.CanSave | accApps/View/AddCardView.swift:36-38 | Save is enabled exactly when the trimmed name is not blank |
| CardEditors.JpegOf | accApps/View/AddCardView.swift:302-305 | no picked image means no image data |
| CardEditors.VoiceControls.RecordedAudio | accApps/View/AddCardView.swift:307-310 | there are bytes exactly when a current file exists on disk, and they are that file's contents; no current file means no audio |
| CardEditors.VoiceControls.constructor | accApps/View/AddCardView.swift:23-26 | the controls start idle with no recording |
| CardEditors.VoiceControls.LoadCardAudio | accApps/View/EditCardView.swift:45-52 | a stored recording is written to a temp file and made current; it reads back as the stored bytes exactly when the write succeeded |
| CardEditors.VoiceControls.HandleRecordTapped | accApps/View/AddCardView.swift:329-345 | while recording: stops, and the audio counts as recorded exactly when there is a current file; otherwise recording starts exactly when permission is granted and `startRecording` does not throw |
| CardEditors.VoiceControls.HandlePlayTapped | accApps/View/AddCardView.swift:347-361 | while playing: stops; otherwise `isPlaying` is set exactly when `startPlayback` did not throw |
| CardEditors.VoiceControls.OnPlaybackFinished | accApps/View/AddCardView.swift:351-353 | the completion clears `isPlaying` |
| CardEditors.VoiceControls.DeleteAudio | accApps/View/AddCardView.swift:121-125 | the file is deleted and recorded, playing and recording all become false |
| CardEditors.NewCardFrom | accApps/View/AddCardView.swift:312-316 | the new card has the trimmed name, the picked image's JPEG, the current file's bytes, and no star |
| CardEditors.AddCardView.constructor | accApps/View/AddCardView.swift:11-26 | the sheet opens with an empty name, no image and no recording |
| CardEditors.AddCardView.ImagePicked | accApps/View/AddCardView.swift:364-372 | a picked photo that decodes becomes the picked image; one that does not is ignored |
| CardEditors.AddCardView.Save | accApps/View/AddCardView.swift:301-327 | when `canSave`, exactly one card is appended at the end of the section and the sheet dismisses |
| CardEditors.OpenEdit | accApps/View/EditCardView.swift:33-44 | the sheet shows the stored name; it has an existing image exactly when the stored data decodes |
| CardEditors.SaveEdit | accApps/View/EditCardView.swift:331-357 | the saved card keeps its identity, date and star, takes the trimmed name and the current file's bytes or none, and takes the image `SavedImage` gives |
| CardEditors.RemovedImageIsCleared | accApps/View/EditCardView.swift:336-340 | after "Remove Image" with no new pick, the saved card has no image |
| CardEditors.SavedImageKeepsStoredIff | accApps/View/EditCardView.swift:336-340 | with nothing picked the stored image survives exactly when it is still marked existing (or there was none) |
| CardEditors.UntouchedEditKeepsCard | accApps/View/EditCardView.swift:33-357 | opening and saving a card untouched gives it back when its name is trimmed, its picture re-encodes to the same bytes and its recording reads back |
| CardEditors.UndecodableImageIsDropped | accApps/View/EditCardView.swift:38-43 | stored image data that does not decode is removed by an untouched save |
| CardEditors.EditCardView.constructor | accApps/View/EditCardView.swift:33-56 | the flags come from the card: an existing image exactly when it decodes, recorded audio exactly when the card has audio |
| CardEditors.EditCardView.RemoveImage | accApps/View/EditCardView.swift:117-121 | no picked image and no existing image |
| CardEditors.EditCardView.PhotoLoaded | accApps/View/EditCardView.swift:394-403 | a decoded photo becomes the picked, existing image; otherwise nothing changes; the sheet is not dismissed |
| CardEditors.EditCardView.CameraPicked | accApps/View/EditCardView.swift:428-432 | the camera photo becomes the picked image; the sheet is not dismissed |
| CardEditors.EditCardView.Save | accApps/View/EditCardView.swift:331-357 | when `canSave`, the card becomes `SaveEdit` of the edits and the sheet dismisses |
| SectionEditors.EffectiveIconName | accApps/View/EditSectionView.swift:371-374 | the trimmed typed name when it is not blank, else the picked icon; empty exactly when both are |
| SectionEditors.CanSaveSection | accApps/View/EditSectionView.swift:376-380 | Save is enabled exactly for a non-blank name, some icon and a colour with a hex form |
| SectionEditors.FilteredIcons | accApps/View/EditSectionView.swift:584-588 | everything for a blank query; otherwise exactly the icons containing the trimmed query ignoring case, in the original order and with every copy kept |
| SectionEditors.FilterIdempotent | accApps/View/AddSectionView.swift:223-227 | filtering filtered icons again changes nothing |
| SectionEditors.FilteredIconsIdempotent | accApps/View/AddSectionView.swift:223-227 | searching the results again with the same query changes nothing |
| SectionEditors.SearchingANameFindsIt | accApps/View/AddSectionView.swift:223-227 | typing an icon's exact name, with or without surrounding blanks, keeps that icon in the grid |
| SectionEditors.EditSectionView.constructor | accApps/View/EditSectionView.swift:364-369 | the sheet opens with the section's name and icon, "star" when it has none, and its colour |
| SectionEditors.EditSectionView.PickIcon | accApps/View/EditSectionView.swift:434-436 | a picked icon becomes the effective icon and clears the typed name; the sheet is not dismissed |
| SectionEditors.EditSectionView.PickColor | accApps/View/EditSectionView.swift:410 | a picked colour replaces the selected one; the sheet is not dismissed |
| SectionEditors.EditSectionView.Save | accApps/View/EditSectionView.swift:563-574 | without a hex colour nothing changes; otherwise the section gets the trimmed name, the effective icon and the hex, and the sheet dismisses |
| SectionEditors.AddSectionModel.constructor | accApps/View/AddSectionView.swift:9 | a fresh form has no name, the "star" icon, no typed icon and the default colour |
| SectionEditors.AddSectionView.constructor | accApps/View/AddSectionView.swift:9 | the sheet opens on a fresh form |
| SectionEditors.AddSectionView.PickIcon | accApps/View/AddSectionView.swift:72-73 | a picked icon becomes the effective icon and clears the typed name |
| SectionEditors.AddSectionView.Save | accApps/View/AddSectionView.swift:204-213 | without a hex colour nothing happens; otherwise exactly one section with the trimmed name, the hex and the effective icon is inserted and the sheet dismisses |
| FlexibleChips.IntrinsicSize | accApps/View/FlexibleChips.swift:114-121 | a measured size of exactly zero becomes 1×1; any other size is kept |
| FlexibleChips.Widths | accApps/View/FlexibleChips.swift:66 | one width per item: the measured width, or 1 for a 0×0 item; a zero width comes only from an item measured 0 wide with a positive height |
| FlexibleChips.AppendToLastShape | accApps/View/FlexibleChips.swift:69 | appending to the current row leaves the earlier rows alone and extends the last |
| FlexibleChips.PackPrefixFlatten | accApps/View/FlexibleChips.swift:65-80 | reading the rows in order lists every item exactly once, in input order |
| FlexibleChips.PlaceFlatten | accApps/View/FlexibleChips.swift:67-78 | placing one item adds exactly it at the end of the reading order |
| FlexibleChips.PackPrefixRowsNonEmpty | accApps/View/FlexibleChips.swift:59-76 | after at least one item no row is empty |
| FlexibleChips.PackPrefixIndices | accApps/View/FlexibleChips.swift:65-80 | rows only hold items already visited |
| FlexibleChips.RowWidthAppend | accApps/View/FlexibleChips.swift:74 | adding an item to a row adds one spacing and its width |
| FlexibleChips.IntendedPackingInvariant | accApps/View/FlexibleChips.swift:65-80 | with the row-is-empty test, the running width is the width of the last row and every row of two or more items fits `maxWidth` |
| FlexibleChips.TestsAgreeOnPositiveWidths | accApps/View/FlexibleChips.swift:67 | when every width is positive, `width == 0` and "the row is empty" pack identically |
| FlexibleChips.PackRows | accApps/View/FlexibleChips.swift:57-80 | the loop computes the packing specification; the rows list every item once, in order; no items give one empty row; otherwise no row is empty |
| FlexibleChips.ZeroWidthItemOverfillsRow | accApps/View/FlexibleChips.swift:67-74 | widths [0, 10] with spacing 8 and `maxWidth` 10 pack into one row 18 wide |
| FlexibleChips.ZeroWidthItemWrapsWhenIntended | accApps/View/FlexibleChips.swift:72-78 | with the row-is-empty test, the same items wrap into two rows |

## Left out

- SwiftUI bodies, styling, sheets and navigation. A normal-mode tap on a section in `ACSView` navigates and is not modelled. The onboarding screens, `CardView`, `TestView` and the `onDisappear` handlers are not part of this model.
- AVFoundation: the audio session, `AVAudioRecorder`, `AVAudioPlayer`, temporary-file writes and microphone permission. Their outcomes are parameters (`Attempt`, `sessionOk`, `recorderOk`, `writeOk`, `granted`). `requestPermission` itself is not modelled.
- Concurrency: the `DispatchQueue.main.async` hop before a completion runs. The completion runs at once when the finish event is delivered.
- SwiftData: `modelContext` fetch, insert, delete and save, `@Query` and object identity. Cards and sections are values held in sequences, so aliasing between a screen's copy and the store is not captured.
- `deleteAllDataAndNavigate` and the "Change Level" action: navigation and bulk deletion, outside this core.
- The declaration of `LockState` is not part of this model. Its one field, `isLocked`, is inferred from its uses.
- NotificationCenter: the post from `SectionDetailView` to `ACSView` is a direct call of `ACSView.ReceiveWord`.
- Foundation `Scanner` is modelled as its documented behaviour: leading whitespace skipped, an optional `0x`, a digit run, saturation at `UInt64.max`.
- `CGFloat` and the division by 255 in `Color(hex:)`: the model keeps the integer channel bytes.
- `UIColor`, `getRed` and the float-to-integer rounding in `toHex`: a colour is represented by its `toHex()` result, `Option<string>`.
- Unicode: `localizedCaseInsensitiveCompare`, `localizedCaseInsensitiveContains` and `uppercased()` are modelled as ASCII case folding, and strings as sequences of characters. The Unicode whitespace set is modelled.
- UIImage decoding, JPEG encoding, PhotosPicker, the camera and UIPasteboard: a picked image is an `Image` carrying its JPEG bytes, and decoding is a parameter.
- `asSubviews` and off-screen measurement in `FlexibleChips`: the measured sizes are the input. `asSubviews` (accApps/View/FlexibleChips.swift:128-135) always returns one item, so in the shipped app the loop sees a single item and never wraps. The packing lemmas describe the loop for any list of items.
- FlexibleChips.PackRows: widths are natural numbers, not `CGFloat`.
- CombinedSentence.NewestMatch: `sorted` is not stable, so among matches with equal `createdAt` the source may pick any one. The model picks the earliest in fetch order, and its contract only promises some newest match.
- CombinedSentence.CombinedSentenceView.PrepareQueueAndPlay: a failing `modelContext.fetch` (the `try?`) skips that word in the source. The model assumes the fetch succeeds.
- Lists.FavouritesFirstSpec: Swift's `sorted` is not guaranteed stable. The contract states only what the source guarantees, a permutation with favourites first, not the relative order within each group.
- ACS.ACSView.SectionTappedWhileSelecting: models the tap handler once a tap reaches it. In delete selection the tile is disabled, so the tap does not reach it; `ACS.ACSView.SectionTileTapped` models the tile as laid out (see Findings).
- SectionEditors.EditSectionView.Save and SectionEditors.AddSectionView.Save: modelled behind their Save button's `.disabled(!canSave)`. The functions themselves check only `toHex`.
- Playback of a card in `UCSView` passes an empty completion (`Ignore`). Nothing observes its end.

## Findings

| source | as written | input that shows it | evidently intended | confidence | as-written member | corrected member |
|---|---|---|---|---|---|---|
| accApps/View/FlexibleChips.swift:67-74 | a running `width == 0` is taken to mean "the row is empty", so an item after a zero-width item joins the row with no fit check | item widths [0, 10] (a view measured 0×20), spacing 8, `maxWidth` 10: one row 18 wide | start a new row when the item does not fit, so every row of two or more items fits `maxWidth` | low; not executed; zero-width, non-zero-height measurements are rare, and the defect is latent in the shipped app because `asSubviews` yields one item | FlexibleChips.ZeroWidthItemOverfillsRow | FlexibleChips.IntendedPackingInvariant |
| accApps/View/ACSView.swift:122-142 | the section tile in delete selection carries `.disabled(isSelecting)`, which also disables its tap gesture, so a tap never toggles the section's selection | "Select", tap a section, "Delete": no section is removed | a tap in delete selection toggles the section, as the handler's `if isSelecting` branch does | medium; not executed; depends on `.disabled` blocking `onTapGesture` | ACS.ACSView.DeleteOneSectionAsWritten | ACS.ACSView.DeleteOneSectionAsIntended |
