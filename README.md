# MuseScore core logic in Dafny

This project models, and proves properties of, four pieces of sequential
logic from MuseScore:

- **Score orders** (`src/engraving/libmscore/scoreorder.cpp`). A score order
  is a list of score groups with an instrument-to-family map. The model covers:
  - reading an order from XML, and writing it back;
  - the queries that place an instrument in the order: `getFamilyName`,
    `getGroup`, `instrumentSortingIndex` and `isScoreOrder`;
  - equality, validity and cloning.

  Modules:
  - `Xml` (`xml.dfy`): the XML reader as a cursor over a token stream, and
    the writer as a log of the calls made on it.
  - `ScoreGroups` (`score_groups.dfy`): the groups and the query specifications.
  - `ScoreOrderWrite` (`score_order_write.dfy`): what `write` emits, and why it
    is balanced.
  - `ScoreOrderRead` (`score_order_read.dfy`): what `read`, `readSection` and
    `readInstrument` compute, as folds over an element's children, and
    which groups a section's loop appends before a duplicate stops it.
  - `ScoreOrders` (`score_order.dfy`): the `ScoreOrder` class. Its methods
    follow the source's loops. Each reader method ensures that its new
    groups, map and cursor position are those the `ScoreOrderRead` functions
    give. The query, update and write methods ensure that their results are
    those the `ScoreGroups` and `ScoreOrderWrite` functions give.
- **Audio engine lifecycle** (`src/framework/audio/internal/audioengine.cpp`),
  in module `Audio` (`audio_engine.dfy`):
  - `init` creates the sequencer and the mixer, binds the buffer to the
    mixer's output and opens one mixer channel per synthesizer;
  - `deinit` undoes this;
  - `initChanged` is a ghost log of the values sent, one per transition.
- **FluidSynth key tuning** (`KeyTuning` in
  `src/framework/audio/internal/synthesizers/fluidsynth/fluidsynth.h`), in
  module `FluidSynthTuning` (`key_tuning.dfy`): two parallel lists, the keys
  and their pitches in cents.
- **Bend grid canvas** (`src/inspector/view/widgets/bendgridcanvas.cpp`), in
  module `BendGrid` (`bend_grid_canvas.dfy`). Only the list editing is
  modelled:
  - the change-detecting setters and their signals;
  - press, move and release of the mouse;
  - the `frameCoord` clamp;
  - the `pointIndex` hit test.

  The drag rule is the pure function `Move`, and `MouseMove` is proved equal
  to it.

Modelling choices:

- **A null `unsorted` key is distinct from an empty one.** `ScoreGroup.unsorted`
  is `Option<string>`, because `write` tells the two apart. Comparisons use
  Qt's rule, where null equals empty (`Text`).
- **The template lookup is a function parameter.** `searchTemplate` and
  `searchTemplateIndexForId` are modelled by `lookup: string -> InstrumentIndex`,
  whose `instrTemplate` is `None` for an unknown id.
- **The map is written in ascending key order.** `write` emits the instrument
  map in `std::map` order; the model uses ascending character order.
- **Collaborators are modelled by the state the engine sets on them.** The
  mixer, buffer, sequencer and synthesizers keep only that.
  - The synthesizers registered at `init` are a parameter.
  - A sequencer track is an integer.
- **The canvas takes its decisions from outside.** `CurvePoint::canMove` and
  `CurvePoint::operator==` are functions given to it at construction.
- **The mouse handlers take grid points.** They receive the grid point under
  the mouse, already converted from pixels.

Cursor behaviour of `readSection`: on a duplicate `<unsorted>` it skips that
element and returns at once. The reader is then still inside the section. The
caller's loop therefore reads the section's remaining children as if they were
top-level elements, and stops at the section's end tag. The token-stream model
keeps this behaviour. `ReadOrderFrom` follows the positions the cursor actually
visits, and `Read`'s contract is stated through it.

## Model

| member | source | states |
|---|---|---|
| ScoreOrders.ScoreOrder.NotEquals | src/engraving/libmscore/scoreorder.cpp:76-84 | `!=` holds exactly when the ids differ, and is exactly the negation of `operator==` (`Equals`, equal ids) |
| ScoreOrders.ScoreOrder.IsCustom | src/engraving/libmscore/scoreorder.cpp:198-215 | a custom order (id `custom`) is always valid in the sense of `isValid` (`IsValid`, a non-empty id) |
| ScoreOrders.ScoreOrder.Clone | src/engraving/libmscore/scoreorder.cpp:46-70 | the clone is a new object with the same id, name, flag, map and group list, and equals the original |
| ScoreOrderRead.ToLower | src/engraving/libmscore/scoreorder.cpp:92-94 | lowering keeps the length and lowers each character (ASCII) |
| ScoreOrderRead.ReadBoolAttribute | src/engraving/libmscore/scoreorder.cpp:86-99 | absent attribute gives the default; "false"/"true" in any case give false/true; any other text gives the default |
| ScoreGroups.NewUnsortedGroup | src/engraving/libmscore/scoreorder.cpp:250-261 | an unsorted group keyed `group` in `section`, with every flag false |
| ScoreGroups.FirstIndex | src/engraving/libmscore/scoreorder.cpp:272-277 | the first group passing a test: it passes and no earlier one does; none when no group passes |
| ScoreGroups.LastIndex | src/engraving/libmscore/scoreorder.cpp:283-290 | the last group passing a test: it passes and no later one does; none when no group passes |
| ScoreOrders.ScoreOrder.HasGroup | src/engraving/libmscore/scoreorder.cpp:189-197 | the loop answers true exactly when some group has that family and that unsorted key |
| ScoreOrders.ScoreOrder.GetGroup | src/engraving/libmscore/scoreorder.cpp:267-292 | the two loops answer the group `GroupFor` specifies: the generic group, the first family match, or the last keyed unsorted group |
| ScoreGroups.FallbackGroupSnoc | src/engraving/libmscore/scoreorder.cpp:287-289 | each keyed `<unsorted>` group scanned replaces the fallback, so the last one wins |
| ScoreGroups.GroupForEmptyFamily | src/engraving/libmscore/scoreorder.cpp:271-281 | for an empty family, the first `<unsorted>` group with an empty key |
| ScoreGroups.GroupForFamily | src/engraving/libmscore/scoreorder.cpp:283-286 | otherwise the first group of the family, whatever unsorted groups precede it |
| ScoreGroups.GroupForKeyed | src/engraving/libmscore/scoreorder.cpp:283-291 | with no group of the family, the LAST `<unsorted>` group keyed with the instrument group |
| ScoreGroups.GroupForGeneric | src/engraving/libmscore/scoreorder.cpp:271-291 | with neither, the generic unsorted group |
| ScoreGroups.SortingGroupIndex | src/engraving/libmscore/scoreorder.cpp:318-344 | the chosen group position is at most the number of groups |
| ScoreOrders.ScoreOrder.InstrumentSortingIndex | src/engraving/libmscore/scoreorder.cpp:298-345 | 0 without a template; otherwise the chosen group's position times the template count plus the sequence order |
| ScoreOrders.ScoreOrder.ScanGroups | src/engraving/libmscore/scoreorder.cpp:318-342 | the priority loop (early return for a soloist) finds the position `SortingGroupIndex` specifies |
| ScoreOrders.ScoreOrder.ConsiderGroup | src/engraving/libmscore/scoreorder.cpp:331-341 | one step of the loop keeps index and priority equal to the cascade over the groups scanned so far |
| ScoreOrders.CascadeSnoc | src/engraving/libmscore/scoreorder.cpp:331-341 | a group replaces the current choice only when it has higher priority; a lower-priority group changes nothing |
| ScoreGroups.SortingIndexSoloist | src/engraving/libmscore/scoreorder.cpp:329-330 | a soloist goes to the first soloists group |
| ScoreGroups.NoSoloistCascade | src/engraving/libmscore/scoreorder.cpp:326-344 | without a soloists placement the position is the family / keyed / unsorted cascade |
| ScoreGroups.SortingIndexFamily | src/engraving/libmscore/scoreorder.cpp:331-333 | otherwise the first group of the instrument's family |
| ScoreGroups.SortingIndexUnsortedGroup | src/engraving/libmscore/scoreorder.cpp:334-337 | with no family group, the first `<unsorted>` group keyed with the template's group id |
| ScoreGroups.SortingIndexUnsorted | src/engraving/libmscore/scoreorder.cpp:338-340 | failing that, the first `<unsorted>` group |
| ScoreGroups.SortingIndexNone | src/engraving/libmscore/scoreorder.cpp:318 | failing all, one past the last group |
| ScoreGroups.SoloistPlacementAgrees | src/engraving/libmscore/scoreorder.cpp:236-237 | for a soloist, `getFamilyName` and `getGroup` pick the same soloists group that `instrumentSortingIndex` sorts by |
| ScoreGroups.FamilyPlacementAgrees | src/engraving/libmscore/scoreorder.cpp:238-241 | for a non-soloist with a family group, `getGroup` and `instrumentSortingIndex` pick the same group |
| ScoreGroups.FamilyName | src/engraving/libmscore/scoreorder.cpp:230-244 | without a template `<unsorted>`; for a soloist `<soloists>`; otherwise the order's own entry for the instrument wins over the template's family; with neither, `<unsorted>` |
| ScoreGroups.NoTemplateGroup | src/engraving/libmscore/scoreorder.cpp:232-233 | without a template, the family name is `<unsorted>` and `getGroup` gives the first `<unsorted>` group |
| ScoreOrders.InScoreOrderSorted | src/engraving/libmscore/scoreorder.cpp:357-364 | the loop's acceptance is exactly: non-decreasing, and the first index at least -1 |
| ScoreOrders.ScoreOrder.IsScoreOrder | src/engraving/libmscore/scoreorder.cpp:351-365 | true for a custom order, otherwise exactly when the index list is in score order |
| ScoreGroups.AppendAdmissible | src/engraving/libmscore/scoreorder.cpp:129-139 | appending an admissible group keeps the group list well formed |
| ScoreGroups.WellFormedFresh | src/engraving/libmscore/scoreorder.cpp:159-166 | in a well formed list, no unsorted group repeats an earlier key and no soloists entry repeats an earlier one |
| ScoreGroups.UnsortedKeysUnique | src/engraving/libmscore/scoreorder.cpp:159-166 | no two `<unsorted>` groups of a well formed list share a key |
| ScoreGroups.SoloistsEntryUnique | src/engraving/libmscore/scoreorder.cpp:129-139 | at most one soloists entry in a well formed list |
| ScoreOrders.ScoreOrder.Push | src/engraving/libmscore/scoreorder.cpp:138 | `groups.push_back` of an admissible group appends it, changes nothing else and keeps the list well formed |
| ScoreOrders.ScoreOrder.ReadInstrument | src/engraving/libmscore/scoreorder.cpp:105-123 | the map and the cursor afterwards are `InstrumentStep`: an unknown instrument is skipped whole; otherwise each child is read and the `<family>` children are folded into the map with `std::map::insert`; existing entries are kept and only the instrument's own id can be added |
| ScoreOrders.ScoreOrder.ReadInstrumentElement | src/engraving/libmscore/scoreorder.cpp:113-121 | consumes one child; a `<family>` child inserts its id and text under the instrument only if the instrument has no entry yet; other children change nothing |
| ScoreOrders.ScoreOrder.ReadSoloists | src/engraving/libmscore/scoreorder.cpp:129-139 | consumes the element; appends a soloists group of the section exactly when there is none yet |
| ScoreOrders.ScoreOrder.ReadSection | src/engraving/libmscore/scoreorder.cpp:145-183 | the groups and the cursor afterwards are `SectionStep`: the groups of the children before the first duplicate `<unsorted>`, in order; the cursor is after that duplicate, or at the section's end tag; the list stays well formed |
| ScoreOrders.ScoreOrder.ReadSectionElement | src/engraving/libmscore/scoreorder.cpp:150-181 | consumes one child of a section; `duplicate` exactly for an `<unsorted>` whose key the groups already hold, and then no group changes; otherwise the child's groups (`SectionChildGroups`) are appended |
| ScoreOrders.ScoreOrder.ReadSectionFamily | src/engraving/libmscore/scoreorder.cpp:150-158 | appends one bracketed family group named by the element's text, carrying the section's id and flags |
| ScoreOrders.ScoreOrder.ReadSectionUnsorted | src/engraving/libmscore/scoreorder.cpp:159-177 | duplicate exactly when the key exists already; otherwise appends the keyed group with its own attributes |
| ScoreOrders.ScoreOrder.Read | src/engraving/libmscore/scoreorder.cpp:507-546 | sets the id from the attribute; name, groups and map are those of `ReadOrderFrom` over the positions the loop visits, followed by `WithGenericGroup`; groups only grow, the list stays well formed and existing map entries are kept |
| ScoreOrders.ScoreOrder.ReadOrderElement | src/engraving/libmscore/scoreorder.cpp:512-539 | one child of `<Order>`: the state and cursor afterwards are `OrderStep`, dispatched on its name (`name`, `section`, `instrument`, `family`, `soloists`, `unsorted`, anything else skipped) |
| ScoreOrders.ScoreOrder.ReadFamily | src/engraving/libmscore/scoreorder.cpp:518-526 | consumes the element and appends one family group named by its text, without brackets or bar line span |
| ScoreOrders.ScoreOrder.ReadUnsorted | src/engraving/libmscore/scoreorder.cpp:529-536 | consumes the element and appends an unsorted group keyed by its `group` attribute unless that key exists already |
| ScoreOrders.ScoreOrder.AddGenericUnsortedGroup | src/engraving/libmscore/scoreorder.cpp:542-545 | the groups become `WithGenericGroup`: the generic unsorted group (section = order id) is appended exactly when none exists; afterwards `hasGroup("<unsorted>", "")` |
| ScoreOrderRead.WithGenericGroup | src/engraving/libmscore/scoreorder.cpp:542-545 | afterwards a generic unsorted group exists; the old groups are a prefix, and at most one group is added |
| ScoreOrderRead.FamilyOverridesFirst | src/engraving/libmscore/scoreorder.cpp:113-118 | an instrument already in the map keeps its entry; otherwise the first `<family>` child supplies it and later ones are ignored; without one the map is unchanged |
| ScoreOrderRead.InstrumentStep | src/engraving/libmscore/scoreorder.cpp:105-123 | the cursor moves past the `<instrument>` start tag and stays within the stream |
| ScoreOrderRead.ReadSectionChildrenStop | src/engraving/libmscore/scoreorder.cpp:159-167 | the section loop stops exactly at the first duplicate `<unsorted>` child, and reads to the end when there is none |
| ScoreOrderRead.ReadSectionChildrenGroups | src/engraving/libmscore/scoreorder.cpp:150-178 | the section loop appends the groups of the children before the first duplicate, in order |
| ScoreOrderRead.FirstDuplicateIsDuplicate | src/engraving/libmscore/scoreorder.cpp:159-167 | the child the loop stops at is an `<unsorted>` whose key the groups read before it already hold |
| ScoreOrderRead.FirstDuplicateFresh | src/engraving/libmscore/scoreorder.cpp:159-167 | no child before the stop is a duplicate when it is reached |
| ScoreOrderRead.SectionStep | src/engraving/libmscore/scoreorder.cpp:145-183 | the cursor moves past the `<section>` start tag and stays within the stream |
| ScoreOrderRead.OrderStep | src/engraving/libmscore/scoreorder.cpp:512-539 | each iteration of `read`'s loop moves the cursor forward, so the loop ends |
| ScoreOrders.WithFamiliesKeeps | src/engraving/libmscore/scoreorder.cpp:616 | `updateInstruments` never overwrites an existing map entry |
| ScoreOrders.WithFamiliesCovers | src/engraving/libmscore/scoreorder.cpp:604-618 | afterwards every listed instrument whose template has a family is mapped; every new entry comes from such an instrument |
| ScoreOrders.ScoreOrder.UpdateInstruments | src/engraving/libmscore/scoreorder.cpp:604-618 | the loop's map is `WithFamilies` of the old map; the rest of the order is unchanged |
| ScoreOrderWrite.StrLessTransitive | src/engraving/libmscore/scoreorder.cpp:561 | the key order of the map is transitive (with `StrLessIrreflexive` and `StrLessTotal` a strict total order) |
| ScoreOrderWrite.StrLessIrreflexive | src/engraving/libmscore/scoreorder.cpp:561 | no key precedes itself |
| ScoreOrderWrite.StrLessTotal | src/engraving/libmscore/scoreorder.cpp:561 | of two different keys one precedes the other |
| ScoreOrderWrite.InsertKeyAscending | src/engraving/libmscore/scoreorder.cpp:561 | inserting a key into an ascending key list keeps it ascending and adds exactly that key |
| ScoreOrderWrite.AscendingKeys | src/engraving/libmscore/scoreorder.cpp:561 | the map's keys, each once, in ascending order: the order `write` visits them in |
| ScoreOrderWrite.GroupEntry | src/engraving/libmscore/scoreorder.cpp:584-592 | each group is written as exactly one of soloists / family / unsorted / unsorted-group, chosen by its family and a null, empty or non-empty key |
| ScoreOrders.ScoreOrder.Write | src/engraving/libmscore/scoreorder.cpp:552-598 | writes nothing for an order with an empty id; otherwise exactly `OrderEvents` over the map's keys in ascending order |
| ScoreOrders.ScoreOrder.WriteInstruments | src/engraving/libmscore/scoreorder.cpp:561-565 | one `instrument` object per key, in the given order |
| ScoreOrders.ScoreOrder.WriteGroups | src/engraving/libmscore/scoreorder.cpp:567-596 | the group loop writes `GroupEvents` of the groups, closing the last open section |
| ScoreOrders.ScoreOrder.WriteGroup | src/engraving/libmscore/scoreorder.cpp:569-592 | one iteration: the section switch, then the group's entry |
| ScoreOrders.ScoreOrder.WriteSectionSwitch | src/engraving/libmscore/scoreorder.cpp:569-583 | closes the previous section if any and opens the new one if named, only when the section changes |
| ScoreOrders.ScoreOrder.WriteGroupEntry | src/engraving/libmscore/scoreorder.cpp:584-592 | writes the group's one entry |
| ScoreOrderWrite.RunAppend | src/engraving/libmscore/scoreorder.cpp:552-598 | the nesting depth after a concatenation is that of the second part started at the depth after the first |
| ScoreOrderWrite.InstrumentEventsBalanced | src/engraving/libmscore/scoreorder.cpp:561-565 | every instrument object opened is closed |
| ScoreOrderWrite.SectionSwitchDepth | src/engraving/libmscore/scoreorder.cpp:569-583 | a section switch moves the depth from the old section's to the new one's |
| ScoreOrderWrite.GroupEventsBalanced | src/engraving/libmscore/scoreorder.cpp:567-596 | every section object opened in the group loop is closed by its end |
| ScoreOrderWrite.WriteBalanced | src/engraving/libmscore/scoreorder.cpp:552-598 | everything `write` opens it closes, and never closes more than it opened |
| ScoreOrderWrite.EntriesAppend | src/engraving/libmscore/scoreorder.cpp:567-596 | the entries of a concatenation are the entries of its parts |
| ScoreOrderWrite.GroupEventsEntries | src/engraving/libmscore/scoreorder.cpp:567-596 | apart from section objects, the group part holds exactly one entry per group, in order |
| Audio.ToUnsigned | src/framework/audio/internal/audioengine.cpp:75 | storing the `int` rate in the `unsigned int` member wraps modulo 2^32 and keeps a value already in range |
| Audio.SynthesizerChannels | src/framework/audio/internal/audioengine.cpp:83-86 | one channel per synthesizer, in order |
| Audio.OddParity | src/framework/audio/internal/audioengine.cpp:88-102 | after n transitions the engine is inited exactly when n is odd |
| Audio.TogglesAlternate | src/framework/audio/internal/audioengine.cpp:88-102 | the values sent on `initChanged` alternate, starting with true |
| Audio.NotifyTransition | src/framework/audio/internal/audioengine.cpp:88-89 | a transition sends the new state, which is the opposite of the old one |
| Audio.AudioEngine.Init | src/framework/audio/internal/audioengine.cpp:52-92 | already inited: Ok and nothing changes; no buffer: InternalError and nothing is created; otherwise see `InitInstance` |
| Audio.AudioEngine.InitInstance | src/framework/audio/internal/audioengine.cpp:64-91 | new mixer and sequencer; buffer bound to the mixer with minimum lag `readBufferSize`; wrapped rate stored and given to the mixer; one channel per synthesizer; inited; one `true` sent |
| Audio.AudioEngine.StartSynthesizers | src/framework/audio/internal/audioengine.cpp:83-86 | every synthesizer runs at the engine's rate and gets exactly one new channel, in order |
| Audio.AudioEngine.StartSynthesizer | src/framework/audio/internal/audioengine.cpp:124-129 | the synthesizer takes the engine's rate and becomes one new mixer channel, whose id is returned |
| Audio.AudioEngine.OnAudioTrackAdded | src/framework/audio/internal/audioengine.cpp:71-73 | a track-added event adds exactly one mixer channel |
| Audio.AudioEngine.Deinit | src/framework/audio/internal/audioengine.cpp:94-116 | inited: source cleared, mixer and sequencer dropped, not inited, one `false` sent; otherwise nothing; the sample rate (`sampleRate()`, `SampleRate`) is kept |
| Audio.AudioEngine.IsInited | src/framework/audio/internal/audioengine.cpp:46-50 | in a consistent engine, inited exactly when it owns a mixer and a sequencer, and exactly after an odd number of transitions |
| Audio.AudioEngine.SetAudioBuffer | src/framework/audio/internal/audioengine.cpp:143-150 | stores the buffer and rebinds it to the mixer's output only when both exist |
| FluidSynthTuning.UntunedPitch | src/framework/audio/internal/synthesizers/fluidsynth/fluidsynth.h:74 | a tuning offset of 0 gives pitch `key*100` |
| FluidSynthTuning.PitchOffset | src/framework/audio/internal/synthesizers/fluidsynth/fluidsynth.h:74 | the offset is added to the untuned pitch; one key higher is 100 cents higher |
| FluidSynthTuning.KeyTuning.constructor | src/framework/audio/internal/synthesizers/fluidsynth/fluidsynth.h:67-69 | both lists start empty |
| FluidSynthTuning.KeyTuning.Add | src/framework/audio/internal/synthesizers/fluidsynth/fluidsynth.h:71-75 | appends the key and its pitch and keeps earlier entries; the size grows by one; equal lengths are kept |
| FluidSynthTuning.KeyTuning.Reset | src/framework/audio/internal/synthesizers/fluidsynth/fluidsynth.h:82-86 | both lists empty, size 0, empty |
| FluidSynthTuning.KeyTuning.EmptyIffNoEntries | src/framework/audio/internal/synthesizers/fluidsynth/fluidsynth.h:77-91 | with equal lengths, `isEmpty()` (`IsEmpty`) holds exactly when `size()` (`Size`, the number of keys) is 0 |
| FluidSynthTuning.KeyTuning.EmptyNeedsBothLists | src/framework/audio/internal/synthesizers/fluidsynth/fluidsynth.h:77-91 | without equal lengths, size 0 does not imply empty |
| BendGrid.FrameCoord | src/inspector/view/widgets/bendgridcanvas.cpp:367-382 | the result lies in `[0, right-left] x [0, bottom-top]`; a point inside the frame is only shifted |
| BendGrid.FrameCoordEdges | src/inspector/view/widgets/bendgridcanvas.cpp:370-379 | a coordinate outside the frame sticks to the nearer edge |
| BendGrid.FirstHit | src/inspector/view/widgets/bendgridcanvas.cpp:606-623 | the first point of the wanted movability within squared distance 16; none if there is none |
| BendGrid.BendGridCanvas.PointIndex | src/inspector/view/widgets/bendgridcanvas.cpp:606-623 | the search loop answers `FirstHit` |
| BendGrid.BendGridCanvas.SetRowCount | src/inspector/view/widgets/bendgridcanvas.cpp:113-121 | same value: nothing changes, nothing emitted; otherwise stored and its signal emitted once |
| BendGrid.BendGridCanvas.SetColumnCount | src/inspector/view/widgets/bendgridcanvas.cpp:123-131 | same value: nothing changes, nothing emitted; otherwise stored and its signal emitted once |
| BendGrid.BendGridCanvas.SetRowSpacing | src/inspector/view/widgets/bendgridcanvas.cpp:133-141 | same value: nothing changes, nothing emitted; otherwise stored and its signal emitted once |
| BendGrid.BendGridCanvas.SetColumnSpacing | src/inspector/view/widgets/bendgridcanvas.cpp:143-151 | same value: nothing changes, nothing emitted; otherwise stored and its signal emitted once |
| BendGrid.BendGridCanvas.SetShouldShowNegativeRows | src/inspector/view/widgets/bendgridcanvas.cpp:153-161 | same value: nothing changes, nothing emitted; otherwise stored and its signal emitted once |
| BendGrid.BendGridCanvas.SetPointList | src/inspector/view/widgets/bendgridcanvas.cpp:163-175 | a list equal point by point changes nothing; otherwise stored and `pointListChanged` emitted once |
| BendGrid.BendGridCanvas.MousePress | src/inspector/view/widgets/bendgridcanvas.cpp:194-210 | without rows or columns nothing changes; otherwise the current index is the first movable point hit, and the change flag is cleared |
| BendGrid.BendGridCanvas.MouseMove | src/inspector/view/widgets/bendgridcanvas.cpp:212-301 | with no current point nothing changes; otherwise points and change flag become those of `Move`; nothing is emitted |
| BendGrid.BendGridCanvas.MoveVerticalPart | src/inspector/view/widgets/bendgridcanvas.cpp:237-277 | the left check abandons the move, the right check skips only the vertical part, otherwise the pitch is applied |
| BendGrid.BendGridCanvas.SetPitchAt | src/inspector/view/widgets/bendgridcanvas.cpp:261-276 | the new pitch, carried to the dashed neighbours, and the change recorded |
| BendGrid.BendGridCanvas.MoveHorizontalPart | src/inspector/view/widgets/bendgridcanvas.cpp:279-298 | the time moves exactly when the neighbour on that side allows it |
| BendGrid.MoveShape | src/inspector/view/widgets/bendgridcanvas.cpp:223-298 | a move keeps the list's length and changes only the current point and the pitches of its two neighbours |
| BendGrid.MoveStill | src/inspector/view/widgets/bendgridcanvas.cpp:226-235 | a target equal to the point, or a point that cannot move, changes nothing |
| BendGrid.MoveHorizontalOnlyWithin | src/inspector/view/widgets/bendgridcanvas.cpp:279-297 | a new time is the target's, and left needs the left neighbour generated or strictly earlier, right the right one generated or strictly later |
| BendGrid.MoveHorizontalAccepted | src/inspector/view/widgets/bendgridcanvas.cpp:279-297 | a horizontal move the neighbours allow is made and recorded, unless the left neighbour aborts the vertical part |
| BendGrid.MoveBlockedOnLeft | src/inspector/view/widgets/bendgridcanvas.cpp:241-251 | a real left neighbour the target pitch would reach or cross abandons the whole move |
| BendGrid.MoveBlockedOnRight | src/inspector/view/widgets/bendgridcanvas.cpp:253-259 | a real right neighbour the target pitch would reach or cross keeps every pitch |
| BendGrid.MoveVerticalPropagation | src/inspector/view/widgets/bendgridcanvas.cpp:261-276 | an accepted vertical move gives the point the target pitch, and the previous (next) point too when the current (next) point is dashed; otherwise no pitch changes |
| BendGrid.BendGridCanvas.MouseRelease | src/inspector/view/widgets/bendgridcanvas.cpp:303-312 | clears the current point; emits `canvasChanged` once exactly when a change was recorded; clears the flag |

## Left out

- `getName`: `qtrc` translation and its formatting are not modelled. `Read` stores the `<name>` text untranslated.
- ScoreOrders.ScoreOrder.ReadInstrument: the `<family>` override's name is stored untranslated. The source passes the element text through `qtrc` (scoreorder.cpp line 117), and translation is not modelled.
- ScoreOrders.ScoreOrder.ReadInstrumentElement: inserts the raw `<family>` text as the override's name, for the same reason.
- ScoreOrderRead.FamilyOverride: the override it stands for carries the element text itself, not its `qtrc` translation.
- `setBracketsAndBarlines` and `setSystemObjectStaves` are not modelled. They work through the score, part, staff and undo APIs.
- `isScoreOrder(const Score*)` is not modelled; it only maps the score's parts into the list version, which is modelled.
- `updateInstruments` takes the instrument ids of the score's parts as a list, because the `Score`/`Part` API is not modelled.
- ScoreOrderRead.ToLower: lowers ASCII letters only. Qt's Unicode case folding is not modelled.
- ScoreOrderWrite.AscendingKeys: orders keys by character code. The UTF-16 comparison of `QString` is the same for the characters modelled, but surrogate pairs are not modelled.
- ScoreOrders.ScoreOrder.InstrumentSortingIndex: the product and sum are unbounded integers. The source's `size_t` to `int` narrowing and `int` overflow are not modelled.
- `reader.unknown()` is modelled as skipping the element; its log message is left out.
- Audio.AudioEngine.StartSynthesizer: requires a mixer, since the source dereferences `m_mixer` unconditionally (audioengine.cpp line 128).
- Audio.AudioEngine.OnAudioTrackAdded: requires a mixer, since the source dereferences `m_mixer` unconditionally (audioengine.cpp line 72).
- Xml.XmlReader.ReadElementText: the reader's error state on a malformed element is not modelled, and neither is `qDebug` output.
- `scoreorder.h` is not part of this model. A default `ScoreGroup` is assumed to have an empty family and section, a null key, no bracket, no system markings, a bar line span and thin brackets. `hasGroup`'s second argument is assumed to default to the empty string.
- `InstrumentTemplate::familyId()` is assumed to be the family's id, or empty without a family.
- Audio: the `ONLY_AUDIO_WORKER_THREAD` thread checks and the static `instance()` singleton are not modelled.
- The internals of the Mixer, Sequencer, audio buffer and synthesizer controller are not modelled.
  - Audio.Mixer.AddChannel: the returned channel id is taken to be the channel's position.
  - `SynthesizerController` creation and its `init` are left out; their bodies are not part of this model.
- Audio.AudioEngine.Deinit: requires a buffer when the engine is inited, since the source dereferences it unconditionally.
- `initChanged` delivery is asynchronous. The model records the values sent as a ghost log.
- KeyTuning: `double` arithmetic is modelled as exact real numbers. The `int` cast in `size()` is not modelled as wrapping.
- BendGrid: painting, theme and font handling, and hover handling are not modelled.
- BendGrid: pixel-to-grid conversion is not modelled (`frameRect`, `constrainToGrid`, `point`, `columnWidth`, `rowHeight`). It uses floating point and `round`; the handlers take the grid point directly.
- BendGrid.FrameCoord: the frame has integer edges. The source's `QRectF` edges are truncated to `int` when clamping, and fractional edges are not modelled.
- BendGrid.BendGridCanvas.MouseMove: requires a current index inside the list, and one before it when a dashed point's pitch is carried to it. The source would read outside the list otherwise.
- BendGrid.BendGridCanvas.MousePress: `pointIndex`'s default argument is assumed to be `movable = true` (`bendgridcanvas.h` is not part of this model).
- BendGrid.BendGridCanvas.constructor: the initial settings (zero rows, columns and spacings, no negative rows, no points) are assumed, since the header is not part of this model.
- `soundfontsprovider.h` and `systemdivider.h` are not modelled: they hold declarations without logic.
