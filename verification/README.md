# Qompack: a verified model of its core

Qompack is a sidecar that watches a coding session, canonicalizes and chunks what tools print, chooses what
to keep under a token budget, and seals checkpoints of the session so that a compaction of the conversation
loses nothing. This project models the parts of it in which most of the reasoning sits and proves what they
promise, in Dafny 4.11. `dafny verify dfyconfig.toml` checks all of it.

**Numeric scanner.** `Regex` gives byte patterns the meaning of a leftmost-first backtracking matcher: the
list of ends in the order they are tried. `NumericRules` states the seven documented patterns and the
escape grammar of section 5.4 of ECMA-48. `NumericBodies` proves each hand-written body to return the first
end; `EscapeWalk` and `NumericScan` prove the walk over escape runs - unwind stack, cache, pruning and the
memo that marks a node dead before its outcome is known - to be the plain recursive search, and the whole
scan to report exactly the non-overlapping leftmost matches of every rule.

**Selection.** `GreedyEngine` proves that a queue of stale upper bounds with deferral makes the one greedy
run there is whenever gains shrink, and that no gain is measured twice against one accepted set.
`BlockSelect` proves gains do shrink for saturating coverage less redundancy, so lazy and eager selection
agree, lazily with no more measurements, and the value recomputed at the end is the sum of accepted gains.
`Propose` proves the running reserve: the overflow is reported exactly when the mandatory records cannot be
carried, and what is proposed otherwise is closed, single-represented, complete and within budget.
`ProposeRuns` ties it to the run that chose it: a move's gain is what its bundle adds to the objective, it may
rise as dependencies are shared, and the engine still passes over nothing that was worth more all along.

**Checkpoints.** One transition system is the checkpoint writer under every interleaving of its critical
sections and file operations, with restarts and power cuts in between. `SegmentBook` is the segment log,
`SealShelf` the checkpoint directory with what a cut may take of it, `DraftWriter` the steps, with the numbers
drafts hold and the artifacts they freeze. `SealedSegments` and `DraftFiles` hold the invariants about where a
segment may end up and what stays on disk; `DraftRuns` is what every run keeps. `RunSteps` and `LosingRuns`
build the runs on which a promise fails, so that each such promise comes with the exact condition under which
it holds. `Inject` strips the tool's own injected spans, `Truncate` and `TruncateLaws` cut a document to its
budget, `Lineage` memoizes fork ancestry, `DecisionMerge` keeps the first 64 decisions.

**Canonical text and chunks.** `Compose` is single-pass replacement with its exact inverse; `LineCanon` and
`LineResult` are the line-ending, progress-bar and trailing-blank scanners and what they compose to;
`FastCdc` is the content-defined chunker.

State machines are stated as steps on values. Objects whose methods update them in place (`NumScan`,
`SegLog`, `FileWriter`, `Truncation`, `DraftDecisions`) are classes, and the candidate list that
`acceptCandidates` overwrites is an array.

Where the code and its comments disagree, the model follows the code:

- A zero budget can keep blocks (internal/analyzer/selector.go:167-168 says it keeps none): exactly those of
  zero tokens and positive gain. `BlockSelect.ZeroBudget`, `BlockSelect.ZeroBudgetCanKeep`.
- An aborted draft does not always stay sealed (internal/checkpoint/writer.go:1033-1036): a Finalize that was
  in flight and then fails reopens it. `DraftRuns.AbortSticks` gives the exact condition.
- A segment can be sealed into two checkpoints (internal/checkpoint/writer.go:722-874 reserves it for one):
  exactly when a seal moved past a taken number, or after a restart and one of four things: a draft aborted
  during its own Finalize, a segment offered to another session's draft, failed marks, or a power cut that took
  the log's unsynced open or close record of a segment that a draft file holds.
  `LosingRuns.SealedOnce` is that if and only if; `LosingRuns.BumpedTwice`, `LosingRuns.RacedTwice`,
  `LosingRuns.CrossedTwice`, `LosingRuns.UnmarkedTwice` and `LosingRuns.UnloggedTwice` are the runs. The first is
  the retry after a failed manifest append: the draft moves to the next number in memory
  (internal/checkpoint/draft.go:65-70), its file keeps the old one, and read back it looks unsealed. In the last
  the log hands the lost segment's id out again.
- A seal can hold a segment the log does not record as its own (internal/checkpoint/finalize.go:41-42 says
  never): exactly when a seal moved past a taken number, marks failed, or after a restart and an abort during
  Finalize, a cross-session offer, or such a cut. A refused mark is counted as drift or passed over, and the seal
  goes on. `LosingRuns.LinesVouched`.
- Retiring a draft can touch the file of its successor (internal/checkpoint/writer.go:337-340 says it must not):
  the registry check and the removal are two steps, and so are writing a begun draft's file and registering it.
  Whenever a removal is under way for a session whose Begin has written its file, the file can be lost, before
  the draft is registered or after: `LosingRuns.EarlyRemoval`, `LosingRuns.LateRemoval`, and with it a segment
  accepted meanwhile: `LosingRuns.OverlapLoses`. Without such an overlap, without an abort during Finalize and
  without a failed write of the file, every registered draft is on disk: `LosingRuns.FilesMatch` is that if and
  only if.
- An accepted segment can be lost to a power cut (internal/checkpoint/finalize.go:40-41 keeps the draft to seal
  again) in four ways and no other: that overlap, an abort during Finalize, a failed write of a draft's file
  (internal/checkpoint/writer.go:580-584 registers the draft all the same), and a draft set aside on the line
  of another session that came to its number. Set aside, it is still there as `.stale.json`, but nothing
  reads it back, and the session's next set-aside draft replaces it. `LosingRuns.NothingLost`.
- Drafts can share a number (internal/checkpoint/writer.go:1358-1372 says a fresh one must not take another's):
  exactly when a seal moved past a taken one, or a fresh draft claimed its number after a floor scan that could
  not finish. `LosingRuns.NumbersUnique`.
- The value of a selection can be negative (internal/analyzer/selector.go:171-174 says never): the valuation
  takes the last block of an id for each of them. `BlockSelect.ValueCanBeNegative` is an input,
  `BlockSelect.ValueNeverNegative` the exact condition where no superseded block is shadowed in this way, and
  `BlockSelect.HarmlessIsNonNegative` its sufficiency for all.
- The masks are one bit wider and narrower than the target's width (internal/chunk/fastcdc.go:68), where
  internal/chunk/params.go:30-33 speaks of two.

## Model

| member | source | states |
|---|---|---|
| `NumericBodies.NumDigitRun` | internal/canon/numeric.go:768-774 | the length of the maximal digit run |
| `NumericBodies.NumDigits` | internal/canon/numeric.go:777-787 | true exactly when n digits stand at the position |
| `NumericBodies.ZoneFirst` | internal/canon/numeric.go:482-508 | the zone scan is the first end of an optional Z or offset followed by a word boundary |
| `NumericBodies.NumIsoZoneEnd` | internal/canon/numeric.go:482-508 | the branches of the zone scan compute that end |
| `NumericBodies.IsoTailFirst` | internal/canon/numeric.go:460-478 | giving back fraction digits one at a time finds the first end of fraction and zone |
| `NumericBodies.NumIsoEnd` | internal/canon/numeric.go:434-478 | the ISO body returns the first end of its pattern, or -1 |
| `NumericBodies.EpochFirst` | internal/canon/numeric.go:516-531 | the last word break among ten to thirteen digits is the first end of the epoch pattern |
| `NumericBodies.NumEpochEnd` | internal/canon/numeric.go:516-531 | the epoch body returns the first end of its pattern, or -1 |
| `NumericBodies.ClockTailFirst` | internal/canon/numeric.go:550-565 | one to six fraction digits, given back in order, then none |
| `NumericBodies.NumClockEnd` | internal/canon/numeric.go:534-565 | the clock body returns the first end of its pattern, or -1 |
| `NumericBodies.FracSecFirst` | internal/canon/numeric.go:597-614 | committing to the longest digit run never loses a match of `\d+(\.\d+)?s\b` |
| `NumericBodies.MinSecFirst` | internal/canon/numeric.go:582-588 | first end of `\d+m` and seconds |
| `NumericBodies.HourMinSecFirst` | internal/canon/numeric.go:568-579 | first end of `\d+h\d+m` and seconds |
| `NumericBodies.UnitFirst` | internal/canon/numeric.go:687-718 | first unit of the alternation with a word break after it, both spellings of micro included |
| `NumericBodies.SpaceUnitFirst` | internal/canon/numeric.go:660-670 | the optional inline space is tried before none |
| `NumericBodies.UnitTailFirst` | internal/canon/numeric.go:641-657 | first end of number, optional fraction, optional space and unit |
| `NumericBodies.InPhraseFirst` | internal/canon/numeric.go:628-637 | first end of the phrase pattern |
| `NumericBodies.NumBody` | internal/canon/numeric.go:235-254 | for each of the seven rules, the first end of the documented pattern with its word boundary |
| `EscapeWalk.CsiEnds` | internal/canon/generic.go:547-560 | parameter, intermediate and final bytes have one reading: the pattern has at most one end |
| `EscapeWalk.OscEnds` | internal/canon/generic.go:564-580 | the pattern of an operating system command has at most one end |
| `EscapeWalk.CsiLen` | internal/canon/generic.go:547-560 | the length of the control sequence at an ESC, 0 if there is none |
| `EscapeWalk.OscLen` | internal/canon/generic.go:564-580 | the length of the terminated command at an ESC, 0 if there is none |
| `EscapeWalk.EscAnyEnds` | internal/canon/numeric.go:399-426 | one escape has at most three ends, in the order of the alternation |
| `EscapeWalk.NumEscAltEnds` | internal/canon/numeric.go:407-426 | fills exactly that list |
| `EscapeWalk.BodyLead` | internal/canon/numeric.go:303-306 | a body begins with a digit or the phrase's i, and never with an ESC |
| `EscapeWalk.WalkIsFirstHit` | internal/canon/numeric.go:286-311 | the recursive walk - alternatives in order, descend before stopping - is the first success over all ends of the escape run |
| `NumericScan.MatchAtIsPattern` | internal/canon/numeric.go:49-69 | a match at a position is the first end of the word-edge alternation followed by the body |
| `NumericScan.MatchAtEscape` | internal/canon/numeric.go:208-218 | at an ESC the match is the walk's |
| `NumericScan.MatchAtPlain` | internal/canon/numeric.go:193-203 | at a word boundary the match is the body's, elsewhere there is none |
| `NumericScan.NumScan.EscAltsAt` | internal/canon/numeric.go:370-375 | the cache holds the alternatives of the node asked for |
| `NumericScan.NumScan.EscPending` | internal/canon/numeric.go:386-397 | a node is left without an unwind entry only if nothing can come of its other alternatives |
| `NumericScan.InvDescend` | internal/canon/numeric.go:312-366 | marking a node dead before its outcome is known keeps the walk's invariant |
| `NumericScan.InvMarkedMisses` | internal/canon/numeric.go:312-366 | a marked node reached by the walk truly fails |
| `NumericScan.InvHit` | internal/canon/numeric.go:308-311 | after a success every mark truly fails or lies left of the rule's cursor |
| `NumericScan.InvMiss` | internal/canon/numeric.go:308-311 | after a failure the root truly fails and may be marked |
| `NumericScan.NumScan.EscFind` | internal/canon/numeric.go:312-366 | stack, pruning, cache and memo return exactly the plain recursive walk's answer |
| `NumericScan.NumScan.Emit` | internal/canon/numeric.go:221-231 | one span is reported and the rule's cursor moves to its end |
| `NumericScan.NumScan.AtWordBoundary` | internal/canon/numeric.go:193-203 | after it every rule of the class is settled at the position |
| `NumericScan.NumScan.AtEscape` | internal/canon/numeric.go:208-218 | after it every rule of the class is settled at the ESC |
| `NumericScan.DigitRunInside` | internal/canon/numeric.go:112-153 | no rule matches inside a digit run, so the scan may skip it |
| `NumericScan.NumericMatches` | internal/canon/numeric.go:112-153 | what is appended, as a multiset: for timestamps the non-overlapping leftmost matches of the ISO, epoch and clock rules, for durations those of the hour, minute, magnitude and phrase rules, each with its token |
| `NumericScan.FindAllIsLeftmost` | internal/canon/numeric.go:49-69 | a rule's matches, on the patterns alone: each the leftmost start from the end of the one before at which word edge and body match, ending at their first end, and none after the last; the span leaves the phrase's "in " alone and carries the bytes of the class's token |
| `GreedyEngine.PopBest` | internal/analyzer/greedy.go:54-91 | the entry of highest gain, ties to the smaller index, leaves the queue |
| `GreedyEngine.FiniteGainIs` | internal/analyzer/greedy.go:251-256 | a gain within plus or minus a quintillion is itself, any other nothing |
| `GreedyEngine.RepriceAll` | internal/analyzer/greedy.go:218-237 | every surviving move is in the queue, freshly measured |
| `GreedyEngine.TopIsBest` | internal/analyzer/greedy.go:155-212 | a fresh positive affordable top is the best affordable move of all, stale ones included |
| `GreedyEngine.TopEndsRun` | internal/analyzer/greedy.go:155-212 | a fresh top worth nothing means nothing is left to take |
| `GreedyEngine.RunLazyGreedy` | internal/analyzer/greedy.go:131-212 | every acceptance is live, positive and affordable; when gains shrink the run is the greedy run; when they need not, nothing is taken over a move that was worth more all along, and nothing that was worth something all along is left; each live move is measured at most once per accepted set, eagerly exactly once |
| `GreedyEngine.RunStarts` | internal/analyzer/greedy.go:155-212 | so a run starts with a move worth the most, and is empty only if none could be taken |
| `GreedyEngine.GreedyRunUnique` | internal/analyzer/greedy.go:54-59 | gain-then-index order leaves one greedy run |
| `GreedyEngine.GreedyRunExists` | internal/analyzer/greedy.go:155-212 | when taken moves die and none comes back, there is a greedy run |
| `BlockSelect.InsertShares` | internal/analyzer/selector.go:117 | the sort by id keeps the order of blocks that share an id |
| `BlockSelect.SortById` | internal/analyzer/selector.go:117 | sorted by id, a permutation, and stable |
| `BlockSelect.NewSelector` | internal/analyzer/selector.go:43-131 | the two refusals, exactly when each applies, the candidates stably sorted by id, and saturated contributions by precedence |
| `BlockSelect.ResolvePrecedes` | internal/analyzer/selector.go:119-129 | the delta score before the slice score before nothing, cut to between zero and one |
| `BlockSelect.SaturConcave` | internal/analyzer/greedy.go:260-269 | saturating coverage has diminishing returns |
| `BlockSelect.GainShrinks` | internal/analyzer/selector.go:222-235 | keeping a block never raises another's marginal gain |
| `BlockSelect.SelectExact` | internal/analyzer/selector.go:175-218 | the selection problem meets what the lazy queue needs |
| `BlockSelect.ObjectiveIsGainSum` | internal/analyzer/selector.go:244-286 | coverage less redundancy of the kept set is the sum of accepted gains |
| `BlockSelect.ObjectiveAdds` | internal/analyzer/selector.go:222-235 | what a block adds to the objective, on the blocks alone: the contributions under its root, or its id if it has none, capped at one, with it less without it, less the penalty if it is superseded and again if that content is held |
| `BlockSelect.GainSumNonNegative` | internal/analyzer/selector.go:171-174 | that sum is never negative |
| `BlockSelect.ValueOf` | internal/analyzer/selector.go:244-286 | the independent recomputation is the objective of the named blocks |
| `BlockSelect.Select` | internal/analyzer/selector.go:175-218 | keep and dropped partition the blocks, tokens are the true sum within budget, value is the objective of the kept ids, the gain sum when ids are distinct and not negative when their last blocks are harmless; each block kept adds the most of all that fit when it is kept, ties to the smaller index, and in the end none that fits adds anything; the measurements are counted |
| `BlockSelect.GreedyByGain` | internal/analyzer/selector.go:175-218 | the engine's greedy run is that run, stated on what blocks add |
| `BlockSelect.SelectBothWays` | internal/analyzer/selector.go:175-218 | lazy and eager give the same keep, dropped, tokens and value, whether or not ids repeat, and lazily no more gains are measured |
| `BlockSelect.ZeroBudget` | internal/analyzer/selector.go:164-169 | a zero budget keeps nothing if and only if no zero-token block has a positive first gain |
| `BlockSelect.ZeroBudgetCanKeep` | internal/analyzer/selector.go:164-169 | an input for which it keeps something |
| `BlockSelect.HarmlessIsNonNegative` | internal/analyzer/selector.go:171-174 | if no id's last block is superseded where the others are not, or joins groups the others keep apart, the reported value is at least the sum of accepted gains and not negative |
| `BlockSelect.ValueNeverNegative` | internal/analyzer/selector.go:171-174 | over blocks of which no superseded one is followed by another of its id, the value is never negative, whatever contributions, penalty and budget, if and only if that holds |
| `BlockSelect.ValueCanBeNegative` | internal/analyzer/selector.go:244-286 | an input whose value is negative |
| `Propose.CloseSound` | internal/analyzer/greedy.go:614-648 | a closure delivers new items at their cheapest, with every requirement met |
| `Propose.CloseLeast` | internal/analyzer/greedy.go:731-766 | it delivers nothing that was not needed, and fails only over a needed item |
| `Propose.CloseCost` | internal/analyzer/greedy.go:731-766 | it costs what its items add to the price, so shared dependencies are paid once |
| `Propose.CloseQueue` | internal/analyzer/greedy.go:614-648 | the breadth-first queue computes the closure |
| `Propose.BindingBinds` | internal/analyzer/greedy.go:559-573 | a mandatory candidate binds exactly if some representation outside the archive is current |
| `Propose.ReserveScan` | internal/analyzer/greedy.go:699-725 | the running reserve over all binding candidates |
| `Propose.NeededIsLeast` | internal/analyzer/greedy.go:699-725 | what the binding candidates need is the least closed set holding them |
| `Propose.ReserveDecides` | internal/analyzer/greedy.go:332-334 | the reserve refuses if and only if that set is undeliverable or over budget |
| `Propose.StepSound` | internal/analyzer/greedy.go:769-816 | a purchase the reserve allowed leaves a feasible selection that can still carry what binds |
| `Propose.RunSound` | internal/analyzer/greedy.go:769-816 | so does every whole run |
| `Propose.CarryMandatory` | internal/analyzer/greedy.go:341-359 | the second overflow return is unreachable: the forced carries always fit; what they add is at its cheapest, and nothing is added that carrying the binding candidates does not need |
| `Propose.Assemble` | internal/analyzer/greedy.go:824-856 | the proposal read off a selection is acceptable, archives exactly the rest that can be, and reports the objective's value |
| `Propose.ValueOf` | internal/analyzer/greedy.go:866-896 | the reported value is weighted saturated coverage less the penalty for each delivery beyond one per evidence root, never negative |
| `Propose.WeightFor` | internal/analyzer/greedy.go:588-598 | an item's weight is its candidate's, a negative one and an unknown item's nothing |
| `ProposeRuns.CloseMonotone` | internal/analyzer/greedy.go:614-648 | having more never makes a closure fail |
| `ProposeRuns.RepLiveShrinks` | internal/analyzer/greedy.go:769-816 | a chosen item ends all its moves, and no move comes back |
| `ProposeRuns.MoveGainIsDifference` | internal/analyzer/greedy.go:665-692 | over every run, the gain of a live move is what its whole bundle adds to weighted saturated coverage less the penalty per repeated evidence root |
| `ProposeRuns.RepExact` | internal/analyzer/greedy.go:665-692 | where no representation requires another, gains shrink |
| `ProposeRuns.ProposeSelection` | internal/analyzer/greedy.go:310-362 | overflow if and only if infeasible, naming a binding item; otherwise one representation per item, closed, complete, true tokens within budget, true value; what is chosen is what the run over all legal moves chose and the forced carries on top; each move was allowed, none worth more all along was passed over, none worth something all along is left; and where no representation requires another it is the greedy run |
| `ProposeRuns.ProposeFor` | internal/analyzer/greedy.go:310-362 | the selector's two refusals, exactly when each applies, and otherwise a sound answer |
| `SealShelf.OpShelf` | internal/checkpoint/finalize.go:35-55 | every operation of a seal keeps: a line only over durable bytes and a durable name, a promise only over a durable line |
| `SealShelf.OpOwn` | internal/checkpoint/finalize.go:57-186 | each stage of a seal secures what the next relies on |
| `SealShelf.OpLines` | internal/checkpoint/finalize.go:57-186 | a line keeps its artifact, and only the line's own step writes it |
| `SealShelf.CutKeepsSeals` | internal/checkpoint/finalize.go:39-45 | whatever a cut takes, a surviving line names surviving bytes that hold what they held, and a promised line survives |
| `SealShelf.CutArtifacts` | internal/checkpoint/finalize.go:39-45 | a segment in a durable artifact is in one after any cut |
| `SegmentBook.SegLog.ReserveEncoded` | internal/store/segments.go:605-641 | all of the batch or nothing, the first fault by order, other numbers' marks respected |
| `SegmentBook.SegLog.CommitEncoded` | internal/store/segments.go:652-681 | all of the batch or nothing; a reservation follows the artifact, a record does not |
| `SegmentBook.SegLog.CommitSegmentMarks` | internal/checkpoint/finalize.go:397-421 | batch, or id by id: every id that can be recorded is, and the drift is counted |
| `SegmentBook.DriftIsElsewhere` | internal/checkpoint/finalize.go:391-413 | the drift is the number of positions whose segment is closed and on record under another number |
| `SegmentBook.CommitStep` | internal/checkpoint/finalize.go:397-421 | recording one id after the others is recording them together |
| `DraftWriter.FileWriter.ClaimSeq` | internal/checkpoint/writer.go:216-232 | one above everything issued and recorded, past existing artifacts while retries last |
| `DraftWriter.NotedIsNeverClaimed` | internal/checkpoint/writer.go:255-261 | a number that was noted is below every later claim |
| `DraftWriter.GiveBackUndoes` | internal/checkpoint/writer.go:234-251 | giving the newest claim back undoes it: the next claim takes the same number, and no other, if and only if no artifact has it, and nothing issued before rises above the counter |
| `DraftWriter.GiveBackLeavesGap` | internal/checkpoint/writer.go:234-251 | once a later number was claimed, giving back an older one leaves the counter, and the number stays a gap |
| `DraftWriter.FileWriter.LoadClaimFloor` | internal/checkpoint/writer.go:1347-1413 | the highest of what was issued and what is on disk, once complete never again |
| `DraftWriter.AdvanceTakes` | internal/checkpoint/writer.go:782-868 | a batch the log takes is in the draft, marked into its number, and if the write succeeds in its file and accepted, every segment of it; segments the log forgot are marked again; a batch it refuses leaves draft, marks and what was accepted as they were |
| `DraftWriter.NumberBefore` | internal/checkpoint/writer.go:389-517 | a step moves numbers only within a session, but for a claim being published |
| `DraftWriter.StepNumInv` | internal/checkpoint/writer.go:216-261 | every step without a bump or a claim after an unfinished floor scan keeps numbers owned by one session, claims fresh and the counter above |
| `DraftWriter.Apart` | internal/checkpoint/writer.go:205-261 | owned numbers and fresh claims mean that no two drafts registered, claiming, resuming or about to be registered hold one number |
| `DraftWriter.SealFrozen` | internal/checkpoint/draft.go:228-258 | every step of Finalize keeps the artifact equal to the draft it froze, and each stage secured |
| `DraftWriter.StepFrozen` | internal/checkpoint/draft.go:215-258 | every step of anyone, restarts and cuts included, keeps each artifact equal to the draft that froze it |
| `SealedSegments.StepTight` | internal/checkpoint/writer.go:722-874 | within one lifetime whatever a draft or its file holds is marked into its own number |
| `SealedSegments.StepOneOpen` | internal/checkpoint/writer.go:343-359 | while no draft is aborted during its Finalize, a session has one open draft, the registered one |
| `SealedSegments.StepFileNumbers` | internal/checkpoint/writer.go:389-590 | and the session's file has that draft's number |
| `SealedSegments.StepLoose` | internal/checkpoint/writer.go:722-874 | across lifetimes, with orderly callers and while no cut takes the open or close record of a segment a draft file holds, what an open draft holds is its session's, and marked into its number or unmarked |
| `SealedSegments.CommitDecides` | internal/checkpoint/finalize.go:397-421 | a seal's segments all end up recorded into its number if and only if none is recorded into another, unknown or open |
| `SealedSegments.StepDrift` | internal/checkpoint/finalize.go:397-421 | within one lifetime, or with orderly callers and no such cut, no mark is refused |
| `SealedSegments.StepSynced` | internal/store/segments.go:259-299 | what is durable of the segment log is part of the log, through every append, sync, restart and cut |
| `SealedSegments.StepMarked` | internal/checkpoint/finalize.go:330-421 | unless marks failed or were refused, a line's segments are recorded into it and synced, whatever a cut takes |
| `SealedSegments.StepLinesDone` | internal/checkpoint/finalize.go:57-186 | within one lifetime every line's draft is in memory, sealed at the line's number |
| `SealedSegments.LifetimeApart` | internal/checkpoint/writer.go:722-874 | two lines of one lifetime share no segment, failed marks or not |
| `DraftFiles.StepAwaits` | internal/checkpoint/writer.go:343-359 | without an overlap of a file write and a removal, a pending removal is nobody's file but the leaving draft's |
| `DraftFiles.StepLooked` | internal/checkpoint/writer.go:389-590 | what Begin found on disk is still so when it goes on |
| `DraftFiles.StepFilesKept` | internal/checkpoint/draft.go:343-400 | without such an overlap or a failed write, and with one open draft, each draft registered or about to be is on disk as it is in memory |
| `DraftFiles.StepNotYet` | internal/checkpoint/finalize.go:57-186 | no draft still open, begun or read back is at a number its session has sealed |
| `DraftFiles.StepOwnLines` | internal/checkpoint/writer.go:524-610 | a draft file whose number its own session has sealed holds nothing the artifact does not |
| `DraftFiles.StepSafe` | internal/checkpoint/finalize.go:231-248 | a session that left the registry leaves nothing accepted in its file that is not in a durable artifact |
| `DraftFiles.StepKept` | internal/checkpoint/finalize.go:39-45 | every step, cuts included, keeps each accepted segment in a draft file or a durable artifact |
| `DraftRuns.StepInv` | internal/checkpoint/finalize.go:57-186 | every step of every session, restart and cut keeps the invariants together, each under its own condition |
| `DraftRuns.NumbersNeverShared` | internal/checkpoint/writer.go:205-261 | in every reachable state without a bump and without a claim after an unfinished floor scan, no two drafts that are registered or at a station of Begin share a number, and the counter bounds those it knows |
| `DraftRuns.SealedIsFrozen` | internal/checkpoint/draft.go:215-258 | in every reachable state a sealed artifact holds exactly what its draft holds, and neither changes for the rest of the process |
| `DraftRuns.ClosedForGood` | internal/checkpoint/draft.go:238-249 | a draft sealed with no Finalize in flight never opens or changes again in its process, and keeps its line |
| `DraftRuns.AbortSticks` | internal/checkpoint/writer.go:1033-1045 | in every reachable state an aborted draft can be reopened if and only if a Finalize was in flight on it |
| `DraftRuns.CrashSafety` | internal/checkpoint/finalize.go:35-55 | after any run and any power cut surviving lines are backed and promised lines survive; their segments are recorded unless marks failed or were refused; no accepted segment is lost unless a draft was aborted in Finalize, a file written against a removal, a write of one failed, or a draft set aside for another's line |
| `DraftRuns.OpenDraftsAreOnDisk` | internal/checkpoint/draft.go:343-400 | in every reachable state without an abort during Finalize, a file written against a pending removal or a failed write of one, each draft registered or about to be is on disk as in memory |
| `DraftRuns.SealedApart` | internal/checkpoint/writer.go:722-874 | in every reachable state without a bump, and without a restart or else without races, crossings, failed marks and cuts that took the log's record of a segment in a draft file, no two lines share a segment |
| `LosingRuns.SealedOnce` | internal/checkpoint/writer.go:722-874 | for each history: a run of that history can seal a segment twice if and only if it had a bump, or a restart and a race, a crossing, failed marks or a cut that took the log's record of a segment in a draft file |
| `LosingRuns.LinesVouched` | internal/checkpoint/finalize.go:41-49 | for each history: a run of that history can seal a segment not recorded as the seal's own if and only if it had a bump or failed marks, or a restart and a race, a crossing or such a cut |
| `LosingRuns.FilesMatch` | internal/checkpoint/writer.go:337-359 | a registered draft can differ from its file if and only if a draft was aborted during Finalize, a file written against a pending removal, or a write of one failed after its first |
| `LosingRuns.NothingLost` | internal/checkpoint/finalize.go:39-42 | an accepted segment can end up in no draft, file, set-aside file or artifact if and only if a draft was aborted during Finalize, a file written against a pending removal, a write of one failed after its first, or a draft set aside for another session's line |
| `LosingRuns.NumbersUnique` | internal/checkpoint/writer.go:1339-1413 | drafts can come to share a number if and only if a seal moved past a taken one or a number was claimed after a floor scan that could not finish |
| `LosingRuns.EarlyRemoval` | internal/checkpoint/writer.go:341-359 | from every state with a removal pending for a session whose Begin has written its file, removing before registering leaves a registered open draft without a file |
| `LosingRuns.LateRemoval` | internal/checkpoint/writer.go:341-359 | from every such state, removing after registering does too |
| `LosingRuns.OverlapLoses` | internal/checkpoint/writer.go:341-359 | from every such reachable state some run and power cut lose an accepted segment |
| `LosingRuns.BumpedLine` | internal/checkpoint/finalize.go:271-300 | a run in which the retry past an orphaned artifact seals a segment whose mark stays at the orphan's number |
| `LosingRuns.BumpedTwice` | internal/checkpoint/draft.go:60-70 | a run in which the draft file still names the number before the bump, is read back and sealed a second time |
| `LosingRuns.UnmarkedLine` | internal/checkpoint/finalize.go:330-396 | a run in which marks fail and the line is written all the same |
| `LosingRuns.UnmarkedTwice` | internal/checkpoint/finalize.go:330-396 | after failed marks and a restart the session's next draft seals the segment again |
| `LosingRuns.UnloggedLine` | internal/checkpoint/finalize.go:355-414 | a cut takes the log's records of a segment, the draft file keeps it, and its seal has no record of it |
| `LosingRuns.UnloggedTwice` | internal/store/segments.go:341-381 | the log hands the lost segment's id out again and the next draft seals it a second time |
| `LosingRuns.RacedTwice` | internal/checkpoint/writer.go:1038-1045 | a run that seals a segment twice after a restart and an abort during Finalize, one seal without its mark |
| `LosingRuns.CrossedTwice` | internal/checkpoint/writer.go:722-874 | a run that seals a segment twice after a restart and a cross-session offer, one seal without its mark |
| `LosingRuns.RacedOverwrites` | internal/checkpoint/writer.go:1038-1045 | a draft aborted during a Finalize that then fails is open again and writes over its successor's file |
| `LosingRuns.UnsavedDiffers` | internal/checkpoint/writer.go:866-868 | a run in which the file of an advanced draft cannot be written, and the draft holds the segment all the same |
| `LosingRuns.UnsavedLoses` | internal/checkpoint/writer.go:580-584 | a draft read back and not written again is registered without a file, and what it held is lost |
| `LosingRuns.BumpShares` | internal/checkpoint/finalize.go:107-134 | a run in which a seal bumps past its orphaned artifact onto another session's number |
| `LosingRuns.BlindShares` | internal/checkpoint/writer.go:1347-1356 | after a restart a fresh draft claims, past a scan that could not finish, the number in another session's draft file |
| `LosingRuns.MisfiledLoss` | internal/checkpoint/writer.go:592-602 | a draft set aside for another session's line is replaced by the session's next set-aside draft, and what it held is nowhere |
| `Compose.SortSorts` | internal/canon/apply.go:40-51 | the sort orders and permutes the candidates |
| `Compose.SortOrders` | internal/canon/apply.go:40-51 | earlier offset first, then the longer, then the one registered first |
| `Compose.SortStable` | internal/canon/apply.go:40-51 | and keeps the order of those it does not distinguish |
| `Compose.AcceptCandidates` | internal/canon/apply.go:67-82 | the in-place loop leaves exactly the functional filter |
| `Compose.AcceptMaximal` | internal/canon/apply.go:53-82 | an eligible candidate left out starts inside an accepted one that precedes it |
| `Compose.GateIs` | internal/canon/classes.go:62-89 | without a list every class is in play, with one those listed and always line endings and paths |
| `Compose.AcceptIs` | internal/canon/apply.go:67-82 | spans in order and apart that dominate the rest are the ones accepted |
| `Compose.ApplyMatches` | internal/canon/apply.go:89-110 | output and deltas of a list of spans |
| `Compose.ApplyShrinks` | internal/canon/apply.go:57-65 | replacing never grows the text |
| `Compose.Restore` | internal/canon/restore.go:22-46 | any deltas over any bytes give the restored text or the first error |
| `Compose.RestoreDecides` | internal/canon/restore.go:18-46 | it fails exactly on lists that overlap, run backwards or leave the bytes |
| `Compose.RestoreFaults` | internal/canon/restore.go:22-46 | the delta refused is the first that breaks the order of the list; as out of order if it starts before the one before it starts, as out of range otherwise |
| `Compose.RoundTrip` | internal/canon/restore.go:10-46 | restoring the deltas of a composition gives the input back |
| `Compose.ComposeAll` | internal/canon/apply.go:122-132 | sort, accept and apply as one, tail beyond the cap verbatim |
| `Compose.HeadAndTail` | internal/canon/apply.go:112-132 | the first eight megabytes are canonicalized, and the rest follows untouched |
| `Compose.ComposeRestores` | internal/canon/apply.go:122-132 | for any candidates in range: exact round trip, and no growth |
| `Compose.AcceptedIsMaximal` | internal/canon/apply.go:53-82 | nothing ineligible is applied, nothing eligible left out but by overlap |
| `LineCanon.CrlfMatches` | internal/canon/generic.go:634-652 | one span per run of carriage returns that ends a line |
| `LineCanon.CrRunEnd` | internal/canon/tools.go:228-233 | the first byte after a run of carriage returns |
| `LineCanon.BashProgressMatches` | internal/canon/tools.go:208-225 | one deletion per bare carriage return, from the start of what it overwrote |
| `LineCanon.EscLenAt` | internal/canon/generic.go:525-543 | the first alternative of the escape at the position |
| `LineCanon.TrailingWSMatches` | internal/canon/tools.go:112-150 | the blank-bearing runs of each line's tail |
| `LineCanon.TailIsLeftmost` | internal/canon/tools.go:100-130 | the tail the byte loop finds begins at the leftmost position from which escapes, blanks and returns run through the line's end, under any reading of the escapes |
| `LineCanon.LineKept` | internal/canon/tools.go:176-207 | what survives of a line: after the last bare return, without trailing blanks |
| `LineResult.KeptCleans` | internal/canon/tools.go:112-225 | the spans that are applied clean line by line |
| `LineResult.RunCases` | internal/canon/tools.go:112-150 | a trailing-blank run is the line's final one or lies inside a redraw |
| `LineResult.AcceptedAreKept` | internal/canon/apply.go:40-82 | exactly those spans are accepted |
| `LineResult.Canonicalize` | internal/canon/apply.go:174-191 | both canonicalizers together over any input |
| `LineResult.TranscriptIsCleaned` | internal/canon/tools.go:176-207 | without escapes and within the cap the composition is the line-by-line reference |
| `LineResult.TranscriptIsStable` | internal/canon/generic.go:622-633 | it leaves no carriage return and a second pass changes nothing |
| `Inject.NeverBoth` | internal/checkpoint/inject.go:42-47 | the two spellings never open at the same place |
| `Inject.ClosesWhatItOpens` | internal/checkpoint/inject.go:42-47 | a close tag names the element its spelling opens |
| `Inject.NextOpen` | internal/checkpoint/inject.go:51-59 | the earliest open prefix of either spelling |
| `Inject.StripOnce` | internal/checkpoint/inject.go:175-204 | one pass: each span ends at its own first close tag, an unfinished one at the end |
| `Inject.ChunksAreUntagged` | internal/checkpoint/inject.go:111-115 | no chunk a pass keeps holds an open prefix |
| `Inject.TagsAreArtifacts` | internal/checkpoint/inject.go:111-115 | every open prefix in its output straddles a join it made |
| `Inject.NeutralizeSplices` | internal/checkpoint/inject.go:159-171 | removes prefixes, and only them, until none is left, and counts them: the bytes gone are those prefixes' bytes |
| `Inject.StripInjectionsCount` | internal/checkpoint/inject.go:139-146 | the stripped text; the count is the spans of the pass and the splices removed after it, zero exactly when nothing was tagged |
| `Inject.StripSettles` | internal/checkpoint/inject.go:132-138 | for every text: no open prefix left, a subsequence, idempotent |
| `Inject.ClosedSpanGoes` | internal/checkpoint/inject.go:175-204 | the first span goes with its tags, up to the first close tag of its own spelling after the first tag suffix, and the pass goes on behind it |
| `Inject.UnfinishedSpanGoes` | internal/checkpoint/inject.go:186-201 | an open tag that is not ended, or that no close tag of its own spelling follows, takes everything to the end of the text |
| `Inject.WrapStrips` | internal/checkpoint/inject.go:61-84 | a wrapped body between texts without open prefixes, apart and joined, strips to those texts |
| `Truncate.TailCut` | internal/checkpoint/truncate.go:159-185 | the probe and search return a fitting cut if one was probed; with monotone sizes the smallest |
| `Truncate.Truncation.EmptyAlternatives` | internal/checkpoint/truncate.go:275-302 | all alternatives at once, one report for each decision that had any |
| `Truncate.Truncation.CutTools` | internal/checkpoint/truncate.go:200-220 | tail-first, one report per pointer |
| `Truncate.Truncation.CutFiles` | internal/checkpoint/truncate.go:224-244 | tail-first, one report per pointer |
| `Truncate.Truncation.CutQuestions` | internal/checkpoint/truncate.go:249-269 | tail-first, one report per question with its index |
| `Truncate.Truncation.CutDecisions` | internal/checkpoint/truncate.go:306-326 | tail-first, one report per decision |
| `Truncate.TruncateDoc` | internal/checkpoint/truncate.go:100-125 | the walk over the enabled stages; with shrinking sizes it is the one-unit-at-a-time reference |
| `TruncateLaws.EarlierExhausted` | internal/checkpoint/truncate.go:48-68 | a stage cuts only once every enabled stage before it has nothing left |
| `TruncateLaws.CutsInTurn` | internal/checkpoint/truncate.go:48-76 | while a stage cuts, every enabled stage of the first tier, if the stage is not of it, and every enabled one of its own tier before it - narrative, tools, files, questions, alternatives, decisions, next step - has nothing left |
| `TruncateLaws.OverBudgetIsBare` | internal/checkpoint/truncate.go:91-97 | a result over budget has nothing left in any enabled stage |
| `TruncateLaws.LeftAlone` | internal/checkpoint/truncate.go:70-76 | tier 1, Never fields and unlisted fields are unchanged |
| `TruncateLaws.DropsConserve` | internal/checkpoint/truncate.go:91-97 | kept plus dropped is the original, stage by stage; budget_exceeded exactly when over budget |
| `TruncateLaws.AlternativesConserve` | internal/checkpoint/truncate.go:271-302 | alternatives all stay or all go, each decision that had any reported once |
| `FastCdc.NormalizedIsUsable` | internal/chunk/params.go:100-155 | 64 <= min < target <= max/2, target a power of two; idempotent; identity on the defaults |
| `FastCdc.NormalizedIs` | internal/chunk/params.go:115-155 | target is the largest power of two not above the one asked for, within bounds; min what was asked, raised to the window and an eighth of the target, or a quarter of it where nothing would be left to scan; max within two and sixteen targets, four by default |
| `FastCdc.WindowForgets` | internal/chunk/params.go:10-25 | 64 bytes erase any starting fingerprint |
| `FastCdc.FingerprintIs` | internal/chunk/fastcdc.go:105-115 | the fingerprint is the xor, over the last 64 bytes or as many as there are, of the byte's gear shifted left once for each byte after it |
| `FastCdc.NewIsReady` | internal/chunk/fastcdc.go:97-115 | the lenient mask's bits are a subset of the strict mask's |
| `FastCdc.MaskWidths` | internal/chunk/fastcdc.go:97-115 | the strict mask is one leading one more than the target's power of two, the lenient one fewer, and nothing else |
| `FastCdc.StrictImpliesLenient` | internal/chunk/fastcdc.go:79-84 | a cut under the strict mask is one under the lenient |
| `FastCdc.NextCut` | internal/chunk/fastcdc.go:140-173 | the primed scan cuts where one rolled from the first byte cuts |
| `FastCdc.CutIsFirstClear` | internal/chunk/fastcdc.go:117-173 | a cut comes after the first byte from min on whose fingerprint is clear under its mask, strict before target and lenient after, or at max or the end |
| `FastCdc.CutBounds` | internal/chunk/fastcdc.go:121-138 | a cut is positive, at most max, and more than min unless it takes everything |
| `FastCdc.Split` | internal/chunk/fastcdc.go:189-203 | the chunks from the start |
| `FastCdc.ChunksPartition` | internal/chunk/fastcdc.go:175-203 | offsets are prefix sums, all but the last longer than min, none longer than max |
| `FastCdc.ChunksFit` | internal/chunk/fastcdc.go:180-186 | the reserved capacity is never exceeded |
| `FastCdc.SuffixesSync` | internal/chunk/params.go:19-24 | two streams with a common suffix have identical chunks from any common boundary on |
| `Lineage.AncestryOf` | internal/checkpoint/lineage.go:221-240 | the walk ends on every record set, cyclic ones included |
| `Lineage.AncestryIsChain` | internal/checkpoint/lineage.go:204-240 | it is the chain of recorded parents without repeats, up to a session without a record, with one that cannot be read or names no parent, or whose parent was there before; clean unless a record could not be read |
| `Lineage.ChainIsAncestry` | internal/checkpoint/lineage.go:204-240 | and nothing else is such a chain |
| `Lineage.UnstampedInheritsAll` | internal/checkpoint/lineage.go:229-235 | of an ancestor's records those come down that are not younger than the fork's stamp, and all of them if it has none |
| `Lineage.StepInv` | internal/checkpoint/lineage.go:263-288 | every step of lookups and recordings keeps the memo's invariant |
| `Lineage.MemoIsAncestry` | internal/checkpoint/lineage.go:246-288 | with no recording half done, a memo entry of the current generation is the direct walk |
| `Lineage.AnswerIsAncestry` | internal/checkpoint/lineage.go:263-288 | so is what a lookup answers, from the memo or its own walk, as long as nothing was recorded since it began |
| `Lineage.MemoCanLag` | internal/checkpoint/lineage.go:121-132 | between a recording's write and its bump it need not be |
| `DecisionMerge.ForeignDecisions` | internal/checkpoint/writer.go:1249-1282 | foreign exactly if no own record mints the id and another's, a candidate or the fork does, at the newest time |
| `DecisionMerge.FirstIsUnique` | internal/checkpoint/writer.go:1174-1187 | the declared order leaves one first-64 list |
| `DecisionMerge.CapAgain` | internal/checkpoint/writer.go:1174-1222 | capping what was capped together with more is capping everything |
| `DecisionMerge.FirstWins` | internal/checkpoint/writer.go:1188-1222 | what was kept stays as it is, and of the candidates of one new id the first is taken |
| `DecisionMerge.DraftDecisions.MergeDecisions` | internal/checkpoint/writer.go:1188-1222 | for any candidates and classification: what was kept and the first of each new id, in the declared order, cut at 64 |
| `DecisionMerge.MergeKeepsFirst` | internal/checkpoint/writer.go:1174-1222 | a pass over the first of everything offered leaves the first of everything offered, while ids keep turn and classification |
| `DecisionMerge.MergedIsFirst` | internal/checkpoint/writer.go:1174-1222 | merging pass by pass is merging once: any number of passes over such ids leaves the first 64 of everything ever offered |
| `DecisionMerge.OwnComesFirst` | internal/checkpoint/writer.go:1178-1184 | in any pass a foreign decision never displaces one of the session's own |

## Left out

- The regex rule tables, their prefilters and the plain-line forms run inside Go's regexp engine; only byte loops are modelled, and patterns are read over bytes, the micro sign as its two.
- Idempotence of the whole canonicalizer registry, and of trailing-blank trimming when escapes are present: the package says deletions break them.
- `container/heap` and the library sorts are modelled by what they return: the least entry, the stable order.
- Floating-point gains are exact reals, so rounding, infinities and not-a-number are not modelled; the finite-gain cut is.
- The numeric scanner's memo is a set of rules per position rather than eight bits in a byte, and its inline buffers are sequences.
- Context cancellation, logging, metrics, clocks, git state, path handling, JSON, SHA-256, MinHash, the token estimator and the gear table's values are absent or arbitrary.
- ProposeRuns.ProposeSelection: candidates are taken as normalized, with distinct items and costs that are not negative; where representations require others a bundle's gain can rise, and no greedy run is promised.
- A superseded set-aside draft file that a cut brings back is not seen by the floor scan.
- DraftRuns.SealedIsFrozen: only the set of encoded segments is modelled of an artifact's content.
- A removal of a partial artifact that fails, unreadable draft files or manifest, and external edits of the state directory.
- A cut takes artifact bytes, manifest lines and log records whole, and with a segment's open record the rest of its records; torn ones are the reader's to refuse, and the reader is not modelled.
- Compose.ComposeAll: a nil result for an empty one and the names of the owners that contributed.
- LineResult.TranscriptIsCleaned: composes the crlf and bash canonicalizers only, since the others change other spans.
- Truncate.TruncateDoc: an element is its reported identity, the caps on reported question text and the fixed detail strings are dropped, and size is an arbitrary function of the document.
- FastCdc.Split: chunk hashes and `SplitStream`; a chunk is its offset and length.
- Lineage.MemoIsAncestry: how a fork's parent is inferred, and wrap-around of the 64-bit counter.
- DecisionMerge.DraftDecisions.MergeDecisions: decision ids are numbers, and rejected alternatives are not carried.
- `internal/admission`, `promote.go`, `focus.go`, `validate.go`, `delta.go`, `redundancy.go`, the command line and packaging would only add easy members.
