# FireBin API: a verified model

This project models the hard core of the FireBin API server in Dafny and proves what that code is for. It covers seven
components: the assistant's tool loop and its history trimmer, the KiCad import pipeline, the pick-list allocator, the
label sheet cursor, the background task lifecycle, the reassembly of streamed tool calls, and two text normalisers.
`dafny verify dfyconfig.toml` checks all of it.

How the files follow the program:

| file | models |
|---|---|
| `Conversation.dfy` | messages, and the pairing of tool calls with their results |
| `History.dfy` | `internal/assistant/history.go` |
| `AskLoop.dfy`, `AskGuarantees.dfy` | `internal/assistant/loop.go` and what a turn guarantees |
| `AskOutcomes.dfy` | a second account of a turn, from the raw replies alone, that the loop is proved to match |
| `AskStream.dfy`, `StreamGuarantees.dfy` | `internal/assistant/stream.go` and what its events guarantee |
| `Sexpr.dfy`, `SexprPrint.dfy` | `internal/kicad/sexpr.go`, and printers it inverts |
| `Sheets.dfy` | `collectSheet` in `internal/kicad/zip.go` |
| `Components.dfy`, `Bom.dfy`, `BomGuarantees.dfy`, `Panel.dfy` | `internal/kicad/bom.go` and `panel.go` |
| `PickList.dfy`, `PickGuarantees.dfy` | `internal/picklist/picklist.go` |
| `LabelSheet.dfy` | the cell loop of `internal/labels/labels.go` |
| `TaskStore.dfy`, `TaskProtocol.dfy`, `TaskRows.dfy` | `internal/jobs`: guarded row updates, the protocol over them, and what a row tells of its run |
| `ToolCallStream.dfy` | `chat` and `chatStream` in `internal/ai/openai.go` |
| `Thinking.dfy` | `splitThinking` in `internal/ai/http.go` |
| `Normalize.dfy` | `normalize` in `internal/datasheets/extract.go` |
| `Ordering.dfy`, `Text.dfy`, `Wrappers.dfy` | strict weak orders and the stable sort; the little of Go's strings package that is used; options |

How it is built. Code that works step by step is a method with loops, or a class whose fields the methods update in
place. Each such method is proved equal to a specification function, and the theorems are about that function; they
name the source's bytes, fields and numbers themselves rather than through it. What the
program meets outside itself is arbitrary: the provider is any function of the request number and the messages sent, a
tool is any function of its call, cancellation is any predicate over the tools run so far, a file archive is any map
from keys to parsed sheets, and River is an environment whose steps interleave in any order with those of workers,
cancellers, the reconciler and the pruner.

Results that a reader of the source may not expect:

- `parseList` does not end on some inputs. A byte that `unicode.IsSpace` accepts and `skipSpace` does not (0x0B, 0x0C,
  0x85, 0xA0), met between tokens, makes `parseAtom` return an empty atom without moving, for ever. The model gives
  such inputs the outcome `Spinning`; `ParseExactly` says for every input which of the three outcomes it has, and
  `VerticalTabSpins` is a concrete one. Such bytes inside quotes do no harm.
- `trimHistory` can miss its budget, because its newest exchange is kept whole (`TrimFitsExactly`), and a stub may
  outweigh the result it replaces (`StubbingSavesExactly`, `StageOneGrowsExactly`). `TrimGrowsExactly` says exactly when
  the trimmed history is larger than the input. It takes a history that ends in tool results (`TrimCanGrow`); stored
  conversations end in an answer, so they never grow (`StoredNeverGrows`).
- A task cancelled while it waits in the queue, whose job River cancels before a worker starts, never becomes
  `cancelled`: nothing but a worker writes that status, so the reconciler records it as failed
  (`CancelledInQueueEndsFailed`).
- A cancel request can be lost in two ways even when River's own cancellation follows at once: a worker about to start
  marks the row running over the flag, and a worker that has already decided to retry writes that over it. There is no
  third (`CancelHoldsExactly`). A request alone is also lost when its worker dies with attempts left
  (`RequestHoldsExactly`).
- A finished task is not finished for ever. When its worker dies between the terminal write and River's settling of the
  job, with attempts left and no cancellation in River, the next attempt marks it running again and leaves the old
  finish time. A sweep that listed the row before it finished fails it over. `FinishedForever` says exactly when neither
  can happen, `RestartAfterWriteReopens` and `StaleSweepOverwrites` give the runs.
- `Turn.Rounds` is documented as the number of provider requests, but counts accepted responses: a retried or failed
  request is not in it (`RoundsAreRequestsExactly`, `FailedRequestIsNotARound`), and the cost-known flag is that of the
  last response alone.
- `RequestCancel` is documented to say no for terminal tasks only, and says so for one already being cancelled too.
- The comparison that sorts bill-of-materials lines mixes references and values. It is a strict weak order on the lines
  at hand if and only if first references follow the values across the value of every line without references
  (`LineOrderExactly`), as they do when all lines have references or none has. Three components defeat it so that no
  arrangement is sorted (`LineOrderIsNotWeak`, `PartsInACircle`), and sortedness is claimed under the condition alone.
- A streamed text whose fragments hold a thinking block, or white space at either end, differs from the text of the
  response; `DeltasAreTheText` says exactly when the two agree.

## Model

| member | source | states |
|---|---|---|
| `History.EstimateTokens` | internal/assistant/history.go:49-58 | the accumulated byte counts of text, calls and results come to the size that the budget is measured in, at least 4 per message |
| `History.CallWeighs` | internal/assistant/history.go:51-53 | replacing one call changes the weighed bytes by exactly the difference of its name and input, whatever its id |
| `History.ResultWeighs` | internal/assistant/history.go:54-56 | replacing one result changes them by exactly the difference of its name and body |
| `History.TextWeighs` | internal/assistant/history.go:50 | replacing the text changes them by exactly its difference |
| `History.EmptyMessageWeighs` | internal/assistant/history.go:57 | n bytes are estimated at n / 4 + 4 tokens, and a message without texts at 4 |
| `History.LongInputIsOverBudget` | internal/assistant/history.go:132-138 | one call input of four bytes for each token of the budget takes a whole history over it |
| `Text.Utf8LenOfRune` | internal/assistant/history.go:50-55 | lengths are in UTF-8 bytes: one to four for each code point by its range |
| `History.Estimator.TrimHistory` | internal/assistant/history.go:72-130 | the two in-place stages compute the specification `Trim`, for every history and budget, also empty or not positive ones |
| `History.Estimator.StubOld` | internal/assistant/history.go:80-99 | walking back over the array, each message is stubbed exactly when what follows it, as already stubbed, leaves it no room |
| `History.Estimator.FindFit` | internal/assistant/history.go:105-113 | the backward scan finds the start of the longest suffix within the budget |
| `History.Estimator.KeepFrom` | internal/assistant/history.go:104-128 | the cut never falls before a message with results: it moves on to the next plain message, or back to the last one |
| `History.Estimator.DropStartIsLeast` | internal/assistant/history.go:104-129 | it drops no more than it has to: to start at any earlier message without results would overshoot |
| `History.StubsBodiesOnly` | internal/assistant/history.go:92-97 | stubbing replaces the bodies of results and nothing else of a message |
| `History.StubSays` | internal/assistant/history.go:33 | the text of the stub |
| `History.Estimator.BackToPlain` | internal/assistant/history.go:123-128 | when nothing plain fits, the newest message without results is where the kept part starts |
| `History.Estimator.TrimIsSound` | internal/assistant/history.go:60-71 | for a pair-complete history: not empty, a suffix of the input but for stubbed bodies, pair-complete again, and within the budget unless it is the newest exchange alone |
| `History.Estimator.TrimStubsOnly` | internal/assistant/history.go:80-129 | the same suffix, stub and budget claims for a history that need not be pair-complete |
| `History.Estimator.TrimFitsExactly` | internal/assistant/history.go:100-129 | the result fits the budget if and only if the input does or the stubbed newest exchange does |
| `History.Estimator.TrimIdempotent` | internal/assistant/history.go:72-130 | trimming a trimmed history at the same budget changes nothing, for every history |
| `History.Estimator.TrimKeepsNewest` | internal/assistant/history.go:104-119 | from the first plain message of the longest suffix of the original that fits, every message comes through verbatim |
| `History.StubbingSavesExactly` | internal/assistant/history.go:49-58 | in the trimmer's own measure, stubbing makes no message larger if and only if its bodies weigh one stub each, short by no more than what rounding to whole tokens leaves over |
| `History.StageOneGrowsExactly` | internal/assistant/history.go:83-99 | stage one changes the estimated size of a history by exactly the growth of the messages it stubs, for every history and budget |
| `History.TrimGrowsExactly` | internal/assistant/history.go:72-130 | the trimmed history is larger than the input if and only if the input is over the budget and stubbing its newest exchange adds more than all that comes before that exchange |
| `AskGuarantees.StoredNeverGrows` | internal/assistant/history.go:60-71 | for any conversation the server stores and any budget, the trimmed history is never larger |
| `History.TrimCanGrow` | internal/assistant/history.go:72-130 | that condition can be met at every positive budget, by a pair-complete history that ends in results, which no caller passes |
| `AskLoop.Ask` | internal/assistant/loop.go:143-290 | the trimmed history, the question and the loop give the answer of the specification `Answered`, for every provider, tool and cancellation |
| `AskOutcomes.TurnGoesOn` | internal/assistant/loop.go:177-284 | from the raw replies: the first request is the kept history and the question, each further one the one before it and, for a reply that was not thrown out, exactly the assistant's message and one message with every call's result |
| `AskOutcomes.ProseCallIsRun` | internal/assistant/loop.go:223-234 | a call written as prose is run: the transcript goes on by that call, without the prose, and one result with its id |
| `AskOutcomes.TurnEndsExactly` | internal/assistant/loop.go:190-289 | each of the eight outcomes of a turn if and only if its last raw reply, and cancellation during its calls, is of one kind |
| `AskOutcomes.TurnLimitsExactly` | internal/assistant/loop.go:20-34 | at most 8 replies, exactly 8 on giving up; the turn fails as unparsed if and only if it met 4 unparsed replies, and never more |
| `AskOutcomes.TurnLeaves` | internal/assistant/loop.go:236-282 | what the last reply leaves in the transcript, and every step of the turn: those of each earlier reply's calls and of the last one's up to a cancellation |
| `AskOutcomes.RunsAsTold` | internal/assistant/loop.go:267-282 | a round's results and steps field by field: names repaired by loop and tools, ids and inputs as the model gave them |
| `AskOutcomes.KeptIsTrimmed` | internal/assistant/history.go:25-41 | the history is trimmed to 4000 tokens for a local provider and 60000 for another, unless the runner has its own budget |
| `AskOutcomes.NoProviderIsAnError` | internal/assistant/loop.go:144-146 | without a provider there is no turn and nothing is added |
| `AskLoop.AskRounds` | internal/assistant/loop.go:163-289 | the loop with its uncounted retries ends as `RunLoop` does, by the measure of rounds and retries left |
| `AskLoop.TakeReply` | internal/assistant/loop.go:217-283 | what one accepted response does to messages and turn, and with which of the failures it ends the turn |
| `AskLoop.CallTools` | internal/assistant/loop.go:266-282 | the calls of a round run in order until the context is cancelled, one result and one step each |
| `AskLoop.RunToolsUnique` | internal/assistant/loop.go:267-282 | any account of which calls ran is the loop's, when it stops at the first cancellation or the end |
| `AskLoop.RunKeepsBase` | internal/assistant/loop.go:165-170 | the messages a turn starts from stay a prefix of what it ends with, so the added part can be cut off it |
| `AskGuarantees.AskIsBounded` | internal/assistant/loop.go:176-215 | on every exit: at most 11 requests, at most 8 accepted responses, rounds and token totals exactly theirs, and the round limit flag exactly when the loop gave up |
| `AskOutcomes.UsageAddsUp` | internal/assistant/loop.go:212-215 | on every exit, field by field: input tokens, output tokens and cost are the sums over the accepted replies, the model is the provider's, and cost is known if the last reply's was |
| `AskGuarantees.RoundsAreRequestsExactly` | internal/assistant/loop.go:55-56 | the turn's rounds are never more than its requests, and equal them if and only if every request was answered |
| `AskGuarantees.FailedRequestIsNotARound` | internal/assistant/loop.go:202-211 | a turn whose first request fails has made one request and reports no round |
| `AskGuarantees.AskAnswers` | internal/assistant/loop.go:240-261 | the added messages start with the question; a successful turn's text is the last of them, is not blank and is no stray call; a failed turn has no text |
| `AskGuarantees.AskPairs` | internal/assistant/loop.go:263-283 | every request of a turn is pair-complete, and the added messages are if and only if the turn was not cancelled between tools |
| `AskGuarantees.KeptIsPaired` | internal/assistant/loop.go:154-158 | trimming to the runner's own budget, also one that is not positive, keeps a history pair-complete |
| `AskGuarantees.ConversationStaysPaired` | internal/assistant/loop.go:132-142 | over any number of questions, each with its own provider, every request ever sent and the stored conversation are pair-complete |
| `AskGuarantees.AskSteps` | internal/assistant/loop.go:277-282 | unless cancelled, the steps are the flattening, in order, of every tool result in the added messages |
| `AskStream.AskStream` | internal/assistant/stream.go:68-212 | returns the same turn, added messages and error as `Ask`, with exactly the specified events, whether or not the provider streams |
| `AskStream.StreamRounds` | internal/assistant/stream.go:109-211 | the streamed loop ends as `RunLoop` does and has emitted `Events` of its start, no more and in that order |
| `AskStream.StreamReply` | internal/assistant/stream.go:154-207 | the streamed twin of `TakeReply`: the same outcome, and a retraction exactly for a recovered call or an answer that is only a call |
| `AskStream.StreamTools` | internal/assistant/stream.go:191-206 | each tool is announced before it runs, and none after a cancellation |
| `StreamGuarantees.ScreenIsHeard` | internal/assistant/stream.go:109-208 | for any provider and however the turn ends, folding its events leaves exactly the fragments of the requests made since the last retraction |
| `StreamGuarantees.ScreenShowsTheAnswer` | internal/assistant/stream.go:29-37 | on success, if the replies since the last retraction are made up of their fragments, that is exactly what the assistant said since then: whole messages of the transcript, nothing of a retried or recovered round, ending in the answer |
| `StreamGuarantees.ScreenFrom` | internal/assistant/stream.go:110-208 | the same from any point of a turn, with the start of the shown text pinned to the transcript's length at the last retraction |
| `StreamGuarantees.ToolsAnnounced` | internal/assistant/stream.go:199-205 | however the turn ends, the tools announced are exactly the steps recorded, in order |
| `StreamGuarantees.TotalsAreTheBill` | internal/assistant/stream.go:144-152 | the i-th usage event carries the bill of the first i accepted responses, one event for each |
| `AskOutcomes.UsageEventsAddUp` | internal/assistant/stream.go:144-152 | the i-th usage event is, field by field, those sums over the first i replies, one event for each |
| `AskOutcomes.RoundsAnnounced` | internal/assistant/stream.go:110-111 | every request is announced, by one more than the replies accepted before it, so a retried round keeps its number |
| `AskOutcomes.RetractsExactly` | internal/assistant/stream.go:123-187 | a round retracts if and only if its raw reply is thrown out and retried, or is prose that holds a call or is JSON |
| `AskOutcomes.StrayLeavesNothing` | internal/assistant/stream.go:181-183 | a turn that fails because its answer is a call in JSON leaves nothing on the screen |
| `Sexpr.ParseSexpr` | internal/kicad/sexpr.go:43-54 | the cursor parser computes `Parse` for every byte string |
| `Sexpr.SexprParser.ParseList` | internal/kicad/sexpr.go:73-97 | from a bracket: the tree and a cursor just past its closing bracket, or the end of input, or a cursor that a stray space holds fast; every pass but that one moves on, and the cursor stays within the input |
| `Sexpr.SexprParser.ParseQuoted` | internal/kicad/sexpr.go:100-128 | the value and the rest of a quoted token, escapes and a missing closing quote included |
| `Sexpr.SexprParser.ParseAtom` | internal/kicad/sexpr.go:131-141 | the value and the rest of a bare token |
| `Sexpr.SpinningPassChangesNothing` | internal/kicad/sexpr.go:76-96 | on 0x0B, 0x0C, 0x85 or 0xA0 a pass of the loop leaves the cursor where it was, so it never ends |
| `Sexpr.ItemsAsScanned` | internal/kicad/sexpr.go:73-97 | the recursive parse agrees with a one-pass bracket counter at every depth |
| `Sexpr.ParseExactly` | internal/kicad/sexpr.go:43-97 | for every input, success, unexpected end and never ending are decided, each if and only if, by a one-pass bracket counter that names every byte itself |
| `Sexpr.CleanNeverSpins` | internal/kicad/sexpr.go:61-70 | the parser returns on every document without 0x0B, 0x0C, 0x85 and 0xA0 outside quotes |
| `Sexpr.VerticalTabSpins` | internal/kicad/sexpr.go:135 | the two bytes `(` and 0x0B make the parser spin |
| `SexprPrint.LayoutRoundTrip` | internal/kicad/sexpr.go:72-141 | any layout of a tree, with any skippable space, bare or quoted atoms and any escapes, parses back to it, and leaves the cursor just past its bracket whatever follows |
| `SexprPrint.LayoutExactly` | internal/kicad/sexpr.go:43-141 | a document parses to a tree if and only if it is some layout of that tree followed by anything |
| `SexprPrint.EscapesRead` | internal/kicad/sexpr.go:105-118 | in quotes a backslash and n, t or r read as byte 10, 9 or 13, and with any other byte as that byte |
| `SexprPrint.PrintRoundTrip` | internal/kicad/sexpr.go:43-54 | parsing the canonical print of any list gives the list |
| `Sheets.CollectSheet` | internal/kicad/zip.go:178-215 | ends on every reference graph, cyclic or not, restores the shared set, and returns `Collect` |
| `Sheets.PathsAreSimple` | internal/kicad/zip.go:179-195 | the walk follows a path exactly when it enters no file twice and none already on the stack, and in document order |
| `Sheets.CollectIsAllSimplePaths` | internal/kicad/zip.go:175-177 | on any graph, one component for every simple path from the root to a symbol, in document order |
| `Sheets.AcyclicCollectsEveryPath` | internal/kicad/zip.go:175-177 | on an acyclic hierarchy, one component for every path there is |
| `Sheets.GuardIsInvisible` | internal/kicad/zip.go:179-195 | on an acyclic hierarchy the guarded walk equals the unguarded unrolling |
| `Sheets.BeforeIsStrict` | internal/kicad/zip.go:199-213 | document order is strict, so no path is listed twice |
| `Bom.GroupComponents` | internal/kicad/bom.go:235-292 | the lines are, each once, those of the input's keys with sorted references; where the comparison is an order on them they are sorted, and lines it does not tell apart keep the order of first appearance |
| `Bom.GroupAll` | internal/kicad/bom.go:236-276 | the map of pointers holds, for each key in order of first appearance, the line its components make |
| `BomGuarantees.EachPartOnItsLine` | internal/kicad/bom.go:240-276 | every component is on exactly one line, that of its own value, footprint and part number, which counts the components alike and takes every detail from the first of them that has it |
| `Bom.RefOrderIsWeak` | internal/kicad/bom.go:294-311 | the natural order of references is a strict weak order |
| `Bom.NaturalOrder` | internal/kicad/bom.go:294-302 | references go by their letters and then by their numbers read as numbers, numbers past 64 bits by the largest |
| `Bom.AtoiFromStray` | internal/kicad/bom.go:309 | a number that something else follows reads as 0, unless it has passed 64 bits by then |
| `Bom.ReferencesInOrder` | internal/kicad/bom.go:294 | R1 before R2 before R10, and C10 before R1 |
| `Ordering.StringLessExactly` | internal/kicad/bom.go:299 | strings are compared where they first differ, a proper prefix first |
| `Bom.LineOrderExactly` | internal/kicad/bom.go:285-290 | the comparison is a strict weak order on given lines if and only if, across the value of every line without references, first references follow the values |
| `Bom.LineOrderIsNotWeak` | internal/kicad/bom.go:235-292 | any two parts in order of reference, with a part without one whose value lies between theirs the other way round, make lines no arrangement of which is sorted |
| `Bom.PartsInACircle` | internal/kicad/bom.go:285-290 | R1 with value b, R2 with value a and a part without a reference and value aa are three such parts |
| `Bom.SplitRefLoop` | internal/kicad/bom.go:304-311 | the scan splits a reference at its first digit, as `SplitRef` does, whatever follows the digits |
| `Bom.LineForCounts` | internal/kicad/bom.go:240-276 | a key's line counts its components and lists their references |
| `Bom.LineForDetails` | internal/kicad/bom.go:261-275 | each detail is the first that is not blank among the key's components |
| `BomGuarantees.LineTells` | internal/kicad/bom.go:233-234 | each line of a bill: quantity, references as a sorted multiset, and details, all from the components of its key |
| `BomGuarantees.QuantitiesSum` | internal/kicad/bom.go:233-292 | quantities sum to the number of components |
| `BomGuarantees.OrderOfInputIsIrrelevant` | internal/kicad/bom.go:233-292 | permuting the components changes no key, quantity or multiset of references |
| `Bom.KeysDistinct` | internal/kicad/bom.go:240-256 | no key is listed twice |
| `Panel.DetectPanelPCB` | internal/kicad/panel.go:119-147 | whatever order the maps are walked in, the answer is a mode of the reference counts, the largest on a tie, and a panel exactly from 2 up |
| `Panel.FramesAreLeftOut` | internal/kicad/panel.go:121-127 | the references that count are all but those that start with KiKit, each as often as it is read |
| `Panel.TieGoesToTheLarger` | internal/kicad/panel.go:139 | one reference read once and one read twice make a panel of two |
| `Panel.ModeIsUnique` | internal/kicad/panel.go:137-142 | that mode is unique, so map order cannot show |
| `Panel.PanelModeIsCopies` | internal/kicad/panel.go:113-118 | for any interleaving of k copies of a proper board, with any frame parts, the mode is k |
| `Panel.CopiesAreDetected` | internal/kicad/panel.go:113-147 | so the detector's answer on k copies is k, and a panel if and only if k is at least 2 |
| `Panel.ParsePanelBoardBOM` | internal/kicad/bom.go:93-108 | deduplicates by reference, then groups |
| `Panel.UniqueUndoesCopies` | internal/kicad/bom.go:88-92 | deduplicating any interleaving of k copies gives back the board's components |
| `Panel.FirstIsKept` | internal/kicad/bom.go:100-106 | of the components with one reference the first is kept |
| `Panel.PanelBOMIsTheBoards` | internal/kicad/bom.go:88-108 | the bill of the panel is the bill of the board |
| `Panel.EstimateExactly` | internal/kicad/panel.go:86-97 | for all counts, also a frame that outnumbers the footprints, the rounded ratio is k if and only if the footprints are within half a board of k boards |
| `PickList.Compute` | internal/picklist/picklist.go:45-142 | errors, aggregation, allocation, shortfalls and walk order are those of the specification `Result` |
| `PickGuarantees.OutcomeTells` | internal/picklist/picklist.go:49-85 | which of the two errors comes when, and from what stock the list is made |
| `PickGuarantees.PartsTell` | internal/picklist/picklist.go:75-82 | stock is asked for exactly the parts of the lines that have one, each once |
| `PickGuarantees.ListTells` | internal/picklist/picklist.go:46-67 | board, name, copies and builds, both at least one, and the requirement of a part as copies times builds times what the lines ask |
| `PickGuarantees.UnmatchedTell` | internal/picklist/picklist.go:68-74 | each line without a part is reported, in order, with its own details and its quantity for all builds |
| `PickGuarantees.EntryTells` | internal/picklist/picklist.go:103-115 | each entry has its lot's id, part, names and place |
| `PickList.Demand` | internal/picklist/picklist.go:61-80 | the demand loop's map, names, order and unmatched lines |
| `PickList.Supply` | internal/picklist/picklist.go:86-91 | the stock loop groups lots by part in bin order and sums them |
| `PickList.AllocateAll` | internal/picklist/picklist.go:93-124 | the loop over parts in demand: entries, shortfalls and total |
| `PickList.AllocatePart` | internal/picklist/picklist.go:97-118 | the greedy loop over one part's lots |
| `PickGuarantees.PickIsOptimal` | internal/picklist/picklist.go:97-118 | pulls total the lesser of need and stock, and the lots used are a prefix in bin order, all but the last drained |
| `PickGuarantees.PullsAreOptimal` | internal/picklist/picklist.go:40-44 | in the finished list each part in demand is pulled exactly to the lesser of required and available, and no other part at all |
| `PickGuarantees.NoLotTwice` | internal/picklist/picklist.go:99-118 | no lot is pulled from twice |
| `PickGuarantees.BinsAreEmptiedInOrder` | internal/picklist/picklist.go:97-136 | each entry of the finished, sorted list takes at most what its lot holds, and every lot of its part that comes before it in bin order is on the list with all it holds |
| `PickGuarantees.ShortIsWhatIsNotPulled` | internal/picklist/picklist.go:119-123 | a shortfall is reported if and only if the requirement exceeds the stock, and is exactly the requirement less what is pulled |
| `PickGuarantees.ShortfallTells` | internal/picklist/picklist.go:119-123 | a shortfall has what the lines require, the sum of the part's lots, their difference, and the name on the first line for the part |
| `PickGuarantees.BuildableExactly` | internal/assistant/tools.go:733 | no shortfalls and no unmatched lines, if and only if every line is matched and some allocation of the lots meets every requirement |
| `PickGuarantees.DemandIsConserved` | internal/picklist/picklist.go:61-80 | required and unmatched quantities together are builds times what the lines ask |
| `PickGuarantees.TotalIsTheSum` | internal/picklist/picklist.go:95-117 | the running total is the sum of the sorted entries |
| `PickGuarantees.WalkOrderIsWeak` | internal/picklist/picklist.go:127-136 | walk order is a strict weak order |
| `PickGuarantees.EntriesAreAWalk` | internal/picklist/picklist.go:126-136 | the entries are a sorted permutation of the pulls that keeps ties in order |
| `PickGuarantees.WalkTells` | internal/picklist/picklist.go:126-136 | named bins come first and in order of their names, and in one bin the parts in order of theirs |
| `Ordering.StableSortIsUnique` | internal/picklist/picklist.go:127 | for a strict weak order, any sorted permutation that keeps ties in order is the stable sort's result |
| `LabelSheet.RenderSheet` | internal/labels/labels.go:111-147 | the cursor puts label i where the closed form says, on the page and cell and at the corner, and no cells is an error |
| `LabelSheet.CornersAreThese` | internal/labels/labels.go:130-133 | a label's corner is its cell's column and row times the pitch from the first corner |
| `LabelSheet.PlacesIncrease` | internal/labels/labels.go:119-146 | a later label is on a later page or further on on the same one |
| `LabelSheet.CellsAreFree` | internal/labels/labels.go:120-129 | no label lands on a used cell of the first sheet or off the sheet |
| `LabelSheet.PlacesAreDistinct` | internal/labels/labels.go:119-146 | no two labels share a cell |
| `LabelSheet.PlacesAreFilledInOrder` | internal/labels/labels.go:97-100 | every free cell of every sheet is some label's |
| `LabelSheet.PagesAreNeeded` | internal/labels/labels.go:125-129 | the number of pages is that of the last label's page, no more |
| `LabelSheet.LabelsDoNotOverlap` | internal/labels/labels.go:130-133 | different cells of a page do not overlap when the pitch is at least the label size on both axes |
| `LabelSheet.SheetsNeverOverlap` | internal/labels/labels.go:119-146 | no two labels of a print overlap on a page, under the same condition |
| `TaskStore.Store.CreateTask` | internal/jobs/store.go:37-46 | a new row is queued; an id in use is refused and nothing changes |
| `TaskStore.Store.MarkRunning` | internal/jobs/store.go:56-62 | an unconditional update: attempt and status, the first start time kept |
| `TaskStore.Store.MarkTerminal` | internal/jobs/store.go:66-73 | field by field: status and error as given, an absent result keeps the old one, finish time only for final statuses, all else and all other rows unchanged |
| `TaskStore.Store.RequestCancel` | internal/jobs/store.go:84-102 | flags exactly the rows that are queued, running or retrying and tells the other two cases apart |
| `TaskStore.Store.ClearFinished` | internal/jobs/store.go:170-178 | deletes exactly the old final rows and counts them |
| `TaskStore.ReconcileOnce` | internal/jobs/service.go:201-220 | in whatever order the stuck rows come, the sweep fails exactly the unfinished rows not touched since the cutoff whose job is not live; the four statuses the query asks for by name are all the unfinished ones |
| `TaskStore.Deps.Begin` | internal/jobs/run.go:74-80 | marks the row running and registers the cancel function |
| `TaskStore.Deps.Conclude` | internal/jobs/run.go:87-104 | field by field: completed without error; or, on an error, cancelled if a cancel is pending, retrying with attempts left, failed otherwise, with the error text of each; the body's result if it gave one |
| `TaskProtocol.EveryRunIsSound` | internal/jobs/run.go:69-73 | in every state any interleaving reaches: a finish time if and only if the task is finished or was once taken up again after it had finished; retrying only with attempts left; attempts within the maximum |
| `TaskRows.RowTellsTheRun` | internal/jobs/store.go:37-73 | after any run a row was created when its task was enqueued, with at least one attempt; its result is that of its last terminal write that carried one; it started when a worker first marked it running |
| `TaskRows.ErrorTellsTheRun` | internal/jobs/run.go:87-102 | after any run a completed row has no error, a cancelled one the fixed text, and a failed or retrying one the message of its last terminal write, a worker's or a sweep's |
| `TaskProtocol.StepKeepsSound` | internal/jobs/run.go:74-105 | every step of every actor, worker deaths at any point included, keeps the invariant between rows and River jobs |
| `TaskProtocol.FinishedForever` | internal/jobs/run.go:69-73 | a finished row stays as it is in every continuation until it is pruned, if and only if no sweep has it listed and its job cannot come to run again: settled, or cancelled in River, or out of attempts |
| `TaskProtocol.ReopeningNeedsALateCrash` | internal/jobs/run.go:74-105 | no finished task is ever taken up again in a run that loses no worker between its terminal write and River's settling, with attempts left and no cancellation in River |
| `TaskProtocol.NeverStranded` | internal/jobs/service.go:157-159 | from every sound state every task has a run that finishes it |
| `TaskProtocol.EveryRunFinishes` | internal/jobs/service.go:157-159 | any run holds at most five worker steps for each attempt left to a task, and where it leaves none to take at an unfinished one, any sweep late enough to list the row finishes it |
| `TaskProtocol.CancelMovesExactly` | internal/jobs/store.go:81-102 | however many cancel requests come, a row is moved by the first one for it alone, and only if it is queued, running or retrying, never a finished one |
| `TaskProtocol.DeletedOnlyFinished` | internal/jobs/store.go:166-178 | over any run a task disappears if and only if a prune met it finished and older than its cutoff on the way |
| `TaskProtocol.FlagHoldsExactly` | internal/jobs/service.go:139-155 | a set flag holds in every continuation, the row never queued, running or retrying again, if and only if the job is over, or its worker is past marking the row, has not decided to retry, and cannot be replaced |
| `TaskProtocol.RequestHoldsExactly` | internal/jobs/store.go:81-102 | the request alone, whatever comes after it, holds under exactly that condition on the state it met |
| `TaskProtocol.CancelHoldsExactly` | internal/jobs/service.go:139-155 | the request with River's cancellation right after it holds if and only if no worker was about to mark the row running and none had decided to retry |
| `TaskProtocol.CancelIsHonoured` | internal/jobs/service.go:139-155 | a request that comes before the body returns sticks whenever River's cancellation comes, if it comes: unless the worker dies the task never runs, waits or retries again, and it fails only by a sweep |
| `TaskProtocol.CancelCanBeLost` | internal/jobs/service.go:142-151 | between the flag and River's cancellation a starting worker wipes the flag, and the task ends up retrying with a dead job |
| `TaskProtocol.CancelledInQueueEndsFailed` | internal/jobs/service.go:139-155 | a task cancelled while no worker has it, whose job River cancels before a worker starts, however much comes between the two, is in every continuation cancelling or failed and never cancelled |
| `TaskProtocol.SweepIsARun` | internal/jobs/service.go:201-220 | a whole sweep with nothing in between is a run that lists and then comes to each row, so what every run keeps a sweep keeps |
| `TaskProtocol.RestartAfterWriteReopens` | internal/jobs/store.go:56-62 | a run from the empty system in which a completed task is marked running again, its finish time kept, because its worker died after the terminal write |
| `TaskProtocol.StaleSweepOverwrites` | internal/jobs/service.go:201-216 | from every state with a worker at its body, a run in which a sweep lists the row, the worker completes and is settled, and the sweep then fails the completed task |
| `ToolCallStream.Chat` | internal/ai/openai.go:152-179 | decoding a whole message: thinking cut out, empty arguments and missing ids filled in by position |
| `ToolCallStream.WholeTells` | internal/ai/openai.go:152-173 | cut off if and only if it finished for length; each call's id, name and arguments, made up where missing |
| `ToolCallStream.ChatStream` | internal/ai/openai.go:296-384 | the per-chunk accumulation over map, order and builders gives `Streamed`, and hands on the text fragments in order |
| `ToolCallStream.StreamedTells` | internal/ai/openai.go:362-377 | the same of a streamed reply, each call from its index's own fragments |
| `ToolCallStream.LastGiven` | internal/ai/openai.go:326-335 | the reason to finish and the usage are the last that were given |
| `ToolCallStream.LastNamed` | internal/ai/openai.go:348-353 | an index's id and name are the last that its fragments gave |
| `ToolCallStream.ArgumentsAreConcatenated` | internal/ai/openai.go:341-355 | for any interleaving, an index's arguments are the concatenation of its own fragments |
| `ToolCallStream.OneCallPerIndex` | internal/ai/openai.go:341-347 | one call for each index that occurs, none for any other |
| `ToolCallStream.ReassemblyIsExact` | internal/ai/openai.go:362-377 | when indices first appear in order, any splitting and interleaving of calls comes back as what the whole message decodes to, ids included, up to outer white space of the arguments |
| `ToolCallStream.StreamedIsWhole` | internal/ai/openai.go:289-384 | and so does the whole response: text, thinking, truncation, usage and calls |
| `ToolCallStream.DeltasAreTheText` | internal/ai/openai.go:337-364 | the fragments handed on make up the final text if and only if they hold no thinking tag and no outer white space |
| `Thinking.Tags.CutAll` | internal/ai/http.go:179-196 | the slicing loop ends, stays in bounds and computes `Split` |
| `Thinking.Tags.Enclosed` | internal/ai/http.go:182-195 | the closing tag is never found inside the opening one, and the four slices take the text apart exactly |
| `Thinking.Tags.KeptHasNoTag` | internal/ai/http.go:179-197 | what is kept never holds an opening tag, even where splicing made a new one |
| `Thinking.Tags.ThoughtsHaveNoClose` | internal/ai/http.go:190-194 | no thought holds a closing tag |
| `Thinking.Tags.NothingIsLost` | internal/ai/http.go:180-196 | the input's letters are those of the kept text, the thoughts and the removed tags |
| `Thinking.Tags.SectionsGoBack` | internal/ai/http.go:180-196 | putting the cut sections back one by one, the last first, gives the input again: nothing that is kept is moved or changed |
| `Thinking.Tags.TagsPairUp` | internal/ai/http.go:186-195 | one pair of tags is removed for each thought, but for an unclosed last one |
| `Thinking.ThinkTagsAreSeparate` | internal/ai/http.go:182-186 | the two tags of the source meet the condition under which all of this holds |
| `Thinking.ThoughtsGoBack` | internal/ai/http.go:179-196 | any reply is its kept text with every thought put back between its literal tags |
| `Thinking.JoinTells` | internal/ai/http.go:197 | thoughts are joined by line feeds |
| `Thinking.SplitThinking` | internal/ai/http.go:179-198 | the trimmed text and the joined thoughts |
| `Thinking.TextHasNoTag` | internal/ai/http.go:197 | no slice of the text is the opening tag, for every input |
| `Thinking.SplittingIsIdempotent` | internal/ai/http.go:179-198 | splitting the text again returns it and no thought |
| `Normalize.NormalizeText` | internal/datasheets/extract.go:126-153 | the loop with its un-writing and its two flags computes the normal form |
| `Normalize.Unwritten` | internal/datasheets/extract.go:134-137 | what a newline un-writes is always a single space, never part of the text |
| `Normalize.ParseWeave` | internal/datasheets/extract.go:131-151 | gaps and runes determine a text: reading back what was woven gives the same gaps and runes |
| `Normalize.WeaveParse` | internal/datasheets/extract.go:131-151 | and weaving what was read gives the same text |
| `Normalize.NormalPreservesRunes` | internal/datasheets/extract.go:147-149 | the sequence of runes that are not space is unchanged, and every gap is replaced by its separator |
| `Normalize.VisibleIsKept` | internal/datasheets/extract.go:147-149 | without its white space a text is the same before and after |
| `Text.SpacesAreExactly` | internal/datasheets/extract.go:142 | white space is these 25 code points |
| `Normalize.SeparatorsAreExact` | internal/datasheets/extract.go:133-146 | between two runes a separator stands exactly where the input had a gap, and is a newline exactly when the gap held a line break |
| `Normalize.NormalIsIdempotent` | internal/datasheets/extract.go:123-153 | normalising twice changes nothing |
| `Normalize.NormalIsCanonical` | internal/datasheets/extract.go:123-125 | no space at either end, no two separators together, no separator but space and newline |

## Left out

- History: the log note about a trim, and Go's shared backing arrays (a trimmed history is a value here).
- AskLoop: stray-call recognition, tool-name repair, the blank test and the JSON-object test are arbitrary functions, so nothing is claimed of what they recognise; system prompts, tool definitions, request recording and logging are not modelled.
- AskLoop: error texts; each failure is a constructor of its own, and any other provider error carries an arbitrary reason.
- AskGuarantees.ConversationStaysPaired: a conversation stores the messages of successful turns only, as the handlers do; the handlers and their database are not modelled.
- StreamGuarantees.ScreenShowsTheAnswer: assumes that the replies since the last retraction are made up of their fragments, which ToolCallStream.DeltasAreTheText shows is not so for replies with thinking blocks or outer white space; what the screen then holds is in StreamGuarantees.ScreenIsHeard.
- Sexpr: `node.head`, `node.find` and the other readers of a parsed tree; the depth of Go's call stack.
- Sheets: reading and decompressing files, cleaning paths, and telling symbols from sheets in a tree; a file is a list of symbols and sheet references, or unreadable.
- Sheets: the choice of root schematics, and the exclusion rules of `componentFromSymbol` and `componentFromPCBFootprint`.
- Bom: CSV and XML bills of materials. `sort.Slice` and `sort.SliceStable` are an insertion sort; nothing is claimed of the order they give under a comparison that is not a strict weak order.
- Bom: references are compared by code point where Go compares bytes; the two orders agree on valid UTF-8.
- Panel.PanelModeIsCopies: takes the references as read from the board; the regular expression that reads them is not modelled.
- PickList: quantities are reals where the source has floats, and a product of integers does not overflow; lots themselves stand for the source's indexes into them, which PickGuarantees.NoLotTwice makes up for by distinct lot ids.
- PickList: the repositories behind boards and stock; each is an arbitrary function that may fail.
- LabelSheet: lengths are reals where the source has floats; drawing, fonts, barcodes, clipping and drawing errors are not modelled, nor is the page added before the check for media without cells.
- TaskStore: priorities, progress counters and their throttling, log lines, published events, database errors that are ignored, and the clearing of log lines with their task. `updated_at` is set by every update, as the table's trigger does.
- TaskProtocol: clocks; any time may be passed to any step. A River job goes by its task's id. The sweep's look at a job and its write are one step; its listing of the stuck rows is another, and both are as late and as far apart as may be. A new sweep may begin before the last one has come to every row.
- ToolCallStream: HTTP, server-sent events and JSON decoding; a stream is a list of decoded chunks. Pricing of usage is not modelled.
- Normalize: the buffer holds code points where the source's holds their UTF-8 bytes; the byte it drops is always the single byte of a space, so the two steps agree.
- Normalize: page extraction and the language guess.
- Thinking: joining the two sources of reasoning.
- Text: white space is the set `unicode.IsSpace` has.
- The rest of the server (routing, authentication, configuration, migrations, rendering of boards and libraries, part catalogues) would add only easy members.
