# Monetdroid, modelled and proved in Dafny

Monetdroid shows a conversation that an external `claude` process holds. It keeps several views of that
conversation: claude's transcript on disk, the live session, the render model of a page, the page's DOM, and the
queue of messages claude has not started yet. This project models the code that keeps those views consistent and
proves what it promises, over every input, every run and every interleaving.

Code that updates objects in place is modelled as classes and methods with loops. Each is proved against functions on
values, and the laws are lemmas about those functions. claude itself is an environment with stated rules: stdin and
stdout are FIFO, the transcript is append-only, a line's uuid is new, and a line never names a later line as its
parent.

| file | what it models |
|---|---|
| LineChain, Session | parent links, the walk from a leaf to the root, `AdvanceTip`, `SetTip`, `activeSet` |
| ChainReads | reading tip and links one after the other, while lines arrive |
| Prelude | options, and the sequence helpers and facts that several files share |
| Messages, SessionModel | the render model's fold over the log, and its own copy of the chain |
| Transcript, Conversation | the cold load, and the steps of a conversation: lines, side chains, rewinds and the tip's moves, respawns and cold loads |
| LiveReload | over whole runs of these, when the live view and a cold reload show the same messages |
| EditResend | finding a user message, the multi-step rewind, and what the edit leaves active |
| CommandQueue, Pipes, QueueProtocol, QueueHandlers | the session's queue against claude's own, with every lock section a step |
| BranchStack, BranchTree | upstream map to preorder with depths, then to nested markup and back |
| BashStream, Wakeup | the bounded stream buffer and its one-slot wakeup channel |
| EventLog | compaction of the event log |
| Paging | pages of the log, and where each tool result is shown |
| Agents | sub-agent bookkeeping and finalization |
| ControlRequests | matching control responses to their requests |
| Text, UnifiedDiff, DiffPrinting, HunkHighlighter | parsing diffs, printing them, and highlighting their lines by position |
| Extractor | streaming extraction of `go test -v` output |
| SseFraming | server-sent event framing against section 9.2.6 of the WHATWG HTML Standard |

## What the proofs found

- In the live view and after a cold reload the same uuids are active exactly when the session shows the transcript's
  newest message, and the steps of a run alone tell which message that is (`LiveEqualsReloadIff`). Without edits and
  lost messages it always is, however often the process dies (`PlainRunsAgree`). Otherwise there are three ways to part:
  - A queued message that starts between an edit's last rewind and the move of the tip is dropped by that move
    (`LateMessageIsDropped`). After the move session and claude are in step exactly when claude has written no message
    since the rewind and the branch point is the nearest message above the target (`SettledInStepIff`).
  - A message whose queue entry a reconcile lost still starts, but nothing links its line (`StartIsRenderedIff`). The
    reply is linked without it, and the live view shows an answer to nothing (`LostMessageIsMissing`).
  - A process that dies between an edit and the first message after it comes back on the branch the edit left, while
    the session stays on the other (`RespawnInStepIff`, `RespawnAfterEditSplits`).

  In each case the next message that the session hears of leaves it on no branch of the transcript at all, and it stays
  so until an edit or a cold load (`MessageAgreesIff`, `StrayingLasts`). An edit that no message follows before a reload
  is undone by the reload.
- A rewind to a message-bearing branch point keeps the session's branch equal to claude's exactly when it is the
  nearest message-bearing line at or above the target's parent (`EditAgreesIffNearest`).
- Every request of a deep edit names the then-latest user line exactly when claude's branch has all the requested
  messages and, from claude's position up to the target, no user line that the session does not show
  (`EveryRewindNamesTheLatestIff`). A prompt that claude writes itself is such a line: until the next cold load it
  blocks the edit of every earlier message (`PromptBlocksEveryEdit`), and a conversation of two messages, one reply and
  one prompt is enough for the session to be abandoned (`EditAfterPromptIsAbandoned`).
- A queued message that claude starts is rendered exactly when no reconcile dropped it, and only sends that overlap an
  interrupt or a death watcher can be dropped (`EveryStartIsRenderedOnce`). Every such send is lost when the reconcile
  comes before its write (`OverlappingSendIsLost`).
- After a stream buffer is closed and its signal posted, a run that has settled has finished every reader exactly when
  no more readers were waiting than there was a token for (`AllFinishIff`). With two, one waits for ever
  (`SecondReaderStarves`).
- A sub-agent is finalized exactly when, after its registration, its result comes at top level and it was not launched
  in the background, or its notification comes and it was (`FinishesIffEnded`). So a sub-agent started inside another
  one is never finalized (`NestedAgentNeverFinishes`).
- A tool result is missing from every page exactly when it carries images, its tool is one of those whose chips have no
  place for a result, and the tool use is on the same page (`EachResultIsShownOnce`).
- The launch result of a background task is shown exactly when it is on the newest page, a process has started since,
  and its chip has room (`BackgroundResultIsShownIff`). The newest page's context forgets such a launch when a process
  starts; the older pages' never does.
- A file's names come back from the git line of a diff exactly when neither has white space, since git does not quote a
  name for a space (`GitLineReads`).
- The markup of a branch list is balanced exactly when its depths start at 0 and rise by at most one per entry
  (`MarkupBalancesIffRising`).
- Compaction loses what an event shows exactly when a later event supersedes the event's key or its parent's without
  overwriting what it shows (`LostIffSuperseded`). An event that is parented to a key but writes outside that key's
  elements is lost this way (`StrayParentedEventIsLost`).
- A frame with an empty event name arrives as an event called "message" (`UnnamedFrameIsAMessage`).
- A model built from a tip read before the links is right when it is built. Of what comes later it misses exactly the
  lines that arrived between the two reads (`TornCopyMissesTheGap`).
- A message broadcast before its uuid reaches the session is active in the render model only
  (`EarlyBroadcastDisagrees`).

## Model

| member | source | states |
|---|---|---|
| Session.ActiveSet | pkg/monetdroid/session.go:971-980 | on any parent map, cyclic or dangling, the walk ends and returns exactly the non-empty uuids reachable from the leaf |
| Session.Session.InitTree | pkg/monetdroid/session.go:914-919 | the chain becomes the loaded parent map with the tip at the last line, whatever was there before |
| Session.Session.AdvanceTip | pkg/monetdroid/session.go:933-953 | the active set gains exactly the new uuid, or nothing if it is empty or linked; closed acyclic chains stay so |
| Session.Session.SetTip | pkg/monetdroid/session.go:955-962 | only the tip moves; a closed acyclic chain stays so when the branch point is linked or empty |
| LineChain.AdvanceAddsExactlyOne | pkg/monetdroid/session.go:939-953 | for every chain, advancing to an unlinked uuid adds exactly it to the active branch, even if the new link closes a cycle |
| LineChain.AdvanceKeepsWellFormed | pkg/monetdroid/session.go:939-953 | advancing keeps a chain closed and acyclic with its tip linked |
| LineChain.ActiveIffReaches | pkg/monetdroid/session.go:971-980 | membership in the finite active set is reachability over any number of links |
| LineChain.BranchIsLinear | pkg/monetdroid/session.go:971-980 | of two uuids on one branch, one is an ancestor of the other |
| LineChain.NoMutualReach | pkg/monetdroid/session.go:971-980 | on an acyclic chain two uuids that reach each other are the same |
| ChainReads.TipFirstReadIsConsistent | pkg/monetdroid/handlers.go:1706-1711 | reading tip and then links, with lines arriving and rewinds in between, gives exactly the branch active when the tip was read |
| ChainReads.LinksFirstReadLosesTheBranch | pkg/monetdroid/handlers.go:274-280 | in the other order one new line between the reads leaves only that line active |
| ChainReads.TornCopyMissesTheGap | pkg/monetdroid/handlers.go:274-288 | a model built from such a read follows every later line but never counts those that came between the reads, and nothing else differs |
| SessionModel.SessionModel.BuildModel | pkg/monetdroid/model.go:98-137 | folding a log in leaves the base chain untouched and gives the same derived state as observing the messages one by one |
| SessionModel.SessionModel.Apply | pkg/monetdroid/model.go:303-453 | a message changes indexes, results, prompts, background tasks and activity as its kind demands, and extends the chain only when live and outside sub-agents |
| SessionModel.TurnIsActiveIff | pkg/monetdroid/model.go:390-399 | for every log, a turn runs iff some running message has no done and no process start after it |
| SessionModel.ProcessIsAliveIff | pkg/monetdroid/model.go:396-404 | a process is alive iff its start, or being alive at first, has no end after it |
| SessionModel.PromptIsPendingIff | pkg/monetdroid/model.go:360-430 | a prompt is pending iff a request for it, not a question of claude's, has neither result nor process start after it |
| SessionModel.ModelTracksTask | pkg/monetdroid/model.go:372-401 | a background task is held iff its launch has no process start after it, and it is completed iff its end follows its last launch |
| SessionModel.TaskHasItsPath | pkg/monetdroid/model.go:372-378 | the output path is the one of the last launch |
| SessionModel.InterruptibleIff | pkg/monetdroid/model.go:293-299 | what can be interrupted, and so refuses an edit, in terms of the log |
| SessionModel.SessionModel.LinkLive | pkg/monetdroid/model.go:303-316 | a live main-branch message with a new uuid becomes the tip, and nothing is linked while folding |
| SessionModel.ModelAgreesWithSession | pkg/monetdroid/model.go:190-218 | over every run from a rebuild, with events waiting in the channel or dropped, rewinds and page loads, a uuid on a message the model has applied is active in the model iff in the session; for a message only in the log the exact condition is given |
| SessionModel.ChannelCarriesTheLog | pkg/monetdroid/model.go:190-218 | unless a broadcast finds the channel full, what the model has applied and what waits is the log, in order |
| SessionModel.NextKeepsInStep | pkg/monetdroid/claude.go:67-78 | the invariant: since the last rebuild the session linked a set of uuids, and the model exactly those of them that came on messages it has applied |
| SessionModel.EarlyBroadcastDisagrees | pkg/monetdroid/hub.go:729-744 | broadcasting before advancing makes the two chains differ as soon as the model applies the message, so the order of the code is needed |
| Transcript.ParseSessionMessages | pkg/monetdroid/history.go:416-550 | every line's parent is recorded, side chains and message-less lines included, and each main-branch message carries its own line's uuid |
| Transcript.LoadSessionFromDisk | pkg/monetdroid/handlers.go:106-165 | a cold load gives the whole parent map, the log, and the tip at the last message-bearing line |
| Transcript.LogHoldsMessages | pkg/monetdroid/history.go:416-550 | the loaded log has one message for each message of the main-branch lines, in order, equal to it in every field but the uuid, which is the line's |
| Transcript.ParentsHoldLinks | pkg/monetdroid/history.go:442-448 | for any lines, a uuid is linked iff it is a line's, to the parent of the last line that has it |
| Transcript.TipIsLast | pkg/monetdroid/handlers.go:118-152 | the tip is the uuid of the last loaded message that has one |
| LiveReload.RunIsTracked | pkg/monetdroid/session.go:909-980 | over every run of lines announced or not, side chains, notes, rewinds, moves of the tip, respawns and cold loads, what follows from the steps alone is right: the last message on claude's branch, the message whose branch the session shows if any, and the lines from which session and transcript differ |
| LiveReload.RunIsGoodIff | pkg/monetdroid/session.go:909-980 | after every run session and claude are on the same messages iff the session shows the last message on claude's branch |
| LiveReload.LiveEqualsReloadIff | pkg/monetdroid/handlers.go:106-165 | after every run, the same uuids of message-bearing lines are active live and after a cold reload iff the session shows the transcript's newest message |
| LiveReload.MessageAgreesIff | pkg/monetdroid/claude.go:67-78 | a message that the session hears of makes them the same iff session and claude were in step before it |
| LiveReload.PlainRunsAgree | pkg/monetdroid/session.go:925-953 | runs without edits and lost messages keep them the same, however often the process dies and comes back |
| LiveReload.RespawnInStepIff | pkg/monetdroid/hub.go:654-703 | a process started again is in step with the session iff live view and reload are the same, whatever leaf it resumes at; if the old one was in step, that is iff its branch held the newest message |
| LiveReload.RespawnAfterEditSplits | pkg/monetdroid/hub.go:654-722 | a respawn between an edit and the first message after it, and one announced message: that message is on claude's branch, and live view and reload differ |
| LiveReload.LateMessageIsDropped | pkg/monetdroid/handlers.go:1220-1244 | one announced message between the last rewind and the tip's move: it is newest and on claude's branch, and the session has dropped it |
| LiveReload.LostMessageIsMissing | pkg/monetdroid/hub.go:730-736 | one message that no queue entry announces and one reply: the reply is newest on both branches, and the message is active after a reload only |
| LiveReload.StrayingLasts | pkg/monetdroid/session.go:909-980 | a session that shows no branch of the transcript stays different from the reload, and out of step with claude, through any steps but a move of the tip or a cold load |
| Conversation.TranscriptIsAcyclic | pkg/monetdroid/history.go:442-448 | the parent map read from an append-only transcript is acyclic |
| LiveReload.SettledInStepIff | pkg/monetdroid/handlers.go:1220-1244 | after a rewind, any lines, and the tip's move, session and claude are in step iff the branch point is the nearest message above the target, session and transcript agree from it, as they do if they were in step before, and no line since the rewind bears messages |
| LiveReload.RestartKeepsGood | pkg/monetdroid/handlers.go:106-165 | a cold load followed by claude resuming on the newest message's branch puts every line in step, whatever had strayed before |
| LiveReload.NewestSeesTheBranch | pkg/monetdroid/handlers.go:106-165 | if the newest message-bearing line is on a branch, the messages of the branch are its ancestors and itself |
| EditResend.FindUserMessage | pkg/monetdroid/handlers.go:1076-1106 | finds the first active user message with the uuid, the later active user messages in order, and whether a branch point precedes it; fails iff there is none |
| EditResend.ActiveUsersOf | pkg/monetdroid/handlers.go:1076-1106 | the later messages are exactly the active main-branch user messages, in the log's order |
| EditResend.SendRewinds | pkg/monetdroid/handlers.go:1214-1224 | the requests sent are the later messages newest first and the target last, cut off at the first refusal |
| EditResend.Rewind | pkg/monetdroid/handlers.go:1159-1224 | every outcome with its exact cause, the guards in the handler's order; requests are sent only when all of them pass |
| EditResend.BeginEdit | pkg/monetdroid/handlers.go:1159-1224 | the same of the session: active set and turn state are read, and neither tip nor links change |
| EditResend.FinishEdit | pkg/monetdroid/handlers.go:1242-1260 | on the session as it is by then, the tip moves to the last reported branch point, as the step of the conversation says, and a new model has that chain and the view of the whole log |
| EditResend.RewindsAreSteps | pkg/monetdroid/handlers.go:1200-1224 | requests that claude accepts are steps of the conversation: they move claude alone, to where the plan says, and leave the last branch point to settle on |
| EditResend.EveryRewindNamesTheLatestIff | pkg/monetdroid/handlers.go:1214-1224 | whether or not session and claude are in step, all requests of a deep edit name the then-latest user line iff claude's branch has every request and no user line from claude's position up to the target that the session does not show; the last one leaves claude at the target's parent |
| EditResend.RequestNamesTheLatestIff | pkg/monetdroid/handlers.go:1214-1224 | the same of each request by itself, for claude's then position and the lines between it and the request |
| EditResend.InStepHides | pkg/monetdroid/handlers.go:1076-1106 | in step, claude's branch has every request, and the user lines not shown are those missing from the session's log |
| EditResend.EditIsDoneIff | pkg/monetdroid/handlers.go:1214-1224 | if claude refuses exactly the targets that are not the latest, an edit goes through iff both hold |
| EditResend.PromptBlocksEveryEdit | pkg/monetdroid/claude.go:281-351 | after a user line that the session does not log, a prompt of claude's own or a lost message, no earlier user message is the latest user line |
| EditResend.PlainEditIsRefused | pkg/monetdroid/history.go:454-492 | such inputs exist at every length: one prompt after any fork-free conversation leaves a single request, for the last typed message, that does not name the latest user line |
| EditResend.PlainEditIsAbandoned | pkg/monetdroid/handlers.go:1200-1224 | with a branch point before the message, the edit passes every guard, and the only outcome is that it is abandoned after that request |
| EditResend.EditAfterPromptIsAbandoned | pkg/monetdroid/handlers.go:1159-1224 | a run from an empty conversation that ends so: message, reply, message, prompt |
| EditResend.RunKeepsListed | pkg/monetdroid/history.go:454-492 | over every run, the user messages of the session's log are user lines of the transcript, in its order |
| EditResend.EditTruncatesTheBranch | pkg/monetdroid/session.go:955-962 | after the edit the active set is exactly the old branch from the branch point up; the target and all below it are gone |
| EditResend.EditAgreesIffNearest | pkg/monetdroid/handlers.go:1242-1244 | a message-bearing branch point keeps session and claude in agreement iff it is the nearest one at or above the target's parent |
| Conversation.NearestIffSame | pkg/monetdroid/handlers.go:1242-1244 | on an append-only transcript the nearest message-bearing line is the one with the same messages at or above it |
| EditResend.PlanReversesTheTail | pkg/monetdroid/handlers.go:1214-1224 | the k-th request is the k-th active user message from the end |
| EditResend.UsersFollowTheTranscript | pkg/monetdroid/handlers.go:1076-1106 | user messages of the log are in transcript order and their lines bear messages |
| CommandQueue.CommandQueue.AddQueued | pkg/monetdroid/session.go:401-406 | the entry goes to the end |
| CommandQueue.CommandQueue.PeekQueued | pkg/monetdroid/session.go:408-419 | returns the first entry with the uuid, or none, and removes nothing |
| CommandQueue.CommandQueue.TakeQueued | pkg/monetdroid/session.go:421-432 | returns and removes the first entry with the uuid, keeping the order of the others |
| CommandQueue.CommandQueue.RemoveQueued | pkg/monetdroid/session.go:434-444 | removes the first entry with the uuid, if any |
| CommandQueue.CommandQueue.ReconcileQueued | pkg/monetdroid/session.go:446-464 | keeps exactly the entries of the inventory, in order |
| CommandQueue.WithoutDropsOne | pkg/monetdroid/session.go:421-444 | with distinct uuids a removal takes out exactly that uuid and keeps the rest distinct |
| CommandQueue.StillQueuedKeepsExactly | pkg/monetdroid/session.go:446-464 | what is left of a queue after a reconcile is its intersection with the inventory |
| CommandQueue.StillQueuedKeepsOrder | pkg/monetdroid/session.go:453-464 | a reconcile leaves the very entries of the inventory, text included, in the order they had |
| CommandQueue.WithoutKeepsOrder | pkg/monetdroid/session.go:421-444 | a removal leaves all entries but the first with the uuid, in the order they had |
| QueueHandlers.HandleCommandLifecycle | pkg/monetdroid/hub.go:724-744 | a started frame renders its pending entry and links its uuid; a discarded one only removes it; both as steps of the protocol |
| QueueHandlers.BeginCancel | pkg/monetdroid/handlers.go:1017-1036 | an entry is found iff it is pending, and asking claude or finding the process dead is then a step of the protocol |
| QueueHandlers.FinishCancel | pkg/monetdroid/handlers.go:1036-1049 | on the queue as it is after the request, an entry is removed iff claude confirmed the cancel or no process is left, as a step of the protocol, and then nothing can start it any more |
| QueueHandlers.HandleStop | pkg/monetdroid/handlers.go:962-990 | the queue is reconciled only with an inventory claude sent |
| QueueHandlers.WatchProcessDeath | pkg/monetdroid/hub.go:705-722 | a dead process that was not replaced empties the queue, a replaced one leaves it alone |
| QueueProtocol.StepConserves | pkg/monetdroid/session.go:401-464 | every step keeps each queued uuid in exactly one of pending, rendered and removed, and rendered at most once |
| QueueProtocol.QueueKeepsTheOrder | pkg/monetdroid/session.go:401-464 | over every run the pending entries are some of those queued, in the order they were queued |
| QueueProtocol.RunKeepsGood | pkg/monetdroid/hub.go:624-744 | the whole invariant holds over every interleaving of sends, cancels, interrupts, frames, death and respawn |
| QueueProtocol.EveryStartIsRenderedOnce | pkg/monetdroid/hub.go:624-744 | a uuid claude started is rendered once iff no reconcile lost it, lost ones overlapped an interrupt or a watcher, confirmed cancels are never rendered; without overlap rendered iff started |
| QueueProtocol.OverlappingSendIsLost | pkg/monetdroid/session.go:446-464 | from every good state with a reconcile due, a send can be dropped, still be written, and never be rendered |
| QueueProtocol.StartIsRenderedIff | pkg/monetdroid/hub.go:730-736 | in every good state, a started message of the session's is rendered and linked iff no reconcile lost its entry, and otherwise nothing changes |
| QueueProtocol.StepKeepsCovered | pkg/monetdroid/hub.go:724-744 | what claude can still start stays pending unless lost, and what it started is rendered unless lost |
| QueueProtocol.StepKeepsFair | pkg/monetdroid/handlers.go:962-990 | every inventory on its way still lists what claude can start, apart from late sends |
| Pipes.ReadComplete | pkg/monetdroid/handlers.go:962-990 | claude reading a command keeps every inventory complete |
| BranchStack.ChildrenOf | pkg/monetdroid/git.go:603-611 | inverts the upstream map: each branch's children, each once, in ascending order |
| BranchStack.FindRoot | pkg/monetdroid/git.go:588-601 | the upward walk ends on any map and stops at the default branch, at a branch without upstream, or where a cycle closes |
| BranchStack.Walker.Walk | pkg/monetdroid/git.go:620-633 | the depth-first walk ends on any map and appends the not yet seen part of a subtree in preorder with depths |
| BranchStack.BranchStack | pkg/monetdroid/git.go:585-633 | the listing starts at the root, has no duplicates, holds exactly the branches that reach the root, the current one included, and each entry hangs from its upstream one level deeper |
| BranchStack.ListingIsUnique | pkg/monetdroid/git.go:613-633 | these properties leave no choice: two listings of the same names from the same root are equal |
| BranchStack.DepthsRiseByOne | pkg/monetdroid/git.go:613-633 | depths stay above the root's and rise by at most one per entry |
| BranchStack.EntryReachesRoot | pkg/monetdroid/git.go:613-633 | every listed branch reaches the root through its upstreams |
| BranchStack.BelowIsListed | pkg/monetdroid/git.go:613-633 | every branch that reaches the root is listed, along a path of any length |
| BranchTree.IsLastSibling | pkg/monetdroid/render.go:1194-1204 | true iff no later entry of the same depth follows before a shallower one |
| BranchTree.RenderBranchTree | pkg/monetdroid/render.go:1136-1192 | the tags written for any list of depths, rising or not |
| BranchTree.DecodeUndoesPrint | pkg/monetdroid/render.go:1136-1192 | reading the nested tags of any forest gives the forest back |
| BranchTree.MarkupDecodesToTheForest | pkg/monetdroid/render.go:1136-1204 | for every rising list the markup decodes to a forest with that preorder and those depths, and a nested node is marked last iff it is the last of its siblings |
| BranchTree.StackIsRising | pkg/monetdroid/git.go:613-633 | every listing of a branch stack meets that condition |
| BranchTree.MarkupBalancesIffRising | pkg/monetdroid/render.go:1136-1192 | the markup closes as many nodes as it opens iff the list is rising |
| BashStream.BashStreamBuffer.Append | pkg/monetdroid/session.go:598-611 | the log gains the line, at most 5000 lines are held, and start plus held length is the total, as the step of the run says |
| BashStream.BashStreamBuffer.Close | pkg/monetdroid/session.go:613-621 | the buffer is done and a token is posted; no line changes |
| BashStream.BashStreamBuffer.Read | pkg/monetdroid/session.go:623-646 | returns what the unbounded log has from the position on, with one note for what was dropped; for the reader of a run it is that run's step |
| BashStream.ReaderMissesNothing | pkg/monetdroid/handlers.go:1861-1877 | for every interleaving of appends and reads, lines and notes account for every appended line once and in order; at most 5000 lines are held, none is dropped before that, and more than half stay |
| Wakeup.SingleReaderFinishes | pkg/monetdroid/session.go:598-656 | a single waiting reader with something to see always has a token or a pending signal, and after the close it finishes within a bounded number of steps |
| Wakeup.StepKeepsWakeup | pkg/monetdroid/session.go:598-656 | no step of writer or reader loses the wakeup |
| Wakeup.AllButOneStarve | pkg/monetdroid/session.go:648-656 | after a close with its signal posted, every run keeps the number of waiting readers less the token, and its length is bounded exactly by what is left to do |
| Wakeup.AllFinishIff | pkg/monetdroid/session.go:648-656 | with any number of readers, a settled run has finished them all iff at most as many were waiting as there was a token for |
| Wakeup.SomeRunSettles | pkg/monetdroid/session.go:648-656 | from every such state some run settles |
| Wakeup.SecondReaderStarves | pkg/monetdroid/handlers.go:1861-1877 | two readers, both waiting at the close: one of them never finishes |
| EventLog.EventLog.Append | pkg/monetdroid/hub.go:62-79 | drops the key's earlier event and the events parented to it, and appends with the next number |
| EventLog.CompactedKeepsOrder | pkg/monetdroid/hub.go:62-79 | an append keeps the log whole if no event has the key, and otherwise drops exactly the key's events and those parented to it, in order |
| EventLog.AppendKeepsWellformed | pkg/monetdroid/hub.go:62-79 | at most one retained event per key, numbers strictly increasing |
| EventLog.CompactionPreservesReplay | pkg/monetdroid/hub.go:55-79 | replaying the retained log gives every element the same content as replaying everything |
| EventLog.LostIffSuperseded | pkg/monetdroid/hub.go:55-79 | in any history, an event whose content lasts is shown by a replay of the retained log iff no later event superseded its key or its parent's |
| EventLog.StrayParentedEventIsLost | pkg/monetdroid/hub.go:62-79 | in any history, an event that writes outside its parent's elements is lost by the next event of the parent's key unless something overwrites what it wrote |
| EventLog.CompactThenApply | pkg/monetdroid/hub.go:62-79 | one append: compacting before it shows the same as not compacting |
| Paging.PrecomputeRenderContext | pkg/monetdroid/hub.go:777-835 | one pass gives, for every tool id, what the recursive description of the log says |
| Paging.RenderMessages | pkg/monetdroid/hub.go:838-939 | the items of a page, message by message |
| Paging.RenderModelMessages | pkg/monetdroid/render_model.go:488-505 | the newest page and the sentinel for the next one, rendered from the model's maps |
| Paging.HandleMessagesBefore | pkg/monetdroid/handlers.go:1688-1724 | an older page and its sentinel; nothing for an index outside the log |
| Paging.PagesListTheLog | pkg/monetdroid/hub.go:838-939 | over the newest page and all older ones, items name active main-branch messages in the log's order and none twice; among them are every message that is no tool use, result or inline prompt, and every tool use but those of the three list tools |
| Paging.PrecomputedDescribes | pkg/monetdroid/hub.go:777-835 | the computed context tells of every tool id its last main use, whether its result is active, and whether it is suppressed |
| Paging.ModelDescribes | pkg/monetdroid/model.go:303-453 | the maps the model keeps incrementally say the same as that pass |
| Paging.PassIndexesTools | pkg/monetdroid/hub.go:777-835 | the indexes of that pass are the last active main use and main result of every tool id |
| SessionModel.ModelIndexesTools | pkg/monetdroid/model.go:318-372 | the model's indexes are the last main use and main result of every tool id |
| Paging.EachResultIsShownOnce | pkg/monetdroid/hub.go:777-939 | over the pages reached by following sentinels, each showable result appears exactly once, or never in one exact case |
| Paging.OlderPages | pkg/monetdroid/handlers.go:1688-1724 | from any sentinel on, the older pages show each earlier result once and end |
| Paging.HiddenResultIsNotShown | pkg/monetdroid/hub.go:838-939 | a result without images whose tool is one of the seven quiet ones is on no page |
| Paging.BackgroundResultIsShownIff | pkg/monetdroid/hub.go:777-939 | the launch result of a background task is shown once iff it is on the newest page, a process has started since and its chip has room, and otherwise never |
| Paging.ModelRemembers | pkg/monetdroid/model.go:303-453 | the model holds a background task iff its launch result is in the log with no process start after it |
| Paging.PageWithUse | pkg/monetdroid/hub.go:838-939 | a result on the page of its tool use is nested there and not shown on its own |
| Paging.PageWithoutUse | pkg/monetdroid/hub.go:838-939 | a result whose tool use is on an older page is shown on its own |
| Agents.AgentTable.StartAgent | pkg/monetdroid/session.go:789-807 | registers an agent once; a second start only fills in a missing description |
| Agents.AgentTable.FinishAgent | pkg/monetdroid/session.go:810-820 | lowers the depth once per active agent and marks its statistics completed |
| Agents.AgentTable.MarkAgentBackground | pkg/monetdroid/session.go:825-831 | marks a known agent, and no other |
| Agents.AgentTable.HandleStreamEvent | pkg/monetdroid/claude.go:80-320 | what each stream event changes and broadcasts |
| Agents.DepthCountsActiveAgents | pkg/monetdroid/session.go:789-820 | over every sequence of events the depth is the number of active agent ids |
| Agents.OneAgentAtATime | pkg/monetdroid/claude.go:287-320 | an event changes only its own agent, and finalizes it exactly in one situation |
| Agents.BroadcastsOf | pkg/monetdroid/claude.go:80-320 | everything that an event of an agent broadcasts before the agent has ended: starts, finish with task_done, or task_done alone |
| Agents.CompletedIffInactive | pkg/monetdroid/session.go:789-820 | a known agent is completed iff it is no longer active |
| Agents.FirstDescriptionStays | pkg/monetdroid/session.go:789-807 | an agent's description is the first that an event gives |
| Agents.LifeOfAnAgent | pkg/monetdroid/claude.go:80-320 | for every interleaving, the state of an agent at every point of its life |
| Agents.FinalizedExactlyOnce | pkg/monetdroid/claude.go:102-134 | exactly one finish is broadcast: at the result for foreground agents, at the notification for background ones |
| Agents.FinishesIffEnded | pkg/monetdroid/claude.go:80-320 | over every stream of events, an agent finishes iff its top-level result comes after a registration and without an earlier background launch, or its notification comes after a background launch |
| Agents.NestedAgentNeverFinishes | pkg/monetdroid/claude.go:142-169 | an agent without a tool use or result at top level is never finished and stays active |
| ControlRequests.ClaudeProcess.Register | pkg/claude/process.go:513-519 | a new id, larger than any before, becomes pending, as the protocol's step says |
| ControlRequests.ClaudeProcess.Take | pkg/claude/process.go:442-455 | a response takes its own request out of the pending map, and is dropped if there is none, as the protocol's step says |
| ControlRequests.ClaudeProcess.CleanUp | pkg/claude/process.go:540-550 | giving up after a timeout or the process's death removes exactly that request; a failed write removes none |
| ControlRequests.ResponsesReachTheirRequest | pkg/claude/process.go:442-551 | over all interleavings ids never repeat, each waiter gets only its own response, each channel at most one value so delivery never blocks, and late responses change nothing |
| ControlRequests.PayloadIsKept | pkg/claude/process.go:442-455 | what a requester gets is a response that the scanner read, payload and all |
| ControlRequests.CleanedUpStaysSilent | pkg/claude/process.go:540-550 | after cleanup nothing is ever posted for that id again |
| ControlRequests.RunKeepsGood | pkg/claude/process.go:442-551 | the invariant over every run of requesters, scanner, timeouts and death |
| UnifiedDiff.ParseUnifiedDiff | pkg/monetdroid/diffparse.go:46-72 | the files of any text, as the recursive reading of its lines gives them |
| UnifiedDiff.SplitIntoFileSections | pkg/monetdroid/diffparse.go:74-94 | groups of lines, each but perhaps the first starting at a git line |
| UnifiedDiff.ParseFileSection | pkg/monetdroid/diffparse.go:96-176 | names, binary marker and hunks of one section; none if it has no hunk and is not binary |
| UnifiedDiff.ParseHunk | pkg/monetdroid/diffparse.go:178-261 | one hunk and the number of lines it takes, or one line skipped when the header cannot be read |
| DiffPrinting.ParseUndoesPrint | pkg/monetdroid/diffparse.go:46-261 | for every list of text and binary files with white-space-free names, with extended headers of all kinds and no-newline markers, parsing the printed diff returns the files |
| DiffPrinting.SkippedIffExtended | pkg/monetdroid/diffparse.go:116-135 | the header lines skipped are exactly those of git's ten kinds |
| DiffPrinting.BareLineJoins | pkg/monetdroid/diffparse.go:240-252 | a body line without a mark, an empty one too, is a context line as it stands |
| DiffPrinting.PlainFileReads | pkg/monetdroid/diffparse.go:143-176 | a diff of one file without a git line gives the file, with its names from the lines before the hunks |
| DiffPrinting.EmptySectionIsDropped | pkg/monetdroid/diffparse.go:172-176 | a section that is not binary and has no hunk gives no file |
| DiffPrinting.ParsedIsSound | pkg/monetdroid/diffparse.go:199-258 | in any text's parse, every line number is the hunk's start plus the lines before it on that side, and no content holds a newline |
| DiffPrinting.PrintedHeaderReads | pkg/monetdroid/diffparse.go:44-44 | every printed hunk header reads back as its four numbers, with counts of 1 left out or not |
| DiffPrinting.HeaderIsShaped | pkg/monetdroid/diffparse.go:44-44 | no line of another shape is read as a header |
| DiffPrinting.NumbersAreCut | pkg/monetdroid/diffparse.go:189-199 | a number is read as it is up to the largest 64-bit integer, and any larger one as that |
| DiffPrinting.GitLineReads | pkg/monetdroid/diffparse.go:104-112 | the two names come back from the git line iff neither has white space |
| HunkHighlighter.Gather | pkg/monetdroid/diffrender.go:301-342 | the two texts hold each side's lines in order, and each line's references are its counts on each side |
| HunkHighlighter.Highlighter.Highlight | pkg/monetdroid/diffrender.go:347-369 | each call uses the next reference and falls back to the escaped content out of range |
| HunkHighlighter.RenderFile | pkg/monetdroid/diffrender.go:235-281 | calling in order gives every line the entry found by counting, with the right line numbers in the gutters |
| HunkHighlighter.RowAt | pkg/monetdroid/diffrender.go:238-281 | under each hunk's header its lines follow in order, each with its own entry |
| HunkHighlighter.GuttersNumberTheLines | pkg/monetdroid/diffrender.go:242-257 | which gutters a line fills, and with which numbers, in a file parsed from any text |
| HunkHighlighter.LooksUpItself | pkg/monetdroid/diffrender.go:301-342 | the place a line is looked up at holds that line's own content |
| HunkHighlighter.EveryLineShowsItsOwnEntry | pkg/monetdroid/diffrender.go:298-370 | in a file parsed from any text each line shows the highlighter's entry for itself and never the fallback |
| HunkHighlighter.MissingEntryIsEscaped | pkg/monetdroid/diffrender.go:347-369 | a line without an entry is shown escaped |
| Extractor.GoTestExtractor.Ingest | pkg/monetdroid/extractor.go:75-93 | after a chunk the state is that of all text received, however it was cut |
| Extractor.GoTestExtractor.Process | pkg/monetdroid/extractor.go:95-120 | which of the line patterns applies first, and what it records |
| Extractor.TestLineReads | pkg/monetdroid/extractor.go:104-111 | a finished test at any depth is recorded with its status, name and duration, whatever the name |
| Extractor.TestLineIsShaped | pkg/monetdroid/extractor.go:44-47 | no line of another shape is read as a finished test |
| Extractor.PkgLineReads | pkg/monetdroid/extractor.go:112-119 | a package line is recorded with its name and the status of its first word |
| Extractor.PkgLineIsShaped | pkg/monetdroid/extractor.go:48-49 | no line of another shape is read as a package's |
| Extractor.RunAndPauseRead | pkg/monetdroid/extractor.go:96-103 | a starting test is counted, and a paused one is noted |
| Extractor.OnePattern | pkg/monetdroid/extractor.go:38-49 | no line matches two of the patterns |
| Extractor.IngestExtends | pkg/monetdroid/extractor.go:75-93 | the pending text and the chunk give the same lines as the whole text |
| Extractor.IngestAll | pkg/monetdroid/extractor.go:75-93 | any list of chunks, empty ones and cut lines included, leaves the state of their concatenation |
| SseFraming.Sse | pkg/monetdroid/render/render.go:28-44 | the frame written for any event name and data |
| SseFraming.FrameDecodes | pkg/monetdroid/render/render.go:28-44 | a parser that meets a frame dispatches exactly that event and is ready for the next |
| SseFraming.FramingRoundTrips | pkg/monetdroid/render/render.go:28-44 | decoding any concatenation of frames gives back the names and the data without carriage returns |
| SseFraming.UnnamedFrameIsAMessage | pkg/monetdroid/render/render.go:28-44 | with an empty name the event arrives as "message" |

## Left out

- HTTP handlers' request parsing, redirects, uploads, flushing and heartbeats: plumbing without state of its own.
- HTML strings, markdown, syntax highlighting, chips and forms: pages are items, tags and message positions.
- JSON decoding of stdout and transcripts, process start and kill, directories and environment variables: the model
  starts from decoded events.
- Git commands: the upstream map is an input, and status, archive and prune of branches are not modelled.
- Real time: a timeout is a step that can come at any moment.
- pkg/kb, pkg/kbcli, pkg/kbmcp, pkg/kbadmin, pkg/sandbox, pkg/bashstreamer, the label, tracker and review stores, todo
  and cost accumulation: only easy members.
- The snapshot a page takes when it connects: no exactly-once claim holds there.
- The order of steps in `rebaseWorkstream`.
- EventLog.EventLog.Append: events are ids with a key and a parent; deriving the key from markup is not modelled.
- EventLog.CompactionPreservesReplay: assumes that a keyed event writes only in its key's element and a parented event
  only in its parent's, which the markup decides.
- EditResend.BeginEdit: reading log, tip and parents is one step. The cancellations between the last rewind and the
  tip's move are cancel steps of the queue protocol, and the resend is an ordinary send.
- EditResend.EditIsDoneIff: which targets claude refuses is assumed, not modelled.
- EditResend.RunKeepsListed: assumes that a transcript line yields at most one user message, and a live line at most as
  many as its transcript line.
- QueueProtocol.RunKeepsGood: claude's queue is a set, since nothing proved depends on the order in which claude starts
  messages.
- QueueHandlers.HandleCommandLifecycle: tracks one session; unknown uuids are claude's internal commands.
- LiveReload.RunIsTracked: assumes that claude hangs a main-branch line below its position and writes every line it
  announces, that a reported branch point bears messages and is above the target, and that claude resumes on the branch
  of the transcript's newest message. Claude writing a line and the scanner handling it are one step, which replies and
  frames arriving in order allow.
- LiveReload.LiveEqualsReloadIff: compares which uuids are active. That the texts shown for them are the same is not
  claimed: some tool uses are broadcast with less than the transcript holds, or not at all.
- SessionModel.ModelAgreesWithSession: a rebuild is one step; `TornCopyMissesTheGap` says what a read in two steps
  changes.
- SessionModel.SessionModel.Apply: todos, costs, diff statistics and labels are not part of the derived state.
- Paging.PrecomputeRenderContext: pending permissions, the states of background tasks and sub-agent sections are left
  out.
- Paging.RenderMessages: sub-agent sections, permission slots and background slots of the items are left out.
- Paging.EachResultIsShownOnce: the log and the active set are fixed while pages are fetched, tool ids are unique, and a
  result is active iff its use is.
- Wakeup.SingleReaderFinishes: no line is appended after the close, and the buffer is closed once.
- BashStream.BashStreamBuffer.Append: sequence numbers are unbounded.
- UnifiedDiff.ParseHunk: line counters are unbounded; numbers in headers are cut at the largest 64-bit integer as
  `strconv.Atoi` does.
- DiffPrinting.ParseUndoesPrint: printed bodies mark every context line with a space, and names in quotes are not
  printed.
- HunkHighlighter.EveryLineShowsItsOwnEntry: the lexer is a function that gives at least one entry per line.
- Extractor.GoTestExtractor.Ingest: the summary and the copy of the raw output are not modelled.
- SseFraming.FramingRoundTrips: a byte order mark and the id and retry fields of the decoder are not modelled.
- ControlRequests.ClaudeProcess.Register: ids are numbers, where the source writes them as text with a prefix.
- Agents.AgentTable.HandleStreamEvent: token and tool statistics of agents are not modelled.
