# Verified model of the OVS agent

The repository configures a gateway's virtual switch through a database. Components
(the clients) insert `Gateway_Config` rows into an OVSDB server; the agent sees each new
row through a monitor, applies it to the switch and inserts a `Feedback` row that names
it; the client that asked recognises its row, completes its transaction and deletes both
rows. This project models that system in Dafny and proves what it guarantees, when it
does, and where it does not.

## How it is built

| files | what they hold |
|---|---|
| `OvsTypes`, `Codec`, `Messages` | records and limits; rows and results as JSON trees; the messages that are built, what a server reads in them, and the socket they are written to |
| `TransactionTable`, `Ownership`, `TransactionManager` | the direct-mapped slot table and the map it stands for; the ledger of configurations; the class that works in place |
| `Nodes`, `ReceiptList`, `MonitorList` | the two linked lists as classes, with re-entrant receipt callbacks |
| `RequestIds`, `Waiting`, `Framing`, `Updates` | ids and their text, the timed wait, cutting the byte stream, handing rows to callbacks |
| `Connection`, `Peers`, `Protocol` | one connection; what a message or call does to a client or the agent; the whole system as a transition system |
| `ProtocolInvariant`, `ProtocolTheorems`, `ProtocolOrder`, `ProtocolProgress` | the invariant over all interleavings, what follows for every run, the order of the agent's actions, and what is not lost on the way |
| `CompleteRun` | a run in which a request goes all the way to its callback and the deletion of its rows |
| `Misattribution`, `LostTransaction` | runs in which two ids share a slot: a caller is told another request's result, and a caller is never told |
| `BlockedCall`, `BlockedOutcome` | a blocking caller against its listener thread, and which result it gets |
| `Rendering`, `Notifications`, `ServerReading` | how the protocol's ids, receipts, replies and updates appear in the C structures and on the wire, and what a server does with what is written |
| `Component`, `AgentProcess` | the client and agent processes, composed of the classes above, each method proved to take the protocol's step |
| `Switch`, `SwitchSpec`, `SwitchAgent`, `SwitchTheorems`, `SwitchStates`, `SwitchFlows`, `SwitchIdempotence`, `SwitchExamples` | the switch and its commands, what each request leaves behind, the agent's actions command by command; memberships, interface states and devices, flows and statuses, idempotence, and a concrete case of each exception |
| `Service` | the protocol and the switch together |

The layers are tied together by proof. The data structures are classes whose methods are
proved against functions on values. The processes composed of them take JSON messages as
the listener receives them, hand replies to receipts and update rows to callbacks through
those classes, and write JSON messages; they are proved to take the steps of the protocol
(`Component.Api`, `AgentProcess.Process`), and a server that executes what they write does
to its tables what the protocol says (`ServerReading`). The byte stream is cut into the messages of
a channel by `Notifications.ChannelIsDispatched`. The protocol's invariant gives the
theorems over every run, and `Service` adds what the runs do to the switch. Clients,
requests, collisions, failed writes and interleavings are unbounded, and the server may
serve pending requests in any order, refuse them, or fail to commit them.

`dafny verify dfyconfig.toml` verifies everything. The database follows RFC 7047:
transact in section 4.1.3, monitor in 4.1.5, update notifications in 4.1.6, insert in
5.2.1 and delete in 5.2.5.

## Findings

- The slot of a request id (id modulo 5) is updated and deleted without a look at the
  id it holds. A step breaks the attribution of results to requests exactly when an
  insert reply meets a slot held by another transaction (`StepAttributesIff`); the
  table refines a map exactly while that does not happen (`StepRefinesIff`). Five
  consecutive ids are safe unless the 32-bit counter wraps among them
  (`ConsecutiveIdsDistinctIff`). `SecondCallerIsToldTheFirstResult` is a run of the whole
  system in which it goes wrong.
- A failed write empties the slot of its id even if the request was not tracked
  (`Component.Api.AfterWrite`). That is harmless exactly when the slot is free
  (`UntrackedFailureIsHarmlessIff`); `TrackedRequestIsLost` is a run in which request 6,
  untracked, takes the transaction of request 1 with it, and its caller is never told
  (`LostIsNeverTold`).
- An operation that succeeds in a transaction whose commit fails is taken for a success,
  because only the first element of the result is looked at
  (`FailedCommitReadsAsSuccess`). The transaction then carries the uuid of a row that no
  action and no answer will ever concern (`AbortedNeverCompletes`).
- Completing the empty uuid completes a transaction that still waits for its uuid
  (`EmptyUuidCompletesIff`).
- `mon_list_remove` removes the head or nothing (`HistoryIsAQueue`, `RemovalWorksIff`).
- The completion signal is not tied to a request: a call made while an earlier
  transaction is being cleaned up can return true although its own never completed
  (`EarlierCleanupMisleads`, and `BlockedCallMisleads` as a run from the start). Nor is
  the flag: another request with a callback, or one whose write fails, clears it under a
  waiting call (`OtherRequestMisleads`, `FailedPostMisleads`). A call whose transaction
  completes before it begins to wait returns false (`ReturnsTrueIff`). Calls made while no transaction is live or being cleaned up,
  with no other request meanwhile, return the right result (`BlockedResult`).
- Bringing a port up twice is not the same as once when the request creates the
  backhaul bridge while the backhaul interface waits for it (`UpIsIdempotent`; a concrete
  case is `SecondRunAttachesBackhaul`).
- On the models with Wifi flows a bridge request without a parent bridge reports
  failure although the bridge is created (`BridgeCreationStatus`,
  `BridgeIsThereThoughFailed`), and a failure to set up the admin GUI flows is not
  reported (`AdminGuiFailureIsMasked`, `GuiFlowIsMissingThoughDone`).
- A VLAN request whose new device takes the name of its parent bridge cannot join that
  bridge (`UpJoinsParent`, with `Joins`).

## Model

| member | source | states |
|---|---|---|
| `Service.RequestReachesTheSwitch` | `source/OvsAgentCore/OvsAgent.c:29-71` | Capstone, over every interleaved run: a completed request was applied once to the switch, at its place in the order of actions, and its caller got that application's result, as long as no insert reply was delivered into a slot held by another transaction; the configuration applied is the one requested if and only if it fits the C structure. Queries may be answered differently for each action |
| `Service.SwitchIsItsHistory` | `source/OvsAgentCore/OvsAgent.c:50-50` | At any time the switch is the initial one with the configurations of distinct committed rows applied, in the order the agent took them, each in the environment found then, and is consistent |
| `ProtocolOrder.ActionsInRequestOrder` | `source/OvsAgentCore/OvsAgent.c:29-71` | The agent acts on one client's rows in the order of that client's requests, over every run in which the server serves that client in order, whatever it does with the others |
| `ProtocolTheorems.EndToEnd` | `source/OvsAgentApi/OvsAgentApi.c:104-161` | With no such delivery in the run, every completed transaction was answered for its own request's row, the agent acted on the encoding of exactly its configuration, and the status is that action's result; the configuration acted on is the one requested if and only if it fits the C structure |
| `ProtocolProgress.NothingWaitsAtRest` | `source/OvsAgentApi/OvsAgentApi.c:104-220` | Once a client watches and the agent monitors, and while what the agent writes is committed: whenever the channels to and from the agent and to the client are empty, no transaction of that client is left with the uuid of a row committed since, over every run, collisions and failed writes of clients included |
| `ProtocolProgress.NotificationsAreHandled` | `source/OvsAgentApi/OvsAgentApi.c:163-220` | In every reachable state every notification in a channel is for a registered monitor, the agent acts on every row it is told of, and a client counts as watching if and only if the server knows its monitor or is being asked for it |
| `CompleteRun.RequestGoesAllTheWay` | `source/OvsAgentApi/OvsAgentApi.c:104-161` | For every configuration and result, a run from the start to the callback with that result, both rows deleted and the table empty |
| `ProtocolTheorems.StepAttributesIff` | `source/OvsAgentApi/transaction_manager.c:238-246` | A step breaks the attribution of uuids to requests if and only if it delivers an insert reply whose slot another transaction holds |
| `ProtocolTheorems.RunAttributed` | `source/OvsAgentApi/transaction_manager.c:380-420` | Attribution holds after every run none of whose steps is such a delivery, even if a reply waited while its slot was held by another transaction |
| `ProtocolTheorems.UnsharedNeverMisdirects` | `source/OvsAgentApi/transaction_manager.c:58-61` | If no tracked id that a reply may still come for shares its slot with a live transaction of another id, the next delivery misdirects nothing |
| `ProtocolTheorems.UnsharedRunAttributed` | `source/OvsAgentApi/transaction_manager.c:238-459` | Attribution holds over every run in which such ids never share a slot; requests whose write failed do not count |
| `ProtocolTheorems.WindowUnshared` | `source/OvsAgentApi/transaction_manager.c:58-61` | That is so while all these and all live ids lie in a window of five |
| `Misattribution.MisdirectionIsReached` | `source/OvsAgentApi/transaction_manager.c:238-246` | A run from the start, attributed throughout, in which the next delivery breaks attribution: request 6 holds the slot in which the reply to request 1 looks for request 1 |
| `Misattribution.SecondCallerIsToldTheFirstResult` | `source/OvsAgentApi/transaction_manager.c:380-459` | That run to its end: request 6's callback gets its own configuration with the result of the action on request 1's row |
| `LostTransaction.UntrackedFailureIsHarmlessIff` | `source/OvsAgentApi/OvsAgentApi.c:446-477` | An untracked request whose write fails leaves the table alone if and only if the slot of its id is free |
| `LostTransaction.TrackedRequestIsLost` | `source/OvsAgentApi/OvsAgentApi.c:446-477` | A run from the start in which such a request, number 6, removes the waiting transaction of request 1, whose insert is still on its way |
| `LostTransaction.LostIsNeverTold` | `source/OvsAgentApi/transaction_manager.c:276-289` | Over every continuation of every run, a request without a transaction gets none back and its caller is not told |
| `ProtocolTheorems.StatusIsAnActionResult` | `source/OvsAgentApi/OvsAgentApi.c:130-136` | Even with collisions a completion reports the result of an action on a row of the same client, with the configuration of a request of that client |
| `ProtocolTheorems.CausalOrder` | `source/OvsAgentApi/OvsAgentApi.c:195-220` | In every reachable state a Feedback update for a client's own row stands behind that row's insert reply, or the reply was taken already |
| `ProtocolTheorems.AtMostOnce` | `source/OvsAgentCore/OvsAgent.c:29-71` | Each row is acted on and answered at most once and completes at most one transaction, each transaction completes at most once, and only committed rows are acted on, only acted rows answered, only answered rows complete |
| `ProtocolTheorems.AbortedNeverCompletes` | `source/OvsDbApi/json_parser/receipt_parser.c:51-98` | The uuid of an insert whose commit failed, though a transaction takes it, is never acted on, answered, completed with or deleted |
| `ProtocolTheorems.DeletionsAreInert` | `source/OvsDbApi/ovsdb_parser.c:375-406` | In the protocol, updates announcing deleted rows change no table, send nothing and trigger no action; that the code makes that of them is `Notifications.UpdateInvokes` |
| `ProtocolTheorems.ClientIsolation` | `source/OvsAgentApi/OvsAgentApi.c:130-152` | A client asks only for deletion of rows its own insert replies named, after they were answered, after one of its transactions completed with that uuid and while none carries it, collisions or not |
| `ProtocolTheorems.RunFollows` | `source/OvsAgentApi/OvsAgentApi.c:130-158` | In every reachable state each cleanup under way and each deletion requested follows a completion of the same client with the same uuid |
| `ProtocolTheorems.DeletesOnTheWire` | `source/OvsDbApi/OvsDbApi.c:327-376` | Every delete request in flight is for a row of the client that sent it |
| `ProtocolTheorems.RowsStayUntilOwnerDeletes` | `source/OvsAgentApi/OvsAgentApi.c:141-148` | A row that was committed disappears only if the client that requested it asked for that |
| `ProtocolTheorems.OnlyOwnerCompletes` | `source/OvsAgentApi/transaction_manager.c:215-235` | Although all watching clients see every Feedback row, only the owner of the answered row completes a transaction with it |
| `ProtocolTheorems.ReplyCoverage` | `source/OvsDbApi/OvsDbApi.c:190-205` | In whatever order requests are answered, at any time every request and reply in flight has exactly one receipt, of its kind, and the remaining receipts are those of failed writes or unparsable results |
| `ProtocolTheorems.RunEncodes` | `source/OvsDbApi/json_parser/gateway_config.c:26-123` | The row of every request on record is the encoding of its configuration |
| `ProtocolInvariant.RunInv` | `source/OvsAgentApi/OvsAgentApi.c:104-220` | The invariant that ties channels, rows, receipts and transactions together holds in every reachable state, for any number of clients |
| `ProtocolInvariant.StepKeeps` | `source/OvsAgentApi/OvsAgentApi.c:104-220` | Each of the seven kinds of steps keeps the invariant |
| `ProtocolInvariant.SubmitKeepsParts` | `source/OvsAgentApi/OvsAgentApi.c:411-482` | A request keeps the client's part of it, whether or not it is tracked or sent |
| `ProtocolInvariant.ReplyKeepsClient` | `source/OvsDbApi/receipt_list.c:78-145` | Dispatching a reply keeps it, including a callback that registers a monitor |
| `ProtocolInvariant.UpdateKeepsClient` | `source/OvsAgentApi/OvsAgentApi.c:104-161` | A Feedback update keeps it, including the completion it may cause |
| `ProtocolInvariant.CleanupKeepsClient` | `source/OvsAgentApi/OvsAgentApi.c:141-158` | The two deletions keep it, whichever of them can be sent |
| `ProtocolInvariant.AgentKeepsCore` | `source/OvsAgentCore/OvsAgent.c:29-71` | The agent's step keeps its part: one action and one answer for each row |
| `ProtocolInvariant.ServeClientKeeps` | `source/OvsDbApi/OvsDbApi.c:169-376` | Serving a client's request (RFC 7047, sections 4.1.3, 4.1.5, 4.1.6, 5.2.1 and 5.2.5), whichever is pending, keeps it, committed, refused or failed at commit, with replies and notifications in either order |
| `Connection.RegisterKeeps` | `source/OvsDbApi/OvsDbApi.c:190-205` | Registering a receipt before the write keeps every request, reply and receipt matched |
| `Connection.SettleKeeps` | `source/OvsDbApi/receipt_list.c:98-136` | Removing the receipt of a reply just taken keeps the matching |
| `Connection.PopKeeps` | `source/OvsDbApi/receipt_list.c:78-97` | A reply just taken has a receipt of a kind it answers |
| `Component.Api.InsertRequest` | `source/OvsAgentApi/OvsAgentApi.c:411-482` | The process composed of table, lists, counter, flag and socket takes exactly the protocol's request step, up to the wait |
| `Component.Api.AfterWrite` | `source/OvsAgentApi/OvsAgentApi.c:446-477` | A failed write clears the flag and empties the slot of the id, whoever holds it |
| `Component.Api.TakeReply` | `source/OvsAgentApi/OvsAgentApi.c:195-220` | A reply's id and result, dispatched through the linked list with the write callback registering a monitor meanwhile, do the protocol's reply step |
| `Component.Api.TakeUpdate` | `source/OvsAgentApi/OvsAgentApi.c:104-136` | An update's parameters, new rows or announced deletions, do the protocol's update step, and the user's callback runs with the completed transaction's id, status and configuration |
| `Component.Api.TakeMessage` | `source/OvsDbApi/ovsdb_parser.c:233-342` | Any message of the channel, as JSON, does the protocol's delivery step; a Feedback row runs the callback of the transaction it completes with its own status and nothing else runs one; what is written is what the protocol's client sends; the initial rows of a monitor reply and an error behind a result are ignored |
| `Component.CallbacksAreCalls` | `source/OvsAgentApi/transaction_manager.c:422-459` | The callbacks run are those of the calls the protocol records, with the same id, status and configuration |
| `Component.Api.AwaitCompletion` | `source/OvsAgentApi/OvsAgentApi.c:463-482` | A blocking call returns true if and only if its wait succeeded, and else deletes its transaction |
| `Component.Api.DeleteRows` | `source/OvsAgentApi/OvsAgentApi.c:141-160` | The rest of the callback is the protocol's cleanup step; a blocked caller is woken only if both deletes were sent |
| `Component.Api.GiveUp` | `source/OvsAgentApi/OvsAgentApi.c:468-477` | Deleting the transaction after a failed wait is the protocol's give-up step |
| `Component.Api.constructor` | `source/OvsAgentApi/OvsAgentApi.c:231-313` | A fresh process shows the protocol's initial client |
| `AgentProcess.Process.TakeUpdate` | `source/OvsAgentCore/OvsAgent.c:29-71` | From an update's parameters: the agent runs the switch action on a new row and sends a Feedback row naming it, the protocol's step with the action's own result; announced deletions do nothing |
| `AgentProcess.Process.TakeReply` | `source/OvsDbApi/receipt_list.c:78-145` | Replies to the agent, whatever rows or errors they carry besides, only remove their receipts |
| `AgentProcess.Process.TakeMessage` | `source/OvsDbApi/ovsdb_parser.c:233-342` | Any message of the agent's channel, as JSON, does the protocol's step, with the same ignored: a new row runs the switch action and its result is written as a Feedback row for it, and nothing else changes the switch or is written |
| `Notifications.UpdateInvokes` | `source/OvsDbApi/ovsdb_parser.c:297-412` | The parser hands the one new row of an update to the callback of a registered monitor, and none for announced deletions |
| `Notifications.AnswerReadsBack` | `source/OvsAgentCore/OvsAgent.c:52-55` | The Feedback callback reads the uuid and the status the agent reported |
| `Notifications.ClassifyWire` | `source/OvsDbApi/ovsdb_parser.c:250-290` | A reply or update on the wire, with whatever rows it carries, is dispatched as what it is |
| `Notifications.ChannelIsDispatched` | `source/OvsDbApi/ovsdb_parser.c:233-295` | A channel's messages, printed back to back so that the loader reads each of them back, are dispatched one by one, in order, as what they are |
| `Rendering.FindRendered` | `source/OvsDbApi/receipt_list.c:98-120` | Looking up an id by its text in the stored list finds what looking up the id finds |
| `Rendering.DispatchAgrees` | `source/OvsDbApi/receipt_list.c:98-136` | The list dispatches a reply, whatever it carries besides, to the receipt and with the parse that the protocol says |
| `Rendering.AfterReplyRendered` | `source/OvsDbApi/receipt_list.c:98-136` | What the list holds after a dispatch renders the protocol's receipts after it |
| `TransactionTable.StepRefinesIff` | `source/OvsAgentApi/transaction_manager.c:238-321` | An operation does what it would do on a map from ids to transactions if and only if the slot of its id is free or its own |
| `TransactionTable.RunRefines` | `source/OvsAgentApi/transaction_manager.c:238-459` | Any run of insert, update, delete and complete refines the map while the ids in use are injective modulo five |
| `TransactionTable.WindowInjective` | `source/OvsAgentApi/transaction_manager.c:58-61` | Any five ids in a window satisfy that |
| `TransactionTable.CollidingIdsMisattribute` | `source/OvsAgentApi/transaction_manager.c:238-274` | Ids 1 and 6 in flight together: completing the first row hands out the second configuration |
| `TransactionTable.EmptyUuidCompletesIff` | `source/OvsAgentApi/transaction_manager.c:215-235` | The empty uuid completes something if and only if a transaction still waits for its uuid |
| `RequestIds.ConsecutiveIdsDistinctIff` | `source/OvsDbApi/OvsDbApi.c:378-381` | w consecutive ids have distinct slots if and only if w is at most five and the 32-bit counter does not wrap among them |
| `RequestIds.NthIdIsIterated` | `source/OvsDbApi/OvsDbApi.c:378-381` | The j-th id after n is what generating j times yields |
| `RequestIds.AtoiDecimal` | `source/OvsAgentApi/transaction_manager.c:58-61` | The decimal text of an id reads back as the id |
| `RequestIds.DecimalFits` | `source/OvsAgentApi/OvsAgentApi.c:424-428` | The text of a 32-bit id has at most ten digits, so no id buffer or key buffer cuts it |
| `Ownership.PerformConserves` | `source/OvsAgentApi/transaction_manager.c:293-321` | One operation, with any callback re-entering the manager, conserves every configuration: accepted = in slots + being completed + freed |
| `Ownership.PerformAllConserves` | `source/OvsAgentApi/transaction_manager.c:422-459` | So does any sequence, with evictions and misdirected deletions |
| `Ownership.FreedOnce` | `source/OvsAgentApi/transaction_manager.c:106-125` | With fresh configurations none is freed twice or while it sits in a slot |
| `Ownership.CallbackKeepsItsConfig` | `source/OvsAgentApi/transaction_manager.c:293-321` | After any operations, the configuration a callback is given is neither freed nor in a slot at any time while the callback runs, whatever it does, and is freed when it has returned |
| `Ownership.DeinitFreesAll` | `source/OvsAgentApi/transaction_manager.c:153-190` | After deinitialisation every configuration was freed exactly as often as accepted |
| `Ownership.PerformStepsTable` | `source/OvsAgentApi/transaction_manager.c:422-459` | The ledger's table takes exactly the steps whose refinement of a map is proved |
| `TransactionManager.Manager.Init` | `source/OvsAgentApi/transaction_manager.c:127-151` | An initialised table is left alone, otherwise all slots are empty |
| `TransactionManager.Manager.Deinit` | `source/OvsAgentApi/transaction_manager.c:153-190` | Every slot is destroyed, in order |
| `TransactionManager.Manager.FindTransactionKey` | `source/OvsAgentApi/transaction_manager.c:215-235` | The scan finds the first slot with the uuid, if any |
| `TransactionManager.Manager.InsertTransaction` | `source/OvsAgentApi/transaction_manager.c:349-378` | In place, the ledger's insert: whatever held the slot is evicted and freed |
| `TransactionManager.Manager.UpdateTransaction` | `source/OvsAgentApi/transaction_manager.c:380-420` | In place, the ledger's update: the uuid goes to whatever the slot holds |
| `TransactionManager.Manager.DeleteTransaction` | `source/OvsAgentApi/transaction_manager.c:276-289` | In place, the ledger's delete |
| `TransactionManager.Manager.CompleteTransaction` | `source/OvsAgentApi/transaction_manager.c:422-459` | The transaction leaves the table before its callback runs and is freed after; the callback may call back in to any depth |
| `ReceiptList.Receipts.Add` | `source/OvsDbApi/receipt_list.c:38-76` | The entry is linked at the end, its id cut to the key buffer |
| `ReceiptList.Receipts.Process` | `source/OvsDbApi/receipt_list.c:78-145` | Exactly the first entry with the id is removed, after its callback returned; the rest keeps its order and everything the callback registered stays; without a match or a parse the list is unchanged |
| `ReceiptList.Receipts.Clear` | `source/OvsDbApi/receipt_list.c:147-165` | The list is empty afterwards |
| `ReceiptList.FoundAgainIff` | `source/OvsDbApi/receipt_list.c:38-76` | An entry is found under the id it was added with if and only if the id fits the buffer |
| `MonitorList.Monitors.Add` | `source/OvsDbApi/mon_update_list.c:37-67` | The registration is linked at the end |
| `MonitorList.Monitors.Process` | `source/OvsDbApi/mon_update_list.c:69-87` | The earliest registration with the uuid is invoked; the list does not change |
| `MonitorList.Monitors.Remove` | `source/OvsDbApi/mon_update_list.c:89-127` | The head is removed if it matches; nothing else ever is |
| `MonitorList.HistoryIsAQueue` | `source/OvsDbApi/mon_update_list.c:37-146` | After any history the list is the registrations since the last clear without as many of the oldest as removals succeeded |
| `MonitorList.RemovalWorksIff` | `source/OvsDbApi/mon_update_list.c:89-127` | A removal leaves its uuid unregistered if and only if it was not registered or stood at the head |
| `MonitorList.SecondSurvivesRemoval` | `source/OvsDbApi/mon_update_list.c:89-127` | A concrete registration that survives its own removal |
| `MonitorList.ReachedAgainIff` | `source/OvsDbApi/mon_update_list.c:37-67` | A registration is reached under its uuid if and only if that fits the buffer |
| `Waiting.Handle.SignalCompletion` | `source/OvsAgentApi/OvsAgentApi.c:49-58` | The flag is clear afterwards; a waiter is signalled only if it was set |
| `Waiting.Handle.WaitForCompletion` | `source/OvsAgentApi/OvsAgentApi.c:61-101` | For every sequence of wakeups the flag is clear on return, the status is that of the wakeup that ended the wait, success needs another thread's signal, and failure means exactly that the flag was clear on entry |
| `BlockedCall.BlockedResult` | `source/OvsAgentApi/OvsAgentApi.c:411-482` | For every sequence of messages, wakeups, write failures and requests, blocking or not: true means the request completed with both deletes sent, false that its transaction is gone for good, if it is made while no transaction is live or being cleaned up and no other request is made meanwhile |
| `BlockedCall.AllBlockingIsUndisturbed` | `source/OvsAgentApi/OvsAgentApi.c:411-482` | If all requests block, that condition is only that none is made during an earlier one's cleanup |
| `BlockedOutcome.ReturnsTrueIff` | `source/OvsAgentApi/OvsAgentApi.c:61-101` | Over every run, a call returns true if and only if it entered its wait with the flag set and a wakeup without time-out or error found it clear; one that enters with the flag clear returns false |
| `BlockedOutcome.WaitIsTheHandles` | `source/OvsAgentApi/OvsAgentApi.c:61-101` | The result of a call that waits is what `Handle.WaitForCompletion` makes of the flag on entry and the wakeups of the run |
| `BlockedOutcome.ReturningStep` | `source/OvsAgentApi/OvsAgentApi.c:463-482` | The step by which a call returns deletes its transaction if it returns false, and changes nothing of the client if true |
| `BlockedOutcome.FlagOnlyInCall` | `source/OvsAgentApi/OvsAgentApi.c:430-460` | In every reachable state the flag is set only while a call is under way |
| `BlockedOutcome.TrueMeansDeleted` | `source/OvsAgentApi/OvsAgentApi.c:104-161` | An undisturbed call that returns true had its own transaction completed by a Feedback row, and both deletes written for that row's uuid afterwards, as requests of the run |
| `BlockedOutcome.DeletionsArePaired` | `source/OvsAgentApi/OvsAgentApi.c:141-158` | Over every run, a Feedback deletion is written only directly after the deletion of the row it answers |
| `BlockedOutcome.CallSucceeds` | `source/OvsAgentApi/OvsAgentApi.c:411-482` | A run from the start in which a call returns true |
| `BlockedCall.EarlierCleanupMisleads` | `source/OvsAgentApi/OvsAgentApi.c:49-58` | From every reachable state with a cleanup under way, a new request can return true though it never completed |
| `BlockedCall.BlockedCallMisleads` | `source/OvsAgentApi/OvsAgentApi.c:49-58` | A run from the start that ends so: the first call times out after its transaction completed, and the second is woken by the first's cleanup |
| `BlockedCall.OtherRequestMisleads` | `source/OvsAgentApi/OvsAgentApi.c:430-433` | A run from the start in which another thread's request clears the flag and a spurious wakeup makes the waiting call return true, its transaction still live |
| `BlockedOutcome.FailedPostMisleads` | `source/OvsAgentApi/OvsAgentApi.c:446-460` | In every state of a waiting call that has not completed, an untracked request whose write fails clears the flag, so that a spurious wakeup lets the call return true |
| `Framing.Listener.ParseMsg` | `source/OvsDbApi/ovsdb_parser.c:233-295` | The loop dispatches what the stream holds, message by message, and terminates |
| `Framing.ConcatenationIsDispatched` | `source/OvsDbApi/ovsdb_parser.c:233-295` | n well-formed messages, each of which the loader reads back whatever follows, give exactly n dispatches, in order, and the last one's status |
| `Framing.BadTailStops` | `source/OvsDbApi/ovsdb_parser.c:233-295` | A malformed or unloadable tail stops the loop after exactly the messages before it |
| `Framing.MalformedIff` | `source/OvsDbApi/ovsdb_parser.c:250-290` | Which messages are malformed, replies and updates, and what of them is passed on |
| `Updates.Dispatcher.HandRows` | `source/OvsDbApi/ovsdb_parser.c:375-406` | Over the rows of a table, callbacks, statuses and allocations are those of the rows with new content up to the first undecodable one, and each allocation is freed exactly once |
| `Updates.Dispatcher.ParseMonitorUpdate` | `source/OvsDbApi/ovsdb_parser.c:344-412` | One update object likewise: every configuration allocated is freed exactly once |
| `Updates.Dispatcher.ParseParams` | `source/OvsDbApi/ovsdb_parser.c:297-342` | A failed update does not stop later ones, a parameter of the wrong type does; every allocation is freed exactly once whichever way it ends |
| `Updates.NewRowsAreHandedOver` | `source/OvsDbApi/ovsdb_parser.c:375-406` | Rows with new content, and no others, reach the callback, once each and in order; in an unknown table none does |
| `Updates.NewRowsKeepsAllNew` | `source/OvsDbApi/ovsdb_parser.c:375-390` | The rows counted as new are exactly those that carry new content |
| `Updates.AllUpdatesAreHanded` | `source/OvsDbApi/ovsdb_parser.c:297-342` | The updates before the first parameter of another type are all handed over, whichever of them fails; the status is that of the last, or failure |
| `Updates.StatusOfRows` | `source/OvsDbApi/ovsdb_parser.c:375-406` | The status of a table's rows is that of the last one, and failure if a new row is in an unknown table |
| `Updates.InvocationsAre` | `source/OvsDbApi/mon_update_list.c:69-87` | With a registered callback each row invokes it once, without one none does |
| `Updates.HandedRowsFit` | `source/OvsDbApi/json_parser/table_parser.c:57-165` | The structures handed over respect their buffers, whatever the row holds |
| `Codec.GatewayRoundTrip` | `source/OvsDbApi/json_parser/table_parser.c:57-134` | A configuration survives encoding and decoding if and only if it fits the C structure |
| `Codec.DecodeEncodeGateway` | `source/OvsDbApi/json_parser/table_parser.c:57-134` | What arrives in general: texts cut to their buffers, integers cast to 32 bits |
| `Codec.FetchColumns` | `source/OvsDbApi/json_parser/gateway_config.c:49-112` | Under which name each field stands in the row |
| `Codec.MissingColumns` | `source/OvsDbApi/json_parser/table_parser.c:57-165` | A column that is missing or of another type leaves its own field empty or zero |
| `OvsTypes.ClipIsLongestPrefix` | `source/OvsDbApi/json_parser/table_parser.c:57-134` | A text cut to a buffer is its longest beginning that fits |
| `Codec.GatewayDecodeIsStable` | `source/OvsDbApi/json_parser/table_parser.c:57-134` | Any row decodes to a structure within bounds, and sending that on changes nothing more |
| `Codec.FeedbackRoundTrip` | `source/OvsDbApi/json_parser/table_parser.c:136-165` | The same equivalence for Feedback rows |
| `Codec.FeedbackDecodeIsStable` | `source/OvsDbApi/json_parser/table_parser.c:136-165` | The same stability for Feedback rows |
| `Codec.PutThenLookup` | `source/OvsDbApi/json_parser/gateway_config.c:46-118` | Setting a member changes that member alone |
| `Codec.ResultsReadBack` | `source/OvsDbApi/json_parser/receipt_parser.c:38-176` | Each receipt parser reads the results of its own kind of request and refuses errors and the other kind's |
| `Codec.FailedCommitReadsAsSuccess` | `source/OvsDbApi/json_parser/receipt_parser.c:51-98` | It reads them all the same when an error stands behind them |
| `Messages.BuildGatewayRow` | `source/OvsDbApi/json_parser/gateway_config.c:49-112` | The columns set one by one make the row that the decoder is the inverse of |
| `Messages.BuildFeedbackRow` | `source/OvsDbApi/json_parser/feedback.c:49-57` | The same for Feedback rows |
| `Messages.BuildInsert` | `source/OvsDbApi/json_parser/gateway_config.c:41-119` | A server reads the message as the insert of that row into that table under that id |
| `Messages.BuildMonitor` | `source/OvsDbApi/ovsdb_parser.c:56-116` | A server reads it as monitoring that table; other tables give no message |
| `Messages.BuildDelete` | `source/OvsDbApi/ovsdb_parser.c:151-231` | A server reads it as deleting the rows with that uuid, or that column value; the parameters follow though they join the message before they are complete |
| `Messages.BuildRequest` | `source/OvsDbApi/ovsdb_parser.c:33-54` | Every request of the protocol is written as the message meant for it; what a server does with that is `ServerReading.ClientWritesWhatIsServed` and `AgentWritesWhatIsServed` |
| `Messages.Socket.Write` | `source/OvsDbApi/OvsDbApi.c:169-211` | What has been written is read by a server as exactly the requests sent, in order |
| `Messages.MeantIsInjective` | `source/OvsDbApi/ovsdb_parser.c:33-231` | No two requests of the protocol are taken for the same thing |
| `ServerReading.ClientWritesWhatIsServed` | `source/OvsAgentApi/OvsAgentApi.c:141-177` | In every reachable state, a server that reads what a client wrote for a pending request and executes it, on tables known by name, does to both tables and the client's monitor what the protocol does, under the request's id (RFC 7047, sections 4.1.3, 4.1.5, 5.2.1 and 5.2.5) |
| `ServerReading.AgentWritesWhatIsServed` | `source/OvsAgentCore/OvsAgent.c:52-62` | The same for the agent's Feedback rows and its monitor request |
| `ServerReading.FeedbackColumns` | `source/OvsDbApi/json_parser/feedback.c:49-57` | A Feedback row names the row it answers and holds the status as its number |
| `ServerReading.UncommittedChangesNothing` | `source/OvsDbApi/OvsDbApi.c:169-214` | A request refused, or not committed, changes no table and no monitor |
| `Switch.ExecKeepsConsistent` | `source/OvsAction/ovs_action.c:131-373` | Every command keeps bridges, ports, members and flows consistent |
| `SwitchAgent.Actions.Perform` | `source/OvsAction/ovs_action.c:1216-1248` | The dispatch and all actions below it leave the switch, and return the status, that the specification says |
| `SwitchAgent.Actions.DoPort` | `source/OvsAction/ovs_action.c:1136-1185` | A port request, command by command, refines its specification |
| `SwitchAgent.Actions.DoBridge` | `source/OvsAction/ovs_action.c:987-1039` | A bridge request likewise; its flows are set up for the parent bridge |
| `SwitchAgent.Actions.DoLink` | `source/OvsAction/ovs_action.c:1041-1134` | VLAN and GRE requests likewise |
| `SwitchAgent.Actions.ModifyParentBridge` | `source/OvsAction/ovs_action.c:901-936` | Leaving the old bridge, creating and joining the parent, and its flows if it is new |
| `SwitchAgent.Actions.RemoveExistingInterfacePort` | `source/OvsAction/ovs_action.c:725-793` | Membership after detaching: from the parent on removal, from any other bridge when brought up, OVS or Linux |
| `SwitchAgent.Actions.ConfigureParentBridge` | `source/OvsAction/ovs_action.c:795-871` | The parent exists if it can, is up or down as asked, and the port joins it if it can |
| `SwitchAgent.Actions.SetUpWifiFlows` | `source/OvsAction/ovs_action.c:569-607` | The loop over ether types deletes and resets one flow for each, without 802.1X where it is skipped |
| `SwitchAgent.Actions.SetUpAdminGuiAccess` | `source/OvsAction/ovs_action.c:396-469` | Both old flows are gone; both new ones are set if the address is known and the bridge stays |
| `SwitchAgent.Actions.BlockMsoUiAccess` | `source/OvsAction/ovs_action.c:515-566` | The blocking flow likewise, and its status |
| `SwitchAgent.Actions.SetUpPortFlows` | `source/OvsAction/ovs_action.c:938-985` | The flows of the two special ports, and that the second status overwrites the first |
| `SwitchAgent.Actions.SetUpSwitch` | `source/OvsAction/ovs_action.c:269-373` | The switch workaround as a whole has the net effect specified |
| `SwitchAgent.Actions.SetUpAndRestoreEthSwitch` | `source/OvsAction/ovs_action.c:131-218` | Both ports leave, both dummy bridges come and go interleaved, and the sibling is back |
| `SwitchAgent.Actions.SetUpEthSwitch` | `source/OvsAction/ovs_action.c:220-261` | One cycle of a dummy bridge |
| `SwitchAgent.TwoCycles` | `source/OvsAction/ovs_action.c:131-218` | Two interleaved cycles have the effect of one after the other |
| `SwitchAgent.OneCycle` | `source/OvsAction/ovs_action.c:220-261` | The net effect of a cycle: the dummy bridge is gone, or a foreign device of its name is brought down |
| `SwitchTheorems.DoneKeepsConsistent` | `source/OvsAction/ovs_action.c:1216-1248` | Every request keeps the switch consistent |
| `SwitchStates.AdministrativeStates` | `source/OvsAction/ovs_action.c:1041-1185` | For every type and command: after up the interface and its named parent bridge are up if they exist, after down they are down, other commands change no state, and no other device's state changes but those of the workaround |
| `SwitchStates.AddressesAndMtu` | `source/OvsAction/ovs_action.c:987-1039` | A bridge request sets the address, netmask and MTU it gives, of its bridge alone; no other request sets any |
| `SwitchStates.DeletionRemoves` | `source/OvsAction/ovs_action.c:1136-1165` | After deletion the interface, or the bridge with its flows, is gone, and no other device |
| `SwitchStates.VlanDeviceIsThere` | `source/OvsAction/ovs_action.c:1041-1089` | Which device a VLAN request leaves, by the text of its name and the number it ends in |
| `SwitchStates.GreDeviceIff` | `source/OvsAction/ovs_action.c:1091-1134` | A GRE request makes its device if and only if its parent and both end points are given and the parent exists |
| `SwitchStates.ParentIsCreated` | `source/OvsAction/ovs_action.c:795-871` | A parent bridge with a free name is created, as a Linux bridge for the four Xfinity names and as an OVS bridge for all others |
| `SwitchStates.RehomedMembers` | `source/OvsAction/ovs_action.c:725-871` | The memberships in Linux bridges after each command |
| `SwitchStates.LinuxMembership` | `source/OvsAction/ovs_action.c:1041-1185` | So after any request but for a bridge, from the state in which it comes to move its interface |
| `SwitchStates.BeforeMoveIs` | `source/OvsAction/ovs_action.c:1041-1165` | That state is the one before the request but for a new link and the interface's state, unless the workaround runs |
| `SwitchFlows.FlowsAreAsWished` | `source/OvsAction/ovs_action.c:396-607` | After any request the flow for every match on every bridge is the one a table of wishes gives: rewritten to lan0's address, dropped, sent out through the bridge, gone, or as before |
| `SwitchFlows.StatusesExactly` | `source/OvsAction/ovs_action.c:1216-1248` | The two cases in which a request fails; in all others it succeeds |
| `SwitchTheorems.UpJoinsParent` | `source/OvsAction/ovs_action.c:1041-1185` | An interface of any type but bridge, brought up, is in its OVS parent bridge afterwards, from any state, if and only if a condition on the state before the call holds; otherwise it is in no OVS bridge |
| `SwitchTheorems.BridgeMembership` | `source/OvsAction/ovs_action.c:987-1039` | A bridge request moves no port; deleting the bridge detaches exactly the ports in it |
| `SwitchTheorems.AttachableBefore` | `source/OvsAction/ovs_action.c:1136-1165` | That condition is what being attachable after the preparation comes to, the workaround included: it differs only for the name of a dummy bridge that the workaround deletes |
| `SwitchTheorems.CanJoinPlainly` | `source/OvsAction/ovs_action.c:1136-1165` | For other names it is being attachable at once |
| `SwitchTheorems.RehomedPorts` | `source/OvsAction/ovs_action.c:725-871` | The OVS memberships after each command, from any state |
| `SwitchTheorems.OtherCommandsMembership` | `source/OvsAction/ovs_action.c:725-871` | For every type but bridge: down joins only an interface that was in no bridge and can join, removal detaches only from the parent, deletion from none; without an OVS parent these commands move nothing |
| `SwitchTheorems.OthersKeepMembership` | `source/OvsAction/ovs_action.c:987-1185` | For every type and command, every other port keeps its membership, but for the backhaul interface the workaround may attach and the ports of a bridge that is deleted |
| `SwitchTheorems.PumaPorts` | `source/OvsAction/ovs_action.c:269-373` | The workaround moves only the port itself and possibly the backhaul interface |
| `SwitchTheorems.PumaRestores` | `source/OvsAction/ovs_action.c:131-218` | The workaround leaves no dummy bridge and the sibling in its old bridge |
| `SwitchStates.WorkaroundRuns` | `source/OvsAction/ovs_action.c:1153-1168` | For which requests the workaround runs: afterwards the interface exists and is up, and the backhaul interface is up if it existed, unless a foreign device has the dummy bridge's name |
| `SwitchStates.WorkaroundStates` | `source/OvsAction/ovs_action.c:269-373` | What the workaround makes and brings up, or down where the name of the dummy bridge is taken |
| `SwitchTheorems.BridgeCreationStatus` | `source/OvsAction/ovs_action.c:987-1039` | When bridge creation reports failure, and, independently, when the bridge exists |
| `SwitchIdempotence.UpIsIdempotent` | `source/OvsAction/ovs_action.c:1136-1185` | Bringing a port up twice, with or without a parent bridge, gives the same bridges, memberships, links, states and flows as once, if and only if the request does not create the backhaul bridge too late |
| `SwitchIdempotence.PreparationIsIdempotent` | `source/OvsAction/ovs_action.c:1136-1168` | The workaround and the interface's state, repeated, change nothing more |
| `SwitchIdempotence.FirstRunSettles` | `source/OvsAction/ovs_action.c:901-936` | The first run leaves a state that a second would not change, with the same exception |
| `SwitchIdempotence.EditsMakeHold` | `source/OvsAction/ovs_action.c:396-607` | After deleting and adding compatible flows each of them holds, so that repeating them is idle |
| `SwitchIdempotence.AdminGuiFailureIsMasked` | `source/OvsAction/ovs_action.c:938-985` | For llan0 in brlan0 the status is that of the blocking flow alone, and the GUI flow is there if and only if the address was known |
| `SwitchExamples.SecondRunAttachesBackhaul` | `source/OvsAction/ovs_action.c:340-373` | With the backhaul interface as the only device, the first run leaves it out of the bridge it creates and the second attaches it |
| `SwitchExamples.BridgeIsThereThoughFailed` | `source/OvsAction/ovs_action.c:987-1039` | Creating bridge br0 without a parent on a model with Wifi flows fails and leaves the bridge |
| `SwitchExamples.GuiFlowIsMissingThoughDone` | `source/OvsAction/ovs_action.c:938-985` | Bringing llan0 up in brlan0 without lan0's MAC address succeeds and leaves no GUI flow |

## Left out

- Sockets: a connection is a FIFO of whole messages; select, recv, partial reads and
  reconnection are not modelled.
- Threads: every API call and delivery is one step, except that completing a
  transaction and cleaning up after it are separate steps, between which the client may
  make further requests. Unlocked data races are not modelled.
- Liveness: nothing says that a request completes. A monitor's initial rows are ignored,
  so a Feedback row committed before a client watches is never seen, and nothing is retried.
- Memory exhaustion: allocation succeeds; message construction does not fail.
- JSON text: messages are trees. The loader that cuts the stream is a parameter of
  `Framing`, with its hypotheses stated.
- Text: strings hold no NUL and every character fits one byte, so the length of a text
  is its C length; `strncpy` becomes a cut.
- Request ids at or above 2^31, signs and blanks in `atoi`: ids of a run stay below 2^31;
  only `ConsecutiveIdsDistinctIff` follows the counter across its wrap.
- Uuids longer than 36 characters in `Component` and `AgentProcess`: server uuids have 36.
  The lists, the table and the row decoder cut longer ones as the code does, but
  `Codec.ParseInsert` does not: there the code copies with `strcpy` into 37 bytes, without
  a bound, and what overruns them is not modelled.
- An insert result whose uuid pair holds no text: the code passes NULL to that `strcpy`;
  the model treats the result as unparsable.
- Receipts of a monitor cancellation: `ovsdb_monitor_cancel` is never called; the list
  and the parser know their kind.
- User callbacks: what one does to the transaction manager is a sequence of further
  operations (`Ownership.Perform`); in the protocol it is the steps that follow.
- Component.Api.TakeReply: the callback's effects on table, monitors and socket are
  taken after the receipt list's dispatch returns. They touch other objects than the list.
- Component.Api.AwaitCompletion: what the listener thread does during the wait is not part
  of the method; `BlockedCall` and `BlockedOutcome` interleave the two.
- Updates.Dispatcher.HandRow: the callback's own work is not modelled there.
- Messages.StatusOfCode: an integer outside the enumeration becomes the unknown status;
  the code passes it on as it is. The agent reports no other ones than its own.
- Component.HandOut: an update of the protocol carries at most one new row, because every
  commit is one insert; `Updates` covers updates with any number of rows.
- Protocol.Served: a reply whose "error" member is not null. A refusal is an error in the
  result, as for a failed operation.
- Row modifications by others: the system is closed; only its clients and agent write.
- Shell commands: names, quoting, buffers, `popen` and `/sys` reads become the commands
  and queries of `Switch`. Queries are faithful; `del-flows` works; a command that cannot
  work changes nothing.
- Switch.Exec: what the commands do is an assumption about the tools, including that
  `vlan_util add_interface` creates the interface and puts it into the group's bridge,
  that which interface it creates depends on the group alone (for the first switch port
  the code adds two physical ports to one group), that a bridge's name is taken by its own
  local port, that `add-br` refuses a name that another device has, and that a bridge
  that is up cannot be deleted.
- SwitchIdempotence.UpIsIdempotent: the answers about models and addresses are fixed;
  between the runs they could change.
- GRE and VLAN device attributes, and the addresses of interfaces other than bridges.
- Model and address lookup: the answers are inputs (`SwitchSpec.Env`).
- Logging, configuration bus, main loop, emulator, scripts and tests.
