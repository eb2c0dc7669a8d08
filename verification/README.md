# Verified model of the A2A invocation, streaming and projection cores

This project models the parts of the agent kit in which order, durability and
interleaving decide what a caller may believe, and proves what they promise.

* **Durable invocation** (`InvocationTypes`, `InvocationProtocol`, `InvocationSafety`,
  `InvocationSpool`, `InvocationTheorems`, `InvocationExactness`): a scope's checkpoint row, lease, canonical log and
  wire as a transition system shared by any number of service instances. At every await an
  operation may crash, lose its lease or be closed. The theorems are invariants over all
  runs: at most one send per token, an exact write-ahead spool, a checkpoint chain, terminal
  absorption, complete replay. Each that depends on a discipline of the callers is proved to
  hold in exactly the configurations that have it, with a run that breaks it in the others.
* **The service itself** (`InvocationWorld`, `InvocationService`, `InvocationEntry`): the
  methods of the service as methods of a class over its state record, verified against that
  transition system. Each await goes through `World`, which lets other workers act, fails,
  interrupts or never returns, as an arbitrary script says. Every method keeps the
  discipline that the theorems need at every await, so a save may happen anywhere.
* **Streamed output** (`ArtifactStream`, `ArtifactFeeder`, `DeltaClient`): the batching
  emitter, the feeder of multi-part items and the client that turns snapshots back into
  deltas; end to end, the reader has what the runtime produced.
* **Framing and guarding** (`ModelSse`, `JsonGuard`, `TextLines`): the incremental event-stream
  framer against the WHATWG standard, and the structural JSON guard against RFC 8259.
* **Kernel facts** (`KernelLog`, `InboundKernel`, `KernelReconciler`): one run projected out of a
  session log, resumable at every wait, and the reconciler that never passes a fact still owed.
* **Codex merge** (`CodexMerge`): several producers meeting one consumer over a one-slot
  queue, as interleaved steps.
* **Markdown repair** (`Markdown`): a neighbour rule for blank lines, and the loop that follows it.

`Basics` holds what all of them share.

`dafny verify dfyconfig.toml` checks everything.

## How the model stands for the code

* The lease, an advisory lock held by a connection, is the component `holder` of the global
  state; losing it is a step that may come at any time. The row is replaced atomically. Each
  service instance has one lease entry per scope, as in its lease table.
* `sends` and `accepted` are histories: tokens for which a message stream was opened, and
  the events of committed batches in order, once each.
* Event ids are hashes of content, so an event is its content. Scope ids are injective.
* A failed save is raised to its caller, and the service goes on as its code does, with the
  spool in memory. `failStop` is the other behaviour, an operation that ends at its first
  failed save; the theorems about spool and replay say exactly what depends on it.
* `InvocationWorld` considers serial instances, with `failStop` or without; what a call of the
  service promises holds either way, but that a replay never misses a fact needs `failStop`.
  `InvocationExactness` shows that the disciplines are necessary, by runs of which every save
  is one that the service makes (`Takes`).
* For `Service.Cancel` serial instances are enough, whichever saves fail, and
  `ConfirmedCancelIsFollowedByASend` shows that without them "local cancelled before send" is
  no proof that nothing was sent.
* The cancel flag is set at any moment by anybody, so what a call can say about it is how it
  stood at some point of the call (`FlagWas`).
* Clock readings, native events, remote tasks, approval decisions and prepared calls are
  inputs. `str.isdigit` is a parameter of the Markdown model.

## Where the code does less than its documentation suggests

* The lease table is keyed by scope per service instance
  (`ksadk/a2a/invocation_service.py`, lines 92, 99, 182, 200). When an operation has lost its
  lease while still running, a second operation of the same instance on the scope lends it its
  lease. Then both can send the first message, also after "possibly sent" was durable
  (`StaleOperationSendsAgain`); a locally confirmed cancellation, durable with its fact, can be
  followed by a send (`ConfirmedCancelIsFollowedByASend`); a save of the first operation can be
  turned down (`StaleSaveIsRejected`), or drop a committed batch (`StaleSaveDropsBatch`). None
  of this happens exactly when an instance never runs two operations on one scope at once.
  Request, scope, "send entered" and locators are kept even then (`CheckpointChain`).
* A continuation that finds the cancel flag set puts its token on record without sending it
  (`invocation_service.py`, lines 505-518 and 877-882), and so does one that is cut short
  between noting the token and entering the wire, by the last save (lines 195-198); every later attempt with that token
  takes it for used (lines 838-851), so it is never sent (`RecordedTokenIsSentExactlyWhenUsed`,
  `ContinuationIsRecordedUnsent`).
* A call that failed locally with an unknown outcome and whose remote task failed as well can
  never be reconciled: the snapshot it would take has no error, so its validator turns it down
  every time (`invocation_service.py`, lines 765-769; `ksadk/a2a/invocation_types.py`, line 378).
* A batch whose save failed stays in the spool in memory (`ksadk/a2a/invocation_publication.py`,
  lines 51-57); code that swallows the failure and publishes again (`invocation_service.py`,
  lines 432-499 and 920-957) puts an uncommitted event into the log (`UnsavedBatchIsPublished`).
  When that event closes the call and another worker has closed it meanwhile, the last closing
  fact is not the one of the durable row, and its replay fails (`UnsavedClosing`).
* Restoring a closed call without a snapshot fails for a failed call, whose snapshot would
  need an error, and for one whose source needs a task it does not have (`Repair`).
* A client misreads one kind of update, a flagged snapshot that goes on from the text known
  so far (`ksadk/a2a/langgraph.py`, lines 253-256), and the emitter produces it whenever a streamed
  message is completed with a longer text (`CompletedTextLosesItsBeginning`).

## Model

| member | source | states |
|---|---|---|
| `InvocationTypes.Handle.WithPlatformTask` | ksadk/a2a/invocation_types.py:148-156 | The platform task is write-once: pinning succeeds exactly when none is set or the same one is; the valid handle that results names the given task and has the remote locators it had, unset ones included. |
| `InvocationTypes.Handle.BindRemoteTask` | ksadk/a2a/invocation_types.py:158-181 | Binding succeeds exactly when a platform task is pinned and no remote task is, or the same one with the same context; the valid handle that results names that task and context and keeps the platform task. |
| `InvocationExactness.AtMostOneSendExactlyWhenSerial` | ksadk/a2a/invocation_service.py:339-368 | Over every run with any number of workers, retries, lost leases and crashes, no idempotency token opens two message streams, if and only if no service instance starts an operation on a scope while another of its own is still running (the lease table is keyed by scope alone, lines 92, 99, 182, 200). |
| `InvocationTheorems.UnknownOutcomeIsNeverResent` | ksadk/a2a/invocation_service.py:347-368 | With serial instances: once "possibly sent" is durable and its receipt is spent or lost, no continuation of the run sends the first message again, and the row keeps saying so. NeverResentExactlyWhenSerial says that this needs serial instances. |
| `InvocationTheorems.ClosedUnsentNeverSends` | ksadk/a2a/invocation_service.py:904-919 | With serial instances: a scope durably closed before sending was never sent and stays closed and unsent in every continuation, a crash between the cancelled descriptor and its snapshot included. ClosedStaysUnsentExactlyWhenSerial says that this needs serial instances. |
| `InvocationTheorems.CheckpointChain` | ksadk/a2a/invocation_checkpoint.py:96-128 | In every configuration, overlapping operations of one instance included, any two rows of a run in the order they were durable have the same request and scope, "send entered" only grows and locators are write-once. With serial instances tokens only grow too, and a closed descriptor and a terminal snapshot never change. |
| `InvocationTheorems.SaveIsNeverRejected` | ksadk/a2a/invocation_checkpoint.py:96-113 | With serial instances a save by the operation that holds the lease passes every check of the lease (size limit aside). NeverRejectedExactlyWhenSerial says that this needs serial instances. |
| `InvocationExactness.SpoolExactExactlyWhenDisciplined` | ksadk/a2a/invocation_publication.py:31-57 | In every reachable state the log followed by the unpublished rest of the durable spool is exactly the committed events in order, none lost, repeated or swapped, if and only if instances are serial and an operation stops at its first failed save. |
| `InvocationTheorems.ReplayFindsEveryFact` | ksadk/a2a/invocation_service.py:210-236 | Under both disciplines: after the spool of the row it loaded is out, an operation that replays from that row finds the saved descriptor in the last closing fact, as in every other, and for every output reference a last completion with that part. ReplayCompleteExactlyWhenDisciplined says that both are needed. |
| `InvocationExactness.StaleOperationSendsAgain` | ksadk/a2a/invocation_service.py:176-200 | Counterexample run without seriality: "possibly sent" is durable and its receipt spent; an operation that lost its lease then saves under the lease entry of a second operation of the same instance, and sends the same token again. |
| `InvocationExactness.UnsavedBatchIsPublished` | ksadk/a2a/invocation_service.py:432-499 | Counterexample run without stopping at a failed save: after the receipt is saved the save of the "working" fact fails, and the next publication flushes the spool in memory, so the log holds an event no checkpoint committed. |
| `InvocationExactness.StaleSaveDropsBatch` | ksadk/a2a/invocation_service.py:98-125 | Counterexample run: a stale save under another operation's lease overwrites a committed batch that is then never published. |
| `InvocationExactness.NeverResentExactlyWhenSerial` | ksadk/a2a/invocation_service.py:339-368 | Over all runs a durable "possibly sent" whose receipt is spent is never followed by another send of the first message, if and only if instances are serial. |
| `InvocationExactness.ClosedStaysUnsentExactlyWhenSerial` | ksadk/a2a/invocation_service.py:904-919 | Over all runs a call durably closed before sending stays closed and unsent, if and only if instances are serial. |
| `InvocationExactness.ChainedExactlyWhenSerial` | ksadk/a2a/invocation_checkpoint.py:96-128 | Tokens, closed descriptors and terminal snapshots are kept along the rows of every run, if and only if instances are serial: the lease checks do not cover them. |
| `InvocationExactness.NeverRejectedExactlyWhenSerial` | ksadk/a2a/invocation_checkpoint.py:96-113 | No save that the service issues under an active lease is turned down by the lease checks, in any run, if and only if instances are serial. |
| `InvocationExactness.ReplayCompleteExactlyWhenDisciplined` | ksadk/a2a/invocation_service.py:210-236 | No replay from a row whose spool is out fails its check (the last closing fact carries the descriptor, each reference is in the last completion of its item), in any run, if and only if instances are serial and an operation stops at its first failed save. |
| `InvocationExactness.RecordedTokenIsSentExactlyWhenUsed` | ksadk/a2a/invocation_service.py:838-851 | With serial instances a continuation token on record is among the sent ones of some continuation of the run if and only if it was sent already or a receipt for it is still held: recorded unsent, it stays unsent for good. |
| `InvocationExactness.ConfirmedCancelIsFollowedByASend` | ksadk/a2a/invocation_service.py:505-527 | Counterexample run without seriality: the locally confirmed cancellation and its fact are durable, nothing was sent, and a stale operation of the same instance then saves its receipt over it and sends. |
| `InvocationExactness.StaleSaveIsRejected` | ksadk/a2a/invocation_checkpoint.py:96-113 | Counterexample run without seriality: a stale operation's save is turned down because the other operation has saved "possibly sent" meanwhile. |
| `InvocationExactness.TwoClosings` | ksadk/a2a/invocation_service.py:210-236 | Counterexample run without seriality: two overlapping operations both close the call, each as the transition table allows; the last closing fact is not that of the row the other one knows, and its replay fails. |
| `InvocationExactness.UnsavedClosing` | ksadk/a2a/invocation_service.py:210-236 | Counterexample run without stopping at a failed save, instances serial: an operation that has lost its lease fails to save that the call has completed; a worker of another instance takes over and closes the call; the handler of the failure then flushes the first closing fact behind the second, and the replay from the durable row, its spool out, fails. |
| `InvocationExactness.ContinuationIsRecordedUnsent` | ksadk/a2a/invocation_service.py:195-198 | A run of saves that the service makes, in every configuration: a continuation is kept and bound, its token noted, the next await cut short, and the last save puts the token on record, never sent and without a receipt. |
| `InvocationExactness.CodeSaveGoes` | ksadk/a2a/invocation_publication.py:62-119 | The saves of which the counterexample runs consist (receipt, announced descriptor with its transition and fact, native report, last save, kept or noted continuation) keep the discipline and pass the lease. |
| `InvocationExactness.PopFits` | ksadk/a2a/invocation_publication.py:42-48 | So does the save that pops a published event. |
| `InvocationTheorems.RecordedTokenStaysUnsent` | ksadk/a2a/invocation_service.py:838-851 | With serial instances a continuation token on record without a receipt stays on record and unsent in every continuation of the run: whoever retries it takes it for used. |
| `InvocationTheorems.RunKeepsSendInv` | ksadk/a2a/invocation_service.py:176-200 | Every run with serial instances keeps: each operation owns its instance's lease entry, whoever holds the lock knows the durable row, and each used token has one durable receipt. |
| `InvocationTheorems.RunKeepsSpool` | ksadk/a2a/invocation_publication.py:42-57 | Every disciplined run keeps the spool exact, completes each item once in the committed events, gives all closing facts the row's descriptor, and keeps each known row backed by facts. |
| `InvocationTheorems.RunKeepsNumbers` | ksadk/a2a/_invocation_state.py:24-28 | The store numbers the facts of a scope in the order it keeps them, in every run. |
| `InvocationTheorems.ReceiptStaysUsed` | ksadk/a2a/invocation_service.py:525-527 | No step turns a spent "possibly sent" receipt back into a usable one. |
| `InvocationSafety.OwnedSave` | ksadk/a2a/invocation_service.py:98-125 | With serial instances only the lock holder's save is accepted, it is based on the durable row, and it becomes the row. |
| `InvocationSafety.SendsOnceSave` | ksadk/a2a/invocation_service.py:525-527 | A save that grants a send does so for a token nobody has used. |
| `InvocationSafety.SendInvStep` | ksadk/a2a/invocation_service.py:525-536 | Each step of any worker keeps ownership and the one-receipt-per-token rule. |
| `InvocationSpool.SpoolSave` | ksadk/a2a/invocation_publication.py:50-57 | A save either keeps what is left to publish or starts a batch on a fully published spool; the committed events grow by exactly the new batch. |
| `InvocationSpool.SpoolInvPublish` | ksadk/a2a/invocation_publication.py:31-48 | Publishing the head of any committed spool, a stale worker's too, appends the next committed event or nothing. |
| `InvocationSpool.CompletedOnceSave` | ksadk/a2a/invocation_publication.py:138-170 | Committing a batch never completes an item a second time. |
| `InvocationSpool.ClosedAsSave` | ksadk/a2a/invocation_publication.py:62-118 | Committing a batch keeps every closing fact equal to the row's closed descriptor. |
| `InvocationSpool.FactInvStep` | ksadk/a2a/invocation_publication.py:62-118 | Closing facts and item completions stay consistent with the row over every step. |
| `InvocationSpool.KnownInvStep` | ksadk/a2a/invocation_service.py:127-173 | Every row an operation knows stays linked to the durable one and backed by facts in the log or its own spool. |
| `InvocationSpool.FollowsStep` | ksadk/a2a/invocation_checkpoint.py:103-112 | One step keeps the chain relation between successive rows. |
| `InvocationWorld.World.Await` | ksadk/a2a/invocation_service.py:284-295 | One await: any steps of other workers happen, none of them acts for this operation or changes what it knows, then it returns, raises, is interrupted or never returns. |
| `InvocationWorld.World.AwaitFree` | ksadk/a2a/invocation_checkpoint.py:214-236 | An await of an instance that runs no operation on the scope: others act, it returns, raises, is interrupted or never returns, and the instance still runs none. |
| `InvocationWorld.World.Acquire` | ksadk/a2a/invocation_checkpoint.py:214-240 | The lease is taken only when nobody holds it by the time of the attempt, else the call is busy; while it waits others act, and an attempt that raises or is cut short takes nothing. |
| `InvocationWorld.World.Load` | ksadk/a2a/invocation_checkpoint.py:55-71 | A load under the held lease returns the durable row, which becomes the row the operation knows. |
| `InvocationWorld.World.Save` | ksadk/a2a/invocation_checkpoint.py:96-128 | A save that returns made its row durable under the lease; one that raises or is interrupted left either the old or the new row, and the operation goes on with its spool in memory, or ends where operations stop at a failed save; with a receipt a save grants exactly one send. |
| `InvocationWorld.World.CancelRequested` | ksadk/a2a/invocation_checkpoint.py:73-83 | Reading the cancel flag returns how it stands then and changes nothing. |
| `InvocationWorld.World.ClearCancel` | ksadk/a2a/invocation_checkpoint.py:85-94 | Clearing the flag touches neither row, log nor receipts. |
| `InvocationWorld.World.RequestCancel` | ksadk/a2a/invocation_checkpoint.py:183-211 | The wish to cancel is recorded beside the row, without the lease, when the row exists then and the handle names it, and not otherwise; others act before, and the attempt may raise or be cut short, with or without having recorded it. |
| `InvocationWorld.World.PersistOne` | ksadk/a2a/invocation_publication.py:31-34 | The store appends an event that is due once: next of a committed spool, or first in a spool whose save has failed, which then loses it; afterwards it is in the log. |
| `InvocationWorld.World.OpenStream` | ksadk/a2a/invocation_service.py:530-536 | A message stream opens only on a committed, unused receipt for that token. |
| `InvocationWorld.World.ReadTask` | ksadk/a2a/invocation_service.py:737-741 | Reading the remote task leaves evidence in the run, from this read on, of the state it returned. |
| `InvocationWorld.OthersLeaveAlone` | ksadk/a2a/invocation_service.py:181-193 | No step of another worker changes the row an operation last loaded or saved, or its receipt. |
| `InvocationWorld.HolderSaves` | ksadk/a2a/invocation_checkpoint.py:96-128 | The lock holder's disciplined save is enabled and leaves its row durable. |
| `InvocationService.InvocationOperation.Restore` | ksadk/a2a/invocation_service.py:127-146 | A restored state writes back exactly the row it came from and may go on publishing. |
| `InvocationService.InvocationOperation.Repair` | ksadk/a2a/invocation_service.py:168-173 | Restoring a closed call without a snapshot fails exactly when the call is failed, or was read from a source without a bound task; otherwise a closed call then has a snapshot. |
| `InvocationService.RepairedSnapshot` | ksadk/a2a/invocation_types.py:367-384 | For rows the service writes, the missing snapshot is valid exactly when the call is not failed and its source is local or bound. |
| `InvocationService.InvocationOperation.Begin` | ksadk/a2a/invocation_service.py:369-383 | A first invocation starts unsent, with nothing published and no tokens. |
| `InvocationService.InvocationOperation.SaveState` | ksadk/a2a/invocation_service.py:98-125 | After a save that returns, the durable row is the state in memory; after one that raises the operation can go on and publish what is in memory; after one that is interrupted the state may still be saved. |
| `InvocationService.InvocationOperation.SavedIsSteady` | ksadk/a2a/invocation_publication.py:50-57 | After a save, done or failed, what is in memory may be saved, and its spool published: as committed, or as lost with the failed save. |
| `InvocationService.InvocationOperation.Yield` | ksadk/a2a/invocation_service.py:726-733 | A delivered event reaches the consumer at most once while a replay is followed, not at all while a generator is drained, and nothing else changes. |
| `InvocationService.InvocationOperation.PublishOne` | ksadk/a2a/invocation_publication.py:31-40 | The head of the spool is in the log afterwards and the cursor never goes back. |
| `InvocationService.PopSteady` | ksadk/a2a/invocation_publication.py:42-48 | Popping a published head keeps the rest tracked, whether the spool was committed or its save has failed. |
| `InvocationService.InvocationOperation.PublishHead` | ksadk/a2a/invocation_publication.py:42-48 | Publish, pop, save: the durable row has the rest of the spool and the head is in the log. |
| `InvocationService.InvocationOperation.FlushPending` | ksadk/a2a/invocation_publication.py:42-48 | A flush that returns has published the whole spool in order and saved the empty one. |
| `InvocationService.InvocationOperation.PublishBatch` | ksadk/a2a/invocation_publication.py:50-57 | A batch that returns is wholly in the log, in order, behind the older spool, and the durable row is the state. |
| `InvocationService.DescriptionPublishable` | ksadk/a2a/invocation_publication.py:62-118 | Setting a descriptor and publishing its fact commits both together; a descriptor that closes the call needs the older spool to be out first. |
| `InvocationService.ClosingFits` | ksadk/a2a/invocation_publication.py:75-118 | On an empty spool a closed descriptor and its fact are committed in one row. |
| `InvocationService.InvocationOperation.DescriptorEvent` | ksadk/a2a/invocation_publication.py:62-118 | Only an allowed transition is made; the fact published carries the new descriptor, says whether it opens, replaces or closes, and lists the current outputs. |
| `InvocationService.InvocationOperation.Announce` | ksadk/a2a/invocation_publication.py:62-118 | A published and yielded status is durable; a closed one stays as it is in the row whoever saves next. |
| `InvocationService.InvocationOperation.TakeSnapshot` | ksadk/a2a/invocation_publication.py:121-136 | The snapshot is made from the current state exactly when its validator accepts it, else nothing changes. |
| `InvocationService.MapEvents` | ksadk/a2a/invocation_publication.py:138-170 | The adapter completes an item at most once over its whole life and numbers what it maps. |
| `InvocationService.InvocationOperation.NoteEvent` | ksadk/a2a/invocation_publication.py:143-167 | Output references grow by exactly the text parts of completed output items, the continuation id by created continuations. |
| `InvocationService.InvocationOperation.NoteEvents` | ksadk/a2a/invocation_publication.py:138-168 | All events but the remote run's own lifecycle are kept, in order, and the references are exactly those they produce. |
| `InvocationService.ForwardedKeeps` | ksadk/a2a/invocation_publication.py:140-142 | Dropping run lifecycle events keeps every other event and never makes an item complete twice. |
| `InvocationService.MappedFits` | ksadk/a2a/invocation_publication.py:138-170 | Adapter state, references and batch of one native report may be committed as one row. |
| `InvocationService.InvocationOperation.Absorb` | ksadk/a2a/invocation_publication.py:138-170 | A native report becomes the adapter's next state and the forwarded batch, ready to be committed together. |
| `InvocationService.InvocationOperation.PublishMapped` | ksadk/a2a/invocation_publication.py:138-170 | What the adapter forwards is in the log and, in that order, handed to the consumer. |
| `InvocationService.InvocationOperation.Bind` | ksadk/a2a/invocation_publication.py:172-197 | A report that names a task leaves the handle bound to exactly that task and context, or raises; no locator changes, and a failure leaves the handle alone. |
| `InvocationService.InvocationOperation.PrepareBound` | ksadk/a2a/invocation_service.py:680-697 | The prepared remote task is the bound one, only this call finds that there is no binding, and a failure never unbinds. |
| `InvocationService.InvocationOperation.TakeIn` | ksadk/a2a/invocation_service.py:566-576 | A report that is taken in has bound the task it names, changed no locator already set and left nothing to publish. |
| `InvocationService.InvocationOperation.FetchTask` | ksadk/a2a/invocation_service.py:737-755 | What was read back from the remote side by this call is on record, bound and published before it is projected. |
| `InvocationService.InvocationOperation.Project` | ksadk/a2a/invocation_service.py:756-783 | An open call takes the remote status in descriptor and snapshot; a closed descriptor is not reopened, only a non-terminal snapshot is brought up to date, and that fails exactly when the remote status is failed, or asks for input and there is no continuation; a terminal snapshot stays. |
| `InvocationService.InvocationOperation.ProjectClosed` | ksadk/a2a/invocation_service.py:765-770 | A closed call takes in any remote status but a failure, or a pause that nothing can continue; these are turned down and leave the snapshot as it was. |
| `InvocationService.InvocationOperation.Get` | ksadk/a2a/invocation_service.py:737-783 | Descriptor and snapshot after a get are the old ones or those of the state that this call read back; a get of a closed call that is not finished never returns normally when the remote task has failed. |
| `InvocationService.InvocationOperation.GetQuietly` | ksadk/a2a/invocation_service.py:933-943 | An observation run for its effects delivers nothing. |
| `InvocationService.InvocationOperation.CloseUnsent` | ksadk/a2a/invocation_service.py:911-917 | The locally confirmed cancellation is durable with its fact before it is reported. |
| `InvocationService.InvocationOperation.CancelUnsent` | ksadk/a2a/invocation_service.py:910-919 | A local cancel leaves a cancelled snapshot and a row closed without a send. |
| `InvocationService.InvocationOperation.CancelAttempt` | ksadk/a2a/invocation_service.py:922-944 | Remote cancellation is claimed only after this attempt read back a CANCELED task; an attempt that fails claims nothing. |
| `InvocationService.InvocationOperation.CancelRemote` | ksadk/a2a/invocation_service.py:920-957 | Failures of the attempt are swallowed into "unknown" or "unsupported", never into a cancellation, and the public descriptor then says which. |
| `InvocationService.InvocationOperation.CarryOut` | ksadk/a2a/invocation_service.py:904-957 | A cancel of a finished call does nothing; an unsent one is closed and durable; otherwise the outcome is backed by a CANCELED task read back, or put on the public descriptor. |
| `InvocationService.InvocationOperation.NoteRequest` | ksadk/a2a/invocation_service.py:948-957 | The request is put on the public descriptor as unknown or unsupported without changing its status. |
| `InvocationService.InvocationOperation.Cancel` | ksadk/a2a/invocation_service.py:904-972 | Each outcome has its evidence, from this very call: before send means unsent, closed and no sends at all; remote means CANCELED was read back; already terminal means a terminal snapshot, and if it was there before nothing is written; unknown and unsupported are on the public descriptor. Every settled outcome clears the request. |
| `InvocationService.InvocationOperation.CancelVerdict` | ksadk/a2a/invocation_service.py:958-972 | A settled outcome clears the request, an unknown one leaves it; the result is the current handle and snapshot, and its own validator may turn it down. |
| `InvocationService.InvocationOperation.CancelDelivery` | ksadk/a2a/invocation_service.py:635-646 | A delivery reports only facts of the log and is terminal exactly when the call has ended; the request was carried out. |
| `InvocationService.InvocationOperation.ServeCancel` | ksadk/a2a/invocation_service.py:700-707 | A cancel request met while observing stops the observation when it ended the call, and only at a boundary. |
| `InvocationService.InvocationOperation.ObserveBound` | ksadk/a2a/invocation_service.py:699-719 | Observation stops only at a terminal or paused snapshot. |
| `InvocationService.InvocationOperation.ReplayComplete` | ksadk/a2a/invocation_service.py:219-235 | The replay check passes if and only if the last closing fact carries the descriptor and the last completion of each referenced item has the part. |
| `InvocationService.InvocationOperation.TerminalReplay` | ksadk/a2a/invocation_service.py:210-236 | For every closed state with its spool out, the replay is the whole log and passes its check; the "fact required" error means that the check fails, and never occurs where operations stop at a failed save. |
| `InvocationService.StateReplays` | ksadk/a2a/invocation_service.py:210-236 | Where operations stop at a failed save, the log has the facts for whatever an operation has in memory once its spool is out. |
| `InvocationService.InvocationOperation.RecoverBound` | ksadk/a2a/invocation_service.py:721-735 | A new consumer gets every fact published before, each delivered once, then observation to a boundary; where operations stop at a failed save, no fact is ever missing. |
| `InvocationService.ReceiptFits` | ksadk/a2a/invocation_service.py:525-527 | Turning an unsent, open state into "possibly sent" is a save that grants one send. |
| `InvocationService.InvocationOperation.EnterSend` | ksadk/a2a/invocation_service.py:525-527 | "Possibly sent" is durable, and its receipt held, before the wire is entered. |
| `InvocationService.InvocationOperation.OpenMessage` | ksadk/a2a/invocation_service.py:525-536 | When it returns, the call says "possibly sent" and the token is among those sent; the wire is entered at most once, for that token, on the receipt saved before. |
| `InvocationService.InvocationOperation.CloseBeforeSend` | ksadk/a2a/invocation_service.py:505-513 | A cancel request met before sending leaves a row closed and unsent, for good, no send, and the request cleared. |
| `InvocationService.InvocationOperation.CancelInsteadOfSend` | ksadk/a2a/invocation_service.py:505-518 | Before the send a cancel request closes an unsent call for good; for a call already sent it is carried out remotely, ending the call or noted on its descriptor. |
| `InvocationService.InvocationOperation.CheckFlag` | ksadk/a2a/invocation_service.py:658-660 | The cancel flag is read unless a request was served for the task locators known now, and reported as it stood. |
| `InvocationService.InvocationOperation.NextNative` | ksadk/a2a/invocation_service.py:648-671 | Each turn brings a native report, or a cancel request carried out that is terminal exactly when the call has ended. The flag is read unless it was served for the same task locators; a request is carried out only when it was found set, once for these locators, and a report is handed on only after it was found clear. |
| `InvocationService.InvocationOperation.PauseCall` | ksadk/a2a/invocation_service.py:582-593 | A paused task leaves the input-required descriptor and the matching snapshot. |
| `InvocationService.InvocationOperation.TakeNative` | ksadk/a2a/invocation_service.py:560-600 | A report is terminal exactly for an ended task state, and a direct answer exactly for a message while no task is bound. |
| `InvocationService.InvocationOperation.ReceiveOnce` | ksadk/a2a/invocation_service.py:540-600 | One arrival is taken in; the stream goes on unless it ended or a cancel request settled the call. |
| `InvocationService.InvocationOperation.Receive` | ksadk/a2a/invocation_service.py:540-600 | The stream is followed to its end, or until a cancel request has settled the call. |
| `InvocationService.InvocationOperation.Conclude` | ksadk/a2a/invocation_service.py:601-621 | After the stream: a bound task is observed to a boundary, a direct answer completes the call, an unconfirmed one is recorded as unknown. |
| `InvocationService.InvocationOperation.Converse` | ksadk/a2a/invocation_service.py:525-621 | A conversation that returns has entered the wire once, for its token, which is among those sent, and has nothing left to publish. |
| `InvocationService.InvocationOperation.Send` | ksadk/a2a/invocation_service.py:503-621 | A send that returns either entered the wire once, for its token, which is then among those sent, after the cancel flag was found clear; or it entered it not at all, after the flag was found set, and the call is closed unsent for good, or, when it had been sent before, the cancel was carried out. |
| `InvocationService.InvocationOperation.SaveRequest` | ksadk/a2a/invocation_service.py:384-388 | The request and "not sent" are durable before approval is asked for; if that save fails, the call may still be saved as not sent. |
| `InvocationService.InvocationOperation.Prepare` | ksadk/a2a/invocation_service.py:392-411 | Preparation pins the platform task, and the remote task exactly when the control plane knows one. |
| `InvocationService.InvocationOperation.Introduce` | ksadk/a2a/invocation_service.py:412-419 | Afterwards the log has a descriptor fact of the scope, and the call is still open. |
| `InvocationService.InvocationOperation.Dispatch` | ksadk/a2a/invocation_service.py:412-431 | A call the control plane already bound is observed to a boundary without touching the wire; any other enters it once and is sent, or is closed and never sent. |
| `InvocationService.InvocationOperation.Explain` | ksadk/a2a/invocation_service.py:432-499 | A failed call that may have been sent ends as unknown with its failure told and the public call failed; the failure is then raised as it was. |
| `InvocationService.InvocationOperation.TellUnknown` | ksadk/a2a/invocation_service.py:443-498 | Both failure facts are in the log and handed out in that order, and the public call is failed. |
| `InvocationService.InvocationOperation.Attempt` | ksadk/a2a/invocation_service.py:384-501 | An attempt that returns entered the wire once and sent its message, or not at all and has stopped at a boundary or closed the call for good; one whose first save failed leaves nothing of the call but its state, to be saved once more. |
| `InvocationService.InvocationOperation.InvokeAgain` | ksadk/a2a/invocation_service.py:339-368 | Re-invoking a finished call saves and publishes nothing and hands out every fact; a call that is finished, possibly sent or bound never enters the wire; what returns is sent, at a boundary, unknown, or closed unsent for good. |
| `InvocationService.InvocationOperation.RecoverKnown` | ksadk/a2a/invocation_service.py:347-366 | Recovery ends at a boundary, or without any binding with an unknown outcome. |
| `InvocationService.InvocationOperation.ContinueAgain` | ksadk/a2a/invocation_service.py:838-851 | A continuation token used before is recovered to a boundary, never sent again. |
| `InvocationService.InvocationOperation.KeepContinuation` | ksadk/a2a/invocation_service.py:854-858 | The continuation is in the row the operation saved before it is approved, or conflicts with another kept one. |
| `InvocationService.InvocationOperation.BindContinuation` | ksadk/a2a/invocation_service.py:861-876 | The task the caller names is still the bound one. |
| `InvocationService.InvocationOperation.ContinueBody` | ksadk/a2a/invocation_service.py:859-882 | A new continuation notes its token and is then no longer pending; the token is sent after the cancel flag was found clear, or recorded unsent after it was found set and the cancel was carried out. One that does not return may leave the token noted, sent or not, and is then still kept. |
| `InvocationService.InvocationOperation.SendContinuation` | ksadk/a2a/invocation_service.py:877-880 | The message of a noted token is sent after the cancel flag was found clear, or withheld after it was found set; only then is the continuation no longer kept. |
| `InvocationService.InvocationOperation.ContinueAfresh` | ksadk/a2a/invocation_service.py:852-882 | A new continuation is kept before it is approved; it ends as a send, or as a cancel carried out instead; cut short, it may leave its token noted and is then still kept. |
| `InvocationService.InvocationOperation.Continue` | ksadk/a2a/invocation_service.py:829-882 | A token used before changes neither tokens nor "sent", never enters the wire and ends at a boundary; with another digest it is refused and nothing is written; a new one ends as a send or as a cancel carried out instead; cut short, it leaves the tokens as they were, or the new one among them and the continuation kept; a finished call is only replayed. |
| `InvocationService.InvocationOperation.GetSnapshot` | ksadk/a2a/invocation_service.py:789-804 | A call finished without a send is answered without any step; a terminal snapshot is never replaced. |
| `InvocationEntry.Service.Resume` | ksadk/a2a/invocation_service.py:184-189 | Restoring and flushing changes nothing about the call but the snapshot a closed one lacked, and leaves the spool out. |
| `InvocationEntry.Service.Leave` | ksadk/a2a/invocation_service.py:193-200 | Whatever the operation came to, its state is saved once more and the lease let go; the outcome is kept if that save succeeds, and replaced by its failure otherwise. |
| `InvocationEntry.Service.Invoke` | ksadk/a2a/invocation_service.py:317-336 | An invocation that returns left the request durable and entered the wire at most once, for its token; a call that was finished, possibly sent or bound before does not enter it, and all facts of a finished one are handed out; otherwise the call was sent, is at a boundary, unknown, or closed unsent for good. The durable row follows the one before. |
| `InvocationEntry.Service.Continue` | ksadk/a2a/invocation_service.py:824-827 | A continuation that returns left its token on record; it was sent just now, or the call is at a boundary, tells of a cancel, or is closed unsent for good. Whether it returns or not, the last save adds to the row's tokens nothing or this one, and one that did not return is then still kept. A token on record before is never sent again, and with another digest it is refused. |
| `InvocationEntry.Service.Get` | ksadk/a2a/invocation_service.py:785-787 | The snapshot returned is the durable one, and the durable row follows the one before. |
| `InvocationEntry.Service.Cancel` | ksadk/a2a/invocation_service.py:884-902 | Whatever interferes and whichever saves fail, the outcome returned is proved: closed and unsent for good, CANCELED read back during this call, or a terminal snapshot. Only serial instances are needed. |
| `InvocationEntry.Service.CancelWhileBusy` | ksadk/a2a/invocation_service.py:887-902 | While another worker holds the lease the wish is recorded, and only "already terminal" or "unknown" is claimed. |
| `ArtifactStream.CoalescingIsFaithful` | ksadk/a2a/executor.py:72-153 | For every sequence of updates and every clock, a reader of the closed stream has for each artifact the text that the updates give one by one. |
| `ArtifactStream.PushReplays` | ksadk/a2a/executor.py:87-114 | One push keeps: wire replayed plus what is pending equals the updates applied directly. |
| `ArtifactStream.NeverMoreUpdates` | ksadk/a2a/executor.py:75-153 | The wire never has more updates than were pushed. |
| `ArtifactStream.StretchVolume` | ksadk/a2a/executor.py:100-114 | On a stretch of additions to one artifact with no interval flush, T characters take at most 2 * floor(T / 512) + 2 updates. |
| `ArtifactStream.StretchVolumeAfterAnother` | ksadk/a2a/executor.py:100-114 | The same bound in the middle of a run, one more for the artifact left behind. |
| `ArtifactStream.EveryArtifactIsClosed` | ksadk/a2a/executor.py:116-123 | After close, the last update of every artifact is marked as last, however often artifacts alternate. |
| `ArtifactStream.ArtifactStreamEmitter.Emit` | ksadk/a2a/executor.py:125-153 | An update goes out as replacement or as first or later chunk of its artifact, flagged only for text snapshots. |
| `ArtifactStream.ArtifactStreamEmitter.Push` | ksadk/a2a/executor.py:87-114 | The emitter object makes exactly the transition and the updates of the specification. |
| `ArtifactStream.ArtifactStreamEmitter.Close` | ksadk/a2a/executor.py:116-123 | Closing flushes what is pending, marked as last. |
| `ArtifactFeeder.ReadersHaveEveryItem` | ksadk/a2a/executor.py:569-617 | For every interleaving of additions, replacements, completions and snapshots over any items and parts, a reader has each message item as its parts in first-seen order, and no other message item. |
| `ArtifactFeeder.StepShows` | ksadk/a2a/executor.py:575-617 | One event keeps that, although most events are fed as a delta only. |
| `ArtifactFeeder.ExtendingTheLast` | ksadk/a2a/executor.py:575-588 | Adding to the last part adds the same to the joined text, which is why a delta suffices. |
| `ArtifactFeeder.Feeder.OnEvent` | ksadk/a2a/executor.py:553-618 | Each event leads to at most one pushed update and to the next item table. |
| `ArtifactFeeder.Feeder.OnUpdate` | ksadk/a2a/executor.py:553-588 | An update extends or replaces one part; a delta is pushed alone when the part is the last, the joined text otherwise. |
| `ArtifactFeeder.Feeder.OnSnapshot` | ksadk/a2a/executor.py:590-618 | A snapshot replaces the item's parts and is pushed as the joined text. |
| `ArtifactFeeder.Feeder.Drain` | ksadk/a2a/executor.py:553-622 | A run fed event by event and closed leaves on the wire what shows exactly the item table. |
| `DeltaClient.DeltasInvertSnapshotsExactly` | ksadk/a2a/langgraph.py:140-155 | The written text follows the artifact at every update if and only if no flagged snapshot properly goes on from a nonempty text. |
| `DeltaClient.OneUpdate` | ksadk/a2a/langgraph.py:243-265 | Exactly that kind of update is misread: its event carries only the rest of the text with replace set. |
| `DeltaClient.CompletedTextLosesItsBeginning` | ksadk/a2a/langgraph.py:253-256 | Counterexample across both sides: a streamed message completed with a longer text is written without its beginning. |
| `DeltaClient.ItemReachesTheWriter` | ksadk/a2a/langgraph.py:140-155 | From runtime events to the writer: a single message item arrives as its parts in order as long as no update is misread. |
| `DeltaClient.ReplayIsAccumulated` | ksadk/a2a/langgraph.py:243-257 | What the client accumulates for one artifact is what replaying the wire gives. |
| `DeltaClient.Reader.EventsFromArtifact` | ksadk/a2a/langgraph.py:207-265 | Parsing an artifact groups neighbouring parts of a kind and emits the events and snapshots of the specification. |
| `DeltaClient.Reader.ConvertOne` | ksadk/a2a/langgraph.py:243-265 | One group yields its delta and its replacement flag and updates the text known for its artifact and kind. |
| `DeltaClient.ReadAll` | ksadk/a2a/langgraph.py:140-155 | Reading and folding all updates of an artifact gives its accumulated text unless one was misread. |
| `ModelSse.FollowsTheStandard` | ksadk/_model_sse.py:44-85 | For every text the framer emits the frames, and is left with the buffers and the unfinished line, of a line-by-line reading of sections 9.2.5 and 9.2.6 of the WHATWG HTML Living Standard. |
| `ModelSse.ChunksDoNotMatter` | ksadk/_model_sse.py:44-62 | However a text is cut, empty chunks and cuts inside CR LF included, frames and state are those of the whole. |
| `ModelSse.UnfinishedExactlyWhenAFrameIsOpen` | ksadk/_model_sse.py:87-90 | finish rejects exactly the states in which two line feeds would complete one more frame. |
| `ModelSse.RoundTrip` | ksadk/_model_sse.py:44-90 | Printed frames, with any line end, cut anywhere and fed, come back as they were, and the end is then accepted. |
| `ModelSse.DispatchInterprets` | ksadk/_model_sse.py:64-85 | One line does to the list of data lines what the standard does to its data buffer. |
| `ModelSse.Framer.Line` | ksadk/_model_sse.py:64-85 | The object's line step is the specified one. |
| `ModelSse.Framer.Scan` | ksadk/_model_sse.py:50-62 | The loop over line ends takes the chunk as the character automaton does. |
| `ModelSse.Framer.Feed` | ksadk/_model_sse.py:44-62 | Feeding a chunk, after a CR or not, moves to the state and emits the frames of the automaton. |
| `ModelSse.Framer.Finish` | ksadk/_model_sse.py:87-90 | The end is accepted exactly when no frame is open. |
| `ModelSse.Decode` | ksadk/_model_sse.py:93-104 | Within the byte budget the frames are those of the whole text and the end is judged; beyond it, exactly the frames of the chunks that fit. |
| `Markdown.RepairIsIdempotent` | ksadk/markdown.py:9-32 | Repairing twice is repairing once, for every text and every notion of digit. |
| `Markdown.RepairedIsClosed` | ksadk/markdown.py:106-118 | The fence scan of the repaired lines ends closed. |
| `Markdown.RepairOnlyAdds` | ksadk/markdown.py:45-118 | Without the inserted blank lines and the closing marker the repaired lines are the normalised, trimmed input, and no blank line was inserted inside a fence. |
| `Markdown.GappedSeparates` | ksadk/markdown.py:45-103 | After spacing, no two neighbouring lines outside a fence clash, and fences open and close as before. |
| `Markdown.SeparatedStays` | ksadk/markdown.py:45-103 | Lines that already keep apart are left as they are. |
| `Markdown.NoGapInsideFence` | ksadk/markdown.py:57-77 | Each inserted blank line stands where the scan is outside any fence. |
| `Markdown.OriginalsKept` | ksadk/markdown.py:45-85 | Dropping the inserted lines gives the lines back. |
| `Markdown.MarkerIsFence` | ksadk/markdown.py:136-146 | The appended marker is itself a fence of the open one's mark and length. |
| `Markdown.FenceMarker` | ksadk/markdown.py:136-146 | The two loops find the leading run of three or more fence characters. |
| `Markdown.PlaceLine` | ksadk/markdown.py:53-77 | One line is placed with a blank line before it exactly where it clashes with the one before. |
| `Markdown.LookAhead` | ksadk/markdown.py:77-83 | A paragraph behind a table or a list gets its blank line now, and none when its own turn comes. |
| `Markdown.Advance` | ksadk/markdown.py:51-83 | One turn of the loop places one line and keeps: what is placed plus the rule applied to the rest is the rule applied to all. |
| `Markdown.NormalizeBlockSpacing` | ksadk/markdown.py:45-85 | The loop with its look-ahead inserts exactly the blank lines of the neighbour rule. |
| `Markdown.StripTerminalEmptyLines` | ksadk/markdown.py:35-42 | Both ends are trimmed of empty lines. |
| `Markdown.CloseUnclosedFence` | ksadk/markdown.py:106-118 | A marker is appended exactly when the scan ends inside a fence. |
| `Markdown.RepairMarkdown` | ksadk/markdown.py:9-32 | The entry point: nothing for None, the text itself when disabled, else the repair. |
| `TextLines.SplitJoin` | ksadk/markdown.py:26-32 | Cutting joined lines gives the lines back. |
| `JsonGuard.GuardIsExact` | ksadk/a2a/external_transport.py:233-264 | For every JSON value and every way to render it, the guard accepts if and only if it nests at most 64 levels from the start and every raw string body with its closing quote fits in 1 MiB, and is then back at its first depth outside any string. |
| `JsonGuard.ChunkedTextIsExact` | ksadk/a2a/external_transport.py:242-264 | The same for a whole text with white space around it, cut into chunks of any size. |
| `JsonGuard.ScanQuoted` | ksadk/a2a/external_transport.py:244-254 | A rendered string, escapes included, is accepted exactly when its raw body and closing quote fit. |
| `JsonGuard.Nested` | ksadk/a2a/external_transport.py:258-264 | An array or object costs one level and gives it back. |
| `JsonGuard.ChunksDoNotMatter` | ksadk/a2a/external_transport.py:242-264 | Observing chunk by chunk is observing the whole. |
| `JsonGuard.JsonPayloadLimits.Observe` | ksadk/a2a/external_transport.py:242-264 | Observing a chunk fails exactly when the scanner rejects it, and otherwise moves to its state. |
| `JsonGuard.BoundedResponseStream.Iterate` | ksadk/a2a/external_transport.py:202-227 | Chunks are handed on while they are in time, within the size and accepted; the first that is not never is, and each ending has exactly its cause. |
| `InboundKernel.ResumingIsSeamless` | ksadk/a2a/inbound_kernel.py:84-133 | On any session log, stopping at every wait and resuming from the kept cursor and run yields exactly the uninterrupted stream and its ending, however often the run waits. |
| `InboundKernel.OutputIsOneRun` | ksadk/a2a/inbound_kernel.py:110-132 | The output is one run in strictly increasing order behind the cursor; it ends normally exactly at a boundary, and no boundary comes earlier. |
| `InboundKernel.NothingOfTheRunIsMissed` | ksadk/a2a/inbound_kernel.py:110-132 | Once the run is bound, every fact of it up to the end is handed on, in order. |
| `InboundKernel.RedeliveryChangesNothing` | ksadk/a2a/inbound_kernel.py:111-114 | Facts of the session that are delivered again change neither output nor ending. |
| `InboundKernel.WaitSplits` | ksadk/a2a/inbound_kernel.py:122-132 | Where a stopping stream waits, an unstopped one goes on from the same view. |
| `InboundKernel.WaitingIsProgress` | ksadk/a2a/inbound_kernel.py:103-110 | Each resumption starts behind the wait, with the bound run, and has less of the log before it. |
| `InboundKernel.Examine` | ksadk/a2a/inbound_kernel.py:111-121 | One fact is skipped, handed on or ends the stream as specified. |
| `InboundKernel.StreamFacts` | ksadk/a2a/inbound_kernel.py:84-133 | The loop, its checks first, computes the specified stream. |
| `KernelReconciler.Reconciler.ReconcileOnce` | ksadk/a2a/product_kernel_facts.py:92-177 | After any page, whatever fails, no scan cursor has passed an eligible fact that is not acknowledged; cursors advance, or are dropped at the end of a sweep that never met their task; a working scan of one task is not lost to another's failure. |
| `KernelReconciler.Reconciler.ScanPage` | ksadk/a2a/product_kernel_facts.py:103-165 | A broken task does not keep the others of the page from being scanned: every scan that works leaves a cursor, cursors only advance, and the sweep has met exactly the valid items. |
| `KernelReconciler.Reconciler.EndSweep` | ksadk/a2a/product_kernel_facts.py:168-177 | The end of a sweep drops the cursors of exactly the tasks it never met. |
| `KernelReconciler.Reconciler.ScanTask` | ksadk/a2a/product_kernel_facts.py:104-163 | The cursor moves only forward, only for its own task and only after its report was acknowledged, and past at least one fact when one arrives. |
| `KernelReconciler.Reconciler.ReadStream` | ksadk/a2a/product_kernel_facts.py:126-151 | What is picked are exactly the eligible facts among those read, at most 100, of at most 1000 read. |
| `KernelReconciler.Reconciler.Report` | ksadk/a2a/product_kernel_facts.py:152-162 | A report that fails leaves the cursor, one that is answered settles what was read. |
| `KernelReconciler.Reconciler.CatchUp` | ksadk/a2a/product_kernel_facts.py:92-162 | On a log that stands still, scans that each see at least one fact end with every eligible fact acknowledged after at most as many scans as there are facts. |
| `KernelReconciler.ReadingSettles` | ksadk/a2a/product_kernel_facts.py:138-162 | Acknowledging what was picked leaves nothing owed up to the last fact read. |
| `KernelReconciler.SettledLater` | ksadk/a2a/product_kernel_facts.py:124-125 | A settled cursor stays settled while logs grow at their ends. |
| `CodexMerge.EmitsReturnInOrder` | ksadk/a2a/codex_runtime.py:55-58 | In every interleaving an emit returns only after its event was consumed, and events of one producer are consumed in the order it emitted them. |
| `CodexMerge.CallsStartBehindTheirTriggers` | ksadk/a2a/codex_runtime.py:60-69 | No expert call starts before its trigger event was consumed, and each call key has one task, started at most once. |
| `CodexMerge.OnlyStartedCallsEmit` | ksadk/a2a/codex_runtime.py:60-91 | Only recovered calls and calls that have started ever emit. |
| `CodexMerge.RecoveryComesFirst` | ksadk/a2a/codex_runtime.py:121-128 | The native stream is not pulled before every recovered call is over. |
| `CodexMerge.EndMeansEverythingNative` | ksadk/a2a/codex_runtime.py:128-150 | A stream that ends normally has handed on every native event in native order. |
| `CodexMerge.NeverStuck` | ksadk/a2a/codex_runtime.py:178-198 | Until the stream is over some step is possible without cancelling or closing: the consumer, the pump, or a task that the pump or the native side waits for. |
| `CodexMerge.RunKeepsInv` | ksadk/a2a/codex_runtime.py:36-69 | Over every interleaving: order per producer, gated calls, one task per key, recovery first, one message per producer in flight. |
| `CodexMerge.OrderedStep` | ksadk/a2a/codex_runtime.py:55-58 | Each step keeps one producer's emitted, in-flight and consumed events in line. |
| `CodexMerge.TasksStep` | ksadk/a2a/codex_runtime.py:129-140 | Each step keeps one task per call key. |
| `CodexMerge.TriggersStep` | ksadk/a2a/codex_runtime.py:141-148 | A trigger is noted only behind its consumed event. |

## Left out

- Sending without a checkpoint store: the at-most-once guarantee rests on lease and reload.
- Waiting for a lease during recovery, its time limit, and the 16 MiB limit of a saved row.
- Timeouts and deadlines as such: an await that runs out of time is one that raises.
- Restore checks of adapter context and spooled events against the scope: the model's events and context carry no scope of their own.
- The canonical event adapter beyond what the service relies on: numbering, one completion per item, the kinds of events it reports.
- Message normalisation, sizes and digests, field lengths and patterns of the frozen contracts.
- `original_request`, `pending_continuation`, `pending_input_request`, `snapshot` and `replay` of the service: lookups that add nothing to the operations modelled.
- Identity, credential and policy checks, secret scanning, network, database and protobuf plumbing.
- Routing of persisted fact batches by schema in `ProductKernelFactSink` and `enqueue_product_kernel_fact`: field selection only.
- Parsing of inbound submissions and of verified messages: branch-by-branch validation.
- Byte order marks and UTF-8 decoding in front of the framer, and its idle timer: it is fed text.
- The metadata on wire parts other than the snapshot flag, and the artifact names.
- Cancellation details of the Codex merge teardown: closing ends all tasks in one step.
- CodexMerge.NeverStuck: takes for granted that an expert call at work eventually makes a step, and that the native side waits only for calls whose trigger item it has handed out, because both are the business of code that is not part of this model.
- KernelReconciler.Reconciler.CatchUp: considers a log that stands still and a server that answers, because a growing log has no last fact.
- InvocationService.InvocationOperation.Authorize: does not record what was approved, because policy decisions are inputs of the model.
