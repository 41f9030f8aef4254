# Looma: what holds of the distributed inference node

Looma serves one language model from several machines. A head batches its clients' requests, runs the
first layers and sends the batch down a chain of stages; an agent on every machine keeps itself up to
date, moves messages between machines and runs tasks on the local cards. This project models five parts
of it in Dafny and proves what each is for:

* **The pipeline** (`Transformer`, `Sequences`, `BatchWire`, `Scheduling`, `Engines`, `Heads`, `Pipeline*`,
  and the classes in `Scheduler`, `Executor`, `Head`, `Stage`). Layers, embeddings, the output head and the
  sampler are uninterpreted functions. The reference is one request on one machine (`Transformer.Alone`).
  Clients submit and cancel at any moment; the network delays, reorders and loses every message and
  repeats answers. The main result is that batching, gluing, cutting and splitting over stages are
  invisible: in every run, what a ticket is given is what that request alone could have been given, unless
  that request itself lost a slot to somebody else, whoever else did. Queue, tickets, rounds, how every
  answer ends (`PipelineLedger`, `PipelineBounds`) and where slots come from and go (`PipelineSlots`) are
  proved of everybody in every run; how many places are enough in `PipelineHeadRoom` and `PipelineEviction`,
  and exactly what a later stage leaks in `PipelineLeaks`.
* **Self-update** (`Versions`, `Payloads`, `SelfUpdate*`, `Launcher`, `Updater`). Runs of agent and launcher
  with exits, refusals, rollbacks and relaunches: a rollback is exactly the third failure in a row, lands
  on something that worked, never happens twice to one version, and never outnumbers installations.
* **Links** (`Links`, `LinkRuns`, `LinkWitnesses`, `LinkTable`). Direct or relayed, with acknowledgements
  that come late or never and a directory that changes under the senders: exactly which messages are lost,
  which arrive twice, and when the counters are off by one.
* **Task registry** (`Devices`, `RegistryRuns`, `RegistryReuse`, `TaskRegistry`). Cards and environment
  leases under any interleaving of submissions, undos, reapers, releases and recounts, and exactly when a
  name may be used again.
* **Loading** (`LayerPlan`, `ShardKeys`, `Experts`, `Inputs`, `Receiving`). Layer shares that add up, one
  owner for every tensor, counting that implies covering, and interleaved files that come out whole.

Code that changes things in place is modelled by classes whose methods are proved against functions on
values; the theorems about runs are proved of those functions. `HeadRefinement` proves that what the
head's methods do is a path of the pipeline's state machine.

`dafny verify dfyconfig.toml` checks everything.

## Where the code and its promises part

Each of these is stated with its exact condition, or with a concrete run that shows it.

* A full stage evicts its oldest request, although `pipeline.py:8` promises a refusal instead. The head is
  built with as many places as its scheduler (`server.py:904`, `server.py:1106-1114`), and it releases and
  selects in two steps, so a cancel in between can cost a live request its cache. A step costs somebody a
  slot iff its stage has no place for everybody (`PipelinePlaces.SlotsAreLostForWantOfPlaces`). Let `m` be
  the scheduler's limit, `b` its token budget, and `s > 0` the most cancels that are half-way at once. With
  any number of later stages, if some first token does not end its answer, the head evicts in no run iff
  it has `m + s + min(m, b)` places (`PipelineEviction.PlacesForTwoQueues`), and in no run costs a request
  that waits or runs its slot iff `m` is one or it has `m + s + min(m - 1, b)`
  (`PipelineEviction.PlacesForTheLiving`); with fewer, as with the `m` it is built with, one that is being
  answered can lose it (`PipelineEviction.EvictionHitsTheLiving`).
* A later stage that handles a message after everybody let go of its member makes a slot nobody ever frees.
  Of a member that was let go of and never evicted, a later stage holds a slot iff it computed on such a
  message, or failed on one and left it a slot (`PipelineLeaks.LateMessagesLeak`), and with two machines or
  more some run comes to that (`PipelineLateMessage.AMessageComesTooLate`). Let go of means here that no
  `free` for it is on its way to that stage. One that never arrives leaves the slot as well
  (`PipelineLeaks.UndeliveredFreesLeak`). The head leaks nothing in any run
  (`PipelineSlots.HeadLeaksNothing`).
* A member with a limit of zero comes back from the wire with a limit of 128
  (`BatchWire.PrefillRoundTripIsExact`). Later stages do not look at the limit, so no answer changes.
* The direct path can lose a message, although `links.py:16-20` promises that it never does. A sender takes
  the lock once to choose the way and again to look its peer up; if the pipeline's rows are replaced or
  dropped in between, it raises before and after the fallback, and nobody relays or counts the message. A
  message is lost iff its row is gone at the look-up (`LinkRuns.LostIffRowIsGone`,
  `LinkRuns.LossNeedsNewRows`, `LinkWitnesses.AMessageIsLost`).
* A message whose acknowledgement is only late arrives twice, directly and by the relay
  (`LinkRuns.OnceUnlessLateOrLost`, `LinkWitnesses.AMessageArrivesTwice`).
* The direct-path counter can be clamped at zero and the counters then claim a message too many: when a
  message that was not acknowledged is settled while everything else handed over was given up or is not
  counted yet (`LinkRuns.WhenTheClampBites`, `LinkWitnesses.TheClampBites`).
* With two releases pending, both installed in one go, the payload to fall back to never ran, unless the
  first of them had registered before (`SelfUpdateTheorems.FloorWithTwoPending`).
* A task name used again can lose its entry, and its cards to somebody else, unless every reaper and
  release of its earlier bearers is through (`RegistryReuse.NamesMayComeBack`,
  `RegistryReuse.ReusedNamesShareCards`), and can be stopped by the reaper of an earlier bearer unless all
  of those have ended (`RegistryReuse.NobodyStopsTheNext`). A release that gives up waiting for the process
  leaves two tasks at work on one card (`RegistryRuns.WorkersHoldTheirCards`,
  `RegistryRuns.HastyReleaseSharesCards`).
* With no layers at all, the repair of the shares ends with a share of -1 unless the largest card is the
  first (`LayerPlan.Settle`); the plan that comes of it is still right.
* A checkpoint that keeps its embeddings under a prefix other than `model.` or none cannot serve a tied
  output head: the last stage refuses to start (`Experts.LoadWeights`, `Experts.EmbeddingsNeedAKnownPrefix`,
  `ShardKeys.TiedEmbeddingsNeedAKnownPrefix`). A fused expert tensor that arrives whole is refused as well
  (`Experts.WholeIsRefused`).
* An expert that is in two files counts twice and can hide another that is in none: the stage starts with a
  row that was never written (`Experts.RepeatedExpertHidesAnother`, `Experts.WhenTheCountMisleads`).
* A declared input whose name is another's with the suffix of partial files loses its bytes or gets the
  other's, and everything is reported as received; this happens in some order of the pieces iff there are
  two such names (`Inputs.NamesMustBeApart`, `Inputs.OneFileGetsAnothersBytes`).
* A piece of an input file after its last piece leaves a partial file behind on success
  (`Inputs.PieceAfterLastIsLeft`, `Inputs.ReceivedIsOwn`).

## Model

| member | source | states |
|---|---|---|
| Transformer.StageFollowsAlone | payloads/looma_stage/looma_stage/executor.py:119-191 | a stage that holds what the one-machine run holds in its layers, and gets the rows that run emits below them, ends holding what that run holds next and emits its rows |
| Transformer.RunLayersSplits | payloads/looma_stage/looma_stage/executor.py:150-191 | a stack of layers may be cut anywhere: running the parts in order gives the caches and rows of the whole |
| Transformer.ShallowCaches | payloads/looma_stage/looma_stage/executor.py:150-191 | deeper layers never change what the shallower ones hold |
| Transformer.EmittedLength | payloads/looma_stage/looma_stage/executor.py:265-299 | at every depth a step emits as many rows as it feeds tokens |
| BatchWire.Pack | payloads/looma_stage/looma_stage/batch_wire.py:42-63 | the member list carries name, prompt on the first step only, prompt length, output and parameters, in batch order |
| BatchWire.Unpack | payloads/looma_stage/looma_stage/batch_wire.py:66-94 | refuses an empty list and a nameless member, and else restores each member as a fresh sequence |
| BatchWire.RoundTrip | payloads/looma_stage/looma_stage/batch_wire.py:42-94 | unpacking what was packed keeps order, names, outputs, sampling, widths and computed lengths; the prompt on the first step, zeros of its length later |
| BatchWire.PrefillRoundTripIsExact | payloads/looma_stage/looma_stage/batch_wire.py:92 | a prefill batch comes back exactly iff no member has a limit of zero |
| BatchWire.CutUndoesGlue | payloads/looma_stage/looma_stage/executor.py:294-329 | cutting glued pieces at their lengths gives back exactly the pieces |
| BatchWire.PieceInGlue | payloads/looma_stage/looma_stage/executor.py:313-329 | the k-th piece lies in the glued rows between the sums of the widths before and up to it |
| Scheduling.FreshCountIsLongest | payloads/looma_stage/looma_stage/scheduler.py:147-164 | the loop takes the longest prefix that fits the places and the token budget, the first prompt in any case |
| Scheduling.PrefillIsLongestPrefix | payloads/looma_stage/looma_stage/scheduler.py:131-164 | a prefill batch is exactly the longest first-come prefix that fits, moved from the queue to the running set in order |
| Scheduling.ChoiceLeavesNobodyOut | payloads/looma_stage/looma_stage/scheduler.py:131-145 | with nobody finished still running, a decode batch is everybody who runs, nothing is cut off, and nothing is chosen only when nobody is left |
| Scheduling.AddKeepsSound | payloads/looma_stage/looma_stage/scheduler.py:102-113 | accepting a new name keeps waiting plus running within the limit, prompts within the budget and names distinct |
| Scheduling.FinishKeepsSound | payloads/looma_stage/looma_stage/scheduler.py:115-120 | dropping a request keeps that too and removes exactly its name |
| Scheduling.AcceptKeepsSound | payloads/looma_stage/looma_stage/scheduler.py:122-128 | recording a token keeps that too and moves nobody |
| Scheduling.NextBatchKeepsSound | payloads/looma_stage/looma_stage/scheduler.py:131-164 | choosing a batch keeps that too and loses nobody |
| Scheduling.DecodeIsNotStarved | payloads/looma_stage/looma_stage/scheduler.py:131-164 | in a row of prefill steps with nobody leaving, at most as many as there were free places come before a decode step, however many requests arrive |
| SchedulerClass.Scheduler.constructor | payloads/looma_stage/looma_stage/scheduler.py:93-100 | limits below one become one and nobody is queued |
| SchedulerClass.Scheduler.Add | payloads/looma_stage/looma_stage/scheduler.py:102-113 | refuses a prompt over the budget or a full house and changes nothing then; else the request is last in the queue, which stays sound as long as nobody in it has the same name |
| SchedulerClass.Scheduler.Finish | payloads/looma_stage/looma_stage/scheduler.py:115-120 | exactly that request leaves, the others keep their order and identity |
| SchedulerClass.Scheduler.Accept | payloads/looma_stage/looma_stage/scheduler.py:122-128 | the token is appended to the running request of that name in place, and to nobody else |
| SchedulerClass.Scheduler.Next | payloads/looma_stage/looma_stage/scheduler.py:131-145 | the batch and the queue afterwards are those of the specification, and its members are running objects |
| SchedulerClass.Scheduler.TakeFresh | payloads/looma_stage/looma_stage/scheduler.py:147-164 | the loop moves exactly the prefix the specification counts |
| Engines.MembersStayApart | payloads/looma_stage/looma_stage/executor.py:265-299 | every member of a batch that loses no slot on the way gets the rows and caches it would get alone, whoever else is evicted, and nobody outside the batch is touched but by losing its slot |
| Engines.RoomLosesNobody | payloads/looma_stage/looma_stage/executor.py:96-108 | with places for everybody in the batch nobody loses a slot |
| Engines.ForwardedAlone | payloads/looma_stage/looma_stage/executor.py:96-191 | one forward pass changes the slot of its request only, and the count by the positions fed |
| Engines.WhereFollowsAlone | payloads/looma_stage/looma_stage/executor.py:301-311 | on the step a request is due for, positions and tokens are those of the one-machine run |
| ExecutorClass.ShardExecutor.State | payloads/looma_stage/looma_stage/executor.py:96-108 | the slot of a request, made blank if it is not there, with the oldest evicted when the stage is full |
| ExecutorClass.ShardExecutor.Free | payloads/looma_stage/looma_stage/executor.py:110-112 | exactly that slot goes, and nothing happens if there is none |
| ExecutorClass.ShardExecutor.Forward | payloads/looma_stage/looma_stage/executor.py:119-191 | the layers run over the request's own cache and the count grows by the positions fed |
| ExecutorClass.ShardExecutor.SliceIncoming | payloads/looma_stage/looma_stage/executor.py:313-329 | the incoming rows are cut at the members' widths, or refused when they are missing or do not add up |
| ExecutorClass.ShardExecutor.RunMembers | payloads/looma_stage/looma_stage/executor.py:265-299 | the loop runs the members one after another, each on its own piece |
| ExecutorClass.ShardExecutor.StepBatch | payloads/looma_stage/looma_stage/executor.py:265-299 | one step cuts, runs and glues as specified, or fails without touching any slot |
| ExecutorClass.ShardExecutor.SampleBatch | payloads/looma_stage/looma_stage/executor.py:331-339 | the k-th token is sampled from the k-th row with the k-th member's parameters; another number of rows is refused |
| Heads.LiveIsUnique | payloads/looma_stage/looma_stage/scheduler.py:90-100 | one request per name, waiting or running but not both |
| Heads.ChosenLive | payloads/looma_stage/looma_stage/scheduler.py:131-164 | choosing a batch changes nobody and drops nobody |
| Heads.AcceptedLive | payloads/looma_stage/looma_stage/scheduler.py:122-128 | a recorded token changes exactly the request it was for |
| HeadClass.Head.constructor | payloads/looma_stage/looma_stage/pipeline.py:71-101 | a new head holds no ticket, owes no release and has told nobody anything |
| HeadClass.Head.Submit | payloads/looma_stage/looma_stage/pipeline.py:104-111 | a ticket is registered exactly when the scheduler takes the request on; the head stays valid when the name is new and the prompt is not empty |
| HeadClass.Head.Cancel | payloads/looma_stage/looma_stage/pipeline.py:113-127 | a request still known loses its ticket and its place and is put up for release; an unknown one changes nothing |
| HeadClass.Head.DrainReleases | payloads/looma_stage/looma_stage/pipeline.py:139-153 | everybody put up for release is freed on the head and, with later stages, announced to them, in order |
| HeadClass.Head.RunOnce | payloads/looma_stage/looma_stage/pipeline.py:176-199 | one round releases, selects, computes and settles everybody in batch order, and says whether there was anybody |
| HeadClass.Head.Step | payloads/looma_stage/looma_stage/pipeline.py:201-227 | the tokens of a step are sampled at the head if it is the last stage, and else come back from the tail |
| HeadClass.Head.RoundTrip | payloads/looma_stage/looma_stage/pipeline.py:229-265 | the batch goes out once, and the first answer under its own name decides; answers to other batches are passed over |
| HeadClass.Head.Deliver | payloads/looma_stage/looma_stage/pipeline.py:272-284 | the token is recorded and told, and the answer closed when it was the last; nobody else is touched |
| HeadClass.Head.End | payloads/looma_stage/looma_stage/pipeline.py:286-288 | the closing event is told, and the request leaves |
| HeadClass.Head.Fail | payloads/looma_stage/looma_stage/pipeline.py:290-295 | an error is told if anybody listens, and the request leaves |
| HeadClass.Head.Finish | payloads/looma_stage/looma_stage/pipeline.py:297-301 | ticket, place and slot are given up, the slot by way of the release list |
| HeadRound.Decided | payloads/looma_stage/looma_stage/pipeline.py:246-265 | tokens are accepted only from an answer that arrived under this batch's name with one token per member |
| StageClass.Stage.OnActivations | payloads/looma_stage/looma_stage/pipeline.py:326-368 | a stage sends exactly one message for a batch: the rows with the members as they came, the tokens, or an error |
| StageClass.Stage.OnFree | payloads/looma_stage/looma_stage/pipeline.py:370-374 | exactly that request's slot goes |
| HeadRefinement.DrainingIsAPath | payloads/looma_stage/looma_stage/pipeline.py:139-153 | releasing everybody is a path of the state machine |
| HeadRefinement.RoundOnOneStageIsAPath | payloads/looma_stage/looma_stage/pipeline.py:176-213 | on one stage, what `RunOnce` is proved to do is a path of the state machine from one idle state to the next |
| HeadRefinement.SendingIsAPath | payloads/looma_stage/looma_stage/pipeline.py:229-244 | with later stages, it sends the machine's message and goes on to wait, and settles by the first answer under its name |
| HeadRefinement.WaitingIsAPath | payloads/looma_stage/looma_stage/pipeline.py:246-265 | what is decided from the answers that arrived, tokens or failure, is a path of the machine to the end of the round |
| PipelineTheorems.InvariantHolds | payloads/looma_stage/looma_stage/pipeline.py:104-374 | every state of every run satisfies the invariant of the whole pipeline: queue, tickets, releases and rounds, and for whoever lost no slot also what streams, caches, messages and answers hold |
| PipelineTheorems.StepKeeps | payloads/looma_stage/looma_stage/pipeline.py:104-374 | every step of clients, head, stages and network keeps that invariant, with or without room |
| PipelineTheorems.NobodyIsEvicted | payloads/looma_stage/looma_stage/executor.py:96-108 | in a run in which every computing stage has places for its batch, nobody is ever counted as having lost a slot, so that what is said of the others holds of everybody |
| PipelineTheorems.BatchingIsInvisible | payloads/looma_stage/looma_stage/pipeline.py:176-301 | at any moment of any run, whoever else was evicted, the ticket of a request that lost no slot has been given tokens of that request's own one-machine run, fewer than its limit or all of them, then at most one closing event that says truly how it ended; and it is held, cancelled or closed |
| PipelineTheorems.NothingIsTakenBack | payloads/looma_stage/looma_stage/pipeline.py:272-301 | what a ticket was given is never taken back, and once the ticket is closed or cancelled nothing more is given |
| PipelineTheorems.TokensAreThoseOfOneMachine | payloads/looma_stage/looma_stage/pipeline.py:176-301 | with a sampler that draws nothing, the tokens of a request that lost no slot are a prefix of what one machine generates, and all of it once closed without an error |
| PipelineTheorems.PositionsNeverDrift | payloads/looma_stage/looma_stage/scheduler.py:74-83 | in any run, whoever is live, not awaited and lost no slot has exactly its computed length cached on every stage, and nothing before its prompt |
| PipelineTheorems.HeadFeedsTheNextPositions | payloads/looma_stage/looma_stage/executor.py:301-311 | in any run the head feeds every live member that lost no slot the positions right after those it holds |
| PipelineTheorems.StagesFeedTheNextPositions | payloads/looma_stage/looma_stage/pipeline.py:185-194 | so does every later stage for the current batch; and, evictions or not, a message of any other batch has no live member but one the head is failing |
| PipelineTheorems.AnswersAreNeverMisattributed | payloads/looma_stage/looma_stage/pipeline.py:246-265 | in any run tokens that are delivered came under the name of the round's own batch, one per member, and the k-th is one the k-th member's own run may sample if that member is live and lost no slot |
| PipelineLedger.NothingToComputeMeansNothingLeft | payloads/looma_stage/looma_stage/pipeline.py:176-184 | in any run, evictions or not: when nothing is selected nobody waits or runs, no ticket is held, and every request not cancelled has been told how it ended |
| PipelineLedger.StepLedger | payloads/looma_stage/looma_stage/pipeline.py:104-374 | every step, with or without room, keeps queue, tickets, releases, rounds and the form of everything told |
| PipelineLedger.AnswersEndRightly | payloads/looma_stage/looma_stage/pipeline.py:272-301 | in any run a stream is fewer tokens than the limit and none that ends it, or tokens up to the first that ends it or the limit and one closing event that says which, or fewer and an error |
| PipelineBounds.RoundsAreBounded | payloads/looma_stage/looma_stage/pipeline.py:176-199 | no run, evictions or not, begins more rounds than the sum of max(1, limit) over the requests it accepted |
| PipelineBounds.ClosedWorkloadsFinish | payloads/looma_stage/looma_stage/pipeline.py:176-199 | once nobody submits, the rounds that follow are at most the tokens still owed, in any run |
| PipelineHeadRoom.TidyHeadNeverEvicts | payloads/looma_stage/looma_stage/executor.py:96-108 | in any run in which the head selects only with places for a queue, the cancels half-way and a fresh batch, or with places for a queue and nothing to release and nobody half-way, it has a place for everybody in every batch and evicts nobody, whatever later stages do and in whatever order |
| PipelineRoom.TidyRunsNeverEvict | payloads/looma_stage/looma_stage/executor.py:96-108 | if moreover later stages handle only messages of the batch the head waits for, and after what they were asked to free, no stage ever evicts |
| PipelineRoom.TidyRunsAreInvisible | payloads/looma_stage/looma_stage/pipeline.py:176-301 | in such a run every ticket's stream is a transcript of that request alone |
| PipelineRoom.TidyRunsLeakNothing | payloads/looma_stage/looma_stage/pipeline.py:139-153 | in such a run whoever holds a slot on a later stage holds one on the head as well or is about to be freed there |
| PipelineSlots.HeadLeaksNothing | payloads/looma_stage/looma_stage/pipeline.py:113-153 | in any run, between any two steps, whoever holds a slot on the head, or is in its batch, runs, is being cancelled, or waits to be released |
| PipelineSlots.SlotsComeAndGo | payloads/looma_stage/looma_stage/executor.py:96-112 | in any run a step makes slots on a stage only for whom the stage works on, and those that go are of whom it frees or of somebody counted as evicted |
| PipelineEviction.EvictionHitsTheLiving | payloads/looma_stage/looma_stage/executor.py:100-105 | with any number of later stages, for every limit m above one, every s above zero and every capacity below m + s + min(m - 1, budget), if some first token does not end its answer, some run with at most s cancels half-way evicts from the head a request that runs, has its ticket and has been told tokens |
| PipelineEviction.PlacesForTwoQueues | payloads/looma_stage/looma_stage/executor.py:96-108 | with any number of later stages, if some first token does not end its answer, the head has places for its batch in every run with at most s > 0 cancels half-way iff there are m + s + min(m, budget) places |
| PipelineEviction.OneMachineHasPlaces | payloads/looma_stage/looma_stage/executor.py:96-108 | on one machine that is to say that no run takes the eviction branch |
| PipelineHeadRoom.LostWereThere | payloads/looma_stage/looma_stage/executor.py:96-108 | a step over a batch no longer than the stage has places takes nobody's slot that was not there before the step: what it makes is younger than all the old |
| PipelineLiving.LivingAreSpared | payloads/looma_stage/looma_stage/executor.py:96-108 | in any run of any model with any number of stages, any ending tokens and any budget, with at most s cancels half-way and m one or places for m + s + min(m - 1, budget), no step of the head costs anybody who waits or runs a slot, not even for a while |
| PipelineLiving.OneMachineSpares | payloads/looma_stage/looma_stage/executor.py:96-108 | on one machine nobody who waits or runs has ever lost a slot then |
| PipelineEviction.PlacesForTheLiving | payloads/looma_stage/looma_stage/executor.py:96-108 | with any number of later stages, if some first token does not end its answer, no run with at most s > 0 cancels half-way has a step of the head that costs somebody who waits or runs a slot iff m is one or there are m + s + min(m - 1, budget) places |
| PipelineJourney.Arrives | payloads/looma_stage/looma_stage/pipeline.py:229-265 | the message of a batch of one can always go on through all the stages that are left, whatever they hold and evict, and its answer be taken; with the right draw it is the token one machine samples then |
| PipelinePlaces.SlotsAreLostIff | payloads/looma_stage/looma_stage/executor.py:96-108 | a step over a batch costs somebody a slot, and somebody is counted as evicted, iff there are not places for everybody |
| PipelinePlaces.SlotsAreLostForWantOfPlaces | payloads/looma_stage/looma_stage/executor.py:96-108 | in any run a step that computes costs somebody a slot iff its stage lacks a place for somebody; one that raises only if it does; and those are the steps that count somebody as evicted |
| PipelinePlaces.EvictedWereAsked | payloads/looma_stage/looma_stage/executor.py:96-108 | in any run whoever is counted as evicted was asked for |
| PipelinePlaces.EvictedMeansLost | payloads/looma_stage/looma_stage/executor.py:96-108 | at any moment of any run nobody is counted as evicted iff no step has cost anybody a slot |
| PipelinePlaces.NobodyLosesWithoutEviction | payloads/looma_stage/looma_stage/executor.py:96-108 | a run in which nothing raises is without eviction iff nobody ever loses a slot, and iff nobody is counted as evicted at its end |
| PipelinePlaces.StagesNeverSeeAMismatch | payloads/looma_stage/looma_stage/batch_wire.py:97-109 | in any run the rows of every message a stage computes on add up to its members' widths |
| PipelineLeaks.LeaksComeLate | payloads/looma_stage/looma_stage/pipeline.py:326-374 | in any run, evictions or not, a slot on a later stage of somebody whom everybody has let go of was made by that stage on a message it handled after that |
| PipelineLeaks.LateMessagesLeak | payloads/looma_stage/looma_stage/pipeline.py:326-374 | in any run somebody whom everybody has let go of, and who was not evicted, has a slot on a later stage iff that stage computed on a message that names it after that, or failed on one and left it a slot |
| PipelineLeaks.UndeliveredFreesLeak | payloads/looma_stage/looma_stage/pipeline.py:370-374 | in any run whoever was let go of with a slot on a later stage has it until that stage handles the `free`, unless it is evicted there |
| PipelineLateMessage.AMessageComesTooLate | payloads/looma_stage/looma_stage/pipeline.py:326-374 | with two machines or more, a run without an eviction that ends with the second stage holding a slot of a request that was not cancelled, was told its end, and that nobody will free |
| Versions.NewerIsTotal | agent/looma_launcher/signature.py:130-145 | of two different version strings exactly one is newer, and none is newer than itself |
| Versions.NewerIsTransitive | agent/looma_launcher/signature.py:130-145 | newer than newer is newer |
| Versions.OrderIsInjective | agent/looma_launcher/signature.py:134-145 | different version strings have different orders, because every piece keeps its text |
| Versions.FirstDifferenceDecides | agent/looma_launcher/signature.py:134-145 | where two versions first differ, pieces with digits compare as numbers, and a longer version is newer |
| Launcher.Volume.Install | agent/looma_launcher/payload.py:156-189 | the oldest pending release is installed, refused for good, or skipped, and is gone in any case |
| Launcher.Volume.Unpack | agent/looma_launcher/payload.py:258-274 | a directory with an agent is kept; any other is replaced, and its health marker goes |
| Launcher.Volume.SwitchTo | agent/looma_launcher/payload.py:277-291 | `current` leads to the new payload and `previous` to the one it replaced, if that was there and another |
| Launcher.Volume.RollBack | agent/looma_launcher/payload.py:294-308 | `current` leads where `previous` does, or nowhere, and the payload to run is what it leads to |
| Launcher.Volume.Resolve | agent/looma_launcher/payload.py:86-100 | the payload `current` leads to, or the bundled one |
| Launcher.Volume.RememberRefusal | agent/looma_launcher/payload.py:123-135 | the version is refused from then on |
| Launcher.Supervisor.ApplyDownloaded | agent/looma_launcher/supervise.py:175-190 | the loop installs, switches to and runs every pending release in turn, and starts counting anew |
| Launcher.Supervisor.Turn | agent/looma_launcher/supervise.py:99-128 | a planned exit or a long life resets the counter, a quick exit counts and may roll back |
| Launcher.Supervisor.ConsiderRollback | agent/looma_launcher/supervise.py:192-223 | below three, bundled or once healthy nothing happens; else the version is refused and the floor restored |
| UpdaterClass.Updater.OnRelease | agent/looma_agent/update.py:149-175 | a download starts only for another version with an address that was not refused, and only one at a time |
| UpdaterClass.Updater.CarryOut | agent/looma_agent/update.py:177-208 | a manifest is left and the exit planned exactly when the release arrived and updates are possible |
| UpdaterClass.Updater.StepAside | agent/looma_agent/update.py:121-141 | the exit code becomes the planned one |
| SelfUpdateTheorems.PreviousHasRegistered | agent/looma_launcher/payload.py:50-52 | in every reachable state the payload to fall back to is unpacked and has registered |
| SelfUpdateTheorems.RollbackLandsOnWhatWorked | agent/looma_launcher/supervise.py:192-223 | a rollback lands on the bundled agent or one that registered, never on the failing one, which is refused |
| SelfUpdateTheorems.RollbackIsTheThirdFailure | agent/looma_launcher/supervise.py:99-128 | a step rolls back iff it is the third quick unplanned exit in a row of one unpacked payload that never registered |
| SelfUpdateTheorems.NoVersionIsRolledBackTwice | agent/looma_agent/update.py:149-175 | two rollbacks of a run are of different versions |
| SelfUpdateTheorems.RollbacksAreSeparated | agent/looma_launcher/supervise.py:175-223 | between two rollbacks something was installed |
| SelfUpdateTheorems.InstallsOnlyRaise | agent/looma_launcher/signature.py:80-88 | every installation is of a strictly newer version than ran before, nothing refused is pending, and rollbacks never outnumber installations |
| SelfUpdateTheorems.InstalledIffTrusted | agent/looma_launcher/signature.py:80-127 | a pending release is installed iff it is newer, signed under the image's key and holds an agent, and refused for good iff it is not to be trusted |
| SelfUpdateTheorems.FloorWithTwoPending | agent/looma_launcher/supervise.py:182-190 | with two files pending the floor is kept iff they are not both installed or the first had registered before |
| Links.DirectMeansDirect | agent/looma_agent/p2p/links.py:225-335 | a message goes directly only to a dialable neighbour over a real link that is not in quarantine and, if measured, not longer by more than the margin |
| Links.JitterDecidesNothing | agent/looma_agent/p2p/links.py:318-335 | while the two trips stay within a fifth of each other the path never changes, whichever it is |
| Links.ChangingBackCrossesTheBand | agent/looma_agent/p2p/links.py:318-335 | a path given up and taken back measured longer than the other by the margin, and then shorter by it |
| Links.RedirectedElsewhere | agent/looma_agent/p2p/links.py:148-174 | redeploying one pipeline keeps every other's rows, and what was chosen and measured for their peers |
| Links.RedirectedHere | agent/looma_agent/p2p/links.py:148-161 | its own rows are exactly the new ones, and nobody stays in quarantine |
| LinkRuns.EveryMessageIsSomewhere | agent/looma_agent/p2p/links.py:344-422 | every message given to send is on its way, acknowledged, relayed, taken by a transport that acknowledges nothing, or lost, as often as it was given |
| LinkRuns.LostIffRowIsGone | agent/looma_agent/p2p/links.py:357-374 | a message is lost iff there was no row for its peer when it was looked up |
| LinkRuns.LossNeedsNewRows | agent/looma_agent/p2p/links.py:225-247 | the direct way was chosen for a lost message, and its pipeline's rows were replaced or dropped between that choice and the look-up |
| LinkRuns.NoMessageIsLost | agent/looma_agent/p2p/links.py:16-20 | while no rows change after the direct way was chosen for them, no message is lost |
| LinkRuns.SettledMessagesArrived | agent/looma_agent/p2p/links.py:344-422 | once nothing is on its way, a message arrived as often as it was given, less the times it was lost, and once more for every time it arrived without being acknowledged in time |
| LinkRuns.OnceUnlessLateOrLost | agent/looma_agent/p2p/links.py:408-422 | a message given once arrives twice iff it arrived directly and was not acknowledged in time, never iff it was lost, and else once |
| LinkRuns.CountersAddUp | agent/looma_agent/p2p/links.py:363-421 | the counters and what senders have yet to count add up to the finished sends plus the times the clamp was needed, and cover what the watcher has yet to settle |
| LinkRuns.WhenTheClampBites | agent/looma_agent/p2p/links.py:408-422 | the clamp is met iff an unacknowledged message is settled while the counter is zero, and then everything handed over but given up is still to be counted; the watcher meets it only while a sender has yet to count |
| LinkRuns.FailedPeersRest | agent/looma_agent/p2p/links.py:424-435 | until the cooldown after a failure is over, or a new directory arrives, the direct way to that peer is not chosen |
| LinkWitnesses.TheClampBites | agent/looma_agent/p2p/links.py:379-389 | a reachable state with everything settled whose counters claim one message more than was sent |
| LinkWitnesses.AMessageIsLost | agent/looma_agent/p2p/links.py:357-374 | a reachable state in which the only message was neither handed over, relayed nor counted |
| LinkWitnesses.WhoeverHasChosenCanLose | agent/looma_agent/p2p/links.py:357-374 | from any reachable state with a sender between choice and look-up, its message can be lost |
| LinkWitnesses.AMessageArrivesTwice | agent/looma_agent/p2p/links.py:408-422 | a reachable state in which the only message arrived directly and by the relay |
| LinkTableClass.LinkTable.SetNeighbours | agent/looma_agent/p2p/links.py:148-174 | replaces one pipeline's rows, lifts every quarantine, and forgets peers no row names |
| LinkTableClass.LinkTable.Forget | agent/looma_agent/p2p/links.py:192-199 | exactly that pipeline's rows go |
| LinkTableClass.LinkTable.DirectAvailable | agent/looma_agent/p2p/links.py:225-247 | answers as specified, and remembers the choice when it was measured |
| LinkTableClass.LinkTable.IsWorthUsing | agent/looma_agent/p2p/links.py:282-335 | topology first, then the stopwatch with its margin |
| LinkTableClass.LinkTable.Send | agent/looma_agent/p2p/links.py:344-377 | with any changes to the directory between choice and look-up: hands over and counts, or blocks the peer and relays, or relays, or raises without relaying iff the row is gone; a full queue makes the sender settle itself |
| LinkTableClass.LinkTable.Watch | agent/looma_agent/p2p/links.py:379-389 | queues the message for the watcher while there is a place |
| LinkTableClass.LinkTable.WatchOne | agent/looma_agent/p2p/links.py:400-406 | the watcher settles the oldest message that was handed over, and each once |
| LinkTableClass.LinkTable.Settle | agent/looma_agent/p2p/links.py:408-422 | a message not acknowledged in time blocks its peer, is relayed once and moves between the counters |
| LinkTableClass.LinkTable.Block | agent/looma_agent/p2p/links.py:424-428 | the peer rests until the cooldown is over, and the failure is counted |
| Devices.FreeIsTheComplement | agent/looma_agent/tasks/registry.py:137-140 | the free cards are exactly those below the current total that nobody holds, each once |
| Devices.CardsWereFree | agent/looma_agent/tasks/registry.py:142-153 | what is given out was free, as many as asked for, no card twice, and the lowest there were |
| Devices.UndoRestores | agent/looma_agent/tasks/registry.py:272-280 | undoing a submission restores cards, names and leases, with or without an environment, except for an entry an earlier bearer of the name still had |
| RegistryRuns.CardsAreHeldOnce | agent/looma_agent/tasks/registry.py:137-158 | in every reachable state no card is in two entries, and the free list is the exact complement |
| RegistryRuns.WorkersHoldTheirCards | agent/looma_agent/tasks/registry.py:282-308 | whoever is at work is entered with exactly its cards iff no release gave up waiting for it |
| RegistryRuns.WorkersShareNothing | agent/looma_agent/tasks/registry.py:210-308 | no two tasks at work share a card then |
| RegistryRuns.HastyReleaseSharesCards | agent/looma_agent/tasks/registry.py:362-371 | from any reachable state with a task at work on a card, a release that gives up waiting can be followed by another task at work on that card |
| RegistryRuns.NothingIsLeftOfTheUndone | agent/looma_agent/tasks/registry.py:272-280 | a submission that was undone holds no card, no name and no lease |
| RegistryRuns.LeasesComeBackOnce | agent/looma_agent/tasks/registry.py:272-294 | no submission gives its lease back twice, whichever way it ends |
| RegistryRuns.LeasesAreCounted | agent/looma_agent/tasks/env/cache.py:185-193 | a lease count is the number of submissions that hold the environment, and giving one back never finds zero |
| RegistryRuns.EverythingComesBack | agent/looma_agent/tasks/registry.py:282-308 | when everybody is settled every card is free, no name claimed and nothing leased |
| RegistryRuns.RecountFindsNobody | agent/looma_agent/tasks/registry.py:380-396 | a recount succeeds iff nobody is provisioning or listed at work, and changes nothing but the total |
| RegistryReuse.NamesMayComeBack | agent/looma_agent/tasks/registry.py:155-158 | a submission keeps its entry, whatever follows, iff every reaper and release of an earlier bearer of its name is through |
| RegistryReuse.EntryIsLost | agent/looma_agent/tasks/registry.py:282-308 | an earlier bearer that is not through can take the later one's entry within two steps, and changes nothing else of the books or of the later one |
| RegistryReuse.NobodyStopsTheNext | agent/looma_agent/tasks/registry.py:294-308 | a submission that provisions or runs is never taken off the list by another bearer's reaper, whatever follows, iff every reaper of another bearer of its name never started or has ended |
| RegistryReuse.EntriesAreApart | agent/looma_agent/tasks/registry.py:142-158 | no card is in two entries, with names used again as well |
| RegistryReuse.ReusedNamesShareCards | agent/looma_agent/tasks/registry.py:282-308 | from any reachable state with a task running and a card free, the task can be released, its name taken again, and the next bearer's card given to a task of another name while both have it |
| RegistryReuse.NamesComeBackEarly | agent/looma_agent/tasks/registry.py:362-371 | a release takes a name off the list before its bearer is through, so the next bearer can be entered too early |
| TaskRegistryClass.TaskRegistry.FreeDevices | agent/looma_agent/tasks/registry.py:137-140 | the loop finds the free cards in ascending order |
| TaskRegistryClass.TaskRegistry.TakeDevices | agent/looma_agent/tasks/registry.py:142-153 | gives the first free cards and enters them, or refuses and enters nothing |
| TaskRegistryClass.TaskRegistry.Submit | agent/looma_agent/tasks/registry.py:210-270 | succeeds exactly when the node takes work, the name is new, the cards suffice and the task starts; a refusal leaves everything as it was, but for an entry an earlier bearer still had when the task did not start |
| TaskRegistryClass.TaskRegistry.Undo | agent/looma_agent/tasks/registry.py:272-280 | cards, name and lease are given back |
| TaskRegistryClass.TaskRegistry.Reap | agent/looma_agent/tasks/registry.py:282-294 | an ended task's cards and lease come back at once |
| TaskRegistryClass.TaskRegistry.Release | agent/looma_agent/tasks/registry.py:362-373 | a listed task is forgotten and its cards come back; an unknown one changes nothing |
| TaskRegistryClass.TaskRegistry.RecountDevices | agent/looma_agent/tasks/registry.py:380-396 | the total changes only while nobody is at work |
| TaskRegistryClass.TaskRegistry.ReleaseEnvironment | agent/looma_agent/tasks/env/cache.py:185-193 | one lease less, and the entry goes with the last |
| LayerPlan.Settle | payloads/looma_stage/looma_stage/loader.py:241-249 | the repair ends with shares that add up to the layers and, with any layers, none negative and at least one for the largest card; other cards only lose, and nothing if rounding left the largest card a layer; everybody keeps one iff there are as many layers as cards |
| LayerPlan.PlanLayerDevices | payloads/looma_stage/looma_stage/loader.py:219-255 | however rounding goes, there is one card per layer, in runs that follow the order of the cards with free memory, each of which keeps a layer iff there are enough for one each |
| LayerPlan.RunsAreContiguous | payloads/looma_stage/looma_stage/loader.py:251-255 | the layers of one card are one run after those of the cards before it |
| LayerPlan.UsableAreInOrder | payloads/looma_stage/looma_stage/loader.py:233-237 | the cards that take part keep their order, each once |
| LayerPlan.UsableAreAll | payloads/looma_stage/looma_stage/loader.py:233-237 | every card with free memory takes part |
| ShardKeys.ExactlyOneOwner | payloads/looma_stage/looma_stage/loader.py:69-98 | every recognised tensor is loaded by exactly one stage of any ordered split, and any other by none |
| ShardKeys.LocalNamesGoBack | payloads/looma_stage/looma_stage/loader.py:86-91 | the local layer number plus the stage's first layer is the global one |
| ShardKeys.FamiliesAreApart | payloads/looma_stage/looma_stage/loader.py:92-97 | the names of embeddings, norm and head never meet, whatever the prefix |
| ShardKeys.NamesGoToTheirRoles | payloads/looma_stage/looma_stage/loader.py:92-97 | embeddings go to a first stage, norm and head to a last one, each under its own local name |
| ShardKeys.NeededWeightFiles | payloads/looma_stage/looma_stage/loader.py:101-140 | exactly the files of the tensors this stage loads, and those of the embeddings when the head is tied to them |
| ShardKeys.TiedEmbeddingsNeedAKnownPrefix | payloads/looma_stage/looma_stage/loader.py:135-139 | a tied head's embeddings are found iff the prefix is empty or `model.` |
| Experts.EnoughPiecesCover | payloads/looma_stage/looma_stage/loader.py:585-604 | distinct pieces within range cover a parameter iff there are as many as expected |
| Experts.OneMoreWrite | payloads/looma_stage/looma_stage/loader.py:560-583 | each tensor adds one piece to one parameter, and nothing to any other |
| Experts.LoadWeights | payloads/looma_stage/looma_stage/loader.py:490-643 | succeeds iff every write had a row, the head came or is copied, every parameter got as many writes as expected and something was loaded; then every parameter is covered, the head included, unless a piece of it was written twice; and exactly when each refusal is raised, a tied head without embeddings among them |
| Experts.WhenTheCountMisleads | payloads/looma_stage/looma_stage/loader.py:585-611 | without repetitions the count is short iff a piece is missing; a parameter with exactly as many writes as expected is covered iff none was repeated |
| Experts.WritesAreCounted | payloads/looma_stage/looma_stage/loader.py:519-534 | there are as many writes as pieces written iff no piece is written twice |
| Experts.NamesDecideWrites | payloads/looma_stage/looma_stage/loader.py:519-534 | no piece of any parameter is written twice iff no local name comes twice among the tensors that go anywhere |
| Experts.WholeIsRefused | payloads/looma_stage/looma_stage/loader.py:585-611 | a fused tensor that arrives whole is covered, and refused if it has more than one piece |
| Experts.RepeatedExpertHidesAnother | payloads/looma_stage/looma_stage/loader.py:519-534 | two files with the same expert and none with another: the count is met and a row was never written |
| Experts.EmbeddingsNeedAKnownPrefix | payloads/looma_stage/looma_stage/loader.py:629-643 | the embeddings are where a tied head looks for them iff the prefix is empty or `model.` |
| Inputs.CompleteIsOwn | agent/looma_agent/control/tasks.py:652-701 | for any interleaving in which nothing of a file follows its last piece, what is complete of it is all its pieces in order, and nothing is left open |
| Inputs.AfterContents | agent/looma_agent/transport/files.py:87-135 | one accepted piece leaves the bytes of its file so far under its own name or its partial one, and changes no other name, as long as every open file still has its partial name |
| Inputs.ReceivedIsOwn | agent/looma_agent/control/tasks.py:652-701 | with names apart, everything received is under its own name and as declared, each file's own pieces in order if nothing followed its last; a partial file is left iff the latest piece of that file was not a last one |
| Inputs.NamesMustBeApart | agent/looma_agent/transport/files.py:87-135 | whatever pieces come, every file ends up as its own pieces make it, iff no declared name is another's partial name |
| Inputs.OneFileGetsAnothersBytes | agent/looma_agent/transport/files.py:118-135 | two files with such names: the first ends up with the second's bytes, and the second is gone |
| Inputs.OneFileTakesAnother | agent/looma_agent/transport/files.py:100-103 | in the other order the second is gone as well |
| Inputs.PieceAfterLastIsLeft | agent/looma_agent/control/tasks.py:683-697 | a piece too many can leave a partial file although everything was received |
| Receiving.IncomingFile.Write | agent/looma_agent/transport/files.py:105-116 | the chunk is appended and digested, or the file is over its declared size and its partial name is gone |
| Receiving.IncomingFile.Finish | agent/looma_agent/transport/files.py:118-135 | what has the partial name gets the file's name iff what was digested has the declared size and digest; the partial name goes in any case |
| Receiving.IncomingFile.Abort | agent/looma_agent/transport/files.py:137-148 | nothing of it stays |
| Receiving.TakeChunk | agent/looma_agent/control/tasks.py:676-697 | a piece goes to its own file only, which is opened if it is not open and closed after its last |
| Receiving.ReceiveAll | agent/looma_agent/control/tasks.py:652-701 | success means everything declared came and nothing else, and with names apart each is on the disk as declared; failure leaves only declared names, so with names apart no partial file |

## Left out

- Experts.LoadWeights: the tensor names are taken apart already, with one spelling per expert number, so two spellings of one number are not modelled; shapes and dtypes are not either.
- HeadClass.Head.RunOnce: an exception inside the engine is a step of the state machine (`ComputeFails`) but not of the method; the answers that arrive before the deadline are a parameter.
- StageClass.Stage.OnActivations: an exception while computing is a step of the state machine (`StageFails`) but not of the method. That sampling refuses another number of rows is excluded here by proof; an exception of its own, after which nothing is sent, is in the machine only as an answer that is never taken.
- HeadClass.Head.Submit: tickets are names and their queues a map from names to events, not objects shared with client threads.
- LinkTableClass.LinkTable.Send: what the transport does, whether an acknowledgement comes and what other threads do to the directory meanwhile are parameters; relaying does not raise, and a transport that raises has not delivered.
- PipelineTheorems.NothingIsTakenBack: recording a token and telling it is one step, so a cancel between the look-up of a ticket and the put is not modelled; it lets one token more through.
- PipelineTheorems.BatchingIsInvisible: says nothing of a request that lost a slot itself; what it is told then still ends rightly (`PipelineLedger.AnswersEndRightly`). An `activations` message is handled at most once, sending does not raise, a round's deliveries are one step each, and two cancels of one request at the same instant are one.
- Receiving.ReceiveAll: starts in an empty directory; names are paths in normal form, so two spellings of one path are not modelled, nor are path checks, ownership and the disk budget; names are flat, so a declared name that is a directory of another, such as `a` beside `a/b`, is accepted here, where making the directory or renaming over it raises.
- Inputs.NamesMustBeApart: names are flat here too, so a declared name that is a directory of another counts as apart, where the second of the two to arrive raises.
- RegistryReuse.NobodyStopsTheNext: whether a task's directory is kept is not modelled: a reaper that is past cards and lease may go on to release its name, as it does when nothing is kept or the task was cancelled, or may not.
- SelfUpdateTheorems.PreviousHasRegistered: disk writes succeed, unpacked directories stay intact, and applying a download is one step between two runs of the agent.
- SelfUpdateTheorems.RollbackLandsOnWhatWorked: the image, and with it the bundled version, stays the same for a whole run; a restart that follows a new image is not modelled.
- ShardKeys.NeededWeightFiles: the prefix is given and the list is not sorted.
- Versions.NewerIsTotal: digits are the ASCII ones; characters that count as digits but not as decimal ones, on which the conversion raises, are not modelled.
- LayerPlan.PlanLayerDevices: the proportional shares come out of floating-point rounding, so they are arbitrary numbers here.
- RegistryRuns.CardsAreHeldOnce: names are never used again, which `RegistryReuse` lifts for cards and names; ports, directories and retention are not modelled.
- PipelineEviction.PlacesForTwoQueues: that the places are needed is shown for models in which some one-token prompt can be answered with a token that does not end the answer, and for one cancel half-way at least; that they are enough needs neither (`PipelineEviction.EnoughPlaces`).
- PipelineEviction.PlacesForTheLiving: the same; that they are enough is `PipelineLiving.LivingAreSpared`. Both speak of the head; how many places a later stage needs depends on how late it handles its messages, and is stated for tidy runs only (`PipelineRoom.TidyRunsNeverEvict`).
- Tensors, dtypes, devices, attention kernels and nucleus sampling: layers and sampler are uninterpreted functions, and unseeded sampling is a choice among possible draws.
- Wall-clock times: only their order, the cooldown and the thirty seconds of a quick exit matter.
- Signatures and digests: uninterpreted predicates and functions.
- The vLLM engine and its batches: thin adaptation of types that are not part of this model.
- HTTP handlers, gRPC, tunnels, sandboxing, telemetry, timings, logs and user interfaces: plumbing around what is modelled.
- Prefix detection, port windows, model eviction and group tables: would only add easy members.
