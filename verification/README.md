# Community Host failover: a verified model

The project models how a JanjaCord community decides which of its hosts may write. Hosts publish signed,
hash-chained registration records to two or three bridges; a writer keeps a write lease that only a
strict majority of live acknowledgements renews; a bridge that has not seen the primary for a whole
grace period attests that and votes, once per election epoch and durably, for one replica; a replica first
collects what all bridges see, then claims the votes of those that miss the primary, and with a strict
majority of them becomes the writer of the next epoch. Bridges and hosts crash and restart at any
moment, sockets close, messages are lost, delayed and repeated.

What is proved about that protocol:

* **One writer per epoch**, over every run with crashes, restarts, resumes, revocations and message loss
  (`FailoverEpochs`).
* **No instant has two writers**, over every run whose loops are on time, restarts and resumes included,
  when the absence graces are long enough (`FailoverTiming`, whose core argument is `LeaseSafety`).
* **Long enough is exact**: for the loops of the code, every delay and every grace of each bridge (but those
  within ten seconds of a record's life), either no run that is on time ever has two writers, or one has
  (`ExactGrace`, with the runs of `ShortGrace` and `TwoShortGraces`).
* **One collection elects**: in every run the votes of a promotion were all claimed after every voter had
  attested that its whole grace had run (`WitnessCollection`, `FailoverElections`), and a bridge whose grace
  outlasts the primary's record never has a say (`RecordLives`).
* **What else the timed theorem asks for is needed**: concrete runs of two or three bridges end with two
  writers when a suspended writer resumes against votes (`NeededHypotheses`) or a revocation cuts off a writer
  (`RevokedWriter`), and of three when it resumes on acknowledgements one of which is too old
  (`StaleResume`); and elections do happen on time.
* **A bridge's state file loads** to the marks, revocations, votes and pairings in memory, over every
  sequence of appends, failures and crashes at any symbol, compactions and restarts, exactly unless a line
  was completed behind the trace of a survived failure (`StateFile`, `Compaction`, `Durability`); and every
  change of a bridge's ledger is one logged event (`BridgeRuns`).
* **Fencing is permanent**, stored epochs never fall, and the witness-set floor only grows, over every run
  of a host; where the code does not keep this, the exact condition is proved (`HostRuns`).

Beside the protocol there are five independent cores: selection of host registrations by a client
(`HostSelection`), the client's request queue (`HostClientQueue`), the spool counters (`SpoolUsage`),
chunked attachments with canonical base64 (`Attachments`, `Base64`) and invite keys (`InviteKey`).

## How it is built

Each component has a value-level specification (datatypes and functions that take the same branches as
the code) and, where the code updates state in place, a class whose methods are tied to it:
`RendezvousServer.RendezvousBridge` to `Bridge`, `HostService.ServerService` to `HostWriter`,
`RegistrationObjects.RegistrationAckQuorum` and its lease to `RegistrationQuorum`,
`RegistrationLoop.Loop` to `Coordinator`. `Failover` composes the specifications into one transition
system of hosts, bridges, sockets, messages and a clock in milliseconds; its `History` records what
happened and decides nothing. Lemmas about whole runs are by induction over that system.

| file | contents |
|---|---|
| `Community`, `Quorums` | records, grants, receipts; strict majorities and why two of them meet |
| `BridgeLedger`, `Bridge`, `BridgeInvariants`, `BridgeRuns` | a bridge: durable ledger, operations, what each keeps, whole runs |
| `StateFile`, `Compaction`, `Durability` | the hash-chained log, its compaction, a bridge's whole life on disk |
| `RendezvousServer` | the bridge's maps and file updated in place |
| `WitnessFloor`, `HostWriter`, `HostRuns`, `HostService` | the writer role of a host |
| `RegistrationQuorum`, `RegistrationObjects`, `Coordinator`, `RegistrationLoop` | acknowledgement quorum, write lease and the loops that drive them |
| `WitnessCollection` | how a replica asks the bridges and collects their votes |
| `Failover`, `FailoverEpochs` | the composed system and per-epoch uniqueness |
| `FailoverElections`, `RecordLives` | what the collection of votes keeps in every run; who can vote at all |
| `TimedSystem`, `LeaseSafety`, `TimedHosts`, `TimedBridges`, `FailoverTiming` | the timed theorem |
| `Scenes`, `ElectionScenes`, `NeededHypotheses`, `RevokedWriter`, `StaleResume` | concrete runs, built scene by scene, that show what it needs |
| `WriterLoops`, `LateRenewals`, `ShortGrace`, `TwoShortGraces`, `Delays`, `ExactGrace` | how old a renewal can be, the runs with short graces, and the exact condition |
| `HostSelection`, `HostClientQueue`, `SpoolUsage`, `Base64`, `Attachments`, `InviteKey` | the independent cores |

`dafny verify dfyconfig.toml` checks everything.

## Conventions and hypotheses

A signature is the name of the key that made it. A hash is the value hashed, so it is injective; that
includes record hashes, the log's hash chain and SHA-256 of attachment bytes. An authority fingerprint is
identified with its key. String keys made by concatenation (`authorityScope`, `bindingKey`,
`hostAccessKey`) are tuples of their parts. An SQL transaction is one step. Random challenges and round
ids are values no earlier message carries. Where equal heads of a sorted list may come in either order,
the order is a parameter (`known`, `top`), and lemmas hold for all of them; so is the order in which a replica
claims its votes.

The composed theorems assume what the code alone does not give:

* all hosts and replicas use one set of two or three bridges, and each bridge signs as itself;
* host grants are fixed, promotable and signed by the community's authority; a host keeps its boot mode;
  host ids are distinct; only a host booted as a replica and not waiting to resume applies snapshots, and
  those carry no writer row of its own;
* one host created the community and starts as its writer.

The timed theorem further assumes (`TimedSystem.OnTime`) that

* a writer's fence poll and liveness round run on their periods, and an acknowledgement reaches its host
  within `delay`;
* a suspended writer resumes only if no bridge of its acknowledgement set has voted in the election after
  its epoch, and each of them served it within one liveness period and one delay and no earlier than one
  delay before its last liveness tick (`TimedSystem.ResumesSafely`);
* no revocation and no expiry cuts off an open connection of a host that acts as primary
  (`TimedSystem.SparesPrimaries`); all other revocations and expiries are in the runs.

The fence time is at least the five seconds the code clamps it to, which is as long as a witness is valid.
Nothing else is asked of the configuration but that the absence graces are long (`TimedSystem.GracesHold`).
Write *lease* for the fence time and one poll period. With three bridges every grace has to be at least a
lease, a liveness period and a delay. With two, which both have to vote, one such grace is enough; so is a
fair one each, of a lease and the longer of a period and a delay. `ExactGrace.NeverTwoWritersExactly` shows
that nothing less is enough, unless fewer than two bridges can ever vote.
The runs that show it deliver a message more than once only if a delay and a liveness round together outlast
the fence time.

Clocks do not drift apart. Time is that of one clock, and the methods that take the monotonic clock's
reading ask that it has not gone back.

## Where the code does less than its promise

* A process that survives a failed append goes on with the old sequence number. The next append leaves a
  file that loads if and only if the failed write had written nothing
  (`StateFile.SurvivedFailureLoadsIff`); over whole lives a restart before it, or a compaction after it,
  repairs the file (`Durability.FileLoadsIff`).
* Fencing while the host's own grant is not active leaves its writer row in place. The lemma
  `HostRuns.FenceSurvivesRebootIff` says exactly when a reboot then writes or offers to resume.
* A replica snapshot that carries this host's own row as a live writer's, or takes the row away from a host
  booted as primary, undoes a fence: one step leaves a fenced host fenced if and only if it is no promotion
  and no such snapshot (`HostRuns.StaysFencedIff`, `HostRuns.HarmfulSnapshotRevives`).
* A replica snapshot without this host's own row forgets its witness floor, unless there was nothing to
  remember (`HostRuns.RowlessSnapshotKeepsFloorIff`); the run theorems about the floor therefore ask of
  each snapshot that it carries an extension of it (`HostRuns.KeepsFloor`).
* A bridge asks for votes only when a *primary* record *raises* the epoch of a community it knows
  (`BridgeRuns.CertificateMattersIff`, `BridgeRuns.FirstPrimaryNeedsNoVote`). That at most one host writes
  in an epoch is therefore a property of hosts and bridges together.
* A bridge that has voted for a candidate still acknowledges the old primary at its own epoch
  (`BridgeRuns.VoteDoesNotStopOldPrimary`), so a writer suspended by a restart can resume beside a newly
  promoted one. `NeededHypotheses.OpposedResumeMakesTwoWriters` is that run for two and for three bridges;
  only the votes speak against its last step. With three bridges a resume that no vote opposes does the same
  harm if one of its acknowledgements is old (`StaleResume.StaleResumeMakesTwoWriters`).
* A bridge that has cut off a writer goes on answering its pings, and the host counts them, while the time
  of its absence runs. `RevokedWriter.CutOffWriterMakesTwoWriters` is a run of three bridges that is on time
  but for one revocation and ends with two writers; of two bridges the other one's grace has to be short as
  well (`RevokedWriter.CutOffAtOneMakesTwoWriters`).
* The production floor of 20 s for the absence grace is meant to outlast the longest fence time, so that an old
  writer is read-only before its absence can be attested. With the default loops that holds exactly while
  messages take at most three seconds, or four with two bridges (`ExactGrace.ProductionFloorIsExact`). The
  default of 30 s is long enough exactly up to thirteen seconds, or fourteen (`ExactGrace.DefaultGraceIsExact`).
* A replica only asks about a primary whose record a bridge still hands out. A grace of five minutes and ten
  seconds or more therefore takes its bridge out of every election (`RecordLives.VotersAreBrief`); with fewer
  than two others nobody is ever promoted (`ExactGrace.PromotionNeedsElectors`).
* A late acknowledgement of an old publication commits and counts for the round in force, whatever record
  that is (`Coordinator.StaleAckCounts`). The theorems hold with it.
* Had marks been written before revocations, a compacted file would load if and only if no mark had
  reached the generation of a revocation of its grant (`Compaction.MarksFirstLoadsIff`).
* An endpoint of 48 bytes or more does not survive an invite key (`InviteKey.InviteRoundTripIff`).

## Model

| member | source | states |
|---|---|---|
| FailoverEpochs.OneWriterPerEpoch | apps/janjanode/src/server.service.ts:2710-2763 | In any run with crashes, restarts, resumes, revocations and lost or repeated messages, two hosts that write at the same epoch, at whatever moments, are the same host. |
| FailoverEpochs.OnePromotionPerEpoch | apps/janjanode/src/server.service.ts:2729-2759 | Whoever is promoted holds durable votes of a strict majority of the bridges for that epoch at that moment, and no other host is ever promoted at it. |
| FailoverEpochs.WinnerIsUnique | apps/rendezvous/src/main.ts:1477-1526 | A candidate that can win an epoch which already had a champion is that champion: two strict majorities share a bridge, and it votes once. |
| FailoverEpochs.CertifiedWasElected | apps/rendezvous/src/main.ts:600-695 | A bridge lets a primary raise the epoch of a known community only if a strict majority of the bridges, this one included, durably voted for it. |
| FailoverEpochs.ObservedWasElected | apps/janjanode/src/server.service.ts:933-994 | A host is fenced by a certificate only if it was the champion of its epoch and a strict majority of the bridges durably voted for the announced successor. |
| FailoverEpochs.GrantedReceiptIsBacked | apps/rendezvous/src/main.ts:1503-1555 | Every receipt a bridge issues is for the vote its ledger holds, in the election right after an epoch whose champion it names as primary. |
| FailoverEpochs.RunKeepsInv | apps/janjanode/src/server.service.ts:602-672 | At every moment of a run whoever writes, waits to resume or could revive a stored writer row is the champion of its epoch, and champions are never replaced. |
| FailoverTiming.NoInstantHasTwoWriters | apps/janjanode/src/main.ts:418-455 | In every run that is on time no instant has two writers, if every grace of three bridges is at least fence + poll + period + delay, or of two bridges one is or both are at least fence + poll + the longer of period and delay; restarts, resumes that are fresh and unopposed, and revocations that spare acting primaries included. |
| ExactGrace.NeverTwoWritersExactly | apps/rendezvous/src/main.ts:1415-1421 | For the loops of the code, every delay and all graces but those within ten seconds of five minutes: no run that is on time ever has two writers exactly if those graces are long enough, or fewer than two bridges have a grace that a record outlasts. |
| ExactGrace.NeverTwoWritersIff | apps/rendezvous/src/main.ts:1494-1501 | For all loops with a liveness round in every fence time: while a record outlasts a lease and two graces, those graces are exactly the ones with which no run that is on time has two writers. |
| ExactGrace.NoElectionIsSafe | apps/janjanode/src/main.ts:935-946 | With fewer than two bridges whose grace a record outlasts no instant of any run has two writers, because nobody is ever promoted. |
| ExactGrace.PromotionNeedsElectors | apps/janjanode/src/main.ts:1048-1076 | A promotion in any run takes two bridges whose grace is shorter than a record is valid. |
| ExactGrace.DefaultGraceIsExact | apps/rendezvous/src/main.ts:1415-1418 | With the default loops and the default grace of 30 s no run that is on time has two writers exactly if messages take at most 13 s with three bridges and 14 s with two. |
| ExactGrace.ProductionFloorIsExact | apps/rendezvous/src/main.ts:1416-1418 | With the production floor of 20 s, which the code calls longer than the self-fence window, this holds exactly up to 3 s of delay with three bridges and 4 s with two. |
| ShortGrace.OneShortGraceMakesTwoWriters | apps/rendezvous/src/main.ts:1419-1421 | Of three bridges a single one whose grace falls short of a lease, a round and a delay, were it by a millisecond, is enough for a run, on time throughout, that ends with two writers: it attests the absence and votes at the last moment of a lease that its own last answer renewed. |
| TwoShortGraces.LongDelayRun | apps/janjanode/src/main.ts:344-388 | Of two bridges with a short grace one with less than fence + poll + delay is enough for such a run: an acknowledgement a delay old sets off the last renewal. |
| TwoShortGraces.LongRoundRun | apps/janjanode/src/main.ts:372-388 | So is one with less than fence + poll + period: a pong a whole liveness round old sets it off. |
| Delays.FasterIsSafe | apps/janjanode/src/main.ts:344-366 | Graces that are long enough for a message delay are so for every shorter one. |
| FailoverTiming.OldWriterIsFencedFirst | apps/janjanode/src/server.service.ts:997-1011 | When a candidate is promoted in such a run, no host writes: the old writer has already fenced itself. |
| WitnessCollection.BridgeWitnessQuorum | apps/janjanode/src/main.ts:1048-1076 | The function gives up exactly if some bridge sees the primary, too few miss it, their observations lie more than ten seconds apart or too few vote, and else returns the votes of claiming in order up to a conflict. |
| WitnessCollection.CampaignCollects | apps/janjanode/src/main.ts:1056-1070 | An attempt that hears the replies one by one ends with exactly the votes the loop collects. |
| WitnessCollection.PolicyIsMajority | apps/janjanode/src/server.service.ts:85-92 | The live-witness policy holds exactly if two or three bridges are configured, none that answered sees the primary and a strict majority misses it. |
| FailoverElections.WinnerCollectedOnce | apps/janjanode/src/main.ts:1048-1070 | In every run, timely or not, by the first of the votes of a promotion every voter had missed the primary for its whole grace, if that is at least the five seconds a witness is valid. |
| FailoverElections.RunKeepsElections | apps/rendezvous/src/main.ts:1446-1502 | In every run each vote answers one claim made with a witness its bridge gave, whose absence is the one voted on, and later than every witness of the attempt. |
| RecordLives.VotersAreBrief | apps/janjanode/src/main.ts:935-946 | No bridge whose grace is five minutes and ten seconds or longer ever has a say in a promotion: the record its vote names was signed before the absence and must be valid when the replica asks. |
| FailoverTiming.ResumedIsOnTop | apps/janjanode/src/server.service.ts:878-912 | A suspended host whose acknowledgement set holds no vote for the next epoch resumes at the highest epoch any champion has. |
| NeededHypotheses.OpposedResumeMakesTwoWriters | apps/rendezvous/src/main.ts:600-606 | In every community of two or three bridges, two of which have a grace shorter than a record is valid, some run is on time up to its last step, a fresh and timely resume against votes, after which two hosts write. |
| StaleResume.StaleResumeMakesTwoWriters | apps/janjanode/src/server.service.ts:878-912 | With three bridges some run is on time but for a timely and unopposed resume one of whose acknowledgements is too old, and ends with two writers. |
| NeededHypotheses.ElectionsHappenOnTime | apps/janjanode/src/main.ts:935-1076 | In every community of two or three bridges, two of which have a grace shorter than a record is valid, some run from the start, on time throughout, goes through a collection of votes and ends with the promotion of a replica. |
| RevokedWriter.CutOffWriterMakesTwoWriters | apps/rendezvous/src/main.ts:1050-1083 | In every community of three bridges, two of which have a grace shorter than a record is valid, some run is on time but for one revocation and ends with two writers: the pongs of a bridge that has cut the writer off renew its lease. |
| RevokedWriter.CutOffAtOneMakesTwoWriters | apps/rendezvous/src/main.ts:1050-1083 | With two bridges so does some run if the other grace is shorter than fence + poll. |
| FailoverTiming.WinnerFollowsTop | apps/janjanode/src/server.service.ts:2718-2736 | Whoever can win follows the highest epoch any champion has. |
| FailoverTiming.GrantedMeansAbsent | apps/rendezvous/src/main.ts:1486-1502 | A granted vote names the known primary at its epoch, unbound for at least the grace at the moment of the vote. |
| LeaseSafety.LeaseExcludesElection | apps/rendezvous/src/main.ts:1494-1501 | While a writer's lease runs no strict majority can have voted it absent in one collection, for two and for three bridges. |
| LeaseSafety.RenewalIsOld | apps/janjanode/src/main.ts:372-388 | Whatever renewed the lease on evidence from before the absences is a whole lease old by the first vote. |
| LeaseSafety.SharedVoter | apps/janjanode/src/server.service.ts:2739-2744 | Some voter also served the writer at any renewal of a strict majority, and either its grace is long, or it is fair and that voter set off the renewal. |
| LeaseSafety.StartIsEarly | apps/janjanode/src/server.service.ts:878-912 | A lease that a promotion or an unopposed resume started began at least a whole lease before the first vote against its holder. |
| LeaseSafety.DefaultGraceSufficesIff | apps/rendezvous/src/main.ts:1415-1418 | The default grace satisfies the timing hypothesis exactly up to 13 s of delay with three bridges and 14 s with two. |
| LeaseSafety.ProductionFloorSufficesIff | apps/rendezvous/src/main.ts:1497-1498 | The production minimum of 20 s satisfies it exactly up to 3 s of delay with three bridges and 4 s with two. |
| TimedHosts.CountedKeepsLease | apps/janjanode/src/main.ts:344-388 | Every renewal follows the one before within a lease and is backed by a strict majority that served the host within one liveness period and one delay. |
| TimedHosts.PulsedIsOk | apps/janjanode/src/main.ts:418-429 | A liveness round wipes what was counted, so nothing older than the round renews the lease. |
| TimedHosts.PolledIsOk | apps/janjanode/src/main.ts:431-455 | A writer the fence poll leaves writing has a lease younger than the fence time. |
| TimedHosts.ResumedStartsLease | apps/janjanode/src/main.ts:344-366 | A resume starts a lease backed by a strict majority that served the host just now and attested no absence of it. |
| TimedHosts.RebootSuspends | apps/janjanode/src/server.service.ts:653-668 | With two or three bridges configured a restarted host never writes before a quorum has acknowledged it. |
| TimedBridges.CommittedIsOk | apps/rendezvous/src/main.ts:1019-1042 | Registering keeps who is bound, who was absent since when and who may still answer, and cuts off no newest socket. |
| TimedBridges.CommitSparesNewest | apps/rendezvous/src/main.ts:962-989 | The socket a registration displaces is never the newest its host has dialled. |
| TimedBridges.RevokedIsOk | apps/rendezvous/src/main.ts:1050-1126 | A revocation, accepted or refused, keeps the bridge's timed invariant: whom it cuts off counts as served no more and as absent from now. |
| TimedBridges.ClosedIsOk | apps/rendezvous/src/main.ts:328-339 | A recorded disconnect is later than everything the bridge did for the host and than the start of its primary epoch. |
| BridgeInvariants.UnbindAllAddsOne | apps/rendezvous/src/main.ts:328-339 | Unbinding sockets one by one, in any order, equals unbinding the set at once. |
| BridgeInvariants.ProveKeeps | apps/rendezvous/src/main.ts:1019-1042 | Proof and commitment keep host and socket bindings inverse, disconnect times to unbound hosts only, and one pending challenge per host. |
| BridgeInvariants.ValidatedMarkIsAccepted | apps/rendezvous/src/main.ts:559-599 | Whatever validation accepts, replay accepts: the appended mark is never refused. |
| BridgeInvariants.BoundVetoesVote | apps/rendezvous/src/main.ts:1494-1501 | A bound host is never voted absent. |
| BridgeInvariants.AttestedAbsenceIsVotedIff | apps/rendezvous/src/main.ts:1410-1452 | A fresh absence witness of the bridge itself is granted its vote exactly unless another candidate holds it or the ledger takes no more. |
| BridgeLedger.ReplayRemembers | apps/rendezvous/src/main.ts:893-917 | No continuation of the log takes back a vote, a burnt pairing token or a revocation, or moves a mark backwards. |
| BridgeRuns.RunIsValid | apps/rendezvous/src/main.ts:975-989 | Over every run of a bridge `hostSockets` and `socketHosts` are inverse and a disconnect time exists only for an unbound host. |
| BridgeRuns.LedgerMovesByLoggedEvent | apps/rendezvous/src/main.ts:927-961 | Every operation changes the ledger by exactly the one event it logs, or not at all (expired access aside). |
| BridgeRuns.LogReplaysToLedger | apps/rendezvous/src/main.ts:1176-1253 | Replaying what a run logged is never refused and gives its marks, revocations, votes and pairings. |
| BridgeRuns.AcceptedRecordsFormChain | apps/rendezvous/src/main.ts:559-599 | Over every run the records accepted from one host form a gap-free hash-linked chain from sequence one, with epochs and grant generations never falling, and the mark is its head. |
| BridgeRuns.EpochRisesByOne | apps/rendezvous/src/main.ts:559-571 | One accepted record raises the highest epoch of a community by at most one; nothing else raises it. |
| BridgeRuns.RunRemembers | apps/rendezvous/src/main.ts:893-917 | Over a run no vote changes, no revocation is withdrawn and no mark falls in generation, epoch or sequence. |
| BridgeRuns.EachEpochIsRaisedOnce | apps/rendezvous/src/main.ts:600-606 | Over every run each epoch of a community is raised at most once, so by at most one host. |
| BridgeRuns.RaiserHasTheVote | apps/rendezvous/src/main.ts:623-695 | In a community the bridge knows, that host is the candidate this bridge durably voted for. |
| BridgeRuns.RevokedNeverRegistersAgain | apps/rendezvous/src/main.ts:545-557 | Once a grant is revoked at some generation, no registration under it at that generation is ever accepted again, over restarts too. |
| BridgeRuns.RevokedGrantsHoldNothing | apps/rendezvous/src/main.ts:1050-1083 | At no moment of a run does a published record or a bound socket rest on a grant revoked at its generation. |
| BridgeRuns.EveryRegistrationWasChallenged | apps/rendezvous/src/main.ts:697-770 | Whatever is accepted was begun on the same socket with valid access less than 30 s before, answered by the granted device for that challenge and record, and its challenge is spent. |
| BridgeRuns.CertificateMattersIff | apps/rendezvous/src/main.ts:600-606 | The promotion certificate is asked for exactly if a primary record raises the epoch of a known community. |
| BridgeRuns.VoteDoesNotStopOldPrimary | apps/rendezvous/src/main.ts:600-606 | A registration that raises no epoch is judged as if there were no vote, whatever the bridge voted. |
| BridgeRuns.FirstPrimaryNeedsNoVote | apps/rendezvous/src/main.ts:559-606 | An uncertified first record is accepted exactly at epoch zero or one, sequence one and without predecessor. |
| StateFile.AppendLoads | apps/rendezvous/src/main.ts:827-845 | A successful append loads as exactly that event applied. |
| StateFile.TornAppendRecovers | apps/rendezvous/src/main.ts:1176-1190 | A crash at any symbol of an append recovers the state before it, or after it once the newline is written, and leaves a clean file. |
| StateFile.SurvivedFailureLoadsIff | apps/rendezvous/src/main.ts:827-845 | After a survived failed append the next one leaves a loadable file exactly if the failed one wrote nothing. |
| StateFile.RefusedAppendIsFatal | apps/rendezvous/src/main.ts:1176-1253 | An event replay refuses makes the whole file unreadable. |
| Compaction.CheckpointReplays | apps/rendezvous/src/main.ts:847-882 | In any enumeration order of the maps the checkpoint replays to the ledger itself, less expired access. |
| Compaction.CompactedFileLoads | apps/rendezvous/src/main.ts:847-882 | The compacted file loads without rejection to that ledger and continues at its own sequence number. |
| Compaction.MarksFirstLoadsIff | apps/rendezvous/src/main.ts:854-861 | With the marks first it would load exactly if no mark has reached the generation of a revocation of its grant. |
| Compaction.RevokedMarksOutrun | apps/rendezvous/src/main.ts:1067-1074 | A revocation leaves every mark of its grant at least at its own generation, so marks written first would never load. |
| Durability.FileAlwaysMirrorsMemory | apps/rendezvous/src/main.ts:1176-1253 | At any moment of any life with appends, crashes, sweeps, compactions and restarts, in which no failed append that left a trace was survived, the file loads, to the very marks, revocations, votes and pairings in memory and the same unexpired access. |
| Durability.FileLoadsIff | apps/rendezvous/src/main.ts:827-845 | Over any life, survived failures at any symbol of an append included, the file loads exactly unless a line was completed behind the trace of one with no restart between and no compaction since, and then to memory plus the event it is ahead by. |
| Durability.EveryStepDoesWhatItShould | apps/rendezvous/src/main.ts:827-882 | Every step leaves in memory what it is meant to: a crash leaves the state before or after the last operation, and a restart also brings in an event whose failed append had written its whole line. |
| Durability.NothingDurableIsForgotten | apps/rendezvous/src/main.ts:1050-1126 | No failure, crash, restart or compaction ever takes back a vote, a burnt token, a revocation or a mark. |
| RendezvousServer.RendezvousBridge.Sweep | apps/rendezvous/src/main.ts:244-261 | The cleanup loops, in any order, drop exactly what has expired and keep the invariants. |
| RendezvousServer.RendezvousBridge.RecordMark | apps/rendezvous/src/main.ts:938-960 | A new mark is logged before it is applied; if the log cannot take it nothing changes. |
| RendezvousServer.RendezvousBridge.BindRegistration | apps/rendezvous/src/main.ts:962-989 | Publishing a record binds its socket, evicts the host's previous one and clears its disconnect time. |
| RendezvousServer.RendezvousBridge.BeginRegistration | apps/rendezvous/src/main.ts:697-770 | The whole begin step: sweep, validate, check access, and leave one challenge for the host or none. |
| RendezvousServer.RendezvousBridge.ProveRegistration | apps/rendezvous/src/main.ts:1019-1042 | The whole proof step: the challenge is spent whatever happens, and file and memory move together. |
| RendezvousServer.RendezvousBridge.RevokeGrant | apps/rendezvous/src/main.ts:1085-1126 | A revocation is judged, logged and applied to ledger, records, marks and sockets, or changes nothing. |
| RendezvousServer.RendezvousBridge.FloorMarks | apps/rendezvous/src/main.ts:1067-1074 | The loop raises the generation of exactly the revoked grant's lower marks. |
| RendezvousServer.RendezvousBridge.ClaimPromotionVote | apps/rendezvous/src/main.ts:1454-1555 | A vote is logged before it counts, repeated for the same ballot and refused for any other. |
| RendezvousServer.RendezvousBridge.LoadState | apps/rendezvous/src/main.ts:1176-1253 | The loading loop gives exactly the state of the file up to its last newline, or reports corruption. |
| RendezvousServer.RendezvousBridge.CompactState | apps/rendezvous/src/main.ts:847-882 | The compaction loops sweep and then write a checkpoint of the swept ledger, in some enumeration order. |
| HostRuns.EpochNeverFalls | apps/janjanode/src/server.service.ts:2633-2680 | No sequence of steps lowers a host's stored epoch. |
| HostRuns.FencedStaysFenced | apps/janjanode/src/server.service.ts:997-1011 | A fenced host stays without writer role over every sequence of restarts, records, resumes, enrollments and harmless snapshots. |
| HostRuns.StaysFencedIff | apps/janjanode/src/server.service.ts:2633-2680 | A fenced host stays fenced at every moment of a run exactly if no step promotes it and no fitting snapshot brings its row as a live writer's or takes it from a host booted as primary. |
| HostRuns.HarmfulSnapshotRevives | apps/janjanode/src/server.service.ts:2652-2673 | After such a snapshot a reboot writes or offers to resume exactly if the witness history is complete. |
| HostRuns.FencingIsInert | apps/janjanode/src/server.service.ts:997-1011 | Fencing with an active grant leaves nothing a reboot could revive. |
| HostRuns.ReturnNeedsPromotion | apps/janjanode/src/server.service.ts:933-1011 | Whoever writes after being fenced was promoted above the fenced epoch, or applied a snapshot carrying its own writer row. |
| HostRuns.ObservingIsInert | apps/janjanode/src/server.service.ts:933-994 | Observing a certified higher epoch leaves nothing a reboot could revive, one epoch up. |
| HostRuns.FenceSurvivesRebootIff | apps/janjanode/src/server.service.ts:997-1011 | With whatever bridges configured, the fence survives a reboot exactly if the grant was active at the fence, is not active at the boot, or the stored row and history give the boot nothing to revive. |
| HostRuns.FloorIsAppendOnly | apps/janjanode/src/server.service.ts:508-599 | For a fixed grant the stored witness floor is append-only over every run, and a lost history is lost for good. |
| HostRuns.RowlessSnapshotKeepsFloorIff | apps/janjanode/src/server.service.ts:2652-2673 | A snapshot without the host's own row keeps its floor exactly if there was none. |
| HostRuns.LostHistoryBlocksResume | apps/janjanode/src/server.service.ts:656-668 | Once the history is incomplete no reboot offers to resume. |
| HostRuns.ResumeMeetsElectionsOfThePast | apps/janjanode/src/server.service.ts:878-912 | Acknowledgements that permit a resume meet every strict majority of every set ever stored in the floor. |
| WitnessFloor.ComputeExtends | apps/janjanode/src/server.service.ts:508-577 | The recomputed floor extends the persisted one whatever is configured, enrolled or malformed now. |
| WitnessFloor.ComputingTwiceIsOnce | apps/janjanode/src/server.service.ts:653-655 | Persisting a floor that was just computed stores exactly the sets that were computed. |
| WitnessFloor.KnownSetIsKeptOrHistoryLost | apps/janjanode/src/server.service.ts:516-531 | While the history is complete every known set of two or three bridges is in the floor. |
| HostService.WitnessListIsMajority | apps/janjanode/src/server.service.ts:85-91 | The live-witness policy over the list of configured bridges is a strict majority of two or three of them. |
| HostService.CountWitnesses | apps/janjanode/src/server.service.ts:85-91 | The policy as a loop: any online observation vetoes and a missing one never counts. |
| HostService.ServerService.WriterWitnessState | apps/janjanode/src/server.service.ts:508-577 | The loops over stored, additional, configured, trusted and enrolled sets compute the floor. |
| HostService.ServerService.ResumeWriterAfterRegistrationQuorum | apps/janjanode/src/server.service.ts:878-912 | Resumes exactly under the resume condition, with the row rewritten as the writer's. |
| HostService.ServerService.PromoteFromWitness | apps/janjanode/src/server.service.ts:2710-2763 | Over lists of bridges and observations: promotes exactly if no list repeats, every observation is of an absent primary and the votes elect this host. |
| HostService.ListsElectIff | apps/janjanode/src/server.service.ts:2729-2746 | For lists without repetition one distinct hash, bound observations and the live-witness policy together say exactly that a strict majority of the stored bridges voted for this host. |
| HostService.ServerService.ObserveHigherEpoch | apps/janjanode/src/server.service.ts:933-994 | Finds the host's last own primary record in its chain and fences exactly under the announced certificate for it. |
| HostService.ValidObservedPromotionCertificate | apps/janjanode/src/server.service.ts:119-170 | The loop over the receipts accepts exactly two or three distinct ones, each certified. |
| HostService.ServerService.FencePrimaryWriter | apps/janjanode/src/server.service.ts:997-1011 | Afterwards the host neither writes nor waits to resume; the row is rewritten only with an active grant. |
| HostService.ServerService.CommitPrimaryRegistration | apps/janjanode/src/server.service.ts:1306-1327 | Commits the pending record once and never overwrites the host's own chain. |
| RegistrationQuorum.AcknowledgedIffCounts | apps/janjanode/src/registration-quorum.ts:24-39 | After any history of calls a bridge counts exactly if it acknowledged this very binding since the last other begin, clear or removal. |
| RegistrationQuorum.LiveIffCountsLive | apps/janjanode/src/registration-quorum.ts:33-53 | A bridge is live exactly if it gave fresh evidence that no later liveness round, begin, clear or removal wiped. |
| RegistrationQuorum.LiveWithinAcknowledgedWithinConfigured | apps/janjanode/src/registration-quorum.ts:33-65 | Live bridges acknowledged, and those are configured, after any history. |
| RegistrationObjects.RegistrationAckQuorum.Create | apps/janjanode/src/registration-quorum.ts:18-22 | A quorum exists exactly for one to three distinct bridge ids. |
| RegistrationObjects.RegistrationAckQuorum.ConfirmLiveness | apps/janjanode/src/registration-quorum.ts:48-53 | A reply is accepted exactly if the bridge counts for the binding and the round is the one running. |
| RegistrationObjects.RegistrationAckQuorum.HasStrictQuorum | apps/janjanode/src/registration-quorum.ts:67-70 | True exactly if some strict majority of the configured bridges counts for the binding. |
| RegistrationObjects.RegistrationWriteAuthorityLease.Observe | apps/janjanode/src/registration-quorum.ts:100-104 | Only a strict live quorum renews the lease. |
| RegistrationObjects.RegistrationWriteAuthorityLease.FenceIfQuorumExpired | apps/janjanode/src/registration-quorum.ts:110-116 | Calls the fence exactly once the lease has run out, and says whether it fenced; otherwise records that the writer may go on. |
| RegistrationObjects.LiveQuorumMeansEvidence | apps/janjanode/src/registration-quorum.ts:72-75 | A strict live quorum is a strict majority each of which counts live in the history of calls. |
| RegistrationObjects.PolledWriterSawQuorum | apps/janjanode/src/registration-quorum.ts:86-117 | Over every history of a lease object: if its last renewal or passed poll is at most `poll` ago, a strict live quorum or a reset lies less than fence + poll back. |
| RegistrationLoop.Loop.OnRegisterResult | apps/janjanode/src/main.ts:322-366 | An acknowledgement of what this connection published commits and counts for the round in force, once, may resume a suspended writer and renews a writer's lease. |
| RegistrationLoop.Loop.Publish | apps/janjanode/src/main.ts:176-200 | A publication makes sure of a round and has the connection wait for an answer to that round's record. |
| Coordinator.StaleAckCounts | apps/janjanode/src/main.ts:322-347 | An answer to any earlier publication of the connection commits the record of the round in force and counts for it, whichever record the bridge acknowledged. |
| RegistrationLoop.Loop.OnPong | apps/janjanode/src/main.ts:380-387 | A pong counts once, for the round it answers, and renews the lease only of a writer. |
| RegistrationLoop.Loop.WriterFence | apps/janjanode/src/main.ts:431-455 | The fence interval: forget when not writing, reset when newly writing, fence when the lease has run out; a host it leaves writing has a lease event at this moment. |
| RegistrationLoop.Loop.BridgeLiveness | apps/janjanode/src/main.ts:418-429 | The liveness interval starts a round only for a writer whose round is in force, and pings every open connection. |
| RegistrationLoop.Loop.ScheduleReconnect | apps/janjanode/src/main.ts:235-248 | A lost connection no longer counts for the quorum or the round. |
| HostSelection.OrderDoesNotMatter | packages/networking/src/index.ts:665-779 | Inputs that agree as sets, in any order and multiplicity, lead to the same registrations and the same marks, when the record hash determines the registration. |
| HostSelection.SoleMaximalIsGreatest | packages/networking/src/index.ts:651-663 | The unique maximal element of the finite dominance order is its greatest. |
| HostSelection.OneEpoch | packages/networking/src/index.ts:763-768 | All selected registrations are of one epoch and no mark of the community is above it. |
| HostSelection.MarksNeverFall | packages/networking/src/index.ts:720-733 | No mark disappears or loses generation, epoch or sequence. |
| HostSelection.MarksFollowTheChain | packages/networking/src/index.ts:697-738 | A mark that changes is that of the very next record of its host, hash-linked to the one before, under a grant that is not withdrawn. |
| HostSelection.SecondRunRejectsAll | packages/networking/src/index.ts:730-733 | Run again with the new marks, every selected registration is a replay. |
| HostSelection.SelectHostRegistrations | packages/networking/src/index.ts:665-779 | The loops: every input is selected or rejected exactly once, for the reason its outcome names, and the marks are those of the selection. |
| HostClientQueue.EveryRunIsSound | packages/networking/src/index.ts:398-502 | In every run with timeouts, reconnects, send failures and late frames each call is queued, in flight or resolved, none is resolved twice, data resolves only the call it answers, and frames go out once in call order. |
| HostClientQueue.NextAnswerIsInFlight | packages/networking/src/index.ts:448-459 | What arrives on the current socket answers the request in flight. |
| HostClientQueue.HostClient.OnClose | packages/networking/src/index.ts:327-341 | Closing settles the request in flight and every queued one as failed. |
| HostClientQueue.HostClient.HandleRequestTimeout | packages/networking/src/index.ts:461-472 | A timed-out request in flight costs the socket; a queued one is taken out of the queue. |
| SpoolUsage.CountersAreSums | apps/janjanode/src/store.ts:191-259 | After every run of inserts, updates, deletes and rebuilds the counters equal the real sums, globally and per non-empty member, and no later subtraction needs its clamp. |
| SpoolUsage.QuotasHold | apps/janjanode/src/server.service.ts:2303-2309 | With admission by the counters and fixed quotas the real totals never exceed them. |
| SpoolUsage.SpoolStore.UpdateRow | apps/janjanode/src/store.ts:205-213 | The update trigger keeps the counters exact, also when the owner changes. |
| SpoolUsage.SpoolStore.RebuildUsage | apps/janjanode/src/store.ts:240-259 | The rebuild gives every scope its sum. |
| Attachments.CompletedDownloadsOriginal | apps/janjanode/src/server.service.ts:2924-2956 | A transfer begun for some bytes, completed and linked downloads as exactly those bytes, whoever uploaded what in whatever order. |
| Attachments.ChunksAreWriteOnce | apps/janjanode/src/server.service.ts:2881-2922 | In no run of uploads, completions and links is a chunk replaced or removed, and a completed transfer never changes. |
| Attachments.ChunksGoOnlyWithTransfers | apps/janjanode/src/server.service.ts:2957-2966 | Aborts included, chunks go only with their whole transfer, and a linked transfer outlives every abort. |
| Attachments.LinkedDownloadsDeclared | apps/janjanode/src/server.service.ts:3066-3071 | Whatever was begun, aborted, expired and begun again under an asset id, a linked transfer downloads as bytes of its declared size and hash. |
| Attachments.HonestUploadCompletes | apps/janjanode/src/server.service.ts:2881-2956 | Offering every chunk, in any order and with retries, is enough to complete. |
| Attachments.SizesAddUp | packages/protocol/src/attachments.ts:25-31 | The sizes of the stored chunks add up to the declared total. |
| Attachments.EncodeAttachmentChunks | packages/protocol/src/attachments.ts:37-50 | The loop cuts the bytes into the expected slices, each with its base64 text, size and hash. |
| Attachments.AttachmentTransfer.UploadComplete | apps/janjanode/src/server.service.ts:2924-2956 | The completion loop succeeds exactly if all chunks are there and their bytes have the declared size and hash. |
| Base64.AnswersExactlyEncodings | packages/schemas/src/envelope.ts:38-52 | The answer is `n` exactly for the encodings of `n`-byte strings (sections 3.5 and 4 of RFC 4648). |
| Base64.DecodeEncode | packages/protocol/src/attachments.ts:73 | Decoding undoes encoding. |
| InviteKey.InviteRoundTripIff | packages/crypto/src/index.ts:261-299 | A key with 16-byte id and secret parses back exactly if its endpoint has at most 47 bytes (none gives a version 1 key). |
| InviteKey.Base32RoundTrip | packages/crypto/src/index.ts:222-253 | Base32 decoding undoes encoding for every byte string (section 6 of RFC 4648). |
| InviteKey.ToBase32InPlace | packages/crypto/src/index.ts:222-236 | The loop with its unmasked 32-bit accumulator computes the exact encoding. |
| InviteKey.FromBase32InPlace | packages/crypto/src/index.ts:238-253 | The decoding loop computes the exact decoding, or fails on a foreign character. |

## Left out

- Different bridge sets: the composed theorems use one set; changes of configuration are covered only by the witness floor.
- FailoverTiming.NoInstantHasTwoWriters: does not model clock drift between hosts and bridges, nor an acknowledgement later than `delay`; a resume that is stale or against votes and a revocation or expiry that cuts off an acting primary are excluded, and for each there is a run with two writers (for the stale resume with three bridges, and for the cut-off writer of two bridges with a short grace).
- ExactGrace.NeverTwoWritersExactly: says nothing of graces from ten seconds below to ten seconds above the five minutes of a record, where it matters to the second when a record was signed.
- ExactGrace.NeverTwoWritersIff: says nothing of loops slower than a liveness round in a fence time; the code polls and pings every second and fences after five seconds at the earliest.
- The replica's own loop: its pings of the primary, how long it waits before it asks the bridges, and that it asks no more after a promotion; it may ask at any time here. The four-second timers of its requests are nondeterministic, but for the one that a record was handed out just now.
- BridgeRuns.LogReplaysToLedger: says nothing about host access, which the sweep drops from memory without logging it, and its restarts keep the ledger in memory; `Durability` covers access up to expiry and restarts that reload the file.
- RendezvousServer.RendezvousBridge.AppendStateEvent: a failing write writes nothing; partial writes are turns of `Durability`.
- RendezvousServer.RendezvousBridge.CommitRegistration: does not run the compaction it may trigger; the sweep inside it is a step of its own just before, and a full record table is judged before that sweep.
- Access tokens and pairing tokens: `issueHostAccess` and its proofs, quotas and consumed proof ids, the replica's among them; a credential simply appears (`IssueAccess`), and a witness is given to whoever asks.
- RegistrationLoop.Loop.Publish: publishes only the record of the round in force; older records replayed to a slow bridge, which in the code replace the answer a connection waits for, the `higherRegistration` reply and the exchange of cursors are left out.
- Equality of a host's chain across bridges: a record a bridge accepted may be superseded before its host commits it.
- Malformed rows: a writer row of an older version or with unreadable JSON reads as no usable row; the sorted storage order of the floor is insertion order here.
- Text formats: JSON, Zod schemas, canonical JSON and SQL are datatypes and maps; a line of the state file is an opaque run of symbols, blank lines are empty, and the text is ASCII so that the cut of a torn tail is at a byte.
- HostSelection.SelectHostRegistrations: does not model the order of its three result lists (a locale sort of distinct keys) nor the parsing of stored marks.
- HostClientQueue.EveryRunIsSound: covers the WebSocket client only; the in-place ICE restart transport drops results while keeping slots and has no such property.
- SpoolUsage.CountersAreSums: says nothing about the counter of the empty member id, which rebuilds drop and triggers create.
- Attachments.ChunksAreWriteOnce: is about the life of one transfer; removals are steps of `Attachments.Life`. The migration of legacy rows and permissions are left out.
- InviteKey.FromBase32InPlace: rejects letters outside ASCII that `toUpperCase` maps into the alphabet; the pattern a key is parsed with lets none of them through.
- InviteKey.InviteRoundTripIff: works on the bytes of the endpoint and the server id; UTF-8, hexadecimal and trimming of the key are left out.
- WebSocket, WebRTC, timers and wiring: deliveries, drops, closes and ticks are nondeterministic steps.
- Cryptography: Ed25519, HMAC, AES-GCM, Argon2 and MLS are predicates or absent.
- Membership, roles, invites beyond their key, push, mobile, desktop UI and signalling limits: easy members or platform code.
