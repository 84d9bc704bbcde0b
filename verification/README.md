# Forgemaster: verified models of its stateful cores

This project models five parts of forgemaster that carry state and proves what they promise, for every
input, every pattern of failures and every schedule of the steps modelled:

- the **blue/green update and rollback engine**, with its snapshots, its restoration, its run journals,
  its wheels (`Store`, `Retention`, `HomeFiles`, `HomeSafety`, `HomeRoundTrip`, `RollbackTargets`, `UpdateEngine`,
  `UpdateSafety`, `UpdateRest`, `UpdateHistory`, `UpdateReports`, `UpdateScript`, `UpdateUndo`, `UpdateRuns`);
- the **parallel drain** of a roadmap and its alerts (`Alerts`, `DrainBoard`, `DrainRun`, `DrainFeature`);
- the **life of a dispatch job**, the verdict read in a worker's output and the incremental reading of its
  transcript (`Headless`, `Jobs`, `Utf8`, `Transcript`);
- the **signed update channel** and the ledger of consent it feeds (`Base64`, `Channel`, `ChannelPublish`,
  `Consent`);
- the **cost** of a project (`Cost`).

`dafny verify dfyconfig.toml` checks the whole of it.

## How to read it

Code that changes state step by step is a method or a class here, proved against a function of the old
state; the promises are lemmas about that function. External calls (systemd, probes, pip, git, HTTP,
subprocesses) are steps with an arbitrary outcome: `UpdateEngine` bundles the outcomes of one gesture in a
"weather", `Jobs` lets any sequence of SQL statements interleave, `DrainRun` chooses nondeterministically
which worker finishes, when, and with what result. JSON, SHA-256, Ed25519 and the transcript normaliser are
parameters; what is needed of them (a parser reads back what the printer wrote, a signature verifies under
its own key) is a hypothesis of the lemmas that use it and of no other.

Snapshots, runs and wheels live in directories named by a UTC timestamp and every policy orders them by
name, so a `Stamp` is the rank of such a name.

## Results worth knowing

The following are theorems about the code as it is, where it departs from its own documentation.

- **Forbidden state.** With a wheel that reads at least as far as the data, every start of the service is on
  data the linked binary reads, under every pattern of failures but one, characterised exactly: a `stop`
  that fails (it is logged and ignored) leaves a process alive that migrates what has just been restored
  (`UpdateSafety.ApplyNeverServesForbidden`, `RollbackNeverServesForbidden`). An OLDER wheel, which no preflight
  refuses, is started on a database it cannot read if and only if it gets as far as its first start, and can be
  left linked there (`UpdateSafety.OlderWheelServesForbidden`, `OlderWheelEndsForbidden`).
- **An exception between the two halves** of a way back leaves the link on one version and the data of the
  other, with the service stopped: exactly when the schema of one is beyond the other, and it does happen
  (`UpdateRest.ApplySettles`, `RollbackSettles`, `ApplyCanEndHalfBack`, `RollbackCanEndHalfOver`). A second stop
  that fails on the way back of an update is the other way to leave an instance unsteady
  (`UpdateRest.ApplySteadies`, `RollbackSteadies`).
- **Old binary, new maps.** The one state the last repose of an update is there to forbid is reached exactly when
  an exception escapes between a link and its maps (`UpdateReports.MapsFollowTheLink`, `MapsFollowTheLinkBack`).
- **A whole life.** Through any sequence of updates, rollbacks and hours of service, stops that fail included,
  the instance stays sound if and only if no gesture met one of these weathers
  (`UpdateHistory.LifeIsNeverForbidden`).
- **Reports that can lie.** "Relaunched as it was", "back to the state before", "as before" and "at the state
  of the snapshot" are each true under an exact condition, and each has a weather in which it is false: a stop
  that fails lets a process write after the data were photographed or put back, and a restoration can be cut
  after it moved the database (`UpdateReports.ApplyTellsTheTruth`, `RollbackTellsTheTruth`,
  `RelaunchedCanBeFalse`, `RevertedCanBeFalse`, `AsBeforeCanBeFalse`, `AtSnapshotCanBeFalse`). With stops that
  are obeyed, only such a cut makes one false (`UpdateReports.ObeyedStopsTellTheTruth`, `OnlyACutRestorationLies`).
- **Undo is exact** about the data held when the update stopped the service, unless a process survives the
  stop of the rollback and changes them (`UpdateUndo.UndoRestoresEverything`).
- **The guard of a restoration is disarmed** by a snapshot whose database version cannot be read: it passes for
  a snapshot without a database, under any binary (`HomeRoundTrip.OnlyTheBinaryCanRefuse`).
- **A purge that cannot delete a directory** makes `create` fail once its snapshot is complete; nothing that was
  to survive is lost (`Retention.CreateKeepsTheNewOne`).
- **Two updates at once.** A manager that does not answer hides the update in flight, and the next launch starts
  beside it (`UpdateRuns.ASecondUpdateExactly`, `ASilentManagerHidesTheRun`). Two gestures whose preflights both
  passed before either had spawned fly together unless they fall within one second, and a unit that starts after
  its launch was given up flies beside any later one (`UpdateRuns.TwoPreflightsExactly`, `ALateUnitExactly`).
- **What a restoration destroys.** Exactly the leftovers named `<entry>.tmp` in the home
  (`HomeRoundTrip.OnlyTemporariesAreConsumed`).
- **A snapshot without a database**, or whose version cannot be read, is never accepted as a target even when it
  is listed as restorable
  (`RollbackTargets.ListAndResolutionAgree`).
- **Silent blocks.** After an abort or a rate-limit rejection, a worker still in flight that then fails is
  reported `blocked` with no alert; nothing else escapes (`DrainRun.UncollectedBlocksAreSilent`,
  `ABlockCanBeSilent`). A worker that raises, against the comment that none does, or a finalisation that raises,
  takes the whole run down, and what was in flight is not announced either (`DrainRun.RunProject`,
  `ACrashIsSilent`).
- **`run_feature` ignores the dependencies between features** that `run_project` enforces, and its report on a
  gated feature counts no feature at all (`DrainFeature.DrainTasks`, `DrainFeature.RunFeature`).
- **Abort and finish.** The value `mark_job_orphan` returns is exact if and only if no other statement ended
  the job first, or ended it with the same status; otherwise an abort can write "aborted by human" on a job
  that succeeded, and its task is replayed (`Jobs.AnswerIsExactUnlessOvertaken`, `AbortCanBlameASuccess`).
- **A poisoned log stops every boot.** A JSON line that is not an object but quotes `"rate_limit_event"` makes
  the output parser raise; in the log of a dead job that holds a result event it makes each reconciliation
  raise at the same place
  (`Headless.AStrayArrayRaises`, `Jobs.PoisonedJobSurvives`). The same log cuts an abort short once the
  processes are killed (`Jobs.AbortStopsAtAnIllegibleLog`).
- **A worker with no verdict can be green.** With exit code 0 the parser falls back on the last object of the
  output, whatever it says, under an exact condition (`Headless.GreenWithoutVerdictExactly`,
  `AnOutputWithoutVerdictCanBeGreen`).
- **Transcripts.** The incremental reading equals the one-shot reading, whatever the pieces and the separators,
  as long as each character consumed takes as many bytes re-encoded as it took, which well-formed UTF-8 does; it
  stalls for ever, exactly, on a line holding a separator of `str.splitlines` other than `\n`; and one ill-formed
  byte makes the offset drift and lose a line (`Transcript.FaithfulIncremental`, `IncrementalEqualsOneShot`,
  `ConsumesAllUnlessForeign`, `StallIsPermanent`, `AStrayByteLosesALine`).
- **base64url.** "Strict" decoding accepts two spellings of the same bytes, exactly the non-canonical ones
  (`Base64.OneSpellingIsCanonical`, `SecondSpellings`).
- **`refresh` raises**, against its promise, exactly when the keys file is there and is not UTF-8 or when a lone
  surrogate has to be written: one of a served identifier, of an accepted announce, of the path of a refused keys
  file, or of the URL of a channel that does not answer. No signature is needed for that
  (`Channel.RefreshRaisesExactly`, `ChannelPublish.ALoneIdentifierRaises`, `AKeysFileRaises`, `ALonePathRaises`,
  `ALoneUrlRaises`).
- **A choice can be overtaken.** `decide` reads, then writes by version alone: an announce of other bytes that
  commits in between is recorded under the user's choice (`Consent.ChoiceCoversUnlessOvertaken`, `AnAnnounceCanOvertake`).
- **A hard refusal can be softened** without a signature: one identifier that is not a string turns "unknown key"
  into an internal failure, and a verified announce stays `available`
  (`Channel.OneOddIdentifierSoftensTheRefusal`, `ChannelPublish.ANullIdentifierKeepsAvailable`). An unhashable
  one ahead of a good signature hides it (`ChannelPublish.AnUnhashableSignatureHidesTheRest`).
- **One stray line of a transcript** makes the whole cost of a project raise (`Cost.InterviewCost`).

## Model

| member | source | states |
|---|---|---|
| Retention.SnapshotRoot.Purge | src/forgemaster/snapshot.py:170-184 | the purge loops delete, in order, exactly the directories that do not survive (incomplete ones, then complete ones past the quota), up to the first that cannot be deleted, which raises |
| Retention.SnapshotRoot.Create | src/forgemaster/snapshot.py:82-114 | a `create`, complete or interrupted at any stage, the purge included, leaves exactly the specified root; when it answers, the new snapshot is there |
| Retention.CutPurgeKeepsSurvivors | src/forgemaster/snapshot.py:170-184 | at every prefix of the deletions every directory that is to survive is there, intact, and nothing but the directories to drop has been touched |
| Retention.RefusalIsExact | src/forgemaster/apply_update.py:722-743 | the check made before the first gesture accepts a complete target if and only if that target survives the purge of the safety snapshot |
| Retention.DroppedInOrder | src/forgemaster/snapshot.py:170-184 | the directories to delete are taken in this order: interrupted snapshots, then complete ones, the most recent first in both |
| Retention.PurgeRespectsQuota | src/forgemaster/snapshot.py:170-184 | never more than the quota of complete snapshots is left, the one just taken included |
| Retention.CreateKeepsTheNewOne | src/forgemaster/snapshot.py:82-114 | nothing is removed before the new snapshot is complete; from then on it and every survivor are there whatever interrupts the purge, and a finished one leaves only complete snapshots, within the quota |
| Retention.PurgeKeepsTheNewest | src/forgemaster/snapshot.py:170-184 | a purge that is not cut keeps exactly the spared snapshot and, of the other complete ones, those with fewer than `keep - 1` complete others more recent than themselves |
| Retention.ThreeAreKept | src/forgemaster/snapshot.py:35-184 | so with the quota of the product the new snapshot and the two newest others stay, and a target is let through exactly when at most one complete snapshot is more recent |
| HomeFiles.HomeDir.Create | src/forgemaster/snapshot.py:82-144 | takes the logical value of each declared file (a database with its journal), then puts the restoration script in the snapshot and in the home, and writes the manifest last; nothing else of the home moves, and the script of the home is the old one or the whole new one |
| HomeFiles.HomeDir.Verify | src/forgemaster/restore.py:86-98 | names exactly the entries that are missing or whose digest differs, all of them, in manifest order |
| HomeFiles.HomeDir.Restore | src/forgemaster/restore.py:232-293 | refuses if and only if there is an objection, with the first one in the order asked (`HomeRoundTrip.ObjectionsInOrder`, `SchemaObjections`); a refusal or a dry run changes nothing, success is the whole restoration, a crash is one of the intermediate states; it goes through if nothing interrupts it and no file is listed twice |
| HomeFiles.HomeDir.MoveAside | src/forgemaster/restore.py:278-282 | the first loop: each displaced file is renamed into the fresh aside directory, a prefix of them when it is cut |
| HomeRoundTrip.DisplacedInOrder | src/forgemaster/restore.py:278-300 | what leaves the home: of each name of the manifest, in order, the file, its journal and its index, those that are there |
| HomeRoundTrip.NothingLeavesTwice | src/forgemaster/restore.py:278-300 | a snapshot taken by `create` lists no file twice, so only an interruption cuts its restoration short |
| HomeFiles.HomeDir.PutBack | src/forgemaster/restore.py:284-290 | the second loop: entries are back one after the other through a temporary name, a prefix of them when it is cut |
| HomeSafety.RestoreLosesNothing | src/forgemaster/restore.py:232-313 | at every crash point each displaced file is intact at its place or in the aside directory, and nothing outside the scope has moved |
| HomeSafety.NoFinalNameIsTorn | src/forgemaster/restore.py:284-290 | at every crash point a final name holds the old file or the complete restored one |
| HomeSafety.CrashedDatabase | src/forgemaster/restore.py:278-313 | wherever it stops, a database the manifest lists reads as before, is gone, or reads as the snapshot's: never one database under the journal of another |
| HomeSafety.CrashedAbsentDatabase | src/forgemaster/restore.py:278-313 | wherever it stops, a database the manifest lists as absent reads as before or is gone |
| HomeRoundTrip.EntriesAreSeparated | src/forgemaster/restore.py:278-300 | the declared files of the product, their journals and their temporary names never collide |
| HomeRoundTrip.OnlyTheBinaryCanRefuse | src/forgemaster/restore.py:112-227 | a snapshot taken by `create` is refused if and only if the version of its database can be read and the linked binary cannot read it, or does not say; `RefusedExactly` says the same of the content of the home |
| HomeRoundTrip.RefusedExactly | src/forgemaster/restore.py:112-230 | a capture of the declared files is unreadable if and only if it holds a legible `forgemaster.db` whose last version set, 0 if there is none, is beyond the installed schema; undetermined if and only if it holds a legible one, nothing says what is installed and that is not let pass; and refused for no other reason |
| HomeRoundTrip.ObjectionsInOrder | src/forgemaster/restore.py:69-98 | on any snapshot, the objections asked before the schema: no manifest; a manifest of another schema than 1; an entry missing or of another digest; each if and only if none before it holds |
| HomeRoundTrip.SchemaObjections | src/forgemaster/restore.py:112-230 | on any snapshot that is whole, unreadable if and only if the last version set by its first database, the first entry that goes back to a `.db`, can be read and is beyond the installed schema; undetermined if and only if it can be read, nothing says what is installed and that is not let pass |
| HomeRoundTrip.DamagesInOrder | src/forgemaster/restore.py:86-98 | an entry of the manifest is named among the damages, at its place, if and only if its file is missing or its digest is not the one written |
| HomeRoundTrip.VersionIsLastSet | src/forgemaster/restore.py:212-229 | the version read in a database is the last one its transactions set, 0 if they set none |
| HomeRoundTrip.RoundTrip | src/forgemaster/snapshot.py:82-133 | after `create`, any change and a restoration, every declared file has its logical value and mode of then, absent ones are absent, and no journal is left |
| HomeRoundTrip.TheInstanceIsBack | src/forgemaster/snapshot.py:82-133 | the three declared files by name: the database holds what its readers saw, journal included, under its mode and with no journal beside it; the environment and the secrets are byte for byte what they were, under 0600; what was absent is absent |
| HomeRoundTrip.OnlyTemporariesAreConsumed | src/forgemaster/restore.py:278-313 | a file of the instance is destroyed by a restoration if and only if it is a leftover temporary file of a restored entry |
| HomeRoundTrip.KeepingTheJournalUndoesTheRestore | src/forgemaster/restore.py:296-300 | leaving a journal beside the restored database changes its value unless that journal is empty |
| RollbackTargets.ReadRuns | src/forgemaster/snapshot.py:305-348 | one pass over the journals: the venvs in run order, the newest run that names a snapshot, and the safety snapshots |
| RollbackTargets.VenvCandidates | src/forgemaster/snapshot.py:261-292 | dated venvs newest first, then the venvs of the journals that live elsewhere, each once, in run order |
| RollbackTargets.FirstExactFinds | src/forgemaster/snapshot.py:360-387 | a venv is found if and only if one reads exactly the schema, and it does |
| RollbackTargets.PairedExactly | src/forgemaster/snapshot.py:305-348 | a snapshot is paired with a venv if and only if the newest run that names it found that venv linked |
| RollbackTargets.VenvsInOrder | src/forgemaster/snapshot.py:240-292 | the venvs that answer: the dated ones in their order, then those a run found linked and that live elsewhere, the one a more recent run names first |
| RollbackTargets.ChosenIsPreferred | src/forgemaster/snapshot.py:360-387 | a venv is chosen if and only if it is the paired one, listed and reading the schema, or else reads it with none listed before it that does; none is if and only if none reads it |
| RollbackTargets.Resolution | src/forgemaster/update.py:298-320 | the default target is the newest usable snapshot, each newer one having been refused for its reason, and its venv is the preferred one: the paired venv when it is listed and reads the schema, else one before which no listed venv reads it; with none, each snapshot has its reason |
| RollbackTargets.AcceptedTargetGoesBack | src/forgemaster/update.py:336-404 | an accepted target has a complete snapshot with a database whose version can be read, a venv that reads exactly its schema and no further than the active one, another venv than the active one, and is not a safety snapshot |
| RollbackTargets.JudgedExactly | src/forgemaster/update.py:336-404 | every answer about one snapshot, refusal by refusal in the order they are met, from the probes and the journals alone; acceptance is of the preferred venv |
| RollbackTargets.ResolutionIsSound | src/forgemaster/update.py:298-320 | the resolution answers with a target that goes back, every newer snapshot being unusable, or with none when none is usable |
| RollbackTargets.ListAndResolutionAgree | src/forgemaster/snapshot.py:401-460 | a snapshot listed as restorable has no venv if and only if it carries no database, or one whose version cannot be read |
| RollbackTargets.ListedExactly | src/forgemaster/snapshot.py:189-460 | what a listing says of a snapshot, its state being told by whether a venv that answers reads exactly its schema, further, or none does |
| RollbackTargets.StatesMeanTheGuard | src/forgemaster/snapshot.py:401-460 | `irrestaurable` if and only if the restoration guard refuses under every probed venv; the other two states likewise |
| Store.Instance.OpenDb | src/forgemaster/db/store.py:68-101 | opens, creates, migrates forward or refuses; a refusal changes nothing and leaves no connection open |
| Store.Instance.Readiness | src/forgemaster/db/store.py:104-134 | answers yes if and only if opening would succeed, and changes nothing |
| Store.OpenedExactly | src/forgemaster/db/store.py:68-101 | an absent base is created at the schema of the binary, a file that is no base is left alone, an older base goes forward with its rows, a newer one is refused unchanged unless the user insists |
| Store.SchemaNeverGoesBack | src/forgemaster/db/store.py:68-101 | whatever binaries open a base in whatever order, its schema never goes back, its rows stay, and one that is not forced opens it if and only if it reads that far |
| UpdateEngine.Applicator.ApplyWheel | src/forgemaster/apply_update.py:506-593 | the update, step by step with its compensations, ends in the state and with the report of the specification, for every outcome of every step and an exception escaping before any of them; `UpdateScript` and `UpdateReports` say what these are |
| UpdateEngine.Applicator.RollBack | src/forgemaster/apply_update.py:596-719 | the same for the voluntary rollback |
| UpdateEngine.Applicator.Systemctl | src/forgemaster/apply_update.py:773-777 | a failed stop leaves the process alive; a start opens, creates or migrates the base |
| UpdateEngine.Applicator.TakeSnapshot | src/forgemaster/apply_update.py:158-179 | success means complete and said so, the snapshot holding the data of that instant; the root is that of `create`, whatever interrupted it |
| UpdateScript.ApplyIsItsScript | src/forgemaster/apply_update.py:506-593 | the instance an update leaves is that of running a flat list of effects, chosen beforehand from the state and the outcomes, up to the line an exception escapes at |
| UpdateScript.ApplyReports | src/forgemaster/apply_update.py:506-593 | the code, the verdict and the impact of an update from the outcomes alone: 0 if and only if it is judged good, 2 if and only if it is judged bad and the way back is cut short or does not serve |
| UpdateScript.RollbackIsItsScript | src/forgemaster/apply_update.py:596-719 | the same for a rollback: which effects, in which order, up to which exception |
| UpdateScript.RollbackReports | src/forgemaster/apply_update.py:596-719 | the code, the verdict and the impact of a rollback from the outcomes alone |
| UpdateScript.GuardExactly | src/forgemaster/restore.py:112-196 | the guard lets a complete snapshot through if and only if no version can be read in it, or the linked binary reads that version, or the binary does not say and the script can be told not to mind |
| UpdateSafety.ApplyNeverServesForbidden | src/forgemaster/apply_update.py:506-593 | from any steady instance and for every pattern of failures and exceptions, with a wheel that reads as far as the data and the process alive, every start is on data the linked binary reads, if and only if the way back did not go through with a second stop that failed while the new process kept migrating |
| UpdateSafety.OlderWheelServesForbidden | src/forgemaster/apply_update.py:506-593 | a wheel that does not read the data is started on them if and only if it gets as far as its first start, whatever fails and whether the stops are obeyed or not |
| UpdateSafety.RevertedMeansRetreated | src/forgemaster/apply_update.py:567-593 | the report says "back to the state before" if and only if the guard passes on the stopped data under the old binary, the restoration is whole, and nothing escapes on the way |
| UpdateSafety.OlderWheelEndsForbidden | src/forgemaster/apply_update.py:568-581 | and it can be left there: on every instance at rest, an older wheel whose restoration is refused stays linked, started a second time on data it cannot read |
| UpdateRest.ApplySettles | src/forgemaster/apply_update.py:506-593 | with the stops obeyed, an update keeps an instance at rest if and only if no exception escapes between the two halves of a way back from a later schema |
| UpdateRest.ApplyCanEndHalfBack | src/forgemaster/apply_update.py:506-593 | and it does happen, on every instance at rest and toward every later schema |
| UpdateRest.ApplySteadies | src/forgemaster/apply_update.py:506-593 | whether the stops are obeyed or not, an update leaves a steady instance (the linked binary reads the data, no process alive is beyond it) steady if and only if its way back from a later schema does not end on the old binary with the data or the process of the new one |
| UpdateSafety.RollbackNeverServesForbidden | src/forgemaster/apply_update.py:596-719 | from any steady instance, toward a fit target, every start is on readable data, if and only if the running binary did not survive its stop and migrate what was restored |
| UpdateRest.RollbackSettles | src/forgemaster/apply_update.py:596-719 | with the stops obeyed, a rollback keeps an instance at rest if and only if no exception escapes between its two halves toward a target that cannot read the data in place |
| UpdateRest.RollbackCanEndHalfOver | src/forgemaster/apply_update.py:596-719 | and it does happen, toward every accepted target that cannot read the data in place |
| UpdateRest.RollbackSteadies | src/forgemaster/apply_update.py:596-719 | whether the stops are obeyed or not, a rollback toward a fit target leaves a steady instance steady, except in the weathers given exactly |
| UpdateSafety.TargetSurvivesSafety | src/forgemaster/apply_update.py:638-644 | the check after the safety snapshot never fires on a target the first check accepted |
| UpdateHistory.LifeIsNeverForbidden | src/forgemaster/apply_update.py:506-719 | through any sequence of updates, rollbacks and service, whatever fails, stops included, and whatever exception escapes, the instance stays steady and no binary is ever started on a base newer than itself, if and only if no gesture met one of the harmful weathers |
| UpdateHistory.GestureExactly | src/forgemaster/apply_update.py:506-719 | one gesture keeps a sound instance sound if and only if its weather is not harmful, wheels older than the data included |
| UpdateHistory.ObeyedIsHarmless | src/forgemaster/apply_update.py:506-719 | stops that are obeyed and no exception between the two halves do no harm, toward a binary that reads the data |
| UpdateHistory.AcceptedTargetIsAdmissible | src/forgemaster/update.py:298-404 | whatever target the resolution accepts, on truthful probes, is one that the theorem on a life covers |
| UpdateReports.ApplyMapsAreTheLinks | src/forgemaster/apply_update.py:518-593 | at every exit, maps reported as installed are those of the linked venv |
| UpdateReports.RollbackMapsAreTheLinks | src/forgemaster/apply_update.py:614-719 | the same for the rollback |
| UpdateReports.ApplyLeavesTheMaps | src/forgemaster/apply_update.py:537-587 | at every exit of an update the host maps are those of the last venv asked, as it answered: the new one once linked, then the old one again after a way back; the report says that answer, and the link is the one of that venv |
| UpdateReports.MapsFollowTheLink | src/forgemaster/apply_update.py:583-587 | when every venv asked installs its own maps, those in place are those of the linked venv if and only if no exception escaped between a link and its maps |
| UpdateReports.RollbackLeavesTheMaps | src/forgemaster/apply_update.py:661-719 | the same for a rollback: the target once it is linked and its data are back, then the current one again after a way back |
| UpdateReports.MapsFollowTheLinkBack | src/forgemaster/apply_update.py:661-719 | the same exact condition for a rollback |
| UpdateReports.ApplyTellsTheTruth | src/forgemaster/apply_update.py:518-593 | for every pattern of failures, at every exit: what the report comes with (link, data of each start, snapshot), "relaunched" being true if and only if a survivor of the stop left the data equal, "back to the state before" if and only if, besides, no late survivor changed what was put back |
| UpdateReports.RollbackTellsTheTruth | src/forgemaster/apply_update.py:614-719 | the same for the rollback: "as before" is true if and only if the failed restoration and the survivor of the stop left the database as it was, "at the snapshot" if and only if that survivor did not change what was restored |
| UpdateReports.ObeyedStopsTellTheTruth | src/forgemaster/apply_update.py:518-593 | with the stops obeyed, "relaunched" and "back to the state before" are true, whatever else fails |
| UpdateReports.OnlyACutRestorationLies | src/forgemaster/apply_update.py:614-719 | with the stops obeyed every claim of a rollback is true but "as before", which is true if and only if the restoration was not cut after it moved the database |
| UpdateReports.AsBeforeCanBeFalse | src/forgemaster/apply_update.py:661-669 | on every instance some failure makes "as before" false: the current binary is started on the snapshot's data |
| UpdateReports.RelaunchedCanBeFalse | src/forgemaster/apply_update.py:527-532 | on every serving instance, a stop that fails makes "relaunched as it was" false |
| UpdateReports.RevertedCanBeFalse | src/forgemaster/apply_update.py:566-593 | on every instance at rest, a second stop that fails makes "back to the state before" false |
| UpdateReports.AtSnapshotCanBeFalse | src/forgemaster/apply_update.py:631-690 | on every instance ahead of the snapshot, a stop that fails makes "at the state of the snapshot" false, on data the target cannot read |
| UpdateUndo.DefaultTargetIsTheUpdateItself | src/forgemaster/update.py:298-404 | after an update, the default resolution names its own snapshot and the venv of before, and the retention check lets them through |
| UpdateUndo.UpdateLeavesItsSnapshot | src/forgemaster/apply_update.py:506-554 | a successful update leaves both venvs and, newest of all, the snapshot of the data held when the service was stopped, a survivor of that stop included |
| UpdateUndo.UndoRestoresEverything | src/forgemaster/apply_update.py:506-719 | an update whose snapshot can be read, any use of the new binary, then the default rollback: the link designates the venv of before, and the last start is on exactly the database held when the update stopped the service, if and only if no process that survives the stop of the rollback changes what was restored |
| UpdateUndo.RollbackIsNotItsOwnTarget | src/forgemaster/snapshot.py:305-348 | no default resolution points to a safety snapshot again |
| UpdateUndo.AcceptedTargetIsFit | src/forgemaster/update.py:336-378 | what the resolution accepts meets the hypothesis under which the rollback is safe |
| UpdateRuns.SurveyUpdatesInFlight | src/forgemaster/update.py:1109-1150 | the newest-first scan with its early stop returns the specified run |
| UpdateRuns.SurveyExactly | src/forgemaster/update.py:1109-1150 | a live run is found if and only if every newer one is concluded or never started |
| UpdateRuns.StatesExactly | src/forgemaster/update.py:733-783 | a verdict decides; without one the probe, if anyone asks; of a dead unit, its log; and a run is in flight if and only if it is alive |
| UpdateRuns.EventsExactly | src/forgemaster/update.py:577-653 | what each event does to each run: a launch names its wheel, a log and a verdict only come from a live unit, no other run moves |
| UpdateRuns.OneUpdateInFlight | src/forgemaster/update.py:218-246 | over any history at most one update is in flight, it is the newest run, and the guard finds it if and only if there is one |
| UpdateRuns.PruneWheels | src/forgemaster/update.py:966-986 | the loop keeps exactly the newest deposits and those a recent run without verdict names, and says the others, the most recent first |
| UpdateRuns.PrunedExactly | src/forgemaster/update.py:954-986 | a deposit stays if and only if fewer than `keep` are more recent, or one of the fifty newest runs names it and has no verdict |
| UpdateRuns.WheelInFlightIsKept | src/forgemaster/update.py:954-986 | no event ever prunes the deposit that the run in flight names |
| UpdateRuns.StagedWheelIsKept | src/forgemaster/update.py:845-903 | a deposit survives its own arrival, and the newest ones survive it too |
| UpdateRuns.ASecondUpdateExactly | src/forgemaster/update.py:1109-1150 | while an update flies, the guard names it if and only if the probe says its unit is active, and the next launch leaves a single update in flight if and only if the guard names one |
| UpdateRuns.ASilentManagerHidesTheRun | src/forgemaster/update.py:818-829 | with a manager that answers nothing, the guard finds nothing and a second update starts beside the first |
| UpdateRuns.TwoPreflightsExactly | src/forgemaster/update.py:577-653 | two gestures that both passed the guard, and whose units start, leave one update in flight if and only if their run names collide, and the collision touches nothing |
| UpdateRuns.ALateUnitExactly | src/forgemaster/update.py:637-653 | a unit that starts after its launch was given up flies alone if and only if nothing was launched since |
| UpdateRuns.UpdateArea.Preflight | src/forgemaster/update.py:105-295 | nothing is written, and the refusal is the first in the order of the gesture: wheel, service, uncommitted work, job in flight, update in flight, target |
| UpdateRuns.ChecksInOrder | src/forgemaster/update.py:105-295 | the order in which each of the two gestures asks |
| UpdateRuns.UpdateArea.Spawn | src/forgemaster/update.py:577-653 | the run takes its name or the launch collides and touches nothing; the intention is there whether the unit started or not |
| UpdateRuns.UpdateArea.Launch | src/forgemaster/update.py:105-653 | when nothing comes between, a gesture is refused if and only if the survey names an update or a check of the gesture finds something amiss, and then changes nothing; accepted, it is the spawn |
| UpdateRuns.UpdateArea.StageWheel | src/forgemaster/update.py:845-903 | a deposit then the retention, or nothing at all on a name collision |
| Alerts.AlertTable.Emit | src/forgemaster/db/alerts.py:42-63 | opens the key or refreshes its one open row, and nothing else; a base that fails changes nothing and raises nothing |
| Alerts.AlertTable.Resolve | src/forgemaster/db/alerts.py:66-82 | closes exactly the open rows of the feature and of the given kinds; a base that fails changes nothing and raises nothing |
| Alerts.AlertTable.Ack | src/forgemaster/db/alerts.py:107-119 | acknowledges an open row, returns any other untouched, and fails only on an unknown id |
| Alerts.UpsertKeepsTheIndex | src/forgemaster/db/alerts.py:42-63 | at most one open row per motive; the date of first detection stays, no other row moves |
| Alerts.UpsertedExactly | src/forgemaster/db/alerts.py:42-63 | a block detected again changes the notice and the date of its open row and nothing else; an unknown one opens a new row, last, dated now |
| Alerts.ClosedExactly | src/forgemaster/db/alerts.py:66-119 | a resolution closes, dated now, the open rows of the feature whose kind is named, all of them when none is; an acknowledgement turns one open row into an acknowledged one |
| Alerts.BlockAgainReopens | src/forgemaster/db/alerts.py:42-82 | a motive closed then detected again opens a new row |
| DrainBoard.HoldKeeps | src/forgemaster/dispatch/orchestrator.py:272-280 | holding a feature keeps the board valid: mutex, bound, disjoint ledger, exact counts, safe log |
| DrainBoard.SubmitKeeps | src/forgemaster/dispatch/orchestrator.py:281-284 | submitting one keeps it valid |
| DrainBoard.CollectKeeps | src/forgemaster/dispatch/orchestrator.py:287-302 | collecting one keeps it valid, with any outcome of the worker |
| DrainBoard.CollectWeighs | src/forgemaster/dispatch/orchestrator.py:223-304 | each collected run finishes a task or excludes its feature: the work left strictly decreases |
| DrainBoard.ReportFollows | src/forgemaster/dispatch/orchestrator.py:116-144 | a report is `ok` if and only if the worker ran and its output was judged a success; it needs a terminal, or a new drain, if and only if that is why it never ran; it is held if and only if the output says so |
| DrainRun.DiscoverableFeatures | src/forgemaster/dispatch/orchestrator.py:90-113 | lists exactly the dispatchable features, each once, in any order |
| DrainRun.EmitReportAlert | src/forgemaster/dispatch/orchestrator.py:60-87 | opens the alert of the report's motive, none for a success |
| DrainRun.MotivesFollowTheLedger | src/forgemaster/dispatch/orchestrator.py:60-87 | a report is filed and announced under the same motive, and a motive is missing only for a success |
| DrainRun.AnnouncedAs | src/forgemaster/dispatch/orchestrator.py:60-87 | which outcome is announced as what, none for a success, and only a run that broke as a blocker |
| DrainRun.DrainLoop | src/forgemaster/dispatch/orchestrator.py:252-304 | terminates under every schedule, keeps the board valid, and leaves only on an abort, a rate limit, a worker that raised, or with nothing in flight and nothing to submit |
| DrainRun.RunProject | src/forgemaster/dispatch/orchestrator.py:223-324 | the log is safe; an abort is obeyed in the very pass that finds it; the tasks of each feature advance exactly on the workers that ran and were judged a success; without an exception the report and the ledger tell, outcome by outcome, exactly what happened and the alerts left open are exactly those it calls for, gates included; a worker that raises takes the run down with exactly the alerts of what was collected, and the finalisation of a finished feature that raises with those and the gates of the features finalised before it |
| DrainRun.Dispositions | src/forgemaster/dispatch/orchestrator.py:398-428 | each place lists, in order, the live features that belong there |
| DrainRun.PlacesPartition | src/forgemaster/dispatch/orchestrator.py:398-473 | the counts of the places add up to the number of live features |
| DrainRun.PlacesExactly | src/forgemaster/dispatch/orchestrator.py:398-473 | which live feature each place lists, from the ledger and the tasks; and, with neither abort nor rate limit, a live feature without unmet dependency that has a task to do left is in the ledger |
| DrainRun.PlacesInOrder | src/forgemaster/dispatch/orchestrator.py:398-428 | each place lists its features in the order of the roadmap |
| DrainRun.CollectedBlocksAreAnnounced | src/forgemaster/dispatch/orchestrator.py:287-320 | every held or failed feature ends with an open alert, every drained one with none |
| DrainRun.UncollectedBlocksAreSilent | src/forgemaster/dispatch/orchestrator.py:263-304 | a failure nobody collected happens only after an abort or a rate limit, is reported as blocked and changes no alert |
| DrainRun.ABlockCanBeSilent | src/forgemaster/dispatch/orchestrator.py:263-304 | on every roadmap with two features ready and room for both, a safe run ends with one of them failed, reported blocked, and no alert about it |
| DrainRun.ACrashIsSilent | src/forgemaster/dispatch/orchestrator.py:287-304 | after a worker or a finalisation raised, no alert of the run speaks of any feature in flight, and a drained feature keeps the alerts it had |
| DrainFeature.DrainTasks | src/forgemaster/dispatch/orchestrator.py:354-368 | workers that ran and were judged a success, then at most one other, one task advanced by each success, each report following its outcome, until an abort is found, whatever the dependencies of the feature; a worker that raises cuts this after some successes |
| DrainFeature.RunFeature | src/forgemaster/dispatch/orchestrator.py:327-392 | gated: one alert and an empty count; otherwise the figures are those of the outcomes, the failures counted are the failed feature, a task advances exactly on a success, and the alerts are exact, its gate included; when a worker raises with tasks left, or the finalisation of the finished feature, the alerts are those of the reports before it |
| Headless.ResultEvent | src/forgemaster/dispatch/jobs.py:316-341 | the whole object, else the last result event, else the last non-empty object, else the trailing one |
| Headless.RateLimitRejection | src/forgemaster/dispatch/jobs.py:344-363 | true if and only if some event was rejected; raises if and only if a searched line is JSON but not an object |
| Headless.SignalInterruption | src/forgemaster/dispatch/jobs.py:369-393 | the first user line that carries the marker, or raises, decides |
| Headless.ParseHeadlessResult | src/forgemaster/dispatch/jobs.py:426-480 | the verdicts in their order of precedence |
| Headless.VerdictsAreExclusive | src/forgemaster/dispatch/jobs.py:426-480 | at most one of ok, rate-limited and interrupted; an error if and only if not ok; no figures on a held verdict |
| Headless.HeldExactly | src/forgemaster/dispatch/jobs.py:344-480 | from the lines alone: when the parser raises, when the output is a rate-limit rejection, and when it is an interruption, in this order of precedence |
| Headless.PlainExactly | src/forgemaster/dispatch/jobs.py:316-480 | when no verdict is held, an output whose last result event is given is a success if and only if the exit code is 0 and neither error flag is up; its figures are those of the event if and only if the exit code is 0 |
| Headless.OtherFailures | src/forgemaster/dispatch/jobs.py:426-480 | why a held verdict, or an output with nothing to read, is not a success |
| Headless.HeldVerdictsNeedNoExitCode | src/forgemaster/dispatch/jobs.py:426-480 | rate-limited and interrupted do not depend on the exit code |
| Headless.ACutLogIsNeverGreen | src/forgemaster/dispatch/reconcile.py:46-74 | a log cut before its result event has no verdict |
| Headless.GreenWithoutVerdictExactly | src/forgemaster/dispatch/jobs.py:316-480 | an output without a result event is a success if and only if the exit code is 0, something was said, no line raises, rejects or interrupts, and an object without an error flag stands in for the event |
| Headless.AnOutputWithoutVerdictCanBeGreen | src/forgemaster/dispatch/jobs.py:316-341 | an output without a result event can be green when the exit code is 0 |
| Headless.AStrayArrayRaises | src/forgemaster/dispatch/jobs.py:344-363 | one JSON line that is not an object and names the event makes the parser raise, whatever surrounds it |
| Jobs.JobStore.RecordStart | src/forgemaster/dispatch/jobs.py:34-46 | one new running job |
| Jobs.JobStore.RecordPid | src/forgemaster/dispatch/jobs.py:49-56 | the pid, on a running job only |
| Jobs.JobStore.RecordFinish | src/forgemaster/dispatch/jobs.py:59-84 | on a running job only: done if and only if ok, held if and only if the flag says so, failed if and only if neither, unless a status is forced; with the figures, the reason and the end |
| Jobs.FinishedIsFinal | src/forgemaster/dispatch/jobs.py:59-84 | over any statements a finished job changes nothing but its error, and that only by an abort |
| Jobs.LeavesRunningAtMostOnce | src/forgemaster/dispatch/jobs.py:59-84 | over any statements a job leaves `running` at most once |
| Jobs.FirstVerdictWins | src/forgemaster/dispatch/jobs.py:59-84 | a job ends exactly as the first statement to end it says |
| Jobs.FinishStoresTheVerdict | src/forgemaster/dispatch/jobs.py:59-84 | of an exclusive verdict and no forced status, a running job is stored done if and only if ok, held if and only if the flag says so, failed if and only if neither; with the figures, the reason and the end, and nothing else moves |
| Jobs.OtherJobStatements | src/forgemaster/dispatch/jobs.py:34-56 | each other statement on a job is refused on one that does not run, but the blame of an abort |
| Jobs.TaskStatements | src/forgemaster/dispatch/reconcile.py:98-112 | only a task in progress is closed or put back to be done |
| Jobs.JobStore.MarkJobOrphan | src/forgemaster/dispatch/reconcile.py:77-112 | alone on the base, the job ends as its log says, the status returned is the one stored, and its task is to be done again; a log that cannot be parsed leaves everything untouched |
| Jobs.MarkConcludes | src/forgemaster/dispatch/reconcile.py:77-112 | a dead job is stored with the verdict its log holds and its figures, or interrupted without any; its task goes back to be done; nothing else moves |
| Jobs.AnswerIsExactUnlessOvertaken | src/forgemaster/dispatch/reconcile.py:85-112 | under interference, the status returned is the one stored if and only if nobody ended the job first, or with the same status |
| Jobs.AbortCanBlameASuccess | src/forgemaster/dispatch/abort.py:105-114 | a finish that slips in keeps its status and figures, is blamed on the human, and its task is to be done again |
| Jobs.JobStore.RequestAbort | src/forgemaster/dispatch/abort.py:92-120 | alone on the base, jobs with a verdict keep it, the others are killed and blamed, no other job is touched; it raises if and only if one of the logs makes the parser raise |
| Jobs.AbortRequeues | src/forgemaster/dispatch/abort.py:105-114 | an abort that goes through puts back to be done every task one of its jobs was on, and no other |
| Jobs.AbortAllConcludes | src/forgemaster/dispatch/abort.py:105-114 | with legible logs every listed job ends with the verdict its log holds, or interrupted and blamed on the human, that blame exactly when its log holds no result event |
| Jobs.AbortStopsAtAnIllegibleLog | src/forgemaster/dispatch/abort.py:105-114 | one log that makes the parser raise leaves its job and every one listed after it running, untouched, though their processes were killed |
| Jobs.JobStore.ReconcileOrphans | src/forgemaster/dispatch/reconcile.py:133-146 | reaps exactly the running jobs without a live worker; raises if and only if one of their logs makes the parser raise |
| Jobs.SweepIsExact | src/forgemaster/dispatch/reconcile.py:133-146 | with legible logs every dead job is ended and no other is touched |
| Jobs.ReapedInOrder | src/forgemaster/dispatch/reconcile.py:115-146 | the jobs reported reaped are those without a known, non-zero, live pid, in the order of the listing |
| Jobs.SweepConcludes | src/forgemaster/dispatch/reconcile.py:133-146 | with legible logs every dead job ends with the verdict its log holds, or interrupted |
| Jobs.SecondSweepIsEmpty | src/forgemaster/dispatch/reconcile.py:133-146 | a second reconciliation reaps nothing |
| Jobs.PoisonedJobSurvives | src/forgemaster/dispatch/reconcile.py:133-146 | a dead job whose log makes the parser raise is still running, unchanged, after the reconciliation |
| Transcript.ReadEvents | src/forgemaster/dispatch/jobs.py:165-186 | the loop over complete lines computes the specified reading; a missing file or a rotation is handled |
| Transcript.LineByLine | src/forgemaster/dispatch/jobs.py:177-186 | a line ended by `\n` or `\r\n` is consumed with its end and normalised; one ended by another separator, or not ended, stops the reading; every text is one of these |
| Transcript.ARotationStartsOver | src/forgemaster/dispatch/jobs.py:165-176 | a missing file changes nothing, another file than the one last read is read from its first byte, the same one from where the last reading stopped |
| Utf8.MaximalSubpart | src/forgemaster/dispatch/jobs.py:177-186 | the lossy decoding of the log: each unit takes the longest run of bytes that begins the encoding of a character, or one byte (Unicode Standard, section 3.9) |
| Transcript.FaithfulIncremental | src/forgemaster/dispatch/jobs.py:165-186 | for any bytes written in any pieces, successive readings give the events of one reading and end at the start of a line, as long as each character of the complete lines is re-encoded on as many bytes as it took |
| Transcript.IncrementalEqualsOneShot | src/forgemaster/dispatch/jobs.py:165-186 | for any well-formed text written in any pieces, successive readings give the events of one reading, and no partial line is consumed |
| Transcript.ConsumesAllUnlessForeign | src/forgemaster/dispatch/jobs.py:177-186 | every complete line is consumed if and only if none holds a foreign separator |
| Transcript.StallIsPermanent | src/forgemaster/dispatch/jobs.py:177-186 | after a foreign separator nothing more is ever consumed |
| Transcript.OffsetNeverLags | src/forgemaster/dispatch/jobs.py:177-186 | the offset is at least the bytes read, with equality if and only if each consumed character is re-encoded on as many bytes |
| Transcript.AStrayByteLosesALine | src/forgemaster/dispatch/jobs.py:177-186 | one ill-formed byte loses the next line to the incremental reading |
| Base64.DecodesWhatWasEncoded | src/forgemaster/channel_publish.py:46-49 | encode then decode is the identity |
| Base64.SameBits | src/forgemaster/channel_publish.py:46-49 | four letters spell the 24 bits of their three bytes, the first ones first (RFC 4648, section 5) |
| Base64.OneSpellingIsCanonical | src/forgemaster/update_channel.py:663-677 | an accepted text is the publisher's own spelling if and only if it is canonical |
| Base64.SecondSpellings | src/forgemaster/update_channel.py:663-677 | three accepted texts of one byte |
| Channel.TrustRoot | src/forgemaster/update_channel.py:148-192 | the loop over the declared keys computes the specified root or refusal |
| Channel.RootIsDerived | src/forgemaster/update_channel.py:148-192 | an accepted root holds every declared key, each under its derived identifier, no two under the same |
| Channel.RootExactly | src/forgemaster/update_channel.py:148-192 | from the document alone: which files are accepted as a root and which keys they then hold, in which order |
| Channel.VerifyEnvelope | src/forgemaster/update_channel.py:232-266 | the loop over the signatures, then the join of the unknown identifiers, compute the specified verdict |
| Channel.VerifiedExactly | src/forgemaster/update_channel.py:232-266 | the payload comes back if and only if a signature the scan reaches verifies under the very key it names |
| Channel.DomainSeparated | src/forgemaster/update_channel.py:125-131 | what is signed begins with the name of the format, and two payloads never share a message |
| Channel.EnvelopeExactly | src/forgemaster/update_channel.py:195-229 | a body is an envelope, as it is, if and only if it is a document of the format with a payload and at least one signature, all in strict base64url, and an identifier of any kind beside each |
| Channel.AnnounceExactly | src/forgemaster/update_channel.py:269-309 | a payload is an announce, as it is, if and only if it is a document of the format that holds a version, a digest of the edition and one of its wheel, none empty, and at most fifty ancestors, all strings |
| Channel.ScanRefuses | src/forgemaster/update_channel.py:232-266 | when nothing verifies: a bad signature if and only if a known key is claimed, an internal failure if and only if none is and some identifier is not a string, an unknown key otherwise |
| Channel.ChannelState.Refresh | src/forgemaster/update_channel.py:396-452 | the last success survives every failure, a state that cannot be written changes nothing on disk, and one that cannot be encoded makes it raise |
| Channel.AcceptedExactly | src/forgemaster/update_channel.py:396-452 | a poll succeeds if and only if a body of 256 KiB at most was served, under a root that holds a key, with a reached signature that vouches for an announce |
| Channel.RefusedExactly | src/forgemaster/update_channel.py:396-452 | which of the other states an attempt is stored with, each by its own cause |
| Channel.PolledExactly | src/forgemaster/update_channel.py:396-452 | what a poll returns and stores: its own attempt, dated, with the announce it accepted or else the last success there was; on disk only when the write went through |
| Channel.StoredSuccessIsFounded | src/forgemaster/update_channel.py:359-452 | over any run of polls the stored success is that of the last poll that succeeded and was written, and a key of that poll's root vouches for it |
| Channel.AvailableIsFounded | src/forgemaster/update_channel.py:498-576 | `available` implies a vouched announce whose lineage holds the build, and no hard failure in the last attempt |
| Channel.JudgedExactly | src/forgemaster/update_channel.py:498-576 | the verdict in the order of its priorities: no keys; a lie about a signature, even after a success; nothing verified yet, after a failure or not; then where the build stands |
| Channel.RefreshRaisesExactly | src/forgemaster/update_channel.py:396-452 | after any polls `refresh` raises if and only if the keys file is present and not UTF-8 or, the state file being open, a lone surrogate is to be written: in an unknown identifier named by strings alone, in an accepted announce, in the path of a keys file that is refused, or in the reason of a request that fails |
| Channel.OneOddIdentifierSoftensTheRefusal | src/forgemaster/update_channel.py:232-266 | a body that names no known key is a hard refusal if and only if all its identifiers are strings; otherwise a stored success keeps its verdict |
| ChannelPublish.TrustRootReadsBack | src/forgemaster/channel_publish.py:172-180 | the client reads back exactly the key the document was derived from |
| ChannelPublish.AnnounceReadsBack | src/forgemaster/channel_publish.py:100-141 | a built announce is accepted, field for field, if and only if it names a version and its stamp holds a string; the state can store it if and only if the wheel holds no lone surrogate |
| ChannelPublish.BuildRefusesExactly | src/forgemaster/channel_publish.py:100-141 | the publisher refuses, in order, a stamp without a digest, more ancestors than the client reads, a digest that is its own ancestor, and nothing else |
| ChannelPublish.SignedIsVerified | src/forgemaster/channel_publish.py:144-169 | among other signatures, the signed payload comes back whenever the signer's key is in the root |
| ChannelPublish.AnUnhashableSignatureHidesTheRest | src/forgemaster/update_channel.py:232-266 | a signature whose identifier is a list or an object, placed first, ends the verification; any other that names no key is passed over |
| ChannelPublish.ALoneIdentifierRaises | src/forgemaster/update_channel.py:396-452 | any body of one unknown identifier with a lone surrogate makes `refresh` raise, whatever the root and the history |
| ChannelPublish.AKeysFileRaises | src/forgemaster/update_channel.py:148-192 | a keys file of one ill-formed byte makes `refresh` raise |
| ChannelPublish.ALoneUrlRaises | src/forgemaster/update_channel.py:396-452 | a channel that does not answer, at a URL with a byte that is not UTF-8, makes `refresh` raise though nothing was served |
| ChannelPublish.ALonePathRaises | src/forgemaster/update_channel.py:396-452 | so does a keys file that cannot be read, under such a path |
| ChannelPublish.ANullIdentifierKeepsAvailable | src/forgemaster/update_channel.py:498-576 | unsigned, a body whose identifier is null leaves `available` standing, where an unknown string interrupts it |
| ChannelPublish.PublishedIsAnnounced | src/forgemaster/channel_publish.py:100-180 | from the wheel to the poll: the client accepts exactly the announce that was built |
| ChannelPublish.ClientIsToldWhatWasPublished | src/forgemaster/update_channel.py:498-576 | the client raises if and only if the wheel holds a lone surrogate and the state file is open; otherwise the verdict is `available` if and only if the build is in the published lineage, up to date if and only if it is the edition |
| Consent.Proposals.Register | src/forgemaster/db/proposals.py:70-104 | born, untouched, or reopened with its first date; a base that fails raises nothing, wherever it fails |
| Consent.Proposals.Choose | src/forgemaster/db/proposals.py:107-125 | stored if and only if it is a choice on the announced bytes and the base commits; answered if and only if, besides, the row can be read back; each refusal by its own error |
| Consent.Proposals.Withdraw | src/forgemaster/db/proposals.py:128-145 | stored if and only if the row is declined and the base commits; each refusal by its own error |
| Consent.RecordExactly | src/forgemaster/db/proposals.py:70-104 | the same bytes announced again leave the row as it is, decision included; other bytes put it back to be decided, first date apart; a new version is born undecided |
| Consent.DecideExactly | src/forgemaster/db/proposals.py:107-145 | a choice touches one row, about the very bytes of that row; a revocation touches one row, a declined one |
| Consent.ADecisionOutlivesRepeats | src/forgemaster/db/proposals.py:70-104 | over any history a decision outlives every re-announcement of the same bytes |
| Consent.ConsentCoversWhatWasSeen | src/forgemaster/db/proposals.py:60-145 | over any history a row is decided if and only if it is dated, its bytes were announced, and a choice on that version and those bytes stands behind it, with nothing since |
| Consent.ChoiceCoversUnlessOvertaken | src/forgemaster/db/proposals.py:107-125 | with anything committed between its two statements, a choice is about the bytes shown if and only if they are still the last announced |
| Consent.AnAnnounceCanOvertake | src/forgemaster/db/proposals.py:107-125 | one announce of other bytes in between is recorded under the user's choice |
| Consent.FirstSeenIsForEver | src/forgemaster/db/proposals.py:70-104 | the first date is never rewritten and a version never disappears |
| Consent.OneMoreEvent | src/forgemaster/update_proposals.py:70-82 | over any life, a gesture of the user acts on the ledger and enters no edition, and a round acts on the state file and enters what its own view proposes, even one that could not be written |
| Consent.NotedExactly | src/forgemaster/update_proposals.py:40-82 | what is entered after a poll, and when: an attempt neither hard nor without keys, something verified, a running build that is an ancestor of it and not itself |
| Consent.OnlyFoundedEditionsAreProposed | src/forgemaster/update_proposals.py:40-82 | over any life of an instance only a vouched announce, of an edition it descends from, is entered |
| Consent.ConsentIsFounded | src/forgemaster/update_proposals.py:40-82 | every row of the ledger is about such an announce, bytes included |
| Cost.ProjectCost | src/forgemaster/dispatch/cost.py:139-193 | every accumulator is exactly the sum of its rows, every list names its keys once and as the rows meet them, the model of the total is the dearest one, the first met of several, and their number is exact |
| Cost.FiguresAreTheRows | src/forgemaster/dispatch/cost.py:46-193 | the dollars, the jobs and each kind of tokens of every accumulator as plain sums over the rows it is about |
| Cost.TheDearestModel | src/forgemaster/dispatch/cost.py:139-193 | no model named by a row cost more than the one told, and one that cost as much was first named later |
| Cost.Reconciles | src/forgemaster/dispatch/cost.py:139-204 | in every field the total is the features plus the non-work, a feature is its steps plus its fixes, tokens are the four kinds added |
| Cost.InterviewCost | src/forgemaster/dispatch/cost.py:79-136 | the figures are exactly those of the lines of the transcripts found, session by session, with the model that wrote most; none if and only if none is found; raises if and only if a line is JSON and not an object |
| Cost.HeardIsTheTurns | src/forgemaster/dispatch/cost.py:79-136 | the figures of the interview as plain sums over its turns |
| Cost.InterviewIsTokensOnly | src/forgemaster/dispatch/cost.py:187-197 | the interview adds its tokens to the total and neither dollars nor jobs |

## Left out

- Subprocesses, systemd, sockets, HTTP, pip and the browser check: steps with an arbitrary outcome.
- JSON text, SHA-256, Ed25519 and SQLite internals: parameters, a log of transactions for a database and its journal, atomic statements for the tables.
- The SQL migration bodies: only "the version moves forward, a newer base is refused" is kept.
- `list_runs`, `list_wheels`, the deposit checks on names and sizes, and `aptitude`: single-branch claims beside what is modelled.
- The abort sentinel and the killing of process groups: an abort is any answer to the question the drain asks before each pass, a worker's end an arbitrary outcome.
- The command line, the daemon, the routes, the web front end and the printing.
- Timeouts, polling delays and the rounding of dollars.
- `venv_schemas` probes are a map fixed during one resolution: a venv that changes between two probes is not modelled.
- HomeFiles.HomeDir.Restore: permissions are restored modes only, and a directory of the path is never missing; a move or a copy fails as a crash.
- HomeFiles.HomeDir.Create: the text of the restoration script is not modelled, and a leftover `restore.py.tmp` has no mode of its own.
- UpdateEngine.Applicator.RollBack: the restoration and the maps are external programs, so their methods apply the specified outcome; the venv purge of an update keeps or deletes whole sets.
- UpdateSafety.RollbackNeverServesForbidden: dated names only grow, so a safety snapshot never bears the name of an existing directory.
- UpdateRuns.OneUpdateInFlight: in its histories preflight and spawn are one step, a unit that has not started stays down, and the probe tells the truth; `TwoPreflightsExactly`, `ALateUnitExactly` and `ASecondUpdateExactly` say exactly what each of the three costs.
- UpdateRuns.UpdateArea.Preflight: what each check reads (an `ExecStart`, a worktree, a job) is one fact, given as amiss or not.
- Alerts.AlertTable.Emit: tier and findings travel with the reason.
- DrainRun.RunProject: nobody adds tasks or merges features during the run, the base of the alerts obeys, and the ranking of the discoverable features is any order.
- DrainRun.Finalize: the gates and the review worker are one given outcome for each feature.
- Headless.ResultEvent: the dominant model of a run and the text of the errors are left out.
- Transcript.IncrementalEqualsOneShot: one file that only grows; a rotation restarts at zero and is part of `ReadEvents` only.
- Channel.TrustRoot: JSON nested beyond the interpreter's recursion limit is not modelled.
- Channel.ChannelState.Refresh: a field NAME with a lone surrogate is only known to be there, and the state file left by something else than `refresh` is unreadable or of another schema.
- Consent.Proposals.Register: `enregistre` and `revoque` are one step each there; only `decide` is also taken statement by statement.
- UpdateUndo.UndoRestoresEverything: the version of the snapshot that the update took can be read; where it cannot, the resolution passes it over.
- Base64.OneSpellingIsCanonical: an `=` after a full quantum, which some interpreter versions accept, is refused here.
- Cost.InterviewCost: a transcript whose text does not decode is not modelled.
