# agentenv: attempts, runs and suites, verified

This project models the attempt, run and suite execution pipeline of agentenv in Dafny, together with the
contracts its artifacts must satisfy, and proves that the two fit. Producers (loops, orchestrators, counters) and
acceptors (manifest validators, loaders, classifiers) are written separately in the repository; most theorems here
say that whatever a producer does, its acceptor agrees, or exactly when it does not.

`dafny verify dfyconfig.toml` checks everything.

## The parts

- **Attempts on disk** (`AgentAttempt`, `AttemptDirectories`, `AttemptRecovery`, `AttemptStore`, `AgentGeneration`,
  `CompletedAttempt`, `StoredAttempt`, `RunAnswers`). An attempt directory is a map from file slots to typed contents; a process is a list of
  atomic file operations, and every prefix of the list is a possible crash. `AttemptStore` is the imperative side:
  an object with the current files and a journal of completed operations, whose methods follow the orchestrator's
  statements and are proved to journal exactly the operation lists the theorems speak about. Once the generation
  manifest is visible the model's answer is settled; every crash and every resume keeps it, and whichever resume
  gets through leaves what an uninterrupted run would have left. Every file is told field by field: what is redacted in
  a stored transcript, and which failure becomes which status, error and record.
- **Suite resume** (`SuiteResume`, `ResumeAnswers`). Whole sessions over many declared attempts, each session cut anywhere or ended
  by a non-terminal model answer: classification is exact on everything sessions can produce, no committed answer is
  ever sampled again, one good session finishes everything, broken attempts are left alone,
  and whatever contradicts the declaration or itself counts as broken.
- **The prompt loop and replay** (`PromptLoop`, `PromptLoopLaws`, `PromptLoopAnswers`, `ScriptedClient`,
  `ReplayNormalForm`, `ReplayAgreement`, `ReplayVerdict`, `ReplayAnswers`, `ReplayReadings`, `ReplayFidelity`,
  `ReplayWitnesses`). The bounded loop over three growing lists with one in-place edit, its transcript law and the one
  thing that ends each run; the verdict of a replay, file by file and field by field; and the two-run statement that a
  replayed script has the source's normal form, with two concrete attempts whose replay is a mismatch.
- **Scoring** (`ScorerAttempt`, `ScorerAnswers`). The phase machine with a timeout or exception at any step, against a
  checklist of thirteen gates, and for each status the condition on the outside world under which it is answered.
- **Runs and suites** (`EvalRecords`, `EvalSummaries`, `EvalPlan`, `EvalRun`, `LayerCounts`, `EvalAnswers`,
  `EvalManifests`, `EvalSuite`, `SuitePlanning`, `SuiteRun`, `SuiteDeclaration`, `DeclarationAnswers`, `ArtifactRefs`,
  `ArtifactNames`, `Decimal`). Plans, the bracketed trace,
  nested status counters, coverage by pigeonhole, manifests and their validators, a whole suite from its configuration
  to its manifest, the declaration checked from memory and from files.
- **Directories** (`ArtifactTree`, `SuiteDirectories`, `SuiteDirectoryCases`, `ControlPaths`, `ControlDirectories`). One
  disk of files and folders by their components, on which runs prepare directories and leave files. A whole sequence of
  steps gets through exactly when its paths are out of each other's way, two at a time; for suites and calibrations
  this becomes a condition on their names, with names on both sides of it.
- **Calibration and audits** (`FileDrift`, `FlakeDetection`, `ControlCalibration`, `TaskHashCompare`, `NestedOverrides`,
  `ManifestInPlace`, `HarnessAudit`). Exact dictionary diffs, flake verdicts, a whole control run up to its manifest,
  task-hash comparison, in-place overrides of nested dictionaries, audit aggregation.

What comes from outside is a parameter: hashes, redaction, the text normaliser, the prompt renderer and the parser
are functions; model, tool, scorer and check outcomes are arbitrary values of an environment; clocks and ids are
seeds. Assumptions about them are named predicates (`StableRedaction`, `DeterministicScorer`, `OneDiffHash`,
`HonestWorld`, `TwinWorlds`, `TwinEnvironments`, `Working`, `FreshIds`) and appear in the theorems that need them. What
two runs store is compared on the strings those two runs produce; that their prompts, parsers, guards, redaction and
tools answer alike is assumed of every input (`TwinWorlds`).

## Where the code does not do what one would expect

- A control-script attempt whose workspace preparation failed finishes with the task recorded as `unknown_task` and
  is from then on rejected by suite resume (`FinishedControlAttemptIsAcceptedIff`, `UnpreparedControlIsRejected`).
- A replay compares files in normal form but `error_class` and `error_message` literally, the stored side redacted and
  the fresh side not. An unchanged attempt replays as a match exactly when nothing was raised, or redaction leaves the
  class alone and turns the source's message into the replay's (`UnchangedReplayMatchesIff`); a message with a secret
  in it, or one that names the temporary run directory, is a mismatch (`SecretInErrorMismatches`,
  `RunRootInErrorMismatches`).
- The validator of suite declarations refuses the plan of some configurations that load: a policy name that is not an
  ordinary relative path, a task id with a backslash or an improper leading component, and slashed names that make two
  policies' attempts share a path (`PlannedSuiteIsValidIff`, `SlashedNamesAreRefused`, `ImproperNamesAreRefused`).
- A suite whose declaration is accepted can still raise over its directories, which are prepared one after the other
  and must be empty: a policy after one that is named below it, a policy named into an earlier one's attempts or after
  one of its files, and the same for task ids and replays. The order decides: named the other way round two policies get
  through (`SuiteDirectories.DirectoriesClear` is the condition; `ParentPolicyIsTaken`, `ChildPolicyIsFree`,
  `AttemptsFolderIsTaken`, `RunFileIsTaken`, `ParentAttemptIsTaken`, `ParentReplayIsTaken`).
- A control calibration lists each run's directory as the path library writes it, so an id with a doubled slash is fine.
  An id with a backslash, a parent component before its last, or an absolute one that leads out of the output directory
  lets all runs finish and then ends the calibration without a manifest (`CalibrationManifestIsValidIff`,
  `ControlPaths.IdFits`, `DoubledSlashIsListed`, `IdsThatDoNotFit`, `AbsoluteIdInsideFits`).
- Ids that fit can be in each other's way, as two spellings of one path or when a run's directory lies inside that of a
  later task (`RunControls`, `SameDirIsTaken`, `RunDirIsTaken`); ids without slashes never are (`PlainIdsRunThrough`).
- Taken alone, the helper that records overrides stores a missing value as null and could not undo an added key
  (`DiffUndoesOverrideIff`, `AddedKeyStaysBehind`). The overrides an audit case may ask for replace a timeout every
  loaded manifest has, so their record does undo them (`AdmittedOverrideIsUndone`).
- The declaration check from memory looks at three things the loader's check does not
  (`MemoryCheckIsDiskCheckAndMore`).

## Model

| member | source | states |
|---|---|---|
| `AttemptRecovery.GenerationIsAtomic` | src/agentenv/orchestrators/agent_generation.py:81-123 | cut anywhere, publication shows either no generation manifest or the manifest with exactly its payload files |
| `AttemptRecovery.CommittedLoads` | src/agentenv/orchestrators/agent_generation.py:126-190 | with the committed files in place, whatever else is there, the generation validates and reads back as published (transcript redacted) |
| `AttemptRecovery.CommittedRecordIsValid` | src/agentenv/artifacts/manifests.py:513-542 | the published record always satisfies the generation manifest's validator |
| `AttemptRecovery.CommittedIsIntact` | src/agentenv/orchestrators/agent_generation.py:132-148 | every artifact the published manifest names is a file that hashes to what the manifest recorded |
| `AttemptRecovery.DownstreamCrashIsMidway` | src/agentenv/orchestrators/agent_task_run.py:568-697 | cutting the scoring phase before its last write keeps the committed files and adds downstream files only, nested files never without their folder |
| `AttemptRecovery.ClearingCrash` | src/agentenv/orchestrators/agent_task_run.py:699-711 | clearing may be cut anywhere, in any listing order; when it completes exactly the committed files are left |
| `AttemptRecovery.RebuiltWritesTheSame` | src/agentenv/orchestrators/agent_task_run.py:471-527 | a process that rebuilt the generation from disk performs exactly the writes the original process would have |
| `AttemptRecovery.FinalDirsAgree` | src/agentenv/orchestrators/agent_task_run.py:236-357 | any two completions of one generation leave the same directory, scorer ids, clocks and text noise apart |
| `AttemptRecovery.FreshCrash` | src/agentenv/orchestrators/agent_task_run.py:360-468 | from publication on, a fresh run cut short of its last write is resumable and unfinished; uncut it is the final directory |
| `AttemptRecovery.ResumeCrash` | src/agentenv/orchestrators/agent_task_run.py:471-527 | a resume cut anywhere leaves a resumable directory; completed it leaves the final directory |
| `AttemptRecovery.ResumeConverges` | src/agentenv/orchestrators/agent_task_run.py:360-527 | after any crash from publication on and any number of resumes cut anywhere: committed files unchanged, a visible final manifest means the uninterrupted directory up to ids and clocks, one uncut resume suffices |
| `AttemptStore.AttemptDirectory.WritePayloads` | src/agentenv/orchestrators/agent_generation.py:74-91 | payloads are written in order until the first slot already taken; nothing else changes |
| `AttemptStore.AttemptDirectory.WriteAgentGeneration` | src/agentenv/orchestrators/agent_generation.py:43-123 | succeeds exactly when no guarded slot is taken, then journals the publication operations; otherwise a proper prefix, with the manifest slot as it was |
| `AttemptStore.AttemptDirectory.ClearIncompleteDownstream` | src/agentenv/orchestrators/agent_task_run.py:699-711 | journals the removal of every present reference the generation does not own; owned manifest and candidate untouched |
| `AttemptStore.AttemptDirectory.FinishAttempt` | src/agentenv/orchestrators/agent_task_run.py:236-357 | the finished run for every outcome of generation, read-back and scoring |
| `AttemptStore.AttemptDirectory.WriteRunArtifacts` | src/agentenv/orchestrators/agent_task_run.py:568-697 | journals the result, the inputs the generation does not own, the error text, the scorer folder and, last, the final manifest |
| `AttemptStore.AttemptDirectory.RunAndPersist` | src/agentenv/orchestrators/agent_task_run.py:360-468 | journals exactly the fresh-run operations of the generation it obtained; refuses bad inputs without calling the model; succeeds unless a declared generation is not terminal |
| `AttemptStore.AttemptDirectory.FinishFromGeneration` | src/agentenv/orchestrators/agent_task_run.py:471-527 | journals exactly the resume operations; succeeds exactly when the generation validates and no final manifest exists; has no model client |
| `AttemptStore.StatesAreCrashPoints` | src/agentenv/orchestrators/agent_task_run.py:360-527 | the directory before each journalled operation is the crash point the theorems quantify over |
| `StoredAttempt.InputsAreTold` | src/agentenv/orchestrators/agent_task_run.py:627-666 | wherever a run is cut, declared or not: the transcript that is there is the loop's with every listed string redacted and nothing else changed, and every other input file holds what was given or obtained |
| `StoredAttempt.CommittedIsTold` | src/agentenv/orchestrators/agent_generation.py:84-123 | the committed files: transcript redacted string by string, and a manifest with the generation's identity, status, times and candidate hash, naming each file where it is with its hash |
| `StoredAttempt.CommitmentIsTold` | src/agentenv/orchestrators/agent_task_run.py:360-527 | the same after any crash from publication on and any number of resumes |
| `StoredAttempt.ScorerFolderIsWhole` | src/agentenv/orchestrators/attempt_io.py:44-92 | wherever writing a finished run is cut, a visible scorer manifest means the whole scorer folder |
| `RunAnswers.FinishIsTold` | src/agentenv/orchestrators/agent_task_run.py:236-357 | agent_loop_failed exactly when nothing was raised and the loop ended in one of its five failures; scored exactly when it completed and scoring returned; orchestrator_error exactly in the remaining cases; with the error, candidate, scorer attempt, identity and times that go with each |
| `RunAnswers.FreshRunShows` | src/agentenv/orchestrators/agent_task_run.py:360-468 | wherever a fresh run is cut: a visible final manifest, the result, the error report and the scorer folder beside it say exactly that |
| `RunAnswers.ResumedRunShows` | src/agentenv/orchestrators/agent_task_run.py:471-527 | so they do after a crash and any number of resumes |
| `RunAnswers.ManifestTellsStatus` | src/agentenv/orchestrators/agent_task_run.py:673-682 | the status a visible final manifest holds, by what happened |
| `AgentGeneration.RunAgentGeneration` | src/agentenv/orchestrators/agent_task_run.py:138-233 | the generation records the first exception and everything obtained before it; the model is not called unless the loop is entered |
| `AgentGeneration.GenerationIsWellFormed` | src/agentenv/orchestrators/agent_task_run.py:812-818 | every generation is well formed, and terminal exactly when the loop ran and, if it completed, its candidate was rendered and saved |
| `CompletedAttempt.RunFilesLand` | src/agentenv/orchestrators/agent_task_run.py:628-682 | wherever they run, the final-phase writes lay one fixed set of files over what was there |
| `CompletedAttempt.FinalManifestIsLast` | src/agentenv/orchestrators/agent_task_run.py:673-682 | a visible final manifest means the run completed its very last operation |
| `CompletedAttempt.RecordIsValid` | src/agentenv/artifacts/manifests.py:559-622 | the attempt manifest of every sound run satisfies its validator |
| `CompletedAttempt.FinalManifestIsSound` | src/agentenv/orchestrators/agent_task_run.py:627-682 | at every crash point, for every allowed combination of inputs: a visible final manifest validates, all it names exists, and result, transcript, candidate and scorer folder agree with it |
| `CompletedAttempt.FinishIsSound` | src/agentenv/orchestrators/agent_task_schema.py:30-54 | every finished run's result satisfies its terminal-state validator and agrees with the generation |
| `CompletedAttempt.FinishedModelAttemptIsAccepted` | src/agentenv/runners/resume.py:708-793 | whoever finished it, a finished model attempt is accepted as its declared one |
| `CompletedAttempt.FinishedControlAttemptIsAcceptedIff` | src/agentenv/runners/resume.py:708-757 | a control attempt always finishes, and is accepted exactly when its workspace could be prepared (or the declared id is the placeholder itself) |
| `CompletedAttempt.UnpreparedControlIsRejected` | src/agentenv/orchestrators/agent_task_run.py:212-233 | every environment whose preparation raises gives a finished control attempt that is rejected |
| `CompletedAttempt.ControlTaskKnown` | src/agentenv/orchestrators/agent_task_run.py:213-216 | the task id is known exactly when preparation succeeded (or the declared id is the placeholder itself) |
| `SuiteResume.ClassificationIsExact` | src/agentenv/runners/resume.py:605-705 | on everything sessions can produce: run what has no terminal result, resume what has only a generation, reuse what is finished, never reject a model attempt |
| `SuiteResume.ClearingStaysUnstarted` | src/agentenv/runners/resume.py:394-415 | clearing an unstarted attempt can be cut anywhere without making it look started, and leaves nothing when done |
| `SuiteResume.AttemptStep` | src/agentenv/runners/resume.py:250-281 | one session cut anywhere keeps an attempt sound, asks the model at most once, never touches a finished one |
| `SuiteResume.NeverResampled` | src/agentenv/runners/resume.py:209-281 | over any number of sessions cut anywhere: a committed attempt keeps its answer and the model is not asked for it again; a finished attempt never changes |
| `SuiteResume.CommittedKeepsItsAnswer` | src/agentenv/runners/resume.py:261-265 | a committed attempt's directory still holds and reloads the answer it was committed to |
| `SuiteResume.FinishedMatchesUninterrupted` | src/agentenv/runners/resume.py:209-281 | a finished model attempt is, ids and clocks apart, what one uninterrupted run of its answer leaves |
| `SuiteResume.OneGoodSessionFinishes` | src/agentenv/runners/resume.py:283-294 | a session that is not cut and gets terminal answers where it needs them finishes every attempt; model attempts then classify as completed |
| `SuiteResume.TamperingIsRejected` | src/agentenv/runners/resume.py:672-690 | an owned file whose hash changed gets its attempt rejected |
| `SuiteResume.RejectedIsLeftAlone` | src/agentenv/runners/resume.py:255-260 | a rejected attempt is never touched by any later session |
| `ResumeAnswers.PresenceDecides` | src/agentenv/runners/resume.py:605-705 | for every path whatever: run exactly when neither manifest is there, reuse only with a final manifest, resume only a model attempt with a generation manifest alone |
| `ResumeAnswers.ContradictionIsRejected` | src/agentenv/runners/resume.py:708-793 | a final manifest of another attempt, a missing file, another result, transcript, candidate or scoring, or inputs that are not the declared ones: rejected |
| `ResumeAnswers.BrokenGenerationIsRejected` | src/agentenv/runners/resume.py:672-690 | a generation of another attempt, with a changed or missing file, other inputs or another status: rejected |
| `PromptLoop.RunPromptLoop` | src/agentenv/agents/loop.py:63-206 | the loop returns the reference run's result and hands the model exactly its histories |
| `PromptLoop.Conversation.ExecuteTool` | src/agentenv/agents/loop.py:162-194 | the assistant message is retagged in place, the tool called, its reply appended, terminal errors end the run |
| `PromptLoop.SumKnownCounts` | src/agentenv/agents/loop.py:301-307 | the sum, or unknown as soon as one count is unknown |
| `PromptLoop.UsageIsValid` | src/agentenv/agents/schema.py:48-59 | summed usage never breaks prompt plus completion equals total |
| `PromptLoop.ToolCallIdIsInjective` | src/agentenv/agents/loop.py:218-219 | tool call ids are distinct, past the padded width too |
| `PromptLoopLaws.PromptLoopLaw` | src/agentenv/agents/loop.py:75-206 | message count, adjacency and shared ids of calls and replies, status fixing turns, responses and tool results, recoverable results before the last, every history a prefix of the transcript |
| `PromptLoopLaws.ResultIsAccepted` | src/agentenv/agents/schema.py:78-91 | constructing the result never fails: unique ids, consistent usage, error fields as the status demands |
| `PromptLoopAnswers.EndingIsTold` | src/agentenv/agents/loop.py:75-206 | for every run: answers are the client's replies to the recorded histories, each tool result is what the tool returned for the calls the answers so far stand for, none of them private; each status holds exactly when its one cause does (refused call, final answer, each parse failure, broken-off answer or raised client, unhashable workspace, fatal tool error, turns used up), with its class and message |
| `PromptLoopAnswers.TranscriptIsTold` | src/agentenv/agents/loop.py:70-194 | the transcript message by message: the two prompts, each answer quoted with its call's id, each report as rendered |
| `PromptLoopAnswers.UsageIsTold` | src/agentenv/agents/loop.py:284-307 | each token count is the sum over the answers, unknown as soon as one answer does not say, and unknown without answers |
| `ScriptedClient.ScriptedFakeModelClient.Generate` | src/agentenv/models/fake.py:50-79 | what any model client promises, with the script as its answers: the cursor stops at the end of the script |
| `ScriptedClient.ScriptIsTold` | src/agentenv/models/fake.py:50-79 | call i gets step i, and the script-exhausted error from then on; usage is never known |
| `ScriptedClient.ScriptedResponsesAreValid` | src/agentenv/models/schema.py:90-109 | every scripted response obeys the response contract |
| `ReplayNormalForm.NormalFormDecidesAgreement` | src/agentenv/replay/runner.py:1088-1106 | equal normal forms exactly when two trees agree everywhere but in volatile and source-only keys, text up to normalisation |
| `ReplayNormalForm.NormalFormIsStable` | src/agentenv/replay/runner.py:1088-1106 | normalising twice changes nothing |
| `ReplayNormalForm.DeclaredIdentityIsInvisible` | src/agentenv/replay/runner.py:78-78 | the declared identity of a source never shows in a comparison |
| `ReplayAgreement.TwinRunsMatch` | src/agentenv/agents/loop.py:63-206 | two runs with deterministic clients, and tools whose results and rendered messages read alike on the same calls, have equal normal forms |
| `ReplayAgreement.ScriptedReplayMatches` | src/agentenv/replay/runner.py:700-741 | replaying a script with the model id read back from the source gives the source's normal form |
| `ReplayFidelity.ReplayUsesTheSameModelId` | src/agentenv/replay/runner.py:1228-1244 | the id read back from the stored transcript is the one the control client signed with, even when it never answered |
| `ReplayFidelity.ScriptedGenerationsAreTwins` | src/agentenv/orchestrators/agent_task_run.py:138-233 | one control script run twice gives generations whose stored forms read alike, failures included |
| `ReplayFidelity.EveryFileMatches` | src/agentenv/replay/runner.py:1046-1085 | every compared file of an unchanged control attempt matches its replay, error reports with their tracebacks included |
| `ReplayFidelity.UnchangedReplayMatchesIff` | src/agentenv/replay/runner.py:735-775 | replaying an unchanged control attempt matches exactly when nothing was raised, or redaction keeps the raised class and turns the message raised in the source into the one raised in the replay |
| `ReplayFidelity.ErrorFreeReplayMatches` | src/agentenv/replay/runner.py:651-806 | an unchanged attempt that raised nothing replays as a match |
| `ReplayFidelity.ControlReplayMatchesIff` | src/agentenv/replay/runner.py:715-775 | the same from the outside: one script run twice in environments and by scoring runs that answer alike |
| `ReplayWitnesses.SecretInErrorMismatches` | src/agentenv/replay/runner.py:1167-1190 | an unchanged attempt that raised a message with a secret in it replays as a mismatch |
| `ReplayWitnesses.RunRootInErrorMismatches` | src/agentenv/replay/runner.py:1167-1190 | so does one whose message names its run directory, although every file reads the same |
| `ReplayVerdict.CompareArtifacts` | src/agentenv/replay/runner.py:1046-1069 | per file: both present and equal in normal form |
| `ReplayVerdict.Session.Run` | src/agentenv/replay/runner.py:109-190 | the verdict for every source, an exception at any attempt included; the trace closes with the reported status |
| `ReplayVerdict.ComparisonIsValid` | src/agentenv/artifacts/payloads.py:521-617 | every comparison made carries accepted references and complete, admitted evidence |
| `ReplayVerdict.VerdictIsValid` | src/agentenv/replay/runner.py:895-1007 | whatever happens, result record, comparison records and manifest validate |
| `ReplayVerdict.PassIffEverythingAgrees` | src/agentenv/replay/runner.py:153-169 | PASS exactly when something was compared and every comparison record says that it matched |
| `ReplayVerdict.OneComparisonPerAttempt` | src/agentenv/replay/runner.py:222-250 | a non-error replay compares each source attempt once, in order; an error keeps none |
| `ReplayAnswers.VerdictIff` | src/agentenv/replay/runner.py:153-169 | PASS, MISMATCH and REPLAY_ERROR each exactly when: there are attempts, all can be replayed, and for each the compared fields are equal one by one and every compared file is a file on both sides with equal normal forms |
| `ReplayAnswers.ComparisonTells` | src/agentenv/replay/runner.py:1046-1069 | a comparison record says of each field and each file by name whether it agrees |
| `ReplayAnswers.CountsAreTold` | src/agentenv/replay/runner.py:994-1008 | the result counts the attempts that agree and those that do not, and one error otherwise |
| `ReplayAnswers.OneFileMismatches` | src/agentenv/replay/runner.py:1046-1069 | one file of one attempt that reads differently makes the replay a mismatch |
| `ReplayAnswers.OtherOutputMismatches` | src/agentenv/replay/runner.py:1046-1069 | a concrete attempt whose replay printed something else and agrees in everything else is a mismatch |
| `ReplayAnswers.ChangedEntryShowsIff` | src/agentenv/replay/runner.py:1088-1106 | a changed entry of an object shows exactly when its key is none of the eleven unseen ones and the value reads differently |
| `ReplayAnswers.AddedEntryShowsIff` | src/agentenv/replay/runner.py:1088-1106 | an added entry shows unless it is the declared identity |
| `ReplayReadings.FilesAlike` | src/agentenv/replay/runner.py:1071-1106 | two files of one kind that compare as equal agree in every field but ids and clocks, text once normalised |
| `ReplayReadings.TranscriptsAlike` | src/agentenv/replay/runner.py:1088-1106 | so do two transcripts, message by message, answer by answer and tool result by tool result |
| `ScorerAttempt.Execution.RunSteps` | src/agentenv/orchestrators/attempt.py:187-300 | the try block ends as the first stopping gate says, with exactly the records of the gates passed |
| `ScorerAttempt.RunPatchAttempt` | src/agentenv/orchestrators/attempt.py:165-337 | the attempt equals its checklist reading for every pattern of success, failure, timeout and exception |
| `ScorerAttempt.AttemptIsValid` | src/agentenv/orchestrators/attempt.py:73-126 | every attempt satisfies the status table and its error-class rule |
| `ScorerAttempt.PassIffEveryStepSucceeded` | src/agentenv/orchestrators/attempt.py:187-300 | PASS exactly when every step ran and every check succeeded |
| `ScorerAttempt.HiddenOnlyAfterEverythingElse` | src/agentenv/orchestrators/attempt.py:256-291 | a hidden status or a logged hidden command, a timeout's status included, means both guards, the patch and all public checks succeeded |
| `ScorerAttempt.CommandLogIsOrdered` | src/agentenv/orchestrators/attempt.py:165-337 | the log is the patch, then the public checks, then the hidden validators, each group complete or absent |
| `ScorerAttempt.PublicStatusIsEvidence` | src/agentenv/orchestrators/attempt.py:387-396 | a public PASS needs every check, a public FAIL a failing or timed-out one |
| `ScorerAnswers.StatusIff` | src/agentenv/orchestrators/attempt.py:189-337 | for each of the eight statuses exactly the events on the outside world that lead to it |
| `ScorerAnswers.EverythingIsAnswered` | src/agentenv/orchestrators/attempt.py:189-337 | the check statuses, the error class and the error details of every possible event, a timeout by the phase it fell in |
| `ScorerAnswers.RecordsWhatReturned` | src/agentenv/orchestrators/attempt.py:340-368 | the log is every command that returned under its own name and phase, the final diff and its hash are there exactly when the patch ran and the diff was rendered |
| `LayerCounts.CountAttemptLayers` | src/agentenv/orchestrators/eval_run.py:1613-1662 | the table of the multiset of labels the attempts carry |
| `LayerCounts.CountManifestLayers` | src/agentenv/artifacts/manifests.py:2923-2964 | the same for the attempts a manifest lists |
| `LayerCounts.MergeTables` | src/agentenv/orchestrators/eval_run.py:1669-1679 | label by label the sum of the merged tables |
| `LayerCounts.TableIsUnique` | src/agentenv/orchestrators/eval_run.py:1682-1688 | a multiset of labels has one table, in whatever order it was counted |
| `LayerCounts.CountersAgree` | src/agentenv/artifacts/manifests.py:842-844 | producer's and validator's counters agree on every run |
| `LayerCounts.CountingConcatenates` | src/agentenv/orchestrators/eval_run.py:1613-1662 | counting concatenated attempts is the pointwise sum, and nothing else is |
| `LayerCounts.MatrixCountIsTheFlatCount` | src/agentenv/orchestrators/eval_run.py:1669-1679 | adding up the policies' tables is counting all attempts at once |
| `LayerCounts.LayerTotalIsCarryingAttempts` | src/agentenv/artifacts/manifests.py:2812-2832 | a layer totals the attempts that carry it and is absent when none does |
| `EvalAnswers.TableIsTold` | src/agentenv/orchestrators/eval_run.py:1613-1662 | an entry for a status in a layer exactly when some attempt has it there, and it is the number of those attempts |
| `EvalAnswers.ScorerSummaryIsTold` | src/agentenv/orchestrators/eval_run.py:1512-1521 | the summary's statuses by name, and the fields it keeps |
| `EvalAnswers.AgentSummaryIsTold` | src/agentenv/orchestrators/eval_run.py:1524-1537 | the same for an agent run, with its scorer attempt's summary inside |
| `EvalAnswers.RecordsAreTold` | src/agentenv/orchestrators/eval_run.py:1269-1362 | one record for every planned attempt in order, with its identity, its place and the summary of what came of it |
| `EvalPlan.AcceptedIffProduct` | src/agentenv/artifacts/manifests.py:2726-2744 | coverage accepts exactly the lists naming each selected task with each index once; their length is tasks times attempts |
| `EvalPlan.PlanListsProduct` | src/agentenv/orchestrators/eval_run.py:641-657 | the planned list is such a list |
| `EvalPlan.NewPlanCovers` | src/agentenv/orchestrators/eval_run.py:742-765 | every new plan passes the planned-coverage check |
| `EvalPlan.AttemptDirIsInjective` | src/agentenv/orchestrators/eval_run.py:646-657 | directory names determine task and index, padding and long numerals notwithstanding |
| `EvalPlan.AttemptDirIsAccepted` | src/agentenv/evals/suite_declaration.py:37-40 | a slash-free task id makes an accepted two-component reference |
| `EvalRun.Evaluation.Run` | src/agentenv/orchestrators/eval_run.py:220-503 | events numbered, trace announcing what is configured, always validly nested, and showing each planned attempt in order under its own task, index and id; success exactly when nothing raised, ids are unique and every directory was free in its turn, then records as planned, trace well bracketed of length 2 + tasks * (2 + 2 * attempts), closing with the true counts |
| `EvalRun.Evaluation.RunTask` | src/agentenv/orchestrators/eval_run.py:290-479 | one task's bracket with two events per attempt, closed with that task's own counts; on an exception the open brackets stay valid |
| `EvalRun.Evaluation.RunPlanned` | src/agentenv/orchestrators/eval_run.py:309-313 | the identity lookup finds the next planned attempt |
| `EvalRun.UniqueIds` | src/agentenv/orchestrators/eval_run.py:1584-1593 | accepts exactly repetition-free ids |
| `EvalManifests.BuildRunManifest` | src/agentenv/orchestrators/eval_run.py:1103-1125 | lists the attempts relative to the run with their counts |
| `EvalManifests.BuiltRunManifestIsValid` | src/agentenv/artifacts/manifests.py:805-844 | the manifest of every completed run validates: ids, directories, types, summaries, coverage, layer counts |
| `EvalSummaries.ScorerSummaryIsValidIff` | src/agentenv/artifacts/manifests.py:636-646 | the manifest's status table over names accepts exactly the summaries of results the attempt's own table accepts |
| `EvalSummaries.FinishedRunIsSummarised` | src/agentenv/artifacts/manifests.py:660-684 | whatever an agent attempt comes to, its summary validates |
| `EvalSummaries.ScoredAttemptIsSummarised` | src/agentenv/artifacts/manifests.py:636-646 | whatever a scorer attempt comes to, its summary validates |
| `EvalSuite.ReplayConfiguredRuns` | src/agentenv/orchestrators/eval_run.py:1022-1046 | one replay per policy and index, in order, in its own directory; none at all as soon as one directory is not free |
| `EvalSuite.BuildSuiteManifest` | src/agentenv/orchestrators/eval_run.py:1128-1187 | the manifest's records and counts as the builder computes them |
| `EvalSuite.ReplayIndexes` | src/agentenv/artifacts/manifests.py:2769-2776 | each policy's replays carry exactly the indexes below its repeats |
| `EvalSuite.ReplayedNames` | src/agentenv/orchestrators/eval_run.py:1265-1266 | the configured replayed-policy count is the number of policies that occur among the replays |
| `EvalSuite.PrimaryTotals` | src/agentenv/artifacts/manifests.py:2795-2832 | a completed policy has tasks times attempts records and its primary layer totals them |
| `EvalSuite.BuiltSuiteIsValid` | src/agentenv/artifacts/manifests.py:940-991 | every manifest built from a completed suite passes validate_suite_counts |
| `EvalSuite.SuiteCountsAreFlatCounts` | src/agentenv/artifacts/manifests.py:2967-2977 | the suite's layer counts are those of all its attempts together |
| `EvalSuite.ReplayRefIsInjective` | src/agentenv/orchestrators/eval_run.py:1033-1035 | replay directories determine policy and index |
| `EvalSuite.ReplayRefIsAccepted` | src/agentenv/artifacts/manifests.py:885-888 | wherever a policy directory is accepted so are its replay directories |
| `SuiteRun.RunSuite` | src/agentenv/orchestrators/eval_run.py:510-572 | from configuration to manifest: a suite gets its manifest exactly when its names make a valid declaration, no directory it prepares holds anything yet, and no attempt raises; the manifest then validates and says of every policy what was configured, where it ran and how many attempts had which status, and of every replay its run's id, place, verdict and counts |
| `SuiteRun.SuiteIsCompleted` | src/agentenv/orchestrators/eval_run.py:510-572 | the plans, runs and replays of such a suite are all the manifest's validator relies on |
| `SuitePlanning.PathsCollideIff` | src/agentenv/evals/suite_declaration.py:107-114 | two planned attempts share a path exactly when the index agrees and the names are the same or the second policy is named into the first one's attempts |
| `SuitePlanning.PlannedSuiteIsValidIff` | src/agentenv/evals/suite_declaration.py:29-115 | the built declaration validates exactly when policy names are ordinary paths, task ids are ordinary up to their last component, and no two policies' names overlap |
| `SuitePlanning.AttemptDirAcceptedIff` | src/agentenv/evals/suite_declaration.py:37-40 | an attempt directory is accepted exactly when its task id is ordinary up to the last component |
| `SuitePlanning.SlashFreeTasksNeverOverlap` | src/agentenv/evals/suite_declaration.py:107-114 | with slash-free task ids paths never collide, whatever the policies are called |
| `SuitePlanning.SlashedNamesAreRefused` | src/agentenv/evals/suite_declaration.py:107-114 | concrete plans of both colliding kinds are refused |
| `SuitePlanning.ImproperNamesAreRefused` | src/agentenv/evals/suite_declaration.py:52-55 | plans with a policy named `..` or a task id with a backslash are refused |
| `SuiteDeclaration.MemoryCheckIsDiskCheckAndMore` | src/agentenv/orchestrators/eval_run.py:852-1019 | the check from memory is the loader's check on what was written plus declaration identity, task id and status |
| `SuiteDeclaration.PolicyChecksAgree` | src/agentenv/evals/suite_validation.py:141-311 | the same for one policy run: identities, attempt tuples, bindings and model inputs |
| `SuiteDeclaration.ComplaintsAgree` | src/agentenv/evals/suite_validation.py:243-311 | the two separately written model-input checks: one has no complaint exactly when the other has none and task id and status agree |
| `SuiteDeclaration.CompletedAttemptFits` | src/agentenv/orchestrators/eval_run.py:957-1019 | every attempt resume would reuse as completed satisfies the declaration checks |
| `DeclarationAnswers.MemoryMeans` | src/agentenv/orchestrators/eval_run.py:852-1019 | an attempt accepted from memory carries the declared identity in its manifest, and for declared inputs holds exactly them and an intact generation of its own |
| `DeclarationAnswers.FilesMean` | src/agentenv/evals/suite_validation.py:141-311 | the same of an attempt accepted from files alone |
| `DeclarationAnswers.PolicyMeans` | src/agentenv/orchestrators/eval_run.py:852-955 | an accepted policy run has the declared ids and the declared attempts one for one in order |
| `ArtifactNames.AttemptNamesRead` | src/agentenv/orchestrators/eval_run.py:646-657 | attempt directories and tool call ids as they read |
| `ArtifactNames.SuiteNamesRead` | src/agentenv/orchestrators/eval_run.py:1022-1046 | policy and replay directories as they read |
| `ArtifactNames.ControlNamesRead` | src/agentenv/controls/controls_run.py:241-274 | control and check directories as they read |
| `SuiteDirectories.SuiteStepsRunIff` | src/agentenv/orchestrators/eval_run.py:510-572 | for names a declaration may have, everything a suite does on a fresh disk gets through exactly when no directory it prepares leads to, is, or lies in the way of something an earlier policy, attempt or replay left |
| `SuiteDirectoryCases.PlainNamesAreClear` | src/agentenv/orchestrators/eval_run.py:220-222 | names without slashes are never in each other's way |
| `SuiteDirectoryCases.ParentPolicyIsTaken` | src/agentenv/orchestrators/eval_run.py:220-222 | policies `a/b` and then `a` make a valid declaration and raise |
| `SuiteDirectoryCases.ChildPolicyIsFree` | src/agentenv/orchestrators/eval_run.py:220-222 | the same two policies in the other order get through |
| `SuiteDirectoryCases.AttemptsFolderIsTaken` | src/agentenv/orchestrators/eval_run.py:220-222 | policies `a` and then `a/attempts` make a valid declaration and raise |
| `SuiteDirectoryCases.RunFileIsTaken` | src/agentenv/artifacts/base.py:46-49 | policies `a` and then `a/manifest.json` make a valid declaration and raise: the second directory is a file |
| `SuiteDirectoryCases.ParentAttemptIsTaken` | src/agentenv/orchestrators/eval_run.py:646-657 | a task named into the attempt directory of a later task raises |
| `SuiteDirectoryCases.ParentReplayIsTaken` | src/agentenv/orchestrators/eval_run.py:1022-1046 | a policy named into the replay directory of a later one raises when both are replayed |
| `ArtifactTree.FitsAfter` | src/agentenv/artifacts/base.py:44-61 | a step fits after another exactly when it fitted before and the other is not in its way |
| `ArtifactTree.RunsIffOrderly` | src/agentenv/artifacts/base.py:44-61 | a sequence of directory steps gets through exactly when each fits the disk as it was and none is in the way of a later one |
| `ArtifactTree.ArtifactDisk.PrepareDirectory` | src/agentenv/artifacts/base.py:44-61 | a file, or a folder with anything in it, is refused; otherwise the directory is there and nothing else changed |
| `ControlPaths.ListedIffFits` | src/agentenv/controls/controls_run.py:450-465 | the directory of a tagged id can be listed and is accepted exactly when the id has no backslash, no parent component before its last and, if absolute, leads into the output directory |
| `ArtifactRefs.AcceptedIffOrdinaryPath` | src/agentenv/artifacts/base.py:99-115 | accepted exactly when it is a slash-join of ordinary components and does not look like a drive |
| `ArtifactRefs.PartsOfJoin` | src/agentenv/artifacts/base.py:106-115 | parsing a printed ordinary path gives its components back |
| `ArtifactRefs.NestedRefIsAccepted` | src/agentenv/artifacts/base.py:99-115 | joining two accepted references is accepted, with the components of both |
| `ArtifactRefs.ResolvedRefReadsBack` | src/agentenv/artifacts/base.py:118-132 | a resolved reference lies strictly below the root and reads back |
| `ArtifactRefs.ResolveIsInjective` | src/agentenv/artifacts/base.py:118-132 | distinct references resolve to distinct places |
| `ArtifactRefs.FileInRef` | src/agentenv/artifacts/manifests.py:2909-2920 | a file inside a referenced directory is named by an accepted reference under it |
| `FileDrift.FileDrifts` | src/agentenv/controls/controls_run.py:629-662 | truthful entries, one per path, for exactly the paths that differ |
| `FileDrift.DiffApplies` | src/agentenv/controls/controls_run.py:629-662 | applying the drift list to the reference gives the actual dictionary |
| `FileDrift.EmptyDiffIffEqual` | src/agentenv/controls/controls_run.py:587-594 | no drift exactly when the dictionaries are equal |
| `FileDrift.MirroredDiff` | src/agentenv/evals/task_hash_compare.py:293-341 | swapping the sides mirrors the list, and the mirrored list leads back |
| `TaskHashCompare.CompareTasks` | src/agentenv/evals/task_hash_compare.py:268-290 | silent exactly when two tasks have the same inputs, otherwise every difference |
| `TaskHashCompare.FieldIsNamedIff` | src/agentenv/evals/task_hash_compare.py:268-290 | each of the five fields is named exactly when it changed, and nothing else is |
| `TaskHashCompare.CompareSources` | src/agentenv/evals/task_hash_compare.py:158-204 | added, removed and changed tasks, and the matched status they leave |
| `TaskHashCompare.MatchedIffSameInputs` | src/agentenv/evals/task_hash_compare.py:181-191 | matched exactly when packs, hash sets and all task inputs are the same |
| `TaskHashCompare.MatchingIsAnEquivalence` | src/agentenv/evals/task_hash_compare.py:158-204 | matching is reflexive, symmetric and transitive |
| `TaskHashCompare.SwappedComparisonMirrors` | src/agentenv/evals/task_hash_compare.py:158-204 | swapping sides swaps added and removed and mirrors file drifts |
| `FlakeDetection.DetectGroup` | src/agentenv/controls/controls_run.py:558-612 | drifted repeats and exact drift details against repeat 0; refused without one |
| `FlakeDetection.DetectedIsValidIff` | src/agentenv/artifacts/payloads.py:427-440 | the evidence of one group validates exactly when repeat 0 has files and no second record of it drifted |
| `FlakeDetection.NoDriftIffAllEqual` | src/agentenv/controls/controls_run.py:558-612 | stable group exactly when all repeats agree pairwise |
| `FlakeDetection.IdempotentIffOneOutcome` | src/agentenv/controls/public_check_idempotency_schema.py:154-188 | idempotent exactly when one workspace, no failure, one result |
| `FlakeDetection.CheckIsTold` | src/agentenv/controls/public_check_idempotency_schema.py:154-188 | each reason exactly when workspaces, or results, of two runs differ; non-idempotent exactly then; inconclusive exactly when nothing differs and a run failed |
| `FlakeDetection.BuildFlake` | src/agentenv/controls/controls_run.py:481-533 | one group per layer, task and control of the flat record list, made from all its records; refused exactly when a control has no repeat 0 |
| `FlakeDetection.BuiltEvidenceIsValidIff` | src/agentenv/artifacts/payloads.py:464-497 | evidence built from the records of a finished run validates exactly when no check is calibrated twice |
| `FlakeDetection.StableIff` | src/agentenv/controls/controls_run.py:508-519 | stable exactly when repeats are at least two, all records of every control left the same files and every check has one outcome |
| `FlakeDetection.UnstableIff` | src/agentenv/controls/controls_run.py:508-519 | drifted exactly when two records of a control left different files or a check saw different workspaces or results |
| `ControlCalibration.RunControls` | src/agentenv/controls/controls_run.py:132-229 | on a disk that holds anything: the manifest is built and validates exactly when ids are distinct and fit, there are tasks and repeats, no directory is taken by what was there or by an earlier check or run, and no check is shared; it then lists every control of every task with every repeat |
| `ControlCalibration.RecordsHold` | src/agentenv/controls/controls_run.py:157-192 | the records are exactly the runs of each task's controls with each repeat index |
| `ControlCalibration.ControlsAreTold` | src/agentenv/controls/controls_run.py:157-192 | the three scorer and three agent controls by name, each with every repeat of every task, and nothing else |
| `ControlDirectories.RunDirsAreTheirOwn` | src/agentenv/controls/controls_run.py:241-244 | in a calibration that got through no run has the directory of an earlier one, nor one that holds it |
| `ControlDirectories.SecondCalibrationIsRefused` | src/agentenv/controls/controls_run.py:144-156 | the directory of a calibration that got through cannot be used for the same tasks again |
| `ControlDirectories.PlainIdsRunThrough` | src/agentenv/controls/controls_run.py:241-274 | with ids free of slashes and backslashes all directories of a calibration are free and can be listed |
| `ControlDirectories.DoubledSlashIsListed` | src/agentenv/controls/controls_run.py:459 | the id `a//b` fits and its first run is listed below `a/` |
| `ControlDirectories.IdsThatDoNotFit` | src/agentenv/artifacts/payloads.py:336-339 | a backslash, a leading parent component and an absolute path elsewhere are refused |
| `ControlDirectories.AbsoluteIdInsideFits` | src/agentenv/controls/controls_run.py:241-244 | an absolute id that leads into the output directory fits |
| `ControlDirectories.RunDirIsTaken` | src/agentenv/artifacts/base.py:51-56 | a task named into the run directory of a later one: both ids fit, and the later run raises |
| `ControlDirectories.SameDirIsTaken` | src/agentenv/artifacts/base.py:51-56 | ids `a/b` and `a//b` both fit, and the second one's runs raise |
| `ControlCalibration.RunIsProper` | src/agentenv/controls/controls_run.py:157-192 | a finished run lists each control's repeats once each, repeat 0 among them |
| `ControlCalibration.ChecksDistinctIff` | src/agentenv/controls/public_check_idempotency_runner.py:45-68 | no check is calibrated twice exactly when no two tasks with one manifest hash calibrate a check with the same index |
| `ControlCalibration.CalibrationManifestIsValidIff` | src/agentenv/artifacts/manifests.py:1013-1111 | once all has run, the manifest can be built and validates exactly when every task id fits, as the path library writes its directories, and no check is shared |
| `ControlCalibration.OverallMatchIff` | src/agentenv/controls/controls_run.py:126-130 | a run matches overall exactly when every control came out as expected, every repeat left what repeat 0 left, checks have one outcome and repeats are at least two |
| `NestedOverrides.DiffExistsIffApplies` | src/agentenv/audits/scorer.py:600-644 | applying and recording overrides succeed on the same inputs |
| `NestedOverrides.OverridesLand` | src/agentenv/audits/scorer.py:600-614 | override leaves hold the new value, every other route what it held, inner nodes stay objects |
| `NestedOverrides.DiffUndoesOverrideIff` | src/agentenv/audits/scorer.py:617-644 | writing the recorded values back restores the source exactly when every overridden key existed |
| `NestedOverrides.AddedKeyStaysBehind` | src/agentenv/audits/scorer.py:639-643 | the recording helper on its own: a key that was missing would stay behind as null |
| `NestedOverrides.AdmittedOverrideIsUndone` | src/agentenv/audits/scorer.py:70-79 | for every override the schema admits and every loaded manifest: it applies, changes the timeout alone, and its record undoes it |
| `ManifestInPlace.Mapping.Apply` | src/agentenv/audits/scorer.py:600-614 | the in-place recursion over a tree of dictionaries succeeds and ends exactly as the functional override |
| `HarnessAudit.RunCase` | src/agentenv/audits/agent_task.py:362-493 | always one valid record with every fact obtained before the first failure, naming the stage that failed and the class it raised; completed exactly when every step returned and something was compared |
| `HarnessAudit.Case.Prepare` | src/agentenv/audits/agent_task.py:377-412 | each fact is on record, as the step returned it, exactly when its step and all before it returned; the exception is the first one raised |
| `HarnessAudit.RunLayer` | src/agentenv/audits/agent_task.py:126-245 | one record per discovered case, in order, and a summary that validates |
| `HarnessAudit.RecordStatusIsCountStatus` | src/agentenv/audits/schema.py:509-540 | the status read off the records is the one computed from counts |
| `HarnessAudit.LayerStatusIff` | src/agentenv/audits/schema.py:509-540 | a layer passes exactly when every case completed and matched, and fails exactly when a completed one did not match |
| `HarnessAudit.JoinIsStatusOfConcat` | src/agentenv/audits/schema.py:543-552 | joining layer statuses is the status of all records together |

## Left out

- Partial bytes within one file, symbolic links, permissions and files appearing from outside: each write, rename and unlink is one atomic step on a slot, and a text file reads back as written.
- JSON and YAML encoding of most files: contents are typed values, a file of the wrong kind is a failed load. Only the artifacts replay compares are modelled as JSON trees.
- Redaction of task views, provenance records, scorer results and manifests on write: they are taken as already redacted. Transcripts, run results and error reports are redacted explicitly; message ids, task ids and dictionary keys are taken to hold no secret.
- Minimum lengths, literal types and schema versions in validators.
- Scorer-control policies in suite resume: their single-phase attempts have no committed generation; model and control-script policies are covered.
- The completion half of suite resume (rebuilding run manifests, traces and replays from finished attempts) and writing the suite manifest file.
- write_agent_task_run_artifacts without a decoding record: it can only fail the manifest validator.
- The order of sorted tuples in drift and hash reports: paths and ids come in arbitrary order, each once.
- YAML aliases in a loaded manifest: `Mapping.Apply` assumes the dictionaries form a tree.
- ReplayFidelity.UnchangedReplayMatchesIff: is about control-script attempts; model attempts have no script and always end as replay errors, which ReplayVerdict covers.
- ReplayVerdict.Session.Run: takes what replaying one attempt produced as an input, so it does not model two slash-named attempts sharing a replay directory, which surfaces as an exception there.
- SuiteDeclaration.MemoryCheckIsDiskCheckAndMore: compares config paths as written, where the loader resolves both sides first; it leaves out re-reading config, task and runtime hashes, which both checks delegate.
- EvalRun.Evaluation.Run: the executor answers per planned attempt; building trace provenance payloads is not modelled.
- AttemptStore.AttemptDirectory.RunAndPersist: assumes an empty output directory, which directory preparation enforces, and schema-valid responses and tool results.
- ControlCalibration.RunControls: control expectations, task hashing and attempts are outcomes of the environment, and an exception in one of them, which ends the run, is not modelled; nor is the comparison of provenance and task hashes before and after. The hashes found in a run's directory are an outcome too, so the files of a run nested in an earlier one's directory are not traced into them.
- AgentGeneration.RunAgentGeneration: an exception that escapes the prompt loop itself leaves the record a raising guard leaves; the model calls made before it are not modelled.
- SuiteRun.RunSuite: the check of the finished suite against its declaration, which comes just before the manifest is written, is modelled apart in SuiteDeclaration.
- HarnessAudit.RunLayer: the comparison of expected with observed values, the hash readback and the cleanup of a failed layer are outcomes of the environment.
- Command line, markdown reports, HTTP clients, provider probing, git, Jinja rendering, regex normalisation, hash internals, tool execution, secret patterns: foreign behaviour or presentation, represented by parameters.
- Trajectory, training and preference manifests are not modelled.
