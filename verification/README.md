# Waired agent and catalog tool: a verified model

This project models the concurrent protocols, the sizing ladder, the measurements and the
data transformations at the centre of the Waired agent daemon (`cmd/waired-agent`) and of
its catalog tool (`cmd/catalog-tool`), and proves what they promise. It covers:

- **The boot pre-pull hold** (`PrePullHold`, `PrePullEndings`, `Broadcasts`): a waiter parks on
  close-and-replace channels while setup frames, a claim on the model question, clocks and
  operator switches race it, and ends in one download or in a recorded stand-down. It is a
  step system with mutex-atomic steps; the lemmas hold in every state of every run.
- **Ollama sizing, verification and the degrade ladder** (`OllamaSizing`, `OllamaTuning`,
  `OllamaVerify`): the window rungs, the KV type, the slot counts, the verdict on a loaded
  engine, the step down, and the one restart the pass may make.
- **Probe verdicts** (`Verdicts`, `Pooling`, `PoolReports`, `Recompute`, `Rederive`): pooling
  runs into a record, on values and on the shared maps the reports hold; re-deriving a record
  from its tallies in any map order; and when the two agree.
- **Three interleaved protocols**: the per-directory lock (`DirLocks`), the coalesced engine
  start (`EngineStart`) and the custom-model revision sync (`CustomModelsSync`).
- **The host-speed measurement** (`HostProbes`, `HostCutoff`, with `Counting`): the screen, the
  samples, the median, the serve window, the published record and its re-reading.
- **Measurement keys and cache** (`BenchKeys`, `BenchCaches`), **the documentation splice**
  (`DocSplice`), **why the engine is parked** (`EnginePark`) and **the local-inference choice
  across restarts** (`InferenceToggle`).

State that the source updates in place is a class whose methods are proved against a function
of the old state; the lemmas are about that function and about whole runs of it. Interleavings
are step systems: a state, an action per atomic operation, and runs as sequences of both.
Clocks, HTTP answers, file writes and engine behaviour are parameters of the steps, so every
theorem holds for all of them. Where a predicate's body is stated as "for every value equal to
this one", the quantifier only keeps the body folded until it is asked for by name.

Places where the code does less than its comments or a first reading suggest, each with the
exact condition:

- A start mark left when no other caller is active is lost (`EngineStart.MarkIsFollowed`,
  `EngineStart.IdleMarkIsLost`).
- The start bodies can outnumber the calls, because one mark can be found by several callers
  (`EngineStart.ThreeCallsFourStarts`, with the bound `EngineStart.StartsAreBounded`).
- Fitting a card can shrink the window: above the model's floor it loses the 1M window the bare
  machine would serve (`OllamaSizing.CardShrinksIff`, `OllamaSizing.CardLosesFitIff`).
- Recording the model question as unanswered is a read followed by a save, and overwrites an
  answer that lands between them, or one that was stored when the read itself fails
  (`PrePullHold.SaveOverwritesAnswerIff`).
- Two failing classes share a severity rank and an error outranks every failure without being
  one. The worst verdict of a pool therefore depends on the order of the runs when both tied
  classes occur (`Pooling.VerdictIsOrderFreeIff`), re-derivation depends on the map order in the
  same case (`Rederive.IdempotentIff`), and a failing class behind an error is graded
  differently by the two paths (`Rederive.PooledIsStableIff`).
- `pool` does not copy the map of a case that is new to the pool, so a third run can edit the
  second one's report (`PoolReports.InputsUntouchedIff`).
- A planned spill that reads as fine on the first inspection is recorded as degraded after the
  restart, exactly where the stepped tuning and the machine let it be read
  (`OllamaVerify.RestartDegradesPlannedSpillIff`).
- A start whose version probe has answered adopts the engine without looking at the latch
  again. A load failure that parks in that window can end up reported as the operator's stop;
  without such a park every report is truthful (`EnginePark.TruthfulUnlessTooLate`,
  `EnginePark.TooLateCanMisattribute`).
- A cache file that cannot be read when a measurement is stored is started over, and the other
  keys are gone (`BenchCaches.LoadIsLastStored`).
- An unreadable choice file is treated as unset, so the cutoff may overwrite it
  (`InferenceToggle.CutoffOverwritesIff`), and a mark that fails to clear outlives the write
  that should have dropped it (`InferenceToggle.MarkMeansCutoffIff`).
- `verdict.go` says renamed classes are canonicalised on import; only the re-derivation and the
  display do it, and the model follows the code.

## Model

| member | source | states |
|---|---|---|
| DirLocks.HfDirLocks.TryAcquire | cmd/waired-agent/hf_dir.go:41-51 | one locked attempt either installs a fresh open channel for the directory or reports the holder's |
| DirLocks.HfDirLocks.Forget | cmd/waired-agent/hf_dir.go:52-57 | the locked part of a release removes exactly that directory |
| DirLocks.RunKeepsInv | cmd/waired-agent/hf_dir.go:41-70 | over all interleavings the map is the holders, channels have one owner and are open while owned, and every waiter is attended |
| DirLocks.MutualExclusion | cmd/waired-agent/hf_dir.go:41-70 | at most one holder per directory, and the map's keys are exactly the held directories |
| DirLocks.NoWaiterStranded | cmd/waired-agent/hf_dir.go:41-70 | from any reachable state a waiter runs again after at most the holder's delete, the releaser's close and its own wake |
| DirLocks.FreeDirectoryIsTakeable | cmd/waired-agent/hf_dir.go:41-70 | once nobody holds or is releasing a directory it is absent from the map and every waiter's channel is closed |
| DirLocks.TakenAndGivenBack | cmd/waired-agent/hf_dir.go:41-70 | from any reachable state, taking a free directory and giving it back leaves the map and every caller as they were, with one fresh channel closed |
| DirLocks.CancelLeavesNoTrace | cmd/waired-agent/hf_dir.go:41-70 | a caller that finds a directory taken and gives up leaves the whole state as it was |
| EngineStart.BodiesNeverOverlap | cmd/waired-agent/engine_bootstrap.go:166-192 | two callers are never both inside a start body |
| EngineStart.MarkIsFollowed | cmd/waired-agent/engine_bootstrap.go:166-192 | a mark raised while some caller is active is followed by a body begun after it, whoever runs it |
| EngineStart.MarkUnderClaimIsFollowed | cmd/waired-agent/engine_bootstrap.go:166-192 | in particular a mark raised while the claim is held |
| EngineStart.IdleMarkIsLost | cmd/waired-agent/engine_bootstrap.go:170-189 | the condition is exact: with nobody active every marking caller finishes without a new body and the mark stays up |
| EngineStart.NeverClears | cmd/waired-agent/engine_bootstrap.go:170-189 | while the callers already in the protocol finish, none of them active, nothing withdraws the mark or begins a body |
| EngineStart.LateMarkExample | cmd/waired-agent/engine_bootstrap.go:170-189 | a complete run in which a mark raised after the release is never followed |
| EngineStart.StartsAreBounded | cmd/waired-agent/engine_bootstrap.go:166-192 | along any run a caller begins at most one body for each call it makes and one more for each mark raised |
| EngineStart.CallAloneStartsOnce | cmd/waired-agent/engine_bootstrap.go:166-192 | from rest, a call on its own runs exactly one body and comes back to rest without a mark |
| EngineStart.ThreeCallsFourStarts | cmd/waired-agent/engine_bootstrap.go:166-192 | the bodies can outnumber the calls: a complete run of three calls and four bodies |
| CustomModelsSync.Sync.Kick | cmd/waired-agent/custom_models_sync.go:88-97 | a kick fills the one-slot queue exactly when a map frame has been seen |
| CustomModelsSync.Sync.NoteRevision | cmd/waired-agent/custom_models_sync.go:63-76 | noting a revision records it and queues a kick exactly when it is not the one held |
| CustomModelsSync.RunKeepsInv | cmd/waired-agent/custom_models_sync.go:63-144 | every reachable state remembers every note and a running fetch covers exactly the notes before it |
| CustomModelsSync.NoNoteForgotten | cmd/waired-agent/custom_models_sync.go:63-144 | after a frame names a missing revision, at every later state a kick is queued, a retry is armed, a later fetch is running, or such a fetch succeeded and the set held is at least as new |
| CustomModelsSync.NotesOnlyGrow | cmd/waired-agent/custom_models_sync.go:63-144 | notes are never dropped and the set held never goes back |
| CustomModelsSync.RestMeansCaughtUp | cmd/waired-agent/custom_models_sync.go:99-144 | with the worker idle, no kick and no retry, every revision ever found missing is covered |
| CustomModelsSync.NamedIsNoted | cmd/waired-agent/custom_models_sync.go:63-76 | once the frame that named a revision has ended, the revision was held when the frame compared or it has been noted since |
| CustomModelsSync.RestMeansCurrent | cmd/waired-agent/custom_models_sync.go:63-144 | with the worker idle, nothing queued and no frame under way, the set held is at least as new as the revision reported as the latest |
| CustomModelsSync.LatestIsLastStored | cmd/waired-agent/custom_models_sync.go:63-76 | the latest revision is the one the last frame to store it named |
| CustomModelsSync.CanCatchUp | cmd/waired-agent/custom_models_sync.go:99-144 | from every reachable state with a worker, the worker alone can get to where every note is covered, in two steps at most |
| Broadcasts.Cell.Write | cmd/waired-agent/inference_prepull_hold.go:67-84 | a write installs the value, closes the channel there was and leaves an open one; every earlier snapshot's channel is closed |
| Broadcasts.Cell.Read | cmd/waired-agent/inference_prepull_hold.go:86-93 | a snapshot comes with an open channel, and while that channel stays open the value read is the current one |
| PrePullHold.SetupState.SetupNoteDesired | cmd/waired-agent/inference_prepull_hold.go:67-84 | a frame keeps the first model named, is recorded as seen with who is driving, and is announced |
| PrePullHold.SetupState.NoteModelChoicePending | cmd/waired-agent/inference_prepull_hold.go:171-225 | a pending question opens or renews the claim, an answer withdraws it, each announced |
| PrePullHold.NoUpdateMissed | cmd/waired-agent/inference_prepull_hold.go:67-93 | in every reachable state a waiter parked on frames or on the choice holds the current value or its wake-up is enabled |
| PrePullHold.DispatchedAtMostOnce | cmd/waired-agent/inference_prepull_hold.go:104-165 | one hold dispatches at most one download, and exactly when it ends as dispatched |
| PrePullHold.NamedModelStandsDown | cmd/waired-agent/inference_prepull_hold.go:104-165 | a model named before the last look at the frame rules out any dispatch from then on |
| PrePullHold.AbandonedNeverDispatches | cmd/waired-agent/inference_prepull_hold.go:248-372 | after the ceiling or an expired claim was seen nothing is dispatched |
| PrePullHold.DispatchIsBehindLastCheck | cmd/waired-agent/inference_prepull_hold.go:378-390 | a dispatch has behind it, in order and after every wait, the five reads of the last re-check all finding nothing |
| PrePullHold.LastChecksHold | cmd/waired-agent/inference_prepull_hold.go:378-390 | how far the re-check has got says which reads were clear, in which order |
| PrePullHold.SwitchStandsDown | cmd/waired-agent/inference_prepull_hold.go:378-390 | a preferred model in force before the last override read is passed only by a re-check that was about that model |
| PrePullHold.SwapStandsDown | cmd/waired-agent/inference_prepull_hold.go:378-390 | the same for a switch still downloading, before the last swap read |
| PrePullHold.OnlyTheTarget | cmd/waired-agent/inference_prepull_hold.go:104-165 | when the bundled model always resolves to the one chosen at boot, every stage is about it and nothing else is dispatched |
| PrePullHold.SwitchRulesOutDispatch | cmd/waired-agent/inference_prepull_hold.go:378-390 | then a switch to another model, preferred or downloading, in force before its last read rules out any dispatch |
| PrePullHold.AbandonmentIsRecordedOrAnswered | cmd/waired-agent/inference_prepull_hold.go:280-308 | both abandonments end with the in-process record that nobody answered, or with a preferred model, "no model" or a stored record (which may say "unanswered") found where an answer is looked for |
| PrePullHold.SaveOverwritesAnswerIff | cmd/waired-agent/inference_prepull_hold.go:280-308 | the save overwrites a stored answer exactly when one landed between its read and itself and was still there, or when the read failed on a stored one and nothing touched the file since |
| PrePullHold.OnlyTheSaveWrites | cmd/waired-agent/inference_prepull_hold.go:280-308 | no other step of the hold writes the preference file |
| PrePullHold.LostAnswerExample | cmd/waired-agent/inference_prepull_hold.go:280-308 | a complete run in which an answer is lost that way |
| PrePullHold.MissedAnswerExample | cmd/waired-agent/inference_prepull_hold.go:280-308 | a complete run in which a stored answer is lost to a failing read |
| PrePullEndings.CutoffStopsTheDownload | cmd/waired-agent/inference_prepull_hold.go:104-165 | once the host cutoff has said no, the hold is over and nothing is dispatched in any later state |
| PrePullEndings.DispatchPassedCutoff | cmd/waired-agent/inference_prepull_hold.go:104-165 | a dispatch has behind it the cutoff saying yes and, only after that, the five reads of the last re-check in order |
| PrePullEndings.ReleaseHasReason | cmd/waired-agent/inference_prepull_hold.go:310-372 | the wait for setup ends only by a frame that says nobody is driving, or by the grace with no frame read |
| PrePullEndings.DrivingHolds | cmd/waired-agent/inference_prepull_hold.go:310-372 | as long as every frame says somebody is driving, the hold stays in that wait and nothing is dispatched |
| PrePullEndings.NoClaimWasRead | cmd/waired-agent/inference_prepull_hold.go:248-278 | the hold gets past the terminal's question only by reading that no claim is open |
| PrePullEndings.MeasuringIsBehindFirstCheck | cmd/waired-agent/inference_prepull_hold.go:378-390 | the host is measured only behind a re-check whose four reads, in order, found nothing |
| PrePullEndings.EndingHasCause | cmd/waired-agent/inference_prepull_hold.go:104-390 | whatever way a hold ends, the step that decided it was taken for its reason |
| PrePullEndings.JudgedClaimWasRead | cmd/waired-agent/inference_prepull_hold.go:248-278 | a claim judged by its deadline was in force, with that deadline, when it was read |
| PrePullEndings.NonDrivingFrameDispatches | cmd/waired-agent/inference_prepull_hold.go:104-165 | from every start where nobody has said anything, a frame that says nobody is driving leads to the download in a complete run |
| PrePullEndings.GraceDispatches | cmd/waired-agent/inference_prepull_hold.go:310-372 | so does the grace timer when no frame comes at all |
| PrePullEndings.CancelEndsTheWait | cmd/waired-agent/inference_prepull_hold.go:248-372 | a parked hold whose context has ended can stop at once, with nothing dispatched |
| PrePullEndings.NoHoldIsStuck | cmd/waired-agent/inference_prepull_hold.go:104-372 | from any state, once enough time has passed the hold can end by at most eight steps of its own |
| OllamaSizing.ExtendedContextLength | proto/catalog/rope_scaling.go:15-29 | the extended length is 0 or above the declared one and within 32 bits |
| OllamaSizing.LadderShape | proto/hostfit/window.go:211-291 | the ladder is strictly descending, at most two rungs, each the 1M or 200k window or the model's own |
| OllamaSizing.LadderRungs | proto/hostfit/window.go:211-291 | which rungs there are, by context length: 1M for a model that reaches it by itself or by scaling when asked, 200k for every model that long, the model's own window below that |
| OllamaSizing.RungBelowIsNext | cmd/waired-agent/inference_ollama_verify.go:1013-1026 | it is the highest rung below the window, and 0 exactly when there is none |
| OllamaSizing.Dropped | proto/hostfit/window.go:644-715 | a ceiling drops exactly the rungs above it, never the last |
| OllamaSizing.FirstReachable | proto/hostfit/window.go:644-715 | the first kept rung the memory reaches, if any |
| OllamaSizing.PlanIsHighestReachable | proto/hostfit/window.go:644-715 | the planned window is the highest kept reachable rung, or the lowest rung reported as not fitting; a ceiling is respected except by the last rung |
| OllamaSizing.PlanIff | proto/hostfit/window.go:644-715 | the plan fits exactly when the lowest rung is held outright, spilled within bounds or reached without the card; it is the 1M window exactly when that is open, under the ceiling and held outright |
| OllamaSizing.CardShrinksIff | proto/hostfit/window.go:574-588 | fitting a card shrinks the planned window exactly when the machine without it would serve the 1M window and the card does not hold that outright |
| OllamaSizing.CardLosesFitIff | proto/hostfit/window.go:676-684 | a card takes the fit away exactly where the lowest rung lies above the model's own window and the card does not hold it outright |
| OllamaSizing.KVChoices | proto/hostfit/kvcache.go:54-88 | exactly the ladder types the build allows, f16 always last |
| OllamaSizing.ResolveKV | proto/hostfit/kvcache.go:90-99 | the type asked for when allowed, otherwise the first allowed; never "auto" |
| OllamaTuning.PlanKV | cmd/waired-agent/inference_ollama_tuning.go:111-118 | never "auto"; a pin is kept; flash attention exactly off f16 |
| OllamaTuning.RecommendedParallel | cmd/waired-agent/inference_ollama_tuning.go:281-290 | the number of full windows the budget holds, at least 1 |
| OllamaTuning.GrantedFor | cmd/waired-agent/inference_ollama_tuning.go:322-333 | the observed slots, only for the same model, build and window |
| OllamaTuning.TuningCell.CapToBuild | cmd/waired-agent/inference_ollama_tuning.go:337-358 | capping brings both slot figures within the build's limit and changes nothing else |
| OllamaTuning.TuningCell.FinalizeParallel | cmd/waired-agent/inference_ollama_tuning.go:360-374 | the operator's figure is taken up to the build's limit, with a warning exactly when it matters |
| OllamaTuning.ComputeOllamaTuning | cmd/waired-agent/inference_ollama_tuning.go:423-564 | the whole sizing, deferred caps included, is the specification function |
| OllamaTuning.SlotCounts | cmd/waired-agent/inference_ollama_tuning.go:423-571 | on every branch slots are at least 1 and within the build's limit; without an override at most 2 and at most what the engine granted, and above 1 exactly at the ceiling window with room for two full windows |
| OllamaTuning.FlashWithQuantisedCache | cmd/waired-agent/inference_ollama_tuning.go:423-465 | the KV type is never "auto" and flash attention is on exactly when it is not f16 |
| OllamaTuning.WindowIsServed | cmd/waired-agent/inference_ollama_tuning.go:423-520 | the sized window is one the build is served at |
| OllamaTuning.WindowMeans | cmd/waired-agent/inference_ollama_tuning.go:423-571 | fit, planned spill, placement, scaling and warning of the sized tuning, each as an equivalence over the inputs |
| OllamaTuning.WindowIsHighest | cmd/waired-agent/inference_ollama_tuning.go:423-571 | the sized window is the highest rung the ceiling keeps and the memory reaches, else the lowest rung, else the 200k tier or none |
| OllamaTuning.RecommendedIff | cmd/waired-agent/inference_ollama_tuning.go:423-571 | n slots are recommended, for n above 1, exactly when a rung is planned outright with room for n full windows and neither the engine nor the build said fewer |
| OllamaVerify.VerdictMeans | cmd/waired-agent/inference_ollama_verify.go:394-437 | what each verdict says about the tuning it was reached for |
| OllamaVerify.SpillIff | cmd/waired-agent/inference_ollama_verify.go:300-394 | a load is a spill exactly when an engaged accelerator took on less than planned by more than the tolerance and no prompt was served all the same |
| OllamaVerify.InferredF16Iff | cmd/waired-agent/inference_ollama_verify.go:412-432 | an f16 cache is inferred from sizes exactly when the two types differ by 1.5 GB and the load exceeds the midpoint |
| OllamaVerify.NamedF16Iff | cmd/waired-agent/inference_ollama_verify.go:394-403 | where the engine names its cache, the name decides |
| OllamaVerify.EarlyVerdictsIff | cmd/waired-agent/inference_ollama_verify.go:223-437 | when no GPU took part and when the card ran out of memory, as equivalences over the evidence |
| OllamaVerify.PlannedSpillIff | cmd/waired-agent/inference_ollama_verify.go:340-437 | any other load reads as a planned spill exactly when one was planned, the weights moved exceed the tolerance and the window is the one asked for; else as fine |
| OllamaVerify.SilentIff | cmd/waired-agent/inference_ollama_verify.go:223-437 | the one inspection with nothing to say is a plain load at the window asked for |
| OllamaVerify.RecomputeStaysBelow | cmd/waired-agent/inference_ollama_verify.go:966-1012 | re-planning under a served window as ceiling never goes above it and stays sized |
| OllamaVerify.StepDescends | cmd/waired-agent/inference_ollama_verify.go:966-1026 | an accepted step never raises the window and either lowers it or drops a quantised cache to f16 |
| OllamaVerify.StepLowersHeight | cmd/waired-agent/inference_ollama_verify.go:966-1026 | each accepted step lowers the number of rungs and cache types left |
| OllamaVerify.WalkIsShort | cmd/waired-agent/inference_ollama_verify.go:394-437 | from any sized tuning, any sequence of verdicts is out of steps after at most two |
| OllamaVerify.F16NeverRecurs | cmd/waired-agent/inference_ollama_verify.go:394-437 | after a step to f16 the f16 verdict cannot come back |
| OllamaVerify.Restart | cmd/waired-agent/inference_ollama_verify.go:881-916 | the restart makes exactly the listed calls in order |
| OllamaVerify.ApplyVerification | cmd/waired-agent/inference_ollama_verify.go:680-916 | the pass makes exactly the calls of its specification |
| OllamaVerify.PassLogShape | cmd/waired-agent/inference_ollama_verify.go:680-916 | the shape of those calls for any verdicts and any step that does not raise the window |
| OllamaVerify.EveryPathRecordsOnce | cmd/waired-agent/inference_ollama_verify.go:680-916 | every path records once and last, stops and starts at most once and in order, never records a larger window, and leaves the engine's environment as recorded exactly unless the stop failed |
| OllamaVerify.SpillStepsDown | cmd/waired-agent/inference_ollama_verify.go:981-1026 | a spill restarts the engine at or below the next rung down, at the same KV type, whenever there is one; with none it is recorded as degraded and nothing else happens |
| OllamaVerify.F16StepsToF16 | cmd/waired-agent/inference_ollama_verify.go:966-981 | an f16 cache under a quantised tuning always sets the engine to f16, at no higher a window |
| OllamaVerify.TouchedIff | cmd/waired-agent/inference_ollama_verify.go:680-916 | the engine is touched exactly when the first inspection asks for a step and there is one |
| OllamaVerify.RecordMeans | cmd/waired-agent/inference_ollama_verify.go:881-916 | the record is verified unless the inspection that counts saw no load, and is of the tuning the engine was left on |
| OllamaVerify.DegradedMeans | cmd/waired-agent/inference_ollama_verify.go:895-915 | which paths record a degraded tuning, by the two inspections; but for an idle GPU such a record says it does not fit |
| OllamaVerify.SameReadingTwoRecords | cmd/waired-agent/inference_ollama_verify.go:895-915 | the reading that is recorded as fine on a first inspection is recorded as degraded behind a restart |
| OllamaVerify.ReadableIff | cmd/waired-agent/inference_ollama_verify.go:340-437 | some inspection can read as a planned spill exactly when one was planned, the machine allows it, and a load can lack more device weights than the tolerance forgives |
| OllamaVerify.RestartDegradesPlannedSpillIff | cmd/waired-agent/inference_ollama_verify.go:881-916 | behind an accepted step, a planned spill can be recorded as degraded exactly when the stepped tuning and the machine make it readable |
| OllamaVerify.PlannedSpillAfterRestartExample | cmd/waired-agent/inference_ollama_verify.go:680-916 | a host, a build and two inspections on which the whole pass does so |
| Verdicts.SeverityBands | internal/agentgrade/verdict.go:150-157 | failing is the band 2 to 5; only a malformed call and an unknown tool share a rank above pass |
| Verdicts.WorstIsTopRank | internal/agentgrade/probe.go:289-294 | the verdict kept has the top rank, and the first of that rank wins |
| Verdicts.WorstIsOrderFreeIff | internal/agentgrade/probe.go:289-329 | the verdict kept is the same for every order exactly when one verdict alone has the top rank |
| Verdicts.WorstByClass | internal/agentgrade/probe.go:289-329 | which class outranks which, by the verdict kept of any sequence |
| Pooling.FoldAdds | cmd/catalog-tool/agentgrade.go:537-560 | folding a case adds exactly its evidence, to its own name only |
| Pooling.PoolConserves | cmd/catalog-tool/agentgrade.go:507-581 | a pooled case has the trials, failures, class counts and top rank of all runs together, and exists exactly when some run has it |
| Pooling.TallyKeptIff | cmd/catalog-tool/agentgrade.go:541-553 | a pooled case has a tally exactly when every case of that name in every run has one |
| Pooling.SumIsOrderFree | cmd/catalog-tool/agentgrade.go:507-581 | the evidence of a set of runs does not depend on their order |
| Pooling.PoolIsOrderFree | cmd/catalog-tool/agentgrade.go:507-581 | neither do a pooled case's totals, tally and rank |
| Pooling.PoolCarriesWorst | cmd/catalog-tool/agentgrade.go:554-556 | the pooled verdict of a case is the worst the runs gave it, the earliest of that rank |
| Pooling.KeptByClass | cmd/catalog-tool/agentgrade.go:554-556 | a pool of any number of runs keeps a class for a case exactly when some run gave it and no run gave one that outranks it |
| Pooling.VerdictIsOrderFreeIff | cmd/catalog-tool/agentgrade.go:507-581 | the verdict the pool keeps for a case is the same for every order of the runs exactly when one of the verdicts given to it alone has the top rank |
| Pooling.PoolNames | cmd/catalog-tool/agentgrade.go:507-581 | a pool of a report without repeated cases has none |
| Pooling.GradeIsOrderFree | cmd/catalog-tool/agentgrade.go:565-572 | nor does the grade |
| PoolReports.AddInto | cmd/catalog-tool/agentgrade.go:546-549 | class by class, in any map order, the counts are added and the source map is left alone |
| PoolReports.MergeCase | cmd/catalog-tool/agentgrade.go:541-556 | merging keeps the map it adds into exactly when both sides were counted, else drops it |
| PoolReports.FoldCase | cmd/catalog-tool/agentgrade.go:535-557 | one case folded into the accumulator, including which maps change and which entry holds which map |
| PoolReports.CopyFirst | cmd/catalog-tool/agentgrade.go:508-517 | the first report's cases are taken over on maps of their own |
| PoolReports.FoldReport | cmd/catalog-tool/agentgrade.go:535-557 | the loop over one report's cases keeps the tracking |
| PoolReports.FoldReports | cmd/catalog-tool/agentgrade.go:521-563 | the loop over the reports refuses exactly a differing model, fixture or harness and sums the trials |
| PoolReports.Pool | cmd/catalog-tool/agentgrade.go:507-581 | refused exactly when some run differs in model, fixture or harness; otherwise the cases, trials and grade are those of the fold, every later report's map is left as tracked, and the first report's maps are not written |
| PoolReports.TrackMeans | cmd/catalog-tool/agentgrade.go:537-553 | what has become of the map a name's first later case brought |
| PoolReports.InputsUntouchedIff | cmd/catalog-tool/agentgrade.go:537-540 | pooling leaves every report as it was exactly when, for every name missing from the first report, nothing merged into its first later case brings a class that case lacks or a trial |
| PoolReports.ThirdRunEditsTheSecond | cmd/catalog-tool/agentgrade.go:537-540 | a pool of three runs, the first without a case the other two counted, adds the third run's counts into the second report's own map |
| PoolReports.EditedReport | cmd/catalog-tool/agentgrade.go:537-540 | a concrete such pool: one trial in each run, and the second report then says two |
| Recompute.CanonIsIdempotent | internal/agentgrade/verdict.go:172-179 | renaming classes twice is renaming them once |
| Recompute.TopClassUniqueIff | cmd/catalog-tool/agentgrade.go:841-853 | the worst class of a tally is unique exactly when no two classes are tied |
| Recompute.RecountCase | cmd/catalog-tool/agentgrade.go:841-856 | in any map order the tally is renamed, the failures are the failing classes' counts, and the verdict is a class of top severity |
| Recompute.RecountRecord | cmd/catalog-tool/agentgrade.go:830-876 | every counted case is recounted, uncounted ones are kept but still grade, and touched means changed |
| Recompute.GradeStore.Recompute | cmd/catalog-tool/agentgrade.go:828-882 | the whole store is recounted; changed and skipped are exactly the differing records and the uncounted cases |
| Rederive.RecountTwice | cmd/catalog-tool/agentgrade.go:841-856 | recounting a recounted case is recounting it once, and the same outcome when nothing is tied |
| Rederive.TiedRecounts | cmd/catalog-tool/agentgrade.go:841-856 | a tied case can be recounted to either class and to the other one next time |
| Rederive.IdempotentIff | cmd/catalog-tool/agentgrade.go:828-882 | re-deriving a record is idempotent for every map order exactly when no case is tied |
| Rederive.StoreIdempotentIff | cmd/catalog-tool/agentgrade.go:828-882 | re-deriving a whole store is idempotent for every map order exactly when no case of any record is tied |
| Rederive.PoolConsistent | cmd/catalog-tool/agentgrade.go:507-581 | pooling runs whose figures follow from their tallies gives such a record |
| Rederive.StoredAt | cmd/catalog-tool/agentgrade.go:650-656 | the import files each pooled case under its name, and nothing else |
| Rederive.RederivedGrade | cmd/catalog-tool/agentgrade.go:832-868 | the re-derived grade fails exactly when the pooled one does or a failing class is hidden behind an error |
| Rederive.PooledIsStableIff | cmd/catalog-tool/agentgrade.go:828-882 | a pooled record of consistent runs is its own re-derivation in every map order exactly when no case is tied and no failure is hidden behind an error in a passing record |
| HostProbes.TurnIsAboveFloor | proto/hostfit/host_cutoff.go:175-232 | a measured turn is longer than the prefill floor of any rate at least as fast |
| HostProbes.MeetsIff | proto/hostfit/model_turn.go:71-77 | a measured host meets the budget exactly when depth times decode plus completion times prefill is within the budget times both rates |
| HostProbes.SlowerIsLonger | proto/hostfit/model_turn.go:71-77 | a strictly slower rate of either kind is a strictly longer turn |
| HostProbes.DecodeDecides | proto/hostfit/model_turn.go:71-77 | for every prefill rate above depth over budget some decode rate meets the budget and some does not; at or below it none does |
| HostProbes.MedianIsMajority | cmd/waired-agent/host_cutoff_probe.go:925-945 | for any number of usable samples and any sort of them, the median meets the budget exactly when a strict majority does |
| HostProbes.WideningSuffices | cmd/waired-agent/host_cutoff_probe.go:1101-1133 | for any slot split, one slot of the widened window holds the full depth |
| HostProbes.MeasureSample | cmd/waired-agent/host_cutoff_probe.go:1101-1133 | at most two requests, each served in its own way; unless the engine splits its window further in between, a prompt of acceptable length ends up measured exactly unless a slot holds no token |
| HostCutoff.StraddleCounts | cmd/waired-agent/host_cutoff_probe.go:902-916 | samples disagree exactly when some but not all meet the budget |
| HostCutoff.FiresIff | cmd/waired-agent/host_cutoff_probe.go:844-850 | a screen reading fires exactly when its prompt is long enough and the prefill alone takes over one and a half budgets |
| HostCutoff.Disagree | cmd/waired-agent/host_cutoff_probe.go:902-916 | one flag for each side of the budget tells whether the samples disagree |
| HostCutoff.SortByTurn | cmd/waired-agent/host_cutoff_probe.go:925-932 | a permutation of the samples in order of turn time |
| HostCutoff.Reduce | cmd/waired-agent/host_cutoff_probe.go:925-945 | the kept sample is one of them and meets the budget exactly when a strict majority does |
| HostCutoff.SampleLoop | cmd/waired-agent/host_cutoff_probe.go:625-672 | three samples, five only after a disagreement, stopping only on the clock or a failure |
| HostCutoff.TakeSamples | cmd/waired-agent/host_cutoff_probe.go:625-681 | what the loop took is judged by majority; only a failure with nothing usable is no measurement |
| HostCutoff.ConcludesOnOneEngine | cmd/waired-agent/host_cutoff_probe.go:717-805 | a pass concludes exactly when both readings clear the margin on an idle host with one engine generation, and then both were served by it |
| HostCutoff.BelowMeansBelow | cmd/waired-agent/host_cutoff_probe.go:844-884 | the smaller bound is kept, both exceed the margin, and no full-depth measurement at either rate or slower could meet the budget |
| HostCutoff.Screen | cmd/waired-agent/host_cutoff_probe.go:693-709 | at most two passes, the second exactly when the engine was restarted under the first, deciding exactly when the last one concludes |
| HostCutoff.RereadsAsPublished | cmd/waired-agent/host_cutoff.go:1101-1112 | a stored record reads back as the published verdict exactly on the same engine kind and non-empty version |
| HostCutoff.BoundOrMeasured | cmd/waired-agent/host_cutoff.go:1353-1442 | a concluded screen always publishes as below the budget; a full-depth figure publishes exactly when it was measured at depth |
| HostCutoff.MeasureHost | cmd/waired-agent/host_cutoff_probe.go:570-681 | end to end: a concluded screen publishes "below" and no full measurement at those rates could pass; otherwise the verdict is whether a strict majority of the usable samples afford prefill and decode; and the same engine reads it back after a restart |
| BenchKeys.DigitsRead | cmd/waired-agent/inference_model_speed_provider.go:175-181 | the printed digits read back as the number |
| BenchKeys.ItoaIsInjective | cmd/waired-agent/inference_model_speed_provider.go:167-187 | no two integers print the same, the least one included |
| BenchKeys.FillDigits | cmd/waired-agent/inference_model_speed_provider.go:175-181 | the buffer ends with the decimal digits and has room for a sign |
| BenchKeys.Itoa | cmd/waired-agent/inference_model_speed_provider.go:167-187 | the 20-byte buffer never overflows and the result is the decimal, or a bare sign for the least integer |
| BenchKeys.JoinIsInjective | cmd/waired-agent/inference_boot_bench_loop.go:41-51 | NUL-free terms joined by NUL determine the list of terms |
| BenchKeys.SelectionKeyIff | cmd/waired-agent/inference_boot_bench_loop.go:41-51 | two selections share a key exactly when they agree on every field it covers |
| BenchKeys.CacheTextIff | cmd/waired-agent/inference_bench_cache.go:157-177 | two configurations share a cache text exactly when they agree on every field it covers, and an uncacheable one never does |
| BenchKeys.LedgerMatchesKey | cmd/waired-agent/inference_model_speed_provider.go:137-165 | the ledger answers exactly when the cache keys agree, up to the engine's name for the model and an unused draft length |
| BenchCaches.Cache.Load | cmd/waired-agent/inference_bench_cache.go:214-252 | a failing read, and a missing, corrupt or other-schema file, is a miss; only the first is reported |
| BenchCaches.Cache.Store | cmd/waired-agent/inference_bench_cache.go:261-323 | a store keeps the other keys unless the file cannot be read or is of another schema, and a failed write changes nothing |
| BenchCaches.Cache.Invalidate | cmd/waired-agent/inference_bench_cache.go:327-335 | the file is gone |
| BenchCaches.LoadIsLastStored | cmd/waired-agent/inference_bench_cache.go:214-335 | over any history, a load answers with the figures last stored under the key since the file last started over, and only then |
| BenchCaches.MeasureLoop | cmd/waired-agent/inference_bench.go:637-700 | at most three tries, repeated only for engine restarts; measured exactly when the deciding try finished, a bound exactly when it was one, and with that try's figures and the warm-slot capacity |
| BenchCaches.RunBenchmark | cmd/waired-agent/inference_bench.go:459-775 | the file changes exactly when the run had to measure and the deciding try was quiet, warmed up, finished and no bound; what is stored is its figures with the warm-slot capacity |
| BenchCaches.AnswersWereMeasured | cmd/waired-agent/inference_bench.go:549-775 | over any history of runs and resets, whatever the cache answers traces to a run under that key whose deciding try took it as a speed, with no reset since |
| BenchCaches.SpeedIsKept | cmd/waired-agent/inference_bench.go:549-775 | a speed once stored answers until the file starts over or that key is measured again |
| DocSplice.Index | cmd/catalog-tool/docs.go:126-137 | the first occurrence, or -1 when there is none |
| DocSplice.TheMarkers | cmd/catalog-tool/docs.go:42-43 | each marker opens once and on one line, and they differ |
| DocSplice.OnlyInBlock | cmd/catalog-tool/docs.go:126-146 | an end marker before the old one can only be the block's own: no overlap with the begin marker or an inserted newline |
| DocSplice.OutsideUnchanged | cmd/catalog-tool/docs.go:126-146 | everything up to the begin marker and from the end marker on is kept; refused exactly when a marker is missing or the end comes first |
| DocSplice.LastBlockWins | cmd/catalog-tool/docs.go:126-146 | splicing twice keeps only the last block, for blocks without the end marker |
| DocSplice.IdempotentIff | cmd/catalog-tool/docs.go:122-146 | re-splicing is byte-identical exactly when the block does not hold the end marker |
| DocSplice.PutThenGet | cmd/catalog-tool/docs.go:126-146 | what was spliced is what lies between the markers |
| DocSplice.GetThenPut | cmd/catalog-tool/docs.go:126-146 | splicing what is already there changes nothing |
| EnginePark.Host.Because | cmd/waired-agent/engine_park_reason.go:109-117 | the latch is the authority; an unexplained latch is the operator's |
| EnginePark.Host.Park | internal/runtime/ollama.go:2068-2091 | an adopted engine is refused untouched, a start in flight is cancelled unless it has its answer, and a stop that fails drops the latch |
| EnginePark.Host.EnsureRunning | internal/runtime/ollama.go:759-812 | a parked engine is not started and a start in flight is joined |
| EnginePark.Host.FinishStart | internal/runtime/ollama.go:944-1027 | the latch is checked again behind a child that came up, and not before an engine that answered is adopted |
| EnginePark.Host.Stop | cmd/waired-agent/engine_control.go:67-94 | a successful stop is latched and reported as the operator's |
| EnginePark.Host.Start | cmd/waired-agent/engine_control.go:125-184 | a refused start changes nothing; any other leaves nothing latched and no cause, and touches neither the process nor a start in flight |
| EnginePark.Host.OnLoadFailure | cmd/waired-agent/engine_park_reason.go:132-180 | a recorded load failure parks with its cause, never over the operator's stop |
| EnginePark.Host.ResumeAfterLoadFailure | cmd/waired-agent/engine_park_reason.go:192-229 | releases exactly a load-failure park |
| EnginePark.Host.ReviewPark | cmd/waired-agent/inference_load_failure.go:363-371 | releases a load-failure park once nothing blocks the load |
| EnginePark.RunKeepsInv | cmd/waired-agent/engine_park_reason.go:93-229 | over every run a latched engine has no process of ours and no start a stop could have cancelled, and exactly the latched have a holder |
| EnginePark.OperatorStopStays | cmd/waired-agent/engine_control.go:67-184 | a successful stop stays latched and reported as the operator's through any run without a start that is not refused |
| EnginePark.StopLastsUntilStart | cmd/waired-agent/engine_control.go:67-184 | and no longer: a run keeps the stop in force exactly as long as every start in it is refused |
| EnginePark.StartEndsEveryPark | cmd/waired-agent/engine_control.go:125-184 | over every run, a start that is not refused ends whatever park there is, and the next request starts the engine |
| EnginePark.StopHoldsAfterExit | internal/runtime/ollama.go:2068-2091 | over every run, behind an exit a stop holds even where it could not have ended the process, unless a start is coming up or the engine is adopted |
| EnginePark.LoadParkEndsIff | cmd/waired-agent/engine_park_reason.go:132-229 | a park for a load ends exactly by a resume, a review that finds nothing in the way, or a start that is not refused |
| EnginePark.StepIsTruthfulIff | cmd/waired-agent/engine_park_reason.go:109-229 | a step keeps the report truthful exactly unless it meets a load-failure park of an engine adopted under it |
| EnginePark.RunIsTruthfulIff | cmd/waired-agent/engine_park_reason.go:109-229 | along a whole run the reported cause is whoever latched the engine exactly as long as no such step happens |
| EnginePark.TruthfulUnlessTooLate | internal/runtime/ollama.go:985-1027 | without a load failure that parks after a start has its answer, no engine parked for a load is ever adopted and every report of every run is truthful |
| EnginePark.TooLateCanMisattribute | internal/runtime/ollama.go:985-997 | from every state in which a load failure parks that late, landing the start and asking for a stop reports the park as the operator's, and neither a resume nor a review releases it |
| EnginePark.MisattributedPark | internal/runtime/ollama.go:985-997 | a complete run that gets there: the child fails, the port answers with the pinned version, a load failure is handled, and only then the start adopts |
| InferenceToggle.Agent.WriteChoice | internal/runtime/state/state.go:596-605 | writing the choice drops the cutoff's mark when that write succeeds |
| InferenceToggle.Agent.Request | cmd/waired-agent/inference_control.go:78-94 | a request that persists moves the live state, one that does not changes nothing |
| InferenceToggle.Agent.BootUp | cmd/waired-agent/inference_startup.go:49-66 | the boot plan; a flag is persisted before the agent is up |
| InferenceToggle.Agent.RunCutoff | cmd/waired-agent/host_cutoff.go:1286-1342 | the cutoff's writes, and exactly when the download goes on |
| InferenceToggle.CutoffOverwritesIff | cmd/waired-agent/host_cutoff.go:1263-1276 | the cutoff changes a written choice exactly when it cannot read it and would turn an "on" off |
| InferenceToggle.OverwrittenChoice | cmd/waired-agent/host_cutoff.go:1263-1276 | a choice turned on by a person is turned off by a cutoff that cannot read it |
| InferenceToggle.ChoiceSurvives | cmd/waired-agent/host_cutoff.go:1263-1342 | a written choice outlives every boot, measurement and cutoff that says nothing itself, and each boot comes up as chosen |
| InferenceToggle.RequestDecides | cmd/waired-agent/inference_control.go:78-94 | a request that lands decides the choice and the live state over any silent boots, measurements and readable cutoffs after it |
| InferenceToggle.FlagDecides | cmd/waired-agent/inference_startup.go:49-66 | so does a boot flag |
| InferenceToggle.SlowHostStaysOff | cmd/waired-agent/host_cutoff.go:1286-1342 | with nothing ever said, the cutoff of a measured slow host turns local inference off, says so, and that lasts |
| InferenceToggle.StepKeepsMarkIff | internal/runtime/state/host_speed.go:109-116 | a step keeps the mark honest exactly unless it writes over the cutoff's choice and fails to clear it |
| InferenceToggle.MarkMeansCutoffIff | cmd/waired-agent/host_cutoff.go:1121-1141 | along a whole run the mark holds only while the cutoff was the last writer of "off", exactly as long as every overwrite clears it |
| InferenceToggle.MarkIsCarried | cmd/waired-agent/host_cutoff.go:1121-1141 | a measurement stored over a readable record carries the mark along; over an unreadable one the mark is gone until a later cutoff makes it |
| InferenceToggle.StaleMark | internal/runtime/state/host_speed.go:109-116 | a run in which the mark outlives the write that should have dropped it |

## Left out

- HTTP, SSE, process spawning, JSON and file encodings: their outcomes are parameters, and the stored records round-trip as values.
- The memory estimators behind the planner (spill fractions, budgets): the model takes their answers as parameters of the host, so the ladder theorems hold for any of them.
- The SHA-256 step of the cache key: the lemmas are about the text that is hashed.
- Wall-clock time beyond "a timer may fire after its deadline", log lines, and warning wording beyond whether one is recorded.
- vLLM start and stop, the OpenAI-surface probe, and its park, which does not stamp a cause on the stop.
- Interleavings inside one park or toggle handler: each is one step, as is each stage of an engine start beside them. The hold, the lock, the coalesced start and the sync are interleaved operation by operation.
- The `onWait` callback of the directory lock, which has no effect on the protocol.
- Flaky lists, transports and provenance fields of a pooled report, and the spread of a measurement: carried along without influencing a verdict.
- Floating point: rates and turn times are exact reals, so a figure within rounding of the budget is not distinguished.
- The radar, propose, draft, compute, tier and validate subcommands, hardware summary, connectivity push and footer wording: plumbing or single-branch rules that would only add easy members.
- PoolReports.InputsUntouchedIff: assumes that no class has a negative count, as counts of trials do not.
- PoolReports.Pool: promises nothing about the later reports' maps when it refuses a set of runs half way.
- HostProbes.MeasureSample: promises no measurement when the engine splits its window over more slots for the second request than for the first.
- OllamaVerify.ReadableIff: quantifies over inspections whose logged sizes are not negative.
