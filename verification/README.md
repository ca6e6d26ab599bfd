# Lightr, verified

A Dafny model of the parts of Lightr where correctness is hardest to see, with proofs
about every input, every interleaving and every crash. `dafny verify dfyconfig.toml`
checks the project.

**Container and sandbox lifecycle.** `CriState` and `CriSteps` are the CRI backend as a step
machine: disk, cache, reaper threads, processes and the control point of each pod's call.
A step is one lock section, one atomic persist or unlink, one blocking wait, one reaper
action, one process event, one recovery step or a crash. `CriInvariant` is the inductive
invariant, local to a container or a pod; `CriPreserve` proves every step keeps it;
`CriTheorems`, `CriRecovery` and `CriReadiness` draw the laws over whole runs, and
`CriSilentStart` is a run that breaks a documented one. `CriBackend` is the backend object, its
calls written section by section with the rest of the host free to move before each one;
`CriInterference` says what that leaves alone. The object's `Valid` ties it to a run of the
machine, so the laws over runs hold of it.

**Log.** `CivilDate` and `LogStamp` are the timestamp arithmetic, `LogFormat` the record format
with its reader, `LogTee` the tee and its attachers.

**Snapshot metadata.** `Bytes`, `Base64`, `RefRecord`, `SchemaCodec`, `SchemaSize`.

**Recovery capacity.** `Sums`, `Estimator`, `Estimate`, `EstimateLaws`, `CapacityObservation`,
`JsonDepth`.

**Smaller machines.** `ConsoleScanner` and `ConsoleLimits`, `HealthCheck`, `Benchmark`.

## Reading the lifecycle model

- Any number of pods may have a call in flight, one mutating call per pod. Two overlapping
  mutating calls on the same pod are not modelled: start checks the state in one lock
  section and writes it in another.
- Ids are unused when minted. A persist or an unlink happens or the backend crashes.
- The process table gives out pids not in use; a pid may be reused once its process is reaped.
- Signals, cgroups and namespaces appear as process events: a process may exit at any time.
- `calls` on the backend object records where each pod's call stands. It stands for the
  threads' program counters, so the continuation parameters of the inner methods are not
  parameters of the code.

## Where the code and its documentation disagree

The model follows the code.

- The health machine is documented never to count a failure in the start period
  (crates/lightr-run/src/healthcheck.rs:84-91). The code adds it to the streak that the first
  later failure is judged by. `DocumentedRuleExactly` says when the two agree.
- Removing a container is documented to be refused while it is Running
  (crates/lightr-cri-backend/src/lib.rs:77-78 and 94). The code stops it by force and removes
  it (container.rs:281-283), and so does `RemoveContainer`.
- A container with a pinned network namespace is documented never to be Running unless it
  exec'd (container_wait.rs:45-56). An engine that dies without writing a byte also closes the
  readiness pipe. `RunningCanBeFalse` is such a run. `NsRunningExecdIff` says that such a death
  of the container's own engine is exactly when the promise fails.
- The virtual machine shim is documented never to return the guest's exit code
  (crates/lightr-engine/shim/vz.swift:111-112), then to return it as 0 to 255, with -1 and -2 for
  the other outcomes (435-437). The code returns any number the line it read holds, and
  a trim can make that a later line than the first. `ContractIff` says when the second promise is
  kept, for every stream; `NearContractIff` and `StrayContractIff` say it for the two common kinds.

## Model

| member | source | states |
|---|---|---|
| CriPreserve.Keeps | crates/lightr-cri-backend/src/container_start.rs:19-329 | Every step of the machine (lock section, persist, unlink, blocking wait, reaper action, process event, crash, recovery step) keeps the whole invariant |
| CriTheorems.RunKeepsInv | crates/lightr-cri-backend/src/lib.rs:187-203 | The invariant holds at every instant of every run from an empty home |
| CriTheorems.StoredContainersHaveTheirSandbox | crates/lightr-cri-backend/src/sandbox.rs:175-219 | At every instant, crash points included, each container record on disk names a sandbox whose record is on disk |
| CriTheorems.StoredStateOnlyAdvances | crates/lightr-cri-backend/src/container.rs:51-85 | Across crashes and restarts the stored state only moves Created, Running, Exited, and an Exited record never changes again |
| CriTheorems.RunMoves | crates/lightr-cri-backend/src/container_wait.rs:140-152 | Between any two instants of a run records only advance, removed ones stay removed and a stopped pod stays stopped |
| CriTheorems.RemovedStaysRemoved | crates/lightr-cri-backend/src/container.rs:276-293 | Once remove_container has returned, no reaper, call or recovery brings the record back in cache or on disk |
| CriTheorems.QuiescentPodIsPersisted | crates/lightr-cri-backend/src/container.rs:91-94 | Crash-only law: a pod with no call in flight has exactly its disk records in the cache |
| CriReadiness.NsRunningExecdIff | crates/lightr-cri-backend/src/container_wait.rs:98-134 | At every instant of every run, a container of a pod with a pinned network namespace that is stored Running has exec'd since its last spawn if and only if its own engine has not died without a byte since then |
| CriReadiness.NsRunningHasExecd | crates/lightr-cri-backend/src/container_wait.rs:45-56 | The documented promise, for a container whose own engine has not died on an empty open pipe: stored Running only once it has exec'd |
| CriReadiness.EndedIff | crates/lightr-cri-backend/src/container_wait.rs:98-134 | The launches recorded as exec'd or silently dead are exactly those with that event and no spawn since, over every run |
| CriSilentStart.RunningCanBeFalse | crates/lightr-cri-backend/src/container_wait.rs:98-111 | A run of 18 steps in which an engine does, and the container is stored Running without ever having exec'd |
| CriInterference.OthersKeep | crates/lightr-cri-backend/src/container_start.rs:306-327 | Whatever another pod's call, a reaper or a process does, this pod's sandbox record is untouched and its cached containers change only from Running to Exited |
| CriTheorems.StoppedSandboxStaysStopped | crates/lightr-cri-backend/src/sandbox.rs:155-171 | After stop_sandbox returns the pod is NotReady or gone in every later state and gains no container |
| CriTheorems.RemovedSandboxIsGone | crates/lightr-cri-backend/src/sandbox.rs:175-219 | However often crashes cut earlier attempts short, a remove_sandbox that returns leaves neither the sandbox nor any of its containers, for good |
| CriTheorems.ReaperWaitsForItsOwnChild | crates/lightr-cri-backend/src/container_start.rs:306-327 | A waiting reaper waits for an unreaped process spawned for its own container, whatever pids are reused |
| CriTheorems.DefensiveStopIsDead | crates/lightr-cri-backend/src/container.rs:257-271 | The branch of stop_container for a Running record without a process is never reached |
| CriTheorems.RecoveryReadoptsTheLiving | crates/lightr-cri-backend/src/container.rs:64-80 | After recovery no cached container is Running with pid 0, and each one kept Running had a live pid when it was read |
| CriRecovery.RecoveryIsIdempotent | crates/lightr-cri-backend/src/container.rs:51-85 | With no process gone in between, a second opening changes no record, timestamps included, even if crashes interrupt the openings |
| CriBackend.LightrBackend.New | crates/lightr-cri-backend/src/lib.rs:187-203 | Opening a home left by any run yields a backend on that run: cache equals disk, same records, each unchanged or reconciled to a lost exit |
| CriBackend.LightrBackend.LoadContainerCache | crates/lightr-cri-backend/src/container.rs:51-85 | The directory scan reconciles every record exactly once and keeps the set of records |
| CriBackend.LightrBackend.CreateContainer | crates/lightr-cri-backend/src/container.rs:98-127 | InvalidArgument, NotFound, FailedPrecondition and success each exactly by the ingress check and the sandbox's presence and state at the call; on success the new record is both stored and cached |
| CriBackend.LightrBackend.EnsureSandboxReady | crates/lightr-cri-backend/src/sandbox.rs:245-254 | The gate's outcome by the sandbox's presence and state, and where the call goes next |
| CriBackend.LightrBackend.StartContainer | crates/lightr-cri-backend/src/container_start.rs:19-330 | NotFound and FailedPrecondition exactly by the cached record at the call; success leaves a stored Running record and a reaper waiting on its held child; a failed start leaves Exited with its code and reason, in cache and on disk; a failed plan leaves Created |
| CriBackend.LightrBackend.WaitExecReady | crates/lightr-cri-backend/src/container_wait.rs:57-134 | Only an empty read at end of file lets the start go on; every other outcome goes to the recording of a failure with its code and reason |
| CriBackend.LightrBackend.RecordStartFailure | crates/lightr-cri-backend/src/container_wait.rs:140-152 | A failed start is recorded Exited with the failure's code and reason, in cache and on disk |
| CriBackend.LightrBackend.SpawnReaper | crates/lightr-cri-backend/src/container_start.rs:300-313 | The record handed to the reaper is stored, Running, and its process is this backend's child |
| CriBackend.LightrBackend.ReaperLands | crates/lightr-cri-backend/src/container_start.rs:316-327 | The reaper's lock section writes the exit to cache and disk together exactly when the record is still Running |
| CriBackend.LightrBackend.WaitUntilExited | crates/lightr-cri-backend/src/container_wait.rs:25-41 | A positive answer means the record is no longer Running; the poll ends at its deadline |
| CriBackend.LightrBackend.StopContainer | crates/lightr-cri-backend/src/container.rs:206-272 | Terminates under any interference; unless its wait ran into the deadline the record is no longer Running on return |
| CriBackend.LightrBackend.RemoveContainer | crates/lightr-cri-backend/src/container.rs:276-293 | Terminates with the record gone from disk and cache, whatever the reaper and other pods do meanwhile |
| CriBackend.LightrBackend.RunSandbox | crates/lightr-cri-backend/src/sandbox.rs:125-151 | Refused exactly by the ingress check or a failed network setup; persisted before it is cached, and afterwards both hold the new record with its address and namespace |
| CriBackend.LightrBackend.StopSandbox | crates/lightr-cri-backend/src/sandbox.rs:155-171 | Afterwards the sandbox is NotReady or absent, in cache and on disk |
| CriBackend.LightrBackend.RemoveSandbox | crates/lightr-cri-backend/src/sandbox.rs:175-219 | Terminates with the sandbox and every container ever minted in it gone from disk and cache |
| CriBackend.LightrBackend.PodContainers | crates/lightr-cri-backend/src/sandbox.rs:185-190 | The cascade's list is exactly the pod's cached containers |
| CivilDate.CivilTomorrow | crates/lightr-cri-backend/src/util.rs:224-240 | The date of day n+1 is the calendar successor of the date of day n, for every n |
| CivilDate.CivilIsCalendar | crates/lightr-cri-backend/src/util.rs:224-240 | The date of day n is the one reached by turning n calendar pages from 1 January 1970 |
| CivilDate.CivilIsValid | crates/lightr-cri-backend/src/util.rs:224-240 | Always a valid Gregorian date, and counting its days gives n back |
| CivilDate.CivilInverts | crates/lightr-cri-backend/src/util.rs:224-240 | Converting the day number of a valid date from 1970 on gives that date |
| CivilDate.DateOrder | crates/lightr-cri-backend/src/util.rs:224-240 | Calendar order is the order of day numbers |
| CivilDate.EraSplit | crates/lightr-cri-backend/src/util.rs:231-234 | The one-line year and day-of-year formulas split a 400-year era into centuries, four-year groups and years |
| CivilDate.BuildDateIsCivil | crates/lightr-cli/build.rs:54-68 | The build script's signed form computes the same date for every u64 second |
| CivilDate.YearFits | crates/lightr-cri-backend/src/util.rs:224-240 | The year of day n is below 2^32 exactly when n is below 1568703873082 |
| CivilDate.FormsAgree | crates/lightr-cli/build.rs:54-68 | The two forms agree exactly on the seconds before day 1568703873082 |
| CivilDate.FormsDifferFirstAt | crates/lightr-cri-backend/src/util.rs:239-239 | That day is a u64 second, 1 January of year 2^32, which the narrow form prints as year 0 |
| LogStamp.StampIsPlain | crates/lightr-cri-backend/src/util.rs:202-212 | A printed timestamp never contains a space or a newline |
| LogStamp.StampOrder | crates/lightr-cri-backend/src/util.rs:202-212 | Before second 253402300800, the first of year 10000, sorting timestamps as text sorts them in time (section 5.6 of RFC 3339) |
| LogStamp.StampOrderIff | crates/lightr-cri-backend/src/util.rs:202-212 | Over all times before a limit, text order is time order if and only if the limit is at most that second |
| LogStamp.FirstToSortWrong | crates/lightr-cri-backend/src/util.rs:202-212 | The last second of year 9999 and the first of year 10000 sort the wrong way round |
| LogFormat.FrameAppend | crates/lightr-cri-backend/src/stream_io.rs:206-214 | Framing does not see chunk borders: more bytes frame as the leftover followed by them |
| LogFormat.SplitInverts | crates/lightr-cri-backend/src/util.rs:213-220 | Splitting the log file on newlines gives exactly the lines of its records |
| LogFormat.DemuxInverts | crates/lightr-cri-backend/src/util.rs:196-220 | Reading the file back by stream name gives the data of that stream's own records, whatever the interleaving |
| LogTee.CriLogLine | crates/lightr-cri-backend/src/util.rs:196-220 | The formatted bytes for any data, empty included: data that ends a line is tagged full and keeps its newline, any other is tagged partial and gets one |
| LogTee.Tee.Feed | crates/lightr-cri-backend/src/stream_io.rs:199-215 | One read goes to the attachers whole and leaves the log framing all lines completed so far |
| LogTee.Tee.Run | crates/lightr-cri-backend/src/stream_io.rs:187-224 | For any sequence of reads, with the other stream writing and clients attaching in between, the stream's records frame exactly its bytes |
| LogTee.Tee.Finish | crates/lightr-cri-backend/src/stream_io.rs:217-222 | What is left at end of input becomes the one partial record, whatever the clock says |
| LogTee.LogIsFaithful | crates/lightr-cri-backend/src/stream_io.rs:187-224 | For any interleaving of two finished tees the file demultiplexes to both streams byte for byte |
| LogTee.LogSoFarIsFaithful | crates/lightr-cri-backend/src/stream_io.rs:187-224 | Before end of input the file reads back as the stream's complete lines |
| LogTee.OnePartialAtTheEnd | crates/lightr-cri-backend/src/stream_io.rs:217-222 | At most the last record of a stream is partial, exactly when the stream does not end in a newline |
| LogTee.Sinks.Broadcast | crates/lightr-cri-backend/src/stream_io.rs:67-76 | A live sink has received exactly the bytes sent since it registered, a pruned one a first part of them |
| LogTee.Sinks.Register | crates/lightr-cri-backend/src/stream_io.rs:79-88 | A new sink starts with nothing and counts from the bytes already sent |
| Base64.DecodeInverts | scripts/si00/schema_reference.py:43-43 | Decoding undoes the canonical encoding (section 4 of RFC 4648) |
| Base64.UnbaseExact | scripts/si00/schema_reference.py:40-47 | Accepts exactly the canonical encodings of byte strings up to the limit; the length test never turns one away |
| Base64.UnbaseWithDecode | scripts/si00/schema_reference.py:40-47 | With a decoder written out, so that the environment assumed of the codec exists: accepted exactly when it is the encoding of the bytes returned |
| RefRecord.PrefixFree | scripts/si00/schema_reference.py:49-70 | No record is a strict prefix of another, so the printer is injective |
| RefRecord.ParseInverts | scripts/si00/schema_checks.py:26-28 | Parsing inverts the printer |
| RefRecord.RecordsFit | scripts/si00/schema_reference.py:50-50 | Every printable record is within the length limit |
| RefRecord.ParseRefRecord | scripts/si00/schema_reference.py:49-70 | The cursor returns the one record that prints as the bytes, and rejects exactly the strings no record prints as |
| RefRecord.FrameTagsAreNotRecords | scripts/si00/schema_reference.py:17-17 | A byte string that starts like a frame tag is never a record |
| SchemaCodec.UnframeExact | scripts/si00/schema_reference.py:131-137 | Unframing succeeds exactly on the frames of bodies within the limit |
| SchemaCodec.DecodeExact | scripts/si00/schema_reference.py:131-151 | Accepts a byte string exactly when it is the frame of a body that parses and passes its check |
| SchemaCodec.DecodeFrame | scripts/si00/schema_reference.py:153-156 | Decoding a frame gives back the value of its body |
| SchemaCodec.FramesArePrefixFree | scripts/si00/schema_reference.py:131-151 | No accepted frame starts another accepted frame, and none is accepted under two kinds |
| SchemaCodec.FramesAreNotRecords | scripts/si00/schema_reference.py:17-17 | An accepted frame is never read as a reference record |
| SchemaCodec.EnvelopePublishesAfter | scripts/si00/schema_reference.py:122-128 | An accepted publishing record's envelope is the canonical text of one framed history with exactly its after pointers |
| SchemaSize.ReadyFits | scripts/si00/schema_reference.py:94-98 | A ready object that passes its check, printed compactly, fits its frame |
| SchemaSize.HistoryFits | scripts/si00/schema_reference.py:99-103 | A history that passes its check, printed compactly in any member order, fits its frame |
| SchemaSize.PendingFits | scripts/si00/schema_reference.py:104-129 | A pending record that passes its check, envelope included, fits its frame |
| SchemaSize.CheckedObjectsRoundTrip | scripts/si00/schema_checks.py:30-31 | An object of any kind that passes its check, printed compactly and framed, is accepted and decodes to itself |
| Estimator.ScanObjects | scripts/si01/resource_estimate.py:171-190 | Figures of the distinct objects, or a rejection that is deserved |
| Estimator.ScanMetadata | scripts/si01/resource_estimate.py:191-203 | Exact metadata totals over distinct names, or a deserved rejection |
| Estimator.PhysicalCost | scripts/si01/resource_estimate.py:209-213 | The checked loop returns the exact sum when it fits 64 bits and rejects exactly otherwise |
| Estimator.DomainEstimate | scripts/si01/resource_estimate.py:160-227 | Rejects, or returns the exact unbounded-integer costs over distinct rewrites, records and directories |
| Estimate.ReadPools | scripts/si01/resource_estimate.py:234-240 | Accepts exactly distinct, well-formed pools |
| Estimate.WithinBudget | scripts/si01/resource_estimate.py:243-249 | The running item count rejects exactly when the total exceeds the budget |
| Estimate.GroupPool | scripts/si01/resource_estimate.py:254-287 | Exact pool totals and comparisons, with absent figures for an unmeasured or incomplete pool, or a rejection exactly when a total exceeds 64 bits |
| Estimate.EstimateInventory | scripts/si01/resource_estimate.py:230-302 | Rejects exactly the unacceptable inventories; the report is a function of the sets listed |
| EstimateLaws.OrderDoesNotMatter | scripts/si01/resource_estimate.py:253-262 | Permuting the pools, the domains, and the objects and records inside each domain changes neither verdict nor any figure |
| EstimateLaws.RepetitionOnlyCostsBudget | scripts/si01/resource_estimate.py:181-183 | Repeating an object changes nothing exactly while the item budget holds, and is rejected past it |
| EstimateLaws.BudgetCanBeUsedUp | scripts/si01/resource_estimate.py:243-249 | An accepted inventory at the item budget whose repetition is rejected |
| EstimateLaws.ShortfallPersists | scripts/si01/resource_estimate.py:263-279 | A reported shortfall is still there, and no smaller, in every accepted extension of the inventory |
| EstimateLaws.CleanExactly | scripts/si01/resource_estimate.py:288-294 | Exit 0 exactly when every pool is measured, fully known and covered on every applicable axis |
| EstimateLaws.MissingQuotaIsNeverClean | scripts/si01/resource_estimate.py:264-276 | A pool whose quota is unknown keeps the verdict from ever being clean |
| CapacityObservation.DecodeCounters | scripts/si01/resource_capacity.py:63-93 | Accepts exactly consistent counters, and gives the free axes they determine and no quota |
| CapacityObservation.ObserveDirectory | scripts/si01/resource_capacity.py:96-178 | Observed exactly when every phase passes, and then with the capacity the counters read determine; otherwise the first error is the first failing phase's, status and exit code follow it; the descriptor is closed once exactly if it was opened |
| CapacityObservation.EstimateObserved | scripts/si01/resource_capacity.py:173-176 | An inventory using an observed capacity never exits 0 |
| JsonDepth.ReadAll | scripts/si01/resource_estimate.py:91-100 | The read loop returns the same bytes for any split into short reads, and rejects exactly oversized input |
| JsonDepth.DepthAllowed | scripts/si01/resource_estimate.py:103-119 | The loop accepts exactly when the scanner's peak depth over the whole input is within the limit |
| JsonDepth.RunValue | scripts/si01/resource_estimate.py:103-119 | Over the text of any value the scanner returns to its state, its peak raised by exactly the value's nesting |
| JsonDepth.DocumentDepth | scripts/si01/resource_estimate.py:101-119 | For every document the scan ends unquoted at depth 0 and passes exactly when the value nests at most 16 deep |
| ConsoleScanner.Tap.OnReadable | crates/lightr-engine/shim/vz.swift:359-380 | One callback forwards the chunk and moves the scanner by the chunk function |
| ConsoleScanner.Tap.Deliver | crates/lightr-engine/shim/vz.swift:357-380 | A sequence of callbacks is the fold of the chunk function, and everything is forwarded |
| ConsoleScanner.BufferIsBounded | crates/lightr-engine/shim/vz.swift:379-379 | The retained buffer never exceeds 16384 bytes |
| ConsoleScanner.NoMarkerNoCode | crates/lightr-engine/shim/vz.swift:365-365 | A stream without a marker captures nothing, however it is cut |
| ConsoleScanner.EveryChunkingCaptures | crates/lightr-engine/shim/vz.swift:359-380 | Near enough, every chunking captures exactly the first marker's code with the chunk that brings the line end |
| ConsoleScanner.FarLineIsLost | crates/lightr-engine/shim/vz.swift:379-379 | Too far, a cut just before the line end loses the code |
| ConsoleScanner.CapturedByEveryChunkingIff | crates/lightr-engine/shim/vz.swift:357-380 | Every chunking captures the code if and only if the line ends within 2048 bytes of the marker or within the first 16384 |
| ConsoleLimits.CodeCanBeLost | crates/lightr-engine/shim/vz.swift:379-379 | A stream of 18447 bytes with a code too far from its marker, and the cut that loses it |
| ConsoleLimits.CapturedIff | crates/lightr-engine/shim/vz.swift:359-380 | For every stream, the codes some cut captures are exactly the codes on show from its beginning or from a place where a chain of trims can leave the buffer |
| ConsoleLimits.NothingCapturedIff | crates/lightr-engine/shim/vz.swift:359-380 | When the whole stream shows no code: no cut captures one exactly when no code is on show from any place one trim can leave the buffer |
| ConsoleLimits.StrayCodeCanBeCaptured | crates/lightr-engine/shim/vz.swift:379-379 | For any code a line can hold: a stream whose first marker line is not a number and a cut that captures that code from a later line |
| ConsoleLimits.ContractIff | crates/lightr-engine/shim/vz.swift:435-445 | After a clean stop, for every stream: every cut keeps the result's documented meaning exactly when every code on show from such a place is 0 to 255 |
| ConsoleLimits.StrayContractIff | crates/lightr-engine/shim/vz.swift:435-445 | When the whole stream shows no code, the places to look at are those one trim can reach |
| ConsoleLimits.NearContractIff | crates/lightr-engine/shim/vz.swift:435-445 | When the first marker line is near enough, only its own code decides |
| ConsoleLimits.StrayCodeCanBreakIt | crates/lightr-engine/shim/vz.swift:435-445 | A stream whose whole search finds no code, and a cut for which 300 is returned |
| ConsoleLimits.CodeCanPassForNone | crates/lightr-engine/shim/vz.swift:435-445 | A guest that prints -2 gives the result for no marker |
| HealthCheck.HealthState.Record | crates/lightr-run/src/healthcheck.rs:117-137 | After every history the streak is the saturated trailing failures and the status is the verdict on the whole history |
| HealthCheck.RecordedVerdict | crates/lightr-run/src/healthcheck.rs:117-137 | How one more round changes the whole-history verdict |
| HealthCheck.DocumentedRuleExactly | crates/lightr-run/src/healthcheck.rs:84-91 | Exactly when the code meets the documented rule that start-period failures never count |
| HealthCheck.GraceFailuresCount | crates/lightr-run/src/healthcheck.rs:123-136 | A history on which it does not |
| HealthCheck.Probe | crates/lightr-run/src/healthcheck.rs:225-233 | Stops at the first success, and its verdict is the machine's verdict on the attempts made |
| Benchmark.ValidateSpec | benchmarks/runner/src/spec.rs:79-160 | Accepts exactly specifications with distinct ids and acceptable scenarios, and otherwise stops at the first that spoils them |
| Benchmark.RunChunk | benchmarks/runner/src/run.rs:64-100 | A chunk's nested loops write the keys of every total-th scenario in order |
| Benchmark.EveryKeyOnce | benchmarks/runner/src/spec.rs:122-129 | Over all chunks, for any chunk count, every expected key is written exactly once |
| Benchmark.ValidateRecords | benchmarks/scripts/validate_contract.py:158-217 | Silent exactly when every record is good and the keys are the expected ones, each once |
| Benchmark.RunnersSatisfyTheValidator | benchmarks/runner/src/run.rs:64-100 | What the chunk runners of a valid specification write, for any chunk count and in any order, leaves the validator silent exactly when every record is good |
| Benchmark.CheckRecords | benchmarks/scripts/validate_contract.py:165-204 | The record loop is silent exactly when all records are good with distinct keys |
| Benchmark.CheckMissing | benchmarks/scripts/validate_contract.py:206-216 | The scenario loop is silent exactly when every expected key was seen |
| Benchmark.ExpectedCount | benchmarks/scripts/validate_contract.py:206-216 | Two expected keys per round of a supported scenario, one for any other |
| Benchmark.AcceptedCount | benchmarks/scripts/validate_contract.py:158-217 | Accepted evidence has exactly that many records |

## Left out

- CriBackend.LightrBackend.StopContainer: promises nothing of the record when the wait ran into its deadline, because a re-adopted survivor has no reaper; the code does not return that answer.
- CriBackend.LightrBackend.StartContainer: the errors before the intent is recorded (log file, plan, pipe) are one outcome, `PlanFailed`, and which of the outcomes after the state check occurs is up to the environment.
- CriBackend.LightrBackend.StopSignal: leaves out the branch for a Running record without a process, which `DefensiveStopIsDead` proves unreachable; the step machine keeps it.
- LogTee.Tee.Run: log writes succeed; a failed write, which the code ignores, is not modelled, nor is a container without a log file.
- SchemaCodec.DecodeExact: hashing, JSON parsing, UTF-8 and the base64 library are functions of the environment, with only the facts needed: a hash is 32 bytes and the decoder undoes the encoder.
- SchemaSize.CheckedObjectsRoundTrip: that the parser reads back the compact text, and that the printer keeps plain characters, are hypotheses, since both belong to the library.
- JsonDepth.DocumentDepth: the tree admits every JSON document and some text that is not JSON, since what stands between values is only required to hold no quote or bracket.
- Estimator.DomainEstimate: values are already typed; label and digest syntax, negative numbers and unknown fields are rejected before this model.
- CapacityObservation.ObserveDirectory: each phase answers with a value or an exception of the classes the code catches; any other exception propagates and is not modelled.
- Benchmark.ValidateRecords: the field-by-field record check is a count of errors, positive for a record with a missing field.
- Benchmark.RunChunk: the keys written, not the measurements; a run that aborts midway is not modelled.
- Overlapping mutating calls on one pod, and failed rather than crashed persists or unlinks.
- Signals, cgroup, namespace and terminal system calls, network plugins, exec and attach sessions.
- Status and list queries, image plane, command line, packaging: field copies and plumbing.
- The inventory hash and the evidence-reference fields of the estimate report.
- Statistics of the benchmark runner.
