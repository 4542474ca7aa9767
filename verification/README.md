# SHER Graphics: a verified model of the submission stack

These modules model how SHER Graphics takes an application's command stream to a GPU and keeps one
context's trouble from another: the runtime's object tables, capability gates and timelines
(`crates/graphics_runtime`), the two GPU drivers and the render-thread protocol behind one of them
(`crates/gpu_abstraction`), and the offscreen clear that talks to Vulkan (`crates/vulkan_backend`).
`dafny verify dfyconfig.toml` checks everything.

## How it is laid out

- `Common`, `GraphicsApi`, `Ledger`, `Allocations`: ids, machine widths, object types, sums over tables.
- `CommandStreams`: `validate_stream` and `translate_ops` against a machine that executes streams.
- `GpuDriver`: the `GpuDriver` trait as a contract on values, with conservation and independence of GPUs.
- `SoftwareDriver`, `VulkanDriver`: the two implementations as classes, each proved an instance of the contract.
- `RenderThread`, `ThreadProtocol`: the command queue, the worker, and the refinement to an atomic driver.
- `SharedRenderThread`: what one render thread for all GPUs does to keeping them apart.
- `DriverEquivalence`, `HealthyBackend`: the bisimulation of the two drivers, down to the thread, and `FallbackDriver`.
- `RuntimeCore`: `GraphicsRuntime` as a class; `Step` is the whole effect of each operation.
- `RuntimeInvariants`, `RuntimeHistories`, `RuntimeContainment`: what every operation keeps, and what
  holds over whole runs.
- `RuntimeOutcomes`: exactly when each operation succeeds, what a success adds, and where faults come from.
- `RuntimeOverDrivers`, `RuntimeOverThread`: runs of the runtime over the concrete drivers, and over
  the render thread in any interleaving.
- `RuntimeWitnesses`: short runs that show where the code falls short.
- `VulkanDevice`: a Vulkan device whose preconditions are rules of the Vulkan 1.3 specification for
  each call ('Command Buffer Lifecycle', section 6.1; 'Lost Device', section 5.2.3; 'Image Layouts',
  section 12.4): liveness of every handle and of the memory behind it, command-buffer states, layouts,
  fences, mapping.
- `OffscreenRender`: acquire, record, submit, read back, release over that device, so each call site is
  proved to keep those rules.

A driver method or runtime method is proved to have exactly the effect of a specification function
(`Step`, `Apply`) on the whole state; the lemmas are about those functions and about runs of them.

## What the code does where its documentation says otherwise

- README.md:18 promises that one context's failure does not take down others. The bookkeeping keeps that
  across GPUs only: a fault blocks every context of its GPU (`FailureBlocksExactlyItsGpu`,
  `PanicTakesDownAnother`). Over `VulkanDriver` not even that holds for a backend panic: one render thread
  serves every GPU, and when it is gone so is submission on all of them (`PanicEndsEveryGpu`,
  `RequestCanSucceedIff`, `PanicOnOneGpuFailsTheOther`).
- README.md:19 promises that `recover_device` hot-restarts a device whose driver panicked. The render thread
  is never restarted, so after a backend panic no recovery succeeds (`NothingRecoversFromPanic`,
  `PanickedDeviceIsNotRecovered`).
- `recover_device` drops a device's resources without freeing their VRAM, which no later operation
  gives back (`StrandedGrowsOnlyByRecovery`, `RecoveryReturnsVramIff`, `RecoveryStrandsBytes`).
- Every `BindPipeline` and `BindResource` must be on the stream's device, but a `Copy` is checked for
  existence only (`ConfinedIffCopiesAre`, `ForeignCopyIsAccepted`).
- `create_pipeline` does not check that the shader is the device's own, so recovering the shader's device
  leaves a live pipeline without one (`ShaderSurvivesIff`, `PipelineOutlivesShader`).
- An image of 2^64 bytes or more gets a shorter allocation (`BackedByItsWholeSizeIff`), and its readback
  buffer is shorter than the copy into it (`BufferCoversImageIff`, the `overrun` clause of `RenderClearToOffscreen`).
- The software driver's device addresses are sound only for last-in-first-out frees
  (`AddressesSoundIffLastInFirstOut`, `FirstInFirstOutOverlaps`); the Vulkan driver's until 2^64 bytes were
  ever allocated (`AddressesNeverOverlap`, `NextAddressIsSoundIff`, `AddressesOverlapAfterWrap`).
- Destroying fence, pool and buffers after a failed fence wait is safe only if the failure means that
  the device is lost; after any other failure the work may still be pending (the `misused` clause of
  `RenderClearToOffscreen`).

## Assumptions

- `usize` is 64 bits, and arithmetic wraps as in the release profile.
- `ObjectId::new()` never returns an id twice: ids are parameters, required to be outside the ghost set `used`.
- A `CapabilitySet` is the set of capabilities it grants; the audit log is an append-only sequence.
- Both channels are atomic first-in-first-out queues, and dropping a receiver drops all that is queued.
  On a backend panic the reply sender may go before the receiver does: that is the `Dying` worker.
- A driver that panics in `submit` has not changed its VRAM ledger; `driver_mut` is used to inject and
  clear faults only.
- `accepted`, `calls`, `served`, `asked` and `log` are history variables that the source does not keep.
- What a driver, a backend or a Vulkan call answers is a parameter, and every theorem is for all answers
  unless it says otherwise.
- A submit or reset settled without the thread is logged with an answer that is never consulted.
- Bit masks are sets of bits, the Vulkan driver's device list is a set where it is only searched, and the
  conversion of a colour channel to a byte is a parameter.

The table below starts with the main results; the operations and the steps behind them follow.

## Model

| member | source | states |
|---|---|---|
| `RuntimeOverThread.BackendExecutesTheSubmits` | crates/graphics_runtime/src/lib.rs:622-628 | end to end, whatever the interleaving, the backend has executed exactly the translations of the runtime's successful submits, once each and in order |
| `RuntimeOverThread.ThreadCarriesTheRun` | crates/gpu_abstraction/src/vulkan.rs:399-457 | a runtime run over any interleaving of caller and render thread: the driver shows what the run says, and the result that came back through the thread decides each reply |
| `RuntimeOverThread.NothingRecoversFromPanic` | crates/graphics_runtime/src/lib.rs:368-382 | once the backend has panicked no submit of any context on any GPU succeeds, and no recovery does |
| `ThreadProtocol.EveryInterleavingIsAtomic` | crates/gpu_abstraction/src/vulkan.rs:288-457 | every interleaving of caller and render thread is matched by a run of a driver that calls the backend directly: same tables, results and backend calls |
| `ThreadProtocol.CallsAreSequential` | crates/gpu_abstraction/src/vulkan.rs:288-457 | in every reachable state between calls there is a cut, the end of the log while the worker lives: before it every submit or reset that had to ask met a live backend exactly once and was answered as that call ended; after it none did; the backend calls are just these, in order, and a panic is the last |
| `ThreadProtocol.EntriesMean` | crates/gpu_abstraction/src/vulkan.rs:399-457 | in any run, every logged submit that reached the backend succeeded iff the backend call did and left a fault iff that call lost the device or panicked, the lost device's own text at address 0; a reset cleared the fault iff it succeeded |
| `ThreadProtocol.GoneForever` | crates/gpu_abstraction/src/vulkan.rs:408-427 | once the worker is gone every submit and reset fails, for ever, and the backend is never called again |
| `ThreadProtocol.HeldCallerProgresses` | crates/gpu_abstraction/src/vulkan.rs:408-427 | a blocked or joining caller is never stuck, and every possible move brings its release closer |
| `ThreadProtocol.HeldBriefly` | crates/gpu_abstraction/src/vulkan.rs:464-471 | no call and no drop holds its caller for more than seven moves |
| `SharedRenderThread.PanicEndsEveryGpu` | crates/gpu_abstraction/src/vulkan.rs:295-313 | after a backend panic no submit and no reset succeeds, on any device, and the backend is not called again |
| `SharedRenderThread.RequestCanSucceedIff` | crates/gpu_abstraction/src/vulkan.rs:399-457 | a submit to an unfaulted device, or a reset of a known one, can still succeed exactly while the worker is not gone |
| `DriverEquivalence.DriversAgree` | crates/gpu_abstraction/src/vulkan.rs:345-462 | over a backend that never fails, both drivers give the same results, free VRAM, faults and allocations for every call sequence |
| `HealthyBackend.HealthyThreadIsSoftware` | crates/gpu_abstraction/src/vulkan.rs:288-462 | in any interleaving over such a backend, a software driver opened on the same devices gives every result the Vulkan driver gave, and shows the same VRAM, faults and allocations |
| `RuntimeOverDrivers.FallbackCarriesTheRun` | crates/graphics_runtime/src/lib.rs:466-474 | a run over FallbackDriver: whichever driver won stays, shows the run's driver, and its results decide the replies |
| `RuntimeOverDrivers.VulkanCarriesTheRun` | crates/graphics_runtime/src/lib.rs:455-464 | a whole run of the runtime, lost devices and caught panics included, is carried by the Vulkan driver: its tables show the run's driver and its results decide the replies |
| `RuntimeOverDrivers.EitherDriverCarriesTheRun` | crates/graphics_runtime/src/lib.rs:466-474 | a run over drivers that do not fail is carried by either driver alike: same view, and the results of both decide the same replies |
| `GpuDriver.HistoryConserves` | crates/gpu_abstraction/src/lib.rs:253-326 | over any call history, free plus outstanding VRAM is the GPU's total |
| `GpuDriver.GpusDoNotInterfere` | crates/gpu_abstraction/src/lib.rs:130-167 | after any history, one GPU's VRAM, fault, allocations, batches and next results are those of the history filtered to it |
| `SoftwareDriver.AddressesSoundIffLastInFirstOut` | crates/gpu_abstraction/src/lib.rs:253-282 | from a tiled device, a free leaves every next allocation clear of live ranges iff it frees the topmost allocation or an empty one |
| `SoftwareDriver.LastInFirstOutTiles` | crates/gpu_abstraction/src/lib.rs:253-282 | over any run with last-in-first-out frees, live ranges tile [0, used): disjoint, below used, without a gap |
| `VulkanDriver.AddressesNeverOverlap` | crates/gpu_abstraction/src/vulkan.rs:346-385 | while at most 2^64 bytes were ever allocated on a device, its live ranges never overlap, whatever the order of frees |
| `VulkanDriver.NextAddressIsSoundIff` | crates/gpu_abstraction/src/vulkan.rs:353-370 | every allocation the driver would make next keeps live ranges apart, as ranges of 64-bit addresses, iff none meets the addresses the free VRAM spans from the next address |
| `DriverEquivalence.AddressesAgreeUntilFirstFree` | crates/gpu_abstraction/src/vulkan.rs:360-368 | both drivers hand out equal addresses until a non-empty allocation is freed |
| `RuntimeInvariants.StepKeepsCoupled` | crates/graphics_runtime/src/lib.rs:476-652 | every operation keeps grants and devices in step, every object on a live device, and every live resource an allocation of its size on its device's GPU |
| `RuntimeInvariants.FailureChangesNothing` | crates/graphics_runtime/src/lib.rs:368-382 | an operation that fails changes only the audit log and, for a submit, its own GPU's fault |
| `RuntimeInvariants.FreeSucceedsIffLive` | crates/graphics_runtime/src/lib.rs:248-253 | free_resource succeeds exactly for a live resource |
| `RuntimeInvariants.StrandedGrowsOnlyByRecovery` | crates/graphics_runtime/src/lib.rs:376-380 | stranded VRAM never comes back and grows only by a successful recovery, by exactly the recovered device's resources |
| `RuntimeInvariants.RecoveryReturnsVramIff` | crates/graphics_runtime/src/lib.rs:374-381 | recovery frees nothing: the GPU has all its VRAM free afterwards iff none was in use before |
| `RuntimeHistories.RunAccountsForVram` | crates/graphics_runtime/src/lib.rs:368-540 | over any run: total = free + live resources + stranded at the start + resources of every device recovered on that GPU since |
| `RuntimeHistories.TimelinesAreHistory` | crates/graphics_runtime/src/lib.rs:512-636 | a timeline's value is the last value successfully signalled on it, or 0, and those values strictly increase |
| `RuntimeHistories.WaitIsHistory` | crates/graphics_runtime/src/lib.rs:638-651 | wait(t, v) succeeds iff t exists and v is 0 or some successful submit signalled at least v |
| `RuntimeHistories.WaitStaysTrue` | crates/graphics_runtime/src/lib.rs:638-651 | a wait that succeeds once succeeds for ever, through failures and recoveries |
| `RuntimeHistories.AuditIsHistory` | crates/graphics_runtime/src/lib.rs:605-611 | the audit log is exactly a function of the history: one entry per creation, recovery and class-matching submit of a registered device, with its verdict |
| `RuntimeHistories.AcceptedIsHistory` | crates/graphics_runtime/src/lib.rs:593-629 | the driver accepted exactly the translations of the successful submits, once each, in order, on their devices' GPUs |
| `RuntimeHistories.AcceptedMeansExecuted` | crates/graphics_runtime/src/lib.rs:622-625 | each accepted batch is a whole, safe execution of its stream, erased to driver ops |
| `RuntimeHistories.DevicesAreHistory` | crates/graphics_runtime/src/lib.rs:477-510 | the device table and its grants are exactly what the history of creations and recoveries says |
| `RuntimeOutcomes.SubmitSucceedsIff` | crates/graphics_runtime/src/lib.rs:593-629 | a submit succeeds exactly when classes match, submission was granted, the timeline moves forward, the stream executes to its end, the GPU has no fault and the driver accepts; a security error exactly when only the grant is missing at that point |
| `RuntimeOutcomes.CreateResourceMakes` | crates/graphics_runtime/src/lib.rs:523-540 | made on a live device exactly when the bytes of all its channels, modulo 2^64, fit in its GPU's free VRAM; then just that much is taken in its name |
| `RuntimeOutcomes.RunKeepsQueues` | crates/graphics_runtime/src/lib.rs:489-506 | in every reachable state every device has exactly one queue of each workload class, with ids of their own |
| `RuntimeOutcomes.FaultHasACause` | crates/graphics_runtime/src/lib.rs:331-436 | over any run, a fault on a GPU that was healthy was brought by one of those since |
| `RuntimeOutcomes.FaultIsBrought` | crates/graphics_runtime/src/lib.rs:417-436 | a healthy GPU gets a fault exactly by an admin's injection, a caught panic or a lost device on it, and exactly that fault |
| `RuntimeContainment.FaultsAreContained` | crates/graphics_runtime/src/lib.rs:593-629 | from a fault until an admin clears it, no submission of any device on that GPU succeeds or moves a timeline |
| `RuntimeContainment.FaultClearedIff` | crates/graphics_runtime/src/lib.rs:331-382 | a fault goes away exactly by an operation that presents GpuAdmin and clears it |
| `RuntimeContainment.FailureBlocksExactlyItsGpu` | crates/graphics_runtime/src/lib.rs:384-436 | in the bookkeeping, after a submission that panics or loses its device, another whose driver answers it as before still succeeds iff it is for another GPU |
| `RuntimeContainment.RecoveredIdIsDead` | crates/graphics_runtime/src/lib.rs:350-353 | a recovered device's id is rejected by every later operation, in every continuation |
| `RuntimeContainment.ShaderSurvivesIff` | crates/graphics_runtime/src/lib.rs:379-380 | after a recovery a surviving pipeline's shader is live iff it was not the recovered device's |
| `RuntimeContainment.RunKeepsShadersLive` | crates/graphics_runtime/src/lib.rs:573-591 | while every pipeline is made from a shader of its own device, which create_pipeline does not check, every live pipeline's shader is live |
| `RuntimeContainment.StreamStaysIff` | crates/graphics_runtime/src/lib.rs:57-104 | an accepted stream stays accepted across an operation iff it takes away nothing the stream names |
| `RuntimeContainment.RunKeepsStream` | crates/graphics_runtime/src/lib.rs:57-104 | over any run that takes away nothing it names, an accepted stream stays accepted |
| `RuntimeContainment.StreamSurvivesRecoveryIff` | crates/graphics_runtime/src/lib.rs:376-380 | an accepted stream of another device survives a recovery iff none of its copies names a resource of the recovered one |
| `CommandStreams.ExecutesIffAccepted` | crates/graphics_runtime/src/lib.rs:57-104 | the checker's rules are sound and complete for the executing machine, which is deterministic |
| `CommandStreams.AcceptedIffWellFormed` | crates/graphics_runtime/src/lib.rs:50-104 | the accepted streams in closed form: everything named is there, what is bound is the device's own, every draw and dispatch comes after some bind, and nothing else is asked |
| `CommandStreams.ValidateStream` | crates/graphics_runtime/src/lib.rs:57-104 | the loop answers Ok exactly for streams that execute to the end without sticking, and a device error otherwise |
| `CommandStreams.TranslationPreservesMeaning` | crates/graphics_runtime/src/lib.rs:106-135 | the driver ops of an executable stream are exactly what its execution does, in order, arguments kept |
| `CommandStreams.ConfinedIffCopiesAre` | crates/graphics_runtime/src/lib.rs:93-99 | an accepted stream stays on its own device exactly when its copies do, which are checked for existence only |
| `CommandStreams.StaysAcceptedIff` | crates/graphics_runtime/src/lib.rs:57-104 | while table entries are only added and removed, an accepted stream stays accepted iff all it names is still there |
| `OffscreenRender.RenderClearToOffscreen` | crates/vulkan_backend/src/lib.rs:271-363 | a device exists iff every earlier check passed, dies last with nothing alive; the error is decided by the first step to fail, a lost device iff a Vulkan call said so; work is pending at a destroy iff the fence wait failed with the device not lost; a success is width*height copies of the converted colour if the byte count fits in 64 bits |
| `OffscreenRender.ErrorIsWhatFailed` | crates/vulkan_backend/src/lib.rs:117-125 | the first of all steps to fail, as it came from outside, decides the error: a lost device iff it is a Vulkan call that says so, a Vulkan error iff it is one that fails otherwise, no suitable device iff a search found nothing, invalid dimensions iff one was zero |
| `OffscreenRender.RenderClearInner` | crates/vulkan_backend/src/lib.rs:366-695 | on every return path every created handle has been destroyed, once |
| `GraphicsApi.ResourceSizeIsIdealModulo` | crates/graphics_runtime/src/lib.rs:29-48 | the size asked of the driver is the bytes of all channels of all texels modulo 2^64, for every format and whatever order the `usize` products wrap in |
| `GraphicsApi.TexelHoldsItsChannels` | crates/graphics_runtime/src/lib.rs:29-35 | for every format, the bytes of a texel are the bits of all its channels |
| `GraphicsApi.BackedByItsWholeSizeIff` | crates/graphics_runtime/src/lib.rs:37-48 | a resource is backed by its whole size exactly when its byte count fits in 64 bits |
| `GraphicsApi.OversizedImageGetsNothing` | crates/graphics_runtime/src/lib.rs:37-48 | a 2^31 by 2^31 RGBA8 image needs 2^64 bytes and asks for none |
| `CommandStreams.AcceptedRun` | crates/graphics_runtime/src/lib.rs:57-104 | an accepted stream has an execution to its end, with the events and final binding its ops spell |
| `CommandStreams.FinishedWasAccepted` | crates/graphics_runtime/src/lib.rs:57-104 | any execution that reaches the end was of an accepted stream and could do nothing else |
| `CommandStreams.OneOpTranslates` | crates/graphics_runtime/src/lib.rs:112-135 | each op becomes the one driver op of its name with the same arguments, or none if it binds |
| `CommandStreams.TranslationErases` | crates/graphics_runtime/src/lib.rs:112-135 | from any binding state, the driver ops are the events with the pipeline forgotten |
| `CommandStreams.ExecutionIsSafe` | crates/graphics_runtime/src/lib.rs:50-104 | every executed draw and dispatch has a live pipeline of the stream's device, every copy live resources |
| `CommandStreams.ForeignCopyIsAccepted` | crates/graphics_runtime/src/lib.rs:93-99 | a copy between any two resources of another device is accepted and executes |
| `CommandStreams.AcceptsComposes` | crates/graphics_runtime/src/lib.rs:62-104 | a concatenation is accepted iff the first part is, and the second is from the binding the first leaves |
| `CommandStreams.TranslationComposes` | crates/graphics_runtime/src/lib.rs:112-135 | translation distributes over concatenation |
| `GpuDriver.ApplyConserves` | crates/gpu_abstraction/src/lib.rs:253-282 | every driver call keeps total = free + outstanding on every GPU |
| `GpuDriver.CreditNeverWraps` | crates/gpu_abstraction/src/lib.rs:275-282 | crediting an allocation back never overflows 64 bits |
| `GpuDriver.FreeIsExact` | crates/gpu_abstraction/src/lib.rs:275-282 | a free succeeds iff the id is allocated, credits its size exactly, and otherwise changes nothing: the error after the removal is unreachable |
| `GpuDriver.FailedCallKeepsLedger` | crates/gpu_abstraction/src/lib.rs:253-326 | a failing driver call changes no allocation, no free VRAM and no accepted batch |
| `GpuDriver.CallSucceedsIff` | crates/gpu_abstraction/src/lib.rs:253-326 | exactly when each driver call succeeds, and with which class of error it fails |
| `GpuDriver.FaultAfterCall` | crates/gpu_abstraction/src/lib.rs:296-325 | the fault of a GPU after any call, and which one it is |
| `GpuDriver.UntouchedSlice` | crates/gpu_abstraction/src/lib.rs:130-133 | a call on another GPU leaves everything about this one as it was |
| `GpuDriver.TouchedSlice` | crates/gpu_abstraction/src/lib.rs:253-326 | a call on a GPU sees and changes that GPU's slice of the driver only |
| `SoftwareDriver.SoftwareGpuDriver.WithDevices` | crates/gpu_abstraction/src/lib.rs:133-167 | every listed device starts with its own full pool and no fault, and nothing is allocated |
| `SoftwareDriver.SoftwareGpuDriver.AllocateVram` | crates/gpu_abstraction/src/lib.rs:253-273 | succeeds iff the device is known and the size fits; then debits, records and returns the allocation at total minus free; else the error and nothing |
| `SoftwareDriver.SoftwareGpuDriver.FreeVram` | crates/gpu_abstraction/src/lib.rs:275-282 | the whole next state and answer of a free, removing the entry first and crediting after |
| `SoftwareDriver.SoftwareGpuDriver.Submit` | crates/gpu_abstraction/src/lib.rs:296-308 | fails for an unknown or faulted device, and otherwise accepts the batch |
| `SoftwareDriver.SoftwareGpuDriver.FaultStatus` | crates/gpu_abstraction/src/lib.rs:310-312 | the recorded fault of a known device, or a device error |
| `SoftwareDriver.SoftwareGpuDriver.InjectFault` | crates/gpu_abstraction/src/lib.rs:186-199 | records the fault of a known device, and does nothing for an unknown one |
| `SoftwareDriver.SoftwareGpuDriver.ClearFault` | crates/gpu_abstraction/src/lib.rs:201-205 | clears the fault of a known device, and does nothing for an unknown one |
| `SoftwareDriver.SoftwareGpuDriver.ResetDevice` | crates/gpu_abstraction/src/lib.rs:318-321 | clears a known device's fault; an unknown device is an error |
| `SoftwareDriver.SoftwareGpuDriver.MarkFaulted` | crates/gpu_abstraction/src/lib.rs:323-325 | records a fault at address 0 |
| `SoftwareDriver.StepRefinesContract` | crates/gpu_abstraction/src/lib.rs:252-326 | the software driver is the instance of the trait's contract that never refuses, never loses a device and always resets |
| `SoftwareDriver.OtherFreeBreaks` | crates/gpu_abstraction/src/lib.rs:263-282 | freeing a non-empty allocation that is not on top makes the driver hand out addresses still in use |
| `SoftwareDriver.FirstInFirstOutOverlaps` | crates/gpu_abstraction/src/lib.rs:253-282 | a run from a newly opened driver, freeing first in first out, that lays an allocation over a live one |
| `SoftwareDriver.OpenedIsTiled` | crates/gpu_abstraction/src/lib.rs:133-167 | a newly opened device is tiled |
| `RenderThread.RequestIsPending` | crates/gpu_abstraction/src/vulkan.rs:288-292 | a request is outstanding at once if the receiver exists, and otherwise is refused and leaves no one waiting |
| `RenderThread.QuietStays` | crates/gpu_abstraction/src/vulkan.rs:295-313 | with no request outstanding the worker never calls the backend and never leaves a caller waiting |
| `RenderThread.PendingStays` | crates/gpu_abstraction/src/vulkan.rs:295-313 | whatever the worker does, an outstanding request is queued, executing, answered with its own outcome, or abandoned |
| `RenderThread.ClosingStays` | crates/gpu_abstraction/src/vulkan.rs:309-313 | after Shutdown is sent the worker calls the backend no more |
| `RenderThread.RequestProgresses` | crates/gpu_abstraction/src/vulkan.rs:295-313 | while a reply is outstanding the worker can move, and every move brings the reply closer |
| `VulkanDriver.VulkanGpuDriver.constructor` | crates/gpu_abstraction/src/vulkan.rs:237-252 | every device starts with its full pool, next address 0 and no fault; the worker has just been spawned |
| `VulkanDriver.VulkanGpuDriver.WithBackend` | crates/gpu_abstraction/src/vulkan.rs:199-253 | opens iff adapters can be listed, there is one, and a thread can be spawned; otherwise a device error |
| `VulkanDriver.VulkanGpuDriver.AllocateVram` | crates/gpu_abstraction/src/vulkan.rs:346-372 | succeeds iff the device is known and the size fits; then bumps the device's next address, debits, records and returns the allocation |
| `VulkanDriver.VulkanGpuDriver.FreeVram` | crates/gpu_abstraction/src/vulkan.rs:374-385 | the whole next state and answer of a free; the next address does not come back |
| `VulkanDriver.VulkanGpuDriver.WorkerMoves` | crates/gpu_abstraction/src/vulkan.rs:295-313 | the worker moving on its own between calls keeps it quiet |
| `VulkanDriver.VulkanGpuDriver.RequestAndWait` | crates/gpu_abstraction/src/vulkan.rs:408-427 | the blocking call ends under every scheduling; an answer means one backend call, of this work; no answer means the worker is gone and at most a panicking call was made |
| `VulkanDriver.VulkanGpuDriver.Submit` | crates/gpu_abstraction/src/vulkan.rs:399-428 | at most one backend call, of these ops; Ok iff it succeeded; a fault is left iff it lost the device or panicked, or the thread stopped with the command queued; a gone worker means Err and no backend call |
| `VulkanDriver.VulkanGpuDriver.ResetDevice` | crates/gpu_abstraction/src/vulkan.rs:442-457 | at most one backend reset; Ok, and the fault cleared, iff it succeeded; a gone worker means Err and no backend call |
| `VulkanDriver.VulkanGpuDriver.RecordFaultOn` | crates/gpu_abstraction/src/vulkan.rs:275-286 | records a fault for a known device and does nothing for an unknown one |
| `VulkanDriver.VulkanGpuDriver.MarkFaulted` | crates/gpu_abstraction/src/vulkan.rs:459-461 | records a fault at address 0 |
| `VulkanDriver.VulkanGpuDriver.FaultStatus` | crates/gpu_abstraction/src/vulkan.rs:430-433 | the recorded fault of a known device, or a device error |
| `VulkanDriver.StepKeepsValid` | crates/gpu_abstraction/src/vulkan.rs:345-462 | the device list and the three per-device tables stay in step |
| `VulkanDriver.StepRefinesContract` | crates/gpu_abstraction/src/vulkan.rs:345-462 | the Vulkan driver is an instance of the trait's contract, whatever the render thread answers |
| `VulkanDriver.NextAddressIsEverAllocated` | crates/gpu_abstraction/src/vulkan.rs:360-368 | a device's next address is the number of bytes ever allocated on it, modulo 2^64 |
| `VulkanDriver.StepKeepsApart` | crates/gpu_abstraction/src/vulkan.rs:346-385 | one call keeps live ranges disjoint and below the bytes ever allocated |
| `VulkanDriver.AddressesOverlapAfterWrap` | crates/gpu_abstraction/src/vulkan.rs:360-368 | a run in which three bytes from 2^64 - 1 on wrap onto a live allocation at 0 |
| `Allocations.OverlapIff` | crates/gpu_abstraction/src/vulkan.rs:361-368 | two ranges of 64-bit addresses share one iff both are non-empty and one starts inside the other, modulo 2^64 |
| `ThreadProtocol.MoveKeepsInv` | crates/gpu_abstraction/src/vulkan.rs:288-313 | every move of caller or worker keeps the request accounted for |
| `ThreadProtocol.MoveIsAtomic` | crates/gpu_abstraction/src/vulkan.rs:288-313 | every move of the interleaved system is one step of the atomic driver, or none |
| `ThreadProtocol.ReadyShowsItself` | crates/gpu_abstraction/src/vulkan.rs:399-457 | between calls, what the atomic driver shows is what the real one holds |
| `ThreadProtocol.AtomicRunKeepsInv` | crates/gpu_abstraction/src/vulkan.rs:399-457 | over any run of the atomic driver, the log replays to its tables with one cut where the backend went, accounts for its backend calls, and nothing follows a panic |
| `ThreadProtocol.AnsweredLeaves` | crates/gpu_abstraction/src/vulkan.rs:414-421 | the answer the blocked caller picks up decides the result and the fault its submit leaves |
| `ThreadProtocol.DroppedReplyLeavesFault` | crates/gpu_abstraction/src/vulkan.rs:422-426 | a dropped reply sender leaves a fault, whether the backend panicked or was never called |
| `ThreadProtocol.RefusedCommandLeavesNoFault` | crates/gpu_abstraction/src/vulkan.rs:409-412 | a command that cannot be queued any more fails and leaves no fault |
| `ThreadProtocol.AcceptedWereExecuted` | crates/gpu_abstraction/src/vulkan.rs:414-415 | between calls, the batches answered Ok are exactly the ops the backend executed, once each, in order |
| `ThreadProtocol.LogIsRun` | crates/gpu_abstraction/src/vulkan.rs:345-462 | at any point of any run, tables and results are those of the logged calls made one after the other |
| `ThreadProtocol.QueueHoldsAtMostOne` | crates/gpu_abstraction/src/vulkan.rs:229 | the unbounded queue never holds more than one command |
| `SharedRenderThread.PanicOnOneGpuFailsTheOther` | crates/gpu_abstraction/src/vulkan.rs:229-235 | a run over two GPUs: a panic on the first, then a submit to the second, which has no fault, fails and faults it |
| `DriverEquivalence.OpenedAgree` | crates/gpu_abstraction/src/vulkan.rs:237-252 | opened on the same devices, both drivers show the same |
| `DriverEquivalence.OpenedIsConserved` | crates/gpu_abstraction/src/lib.rs:133-167 | newly opened, every device has all its VRAM free and no fault, and conservation holds from there on |
| `HealthyBackend.HealthyCallsNeverFail` | crates/gpu_abstraction/src/vulkan.rs:295-313 | over a worker that starts and a backend that never fails, every completed call has an answer that never fails |
| `DriverEquivalence.AddressesDifferAfterFree` | crates/gpu_abstraction/src/vulkan.rs:374-385 | after such a free the two place the next allocation differently |
| `DriverEquivalence.OpenedSameAddresses` | crates/gpu_abstraction/src/vulkan.rs:241 | opened on the same devices, both start at the same addresses |
| `DriverEquivalence.FallbackRefinesContract` | crates/gpu_abstraction/src/vulkan.rs:517-595 | FallbackDriver is an instance of the trait's contract, stays the driver it is, and keeps its reason |
| `DriverEquivalence.FallsBackIffVulkanFailed` | crates/gpu_abstraction/src/vulkan.rs:495-514 | the software driver is chosen exactly when Vulkan failed to open, with the reason kept and one device of full VRAM |
| `RuntimeCore.GraphicsRuntime.constructor` | crates/graphics_runtime/src/lib.rs:220-233 | all tables and the audit log start empty |
| `RuntimeCore.GraphicsRuntime.Log` | crates/graphics_runtime/src/lib.rs:479 | appends one audit entry |
| `RuntimeCore.GraphicsRuntime.CreateDevice` | crates/graphics_runtime/src/lib.rs:477-510 | the whole next state and answer: audited verdict, known GPU, three queues, grant recorded |
| `RuntimeCore.GraphicsRuntime.CreateTimeline` | crates/graphics_runtime/src/lib.rs:512-521 | the whole next state and answer: a timeline at 0 on a live device |
| `RuntimeCore.GraphicsRuntime.CreateCommandStream` | crates/graphics_runtime/src/lib.rs:542-554 | an empty stream on a live device; the runtime keeps nothing of it |
| `RuntimeCore.GraphicsRuntime.CreateResource` | crates/graphics_runtime/src/lib.rs:523-540 | the whole next state and answer: driver allocation of the resource's size under its own id |
| `RuntimeCore.GraphicsRuntime.CreateShaderModule` | crates/graphics_runtime/src/lib.rs:556-571 | the whole next state and answer |
| `RuntimeCore.GraphicsRuntime.CreatePipeline` | crates/graphics_runtime/src/lib.rs:573-591 | the whole next state and answer; the shader must exist, on any device |
| `RuntimeCore.GraphicsRuntime.SubmitCatchingPanics` | crates/graphics_runtime/src/lib.rs:417-436 | the driver's answer, or for a caught panic a recorded fault and a device error |
| `RuntimeCore.GraphicsRuntime.Submit` | crates/graphics_runtime/src/lib.rs:593-629 | the whole next state and answer, in the source's check order; the timeline moves only after the driver said Ok |
| `RuntimeCore.GraphicsRuntime.FreeResource` | crates/graphics_runtime/src/lib.rs:248-253 | the whole next state and answer: entry removed first, then the driver's free |
| `RuntimeCore.GraphicsRuntime.RecoverDevice` | crates/graphics_runtime/src/lib.rs:368-382 | the whole next state and answer: verdict audited, GPU reset, the device's entries dropped from every table but the timelines |
| `RuntimeCore.GraphicsRuntime.InjectFault` | crates/graphics_runtime/src/lib.rs:331-334 | an admin reaches the driver to set a fault; anyone else gets a security error and changes nothing |
| `RuntimeCore.GraphicsRuntime.ClearFault` | crates/graphics_runtime/src/lib.rs:331-334 | an admin reaches the driver to clear a fault; anyone else gets a security error and changes nothing |
| `RuntimeCore.GraphicsRuntime.TimelineValue` | crates/graphics_runtime/src/lib.rs:631-636 | the stored value, or a device error |
| `RuntimeCore.GraphicsRuntime.WaitFor` | crates/graphics_runtime/src/lib.rs:638-651 | Ok iff the timeline is known and has reached the value |
| `RuntimeInvariants.InitialIsCoupled` | crates/graphics_runtime/src/lib.rs:220-233 | a new runtime is coupled to its driver |
| `RuntimeInvariants.DriverChangesByTraitCalls` | crates/graphics_runtime/src/lib.rs:417-629 | apart from driver_mut, an operation makes at most one trait call and changes the driver by exactly that |
| `RuntimeInvariants.StepConserves` | crates/graphics_runtime/src/lib.rs:476-652 | every operation conserves VRAM on every GPU |
| `RuntimeInvariants.VramIsAccountedFor` | crates/graphics_runtime/src/lib.rs:523-540 | a GPU's total is its free VRAM, its live resources and stranded allocations |
| `RuntimeInvariants.DropStrands` | crates/graphics_runtime/src/lib.rs:378 | dropping a device's table entries strands exactly their bytes, on its GPU |
| `RuntimeHistories.RunKeepsInvariants` | crates/graphics_runtime/src/lib.rs:476-652 | coupling and VRAM conservation hold in every reachable state |
| `RuntimeHistories.RunStrands` | crates/graphics_runtime/src/lib.rs:376-380 | what is stranded is what was to begin with and what every recovery since dropped |
| `RuntimeHistories.VerdictsMeanWhatTheySay` | crates/graphics_runtime/src/lib.rs:368-372 | every success left its own true entry; a false entry marks a call that changed nothing else |
| `RuntimeContainment.PanicAndLossAreRecorded` | crates/graphics_runtime/src/lib.rs:417-436 | a caught panic and a lost device always leave a fault: marking an unknown GPU is unreachable from the runtime |
| `RuntimeContainment.RecoveryRemovesExactly` | crates/graphics_runtime/src/lib.rs:376-381 | recovery removes the target device with its resources, shaders and pipelines, and nothing else |
| `RuntimeContainment.DeadDeviceStaysDead` | crates/graphics_runtime/src/lib.rs:350-352 | an id of no device is rejected by every operation naming it and stays no device |
| `RuntimeOutcomes.CreateDeviceMakes` | crates/graphics_runtime/src/lib.rs:477-510 | made exactly for a known GPU and a caller who may allocate, with one queue of each class, in order, and the grant recorded |
| `RuntimeOutcomes.CreateTimelineMakes` | crates/graphics_runtime/src/lib.rs:512-521 | made exactly on a live device, at 0, and nothing else changes |
| `RuntimeOutcomes.CreateCommandStreamMakes` | crates/graphics_runtime/src/lib.rs:542-554 | made exactly on a live device, and nothing changes |
| `RuntimeOutcomes.CreateShaderModuleMakes` | crates/graphics_runtime/src/lib.rs:556-571 | made exactly on a live device, with its stage and code, and nothing else changes |
| `RuntimeOutcomes.CreatePipelineMakes` | crates/graphics_runtime/src/lib.rs:573-591 | made exactly on a live device from a live shader, with its class, and nothing else changes |
| `RuntimeOutcomes.RecoverSucceedsIff` | crates/graphics_runtime/src/lib.rs:368-382 | recovery succeeds exactly for an admin, on a live device, if the driver resets it |
| `RuntimeOutcomes.FreeGivesBack` | crates/graphics_runtime/src/lib.rs:248-253 | freeing gives the GPU back just the resource's bytes; an unknown id is a memory error and changes nothing |
| `RuntimeOutcomes.WaitFailsAsDevice` | crates/graphics_runtime/src/lib.rs:638-651 | a wait fails only with a device error |
| `RuntimeOutcomes.StreamHasItsQueue` | crates/graphics_runtime/src/lib.rs:600-604 | a stream of any class has just one queue of its own device that passes submit's class check |
| `RuntimeOutcomes.DriverMutIsGated` | crates/graphics_runtime/src/lib.rs:331-334 | without GpuAdmin driver_mut changes nothing and is a security error; with it the named GPU's fault is just the one given, or none |
| `RuntimeWitnesses.PanicTakesDownAnother` | crates/graphics_runtime/src/lib.rs:417-436 | a run: a panic on one device fails a submission on another of the same GPU that would have succeeded |
| `RuntimeWitnesses.PanickedDeviceIsNotRecovered` | crates/graphics_runtime/src/lib.rs:368-382 | a run over the render thread: a submit panics the backend, and an admin's recovery of the device fails |
| `RuntimeWitnesses.PipelineOutlivesShader` | crates/graphics_runtime/src/lib.rs:573-591 | a run: a pipeline made from another device's shader stays live when that device is recovered, without its shader |
| `RuntimeWitnesses.RecoveryStrandsBytes` | crates/graphics_runtime/src/lib.rs:376-380 | a run: recovering a device that holds 40 of 100 bytes leaves 60 free and 40 that nothing stands for |
| `OffscreenRender.MemoryTypeIsLeast` | crates/vulkan_backend/src/lib.rs:717-729 | the chosen memory type is the least that suits, and none is chosen only if none suits |
| `OffscreenRender.BufferCoversImageIff` | crates/vulkan_backend/src/lib.rs:440 | the readback buffer holds the whole image exactly when its byte count fits in 64 bits |
| `OffscreenRender.Back` | crates/vulkan_backend/src/lib.rs:402-438 | an image or buffer gets memory of the least type that suits, or is destroyed; the error is that of the first failing step |
| `OffscreenRender.RecordClear` | crates/vulkan_backend/src/lib.rs:508-624 | recording happens only while recording, on live objects with live memory, each command in the layout it names; the command buffer depends on its pool and on all it uses, and copies the converted clear colour |
| `OffscreenRender.CleanupImage` | crates/vulkan_backend/src/lib.rs:698-707 | destroys exactly the image and its memory |
| `OffscreenRender.CleanupBuffer` | crates/vulkan_backend/src/lib.rs:709-715 | destroys exactly the buffer and its memory |
| `OffscreenRender.SubmitAndRead` | crates/vulkan_backend/src/lib.rs:645-676 | submits only with the pool and all used objects alive, waits on the submitted fence, maps only after it, and returns what is in the memory behind the buffer copied to, or the first error |
| `OffscreenRender.SubmitUnderFence` | crates/vulkan_backend/src/lib.rs:633-688 | the fence is destroyed however the submission ended |
| `OffscreenRender.RecordAndSubmit` | crates/vulkan_backend/src/lib.rs:504-694 | recording, submission and reading under a pool that stays, leaving nothing of their own |
| `OffscreenRender.RenderUnderPool` | crates/vulkan_backend/src/lib.rs:493-690 | the pool lives until recording and submission are over, is destroyed however they ended, and nothing else is left over |
| `OffscreenRender.AcquireBuffer` | crates/vulkan_backend/src/lib.rs:440-491 | the readback buffer with its memory, or nothing new |
| `OffscreenRender.RenderIntoBuffer` | crates/vulkan_backend/src/lib.rs:440-694 | everything acquired after the image is destroyed, and the image with it, on every path |
| `OffscreenRender.RenderErrorIsFirst` | crates/vulkan_backend/src/lib.rs:398-694 | the parts together fail as the first of the sixteen steps that fails does |
| `VulkanDevice.RepeatedPixels` | crates/vulkan_backend/src/lib.rs:277-278 | a buffer filled with one colour holds red, green, blue and alpha bytes, in that order, for every pixel |
| `OffscreenRender.FirstFamily` | crates/vulkan_backend/src/lib.rs:299-307 | the first queue family offering all that is required, or none if none does |
| `OffscreenRender.ChooseQueue` | crates/vulkan_backend/src/lib.rs:284-340 | which queue family the device gets, or the error of the first check that fails |

## Left out

- GpuDriver: traits are a contract on values here, not dynamic dispatch; the runtime holds the contract's state, and `RuntimeOverDrivers` and `RuntimeOverThread` carry its runs to the real drivers.
- VulkanDriver.AddressesNeverOverlap: over runs this bound is sufficient only; past 2^64 bytes some runs overlap (`AddressesOverlapAfterWrap`) and others do not, and the exact condition is given state by state (`NextAddressIsSoundIff`).
- VulkanDriver.VulkanGpuDriver.RequestAndWait: the caller's wait is a loop over an arbitrary scheduling of the worker, not two running threads; all interleavings are in `ThreadProtocol`.
- RuntimeOverDrivers.EitherDriverCarriesTheRun: leaves out runs through `driver_mut`, whose fault hooks the Vulkan driver does not have.
- OffscreenRender.RenderClearToOffscreen: the sequence of calls is the source's, split into methods by what owns what; access masks, pipeline stages, usage flags, memory sizes and extension names are not modelled.
- RuntimeContainment.FailureBlocksExactlyItsGpu: the other submission's answer is taken as given; what one shared thread does to it is in `SharedRenderThread`.
- Registers, `initialize`, `shutdown`, `get_capabilities`, `device_id`, `device_ids`: nothing later depends on them.
- `map_dma`, `vram_available`, `device_fault`: lookups in tables that are modelled.
- Cursor state, `PresentationBridge`, connectors and framebuffers: setters around `gpu_driver::GPUDriver`, which is not part of this model.
- `graphics_compat`: a wrapper over two runtime calls.
- Capability tiers and expiry, audit internals: SHER Kernel code, which is not part of this model.
- `VulkanContext::probe`, `enumerate_adapters`, the loader: foreign calls of which only the outcome matters.
- Error message texts and `Display`: only the error class is kept.
- Draw and dispatch rendering, shader contents: the drivers accept ops or run a fixed clear.
- Resource usage flags, labels and debug names: no modelled operation reads them.
