# Verification of the rkopnu NPU driver's run-time protocol

A Dafny model of the part of the driver that has to be right while jobs run: the job
lifecycle of each core, the attach-once IOMMU cache, the per-file pool of IOMMU domains, the
device-wide power reference, and the creation and freeing of buffers. `Machine.dfy` is one
interleaved state machine over files, ioctl threads, jobs, buffers, domains and cores; a step
is one lock-protected section, one atomic operation or one decision of the environment. The
machine does not assume that the driver is right: using a freed domain, job or buffer, an
underflow warning, a short unmap, freeing an attached domain, signalling a fence twice and
mismatching `drm_sched_job_init` with its cleanup are steps that record a fault. No run of any
length, with any number of files, threads, jobs and cores, records one. Two accesses to memory
that may be gone do occur in the driver, the task array of a submit that gave up and the timeout
handler's counter; the machine records them apart, and for each there is a run that makes it
and an exact condition. Further properties are stated of every `Runs.Reachable` state, that is,
every state some run ends in.

| files | contents |
|---|---|
| `Refs`, `Power`, `AddressSpace` | the three ledgers: kref, power unit (with its loops), allocator plus page table |
| `Machine`, `Invariants` | states, steps, environment, and the invariant in groups |
| `RunProof`, `IoProof`, `GetProof`, `MemProof`, `SubmitProof`, `CloseProof`, `Runs` | every step keeps the invariant; whole runs |
| `Frames`, `AttachOnce` | attach-once refines attach-per-job |
| `Launching`, `Ledgers`, `Pool`, `PoolRuns`, `CloseGuards` | launches, reference counts, the domain pool, closing |
| `Calls` | each call of a run gets the domain, core, task count and size it asked for |
| `Jobs`, `Execution`, `Outcomes`, `Waits`, `FreedJobs` | how often a job runs, what success means, who touches freed memory |
| `Driver`, `Client`, `TaskRange` | the code in imperative form, proved against the machine or for every size, mask and range |
| `Locks` | lock order, protected fields and absence of deadlock for any number of threads |
| `Example` | concrete runs: a launch, and each way the driver falls short |

Each step of the machine has a lemma, named after it with `Keeps`, that it preserves the
invariant: the run, interrupt, timeout and scheduler steps in `RunProof`, the domain pool in
`GetProof`, MEM_CREATE and the freeing of buffers in `MemProof`, SUBMIT in `SubmitProof`, opening
and closing in `CloseProof`; `Runs.StepKeeps` collects them, so the table below does not.

The methods of `Power`, `Client` and `Driver` record, as they go, the locks they take and drop, the
IOMMU groups they attach and detach and the shared fields they read and write. Each ensures that
the record is the script of its call and branch in `Locks`, where the discipline is proved.

## What the environment is assumed to do

- The scheduler has one credit per core (`credit_limit = 1`, rocket_job.c:558): it starts a
  job only when the previous one of that core has left. It frees a job only once the job is
  finished, and not while a timeout handler is between its entry and `drm_sched_start`.
  `drm_sched_stop` waits for a running `rocket_job_run`. `drm_sched_start` cancels the pending
  job; the model also allows it to hand the job back to be run again, which only adds runs.
  After the driver has answered that it abandons a job there is no further timeout for it.
- A job may leave the queue without running at any time (an error on its finished fence, a
  fence that could not be allocated, nothing left to execute).
- Interrupts arrive at any time, also spuriously. Timeouts and the 5 s wait expire at any time.
- Allocation, page pinning, interval insertion, mapping, handle creation, `vmap`, job
  initialisation, push, PM resume and attach each fail nondeterministically. `drm_mm` returns
  a free page-aligned interval, mapping is all or nothing, and new objects get unused addresses.
- The number of cores is fixed. The aperture ends on a page boundary.
- A file is closed when its ioctls have returned, its buffers are freed and none of its jobs
  is queued or running; these are guards of the step that starts the close
  (`Machine.CanClose`), and `CloseGuards` shows what each is needed for.
- User-supplied object addresses name live, published buffers, and a buffer's size rounded up
  to pages is below 2^31 in the machine. `Client` has no such bound on the size.

## Where the code and its comments part

- A wait that expires (rocket_job.c:925-952) leaves the job with the scheduler while the call
  goes on to unmap the task array (rocket_job.c:963-966), although the comment at 843-847 says
  the mapping stays valid across the launch. `Example.ExpiryExposes` is a run in which a launch
  reads the unmapped array. `Execution.LaunchReads`: a launch does so if and only if the
  submitter has given up on that job. `Waits.UnmappedOnlyAfterExpiry`: that takes an expired
  wait of that submitter. `Execution.SuccessIsSound`: it never happens to a submit that reports
  success.
- The wait only asks whether the fence is signalled, not whether with an error
  (rocket_job.c:924-953), although the comment at 935-938 promises an error for a job that
  did not finish. `Example.SuccessWithoutLaunch` reports success for a job that was never
  launched. `Outcomes.SuccessMeansExecuted`: a job whose submit reported success was launched for
  all its tasks and completed by an interrupt if and only if it left its scheduler after that
  interrupt, and was not skipped by `rocket_job_run`, cancelled by `drm_sched_start` or refused an
  attach before.
- `++job->timeout_count` comes after `drm_sched_start` (rocket_job.c:500-504), when the job may
  be freed. `Example.CountExposes` is a run in which it is. `FreedJobs.FreedAccess`: of all the
  driver's accesses to jobs in all runs, one is to freed memory if and only if it is this one, the
  scheduler has cleaned the job up, and the submitter is past its `rocket_job_put`.
- `rocket_job_close` detaches without `pm_lock` (rocket_job.c:672-685), unlike run and reset, and
  both halves of a close look at the pool slots without `domains_lock` (rocket_job.c:677-678,
  rocket_drv.c:138-143): `Locks.ScriptOk` states that these are the only unprotected accesses.
- The mapped length is kept in an `int` (rkopnu_ioctl.c:75, 124-130). At 2^31 bytes or more the
  call fails and leaves its translations behind: `Client.Pools.MemCreate` is all or nothing if
  and only if the length stays below or the mapping is never reached; `Client.LengthLost` is a
  concrete call that is not.
- The task-range check adds 32-bit values (rocket_job.c:153-154) and indexes with ints.
  `TaskRange.RangeExact` says for which values the range stays inside the declared one,
  `TaskRange.WrappingSlotAccepted` gives a slot that escapes.
- The comment at rocket_job.c:33-37 says sibling cores are driven too; the code launches one core.

## Model

| member | source | states |
|---|---|---|
| Runs.NoRunFaults | rocket_job.c:258-485 | no run of any length uses a freed domain or buffer, takes up, launches, completes or puts a freed job, frees a domain under a core, leaks or underflows power, unmaps short, tears down a non-empty allocator, signals a fence twice or cleans up a scheduler job other than exactly once; the one access to a freed job that is left is FreedJobs.FreedAccess |
| Runs.StepKeeps | rocket_job.c:315-485 | every enabled step of every thread, core, interrupt, timeout, scheduler decision and close keeps the invariant |
| Runs.ReachableInv | rocket_job.c:315-485 | the invariant holds in every reachable state |
| Runs.InitiallyOk | rocket_core.c:156-208 | the device as probed satisfies the invariant |
| AttachOnce.SameLaunches | rocket_job.c:386-400 | attach-once refines attach-per-job: the same steps are possible and give the same sequence of launches (core, job, page table), whatever runs, interrupts, resets, refused attaches and closes are interleaved; only attachments differ, and under attach-per-job a core without a job in flight is not attached |
| AttachOnce.StepShadow | rocket_job.c:386-475 | one step of the attach-once driver is matched by the attach-per-job scheme, keeping the relation that equal in-flight jobs translate equally |
| Launching.EveryLaunch | rocket_job.c:386-400 | at every step of every run the hardware is started at most once, on a core whose in-flight job it is, with all cores powered and through the page table of the job's own (file, normalised id), which holds exactly that file's mapped buffers of that id, each page at its dma_addr |
| Launching.TranslatesAt | rkopnu_ioctl.c:93-138 | the domain of a running job translates every mapped buffer of its file and id to that buffer's own pages, and nothing else |
| Launching.LiveIsMapped | rkopnu_ioctl.c:132-140 | a published buffer that is still referenced is mapped |
| Launching.RangesDisjoint | rkopnu_ioctl.c:108-130 | buffers of one file and id mapped at once occupy disjoint page-aligned ranges inside the aperture |
| Calls.SubmitRunsOnItsCore | rocket_job.c:863-909 | in every run, the job of a SUBMIT has the file, core, task count and domain id (0 unless in 0..15) of the call that started it, and every launch of that job is on that core |
| Calls.DomainOfId | rocket_drv.c:76-119 | in every run, two calls of a file got the same domain if and only if they named the same id, where ids below 0 and from 16 on count as 0; while the file is open that domain is in the slot of the id |
| Calls.CreateMakesItsBuffer | rkopnu_ioctl.c:77-139 | in every run, the buffer of a MEM_CREATE has the file and domain id of the call, and once mapped the size asked for, rounded up to pages of 4096 |
| Calls.AnyCallStarts | rocket_drv.c:208-215 | nothing but the file being open holds back a call, whatever its id, core, size and counts, and every later request of a call can be refused |
| Calls.AnyEventComes | rocket_job.c:535-551 | an interrupt can come whenever job_lock is free, a timeout whenever an active job is not abandoned and no handler runs, and a wait can expire until its job is finished |
| Execution.AtMostOnce | rocket_job.c:136-139 | in every run the launches of a job number next_task_idx and never exceed task_count, resets and requeues included |
| Execution.IrqSignals | rocket_job.c:429-442 | an interrupt signals a fence if and only if a job is in flight that was launched task_count times; it is that job's fence, the newest of the core, not signalled before; otherwise the job is launched once more unless a reset is pending |
| Execution.FencesIncrease | rocket_job.c:65-77 | a new done fence is numbered above every earlier fence of the core and above all it has signalled |
| Execution.BoundedWork | rocket_job.c:487-510 | all launches of a run, its counted timeouts and the handlers still running are together at most the sum over its jobs of task_count + 4, from the driver giving a job up at the first count past 3 |
| Execution.AbandonedAtFour | rocket_job.c:504-507 | a job is given up at its fourth timeout and not before |
| Execution.SuccessIsSound | rocket_job.c:923-960 | if a submit has reported success, the scheduler is done with its job, task_counter is task_number, and every launch of the job in the whole run read a mapped task array |
| Execution.SubmitReports | rocket_job.c:947-956 | task_counter is task_number on success and 0 otherwise, and when success is reported the job is finished |
| Execution.ExpiryLeavesJob | rocket_job.c:925-949 | a wait that expires changes no job and no reference: the job is queued or active, holds its domain, and the scheduler holds it |
| Execution.MappedUnlessGivenUp | rocket_job.c:843-853 | the task array of a queued or active job is mapped if and only if its submitter has not given up |
| Execution.LaunchReads | rocket_job.c:136-162 | a launching step reads unmapped memory if and only if the launched job's submitter has given up |
| Outcomes.SuccessMeansExecuted | rocket_job.c:923-956 | in every run, a job whose submit has reported success was launched once for each of its tasks, with its fence signalled without error by an interrupt, if and only if it left its scheduler by that interrupt, or was skipped or cancelled only after it |
| Outcomes.HowJobsLeave | rocket_job.c:315-332 | a job's exit is recorded by the step that lets it leave and names that step: skipped, cancelled by the restart, failed by a refused attach, or completed |
| Outcomes.StepOutcomes | rocket_job.c:401-442 | every step keeps: a fence signalled without error means all tasks were launched, and how a finished job left agrees for ever with the state of its fence |
| Waits.UnmappedOnlyAfterExpiry | rocket_job.c:923-966 | the task array of a queued or active job is unmapped, and any launch read an unmapped one, only in runs in which that submitter's wait expired before |
| FreedJobs.FreedAccess | rocket_job.c:243-300 | every access of the driver to a job, in every run, is to freed memory if and only if it is ++timeout_count, the scheduler has cleaned the job up and the submitter is past its put |
| FreedJobs.FreedExactly | rocket_job.c:258-300 | a pushed job is freed if and only if the scheduler has cleaned it up and its submitter is past rocket_job_put |
| FreedJobs.CountRecorded | rocket_job.c:500-509 | the machine records exactly that access |
| Ledgers.DomainLedger | rocket_drv.c:30-157 | a domain's kref is 1 if its pool slot holds it, plus the live buffers and live jobs on it, plus callers holding it as candidate, and it is allocated exactly while that sum is positive |
| Ledgers.CacheIsExact | rocket_job.c:386-395 | for a running job the cached address equals job->domain if and only if the core's IOMMU already uses that very domain; a cached address always names an allocated domain held by its pool slot |
| Ledgers.InFlightIsLive | rocket_job.c:431-442 | whoever finds a job in flight under a free job_lock finds it active, referenced by the scheduler, with an allocated domain and an unsignalled newest fence |
| Ledgers.PowerLedger | rocket_device.c:134-186 | pm_refcount is the number of cores with a job in flight plus the runs past pm_get, and every core's usage count is 1 plus 1 while that is positive |
| Ledgers.SubmitBalanced | rocket_job.c:958-967 | a returned SUBMIT holds no buffer reference, no mapping and no job reference; its job was cleaned up if never pushed, and otherwise is uncleaned exactly while the scheduler holds it |
| Ledgers.JobLedger | rocket_job.c:243-300 | a job is allocated if and only if its submitter or the scheduler holds it, with at most two references |
| Ledgers.MemCreateBalanced | rkopnu_ioctl.c:132-164 | a returned MEM_CREATE, of a rounded size below 2^31, reports success if and only if it published its buffer, and otherwise left no reference, domain pointer, allocator node or translation of it, whatever ran concurrently |
| Pool.StepLinear | rocket_drv.c:84-116 | every step of the machine does to the pool exactly its own event, atomically, or nothing |
| Pool.LoserFreed | rocket_drv.c:104-110 | a loser's spare domain is held by nobody else, was granted to nobody, and is freed by the put |
| PoolRuns.PoolLinearises | rocket_drv.c:60-157 | in every run, taking each call at its own lookup or install section, the calls and clearings form a history of an atomic get-or-create pool with the same pool and the same answer for each calling thread; a slot is cleared once, by its file's close, no call of the file follows, a thread calls once, and every call past its get is in the history; candidates in transit were given to nobody |
| PoolRuns.InstalledOnce | rocket_drv.c:102-118 | in such a history a slot that any call has filled is never installed again |
| PoolRuns.OneDomainPerId | rocket_drv.c:76-119 | all callers of one file with one normalised id got the same domain, over whole runs |
| PoolRuns.HeldIsAnswered | rocket_drv.c:76-119 | what the buffers and jobs of an open file hold for an id is the domain its calls were answered |
| CloseGuards.DetachSparesOthers | rocket_job.c:672-685 | a close leaves a job in flight translated through its own domain if and only if the job is not of the closing file |
| CloseGuards.TakedownNeedsNoBuffers | rocket_drv.c:146-155 | a slot's allocator is found empty if and only if no buffer of the file and id still occupies it |
| Locks.NeverDeadlocked | rocket_job.c:379-400 | any number of threads running any calls under any schedule: while one is unfinished some thread can step, and schedules are no longer than the calls' own actions |
| Locks.ScriptOk | rocket_job.c:386-475 | every entry point on every branch takes locks in order, touches an IOMMU group only under that core's job_lock, accesses in_flight_job, attached_domain, the pool slots, the allocator nodes and pm_refcount only under their own lock, and returns with none held; the exceptions are exactly the detach and the slot accesses of closing a file |
| Locks.NestingHolds | rocket_job.c:379-400 | in every reachable state a thread holds at most one job_lock, holds pool, allocator and push locks alone, and never takes a job_lock while holding a driver lock |
| Locks.TouchAlone | rocket_job.c:386-395 | no two threads are ever about to attach or detach the same core's group |
| Locks.UseAlone | rocket_job.c:386-442 | no two threads are ever about to access the same one of these fields; for a file's slots and nodes, while it is not closing |
| Refs.PutBalanced | rocket_drv.c:121-131 | so does dropping one, which frees the object if and only if it was the only holder |
| Power.UnitKept | rocket_device.c:134-186 | gets and puts keep all cores at 1 plus 1 while referenced; a get is undone by a put, a failed get changes nothing |
| Power.GetCallsSound | rocket_device.c:74-149 | the runtime-PM calls of a get, for any failing core, add up to the abstract get, and after no prefix of them is any core below its never-gate reference |
| Power.PutCallsSound | rocket_device.c:100-186 | the same for both puts |
| Power.PutRequests | rocket_device.c:122-186 | the last ordinary put asks every core to suspend, the last put_noidle asks none, and no earlier put changes a request |
| Power.GetRequests | rocket_device.c:74-149 | a get that powers the unit up withdraws every request; one that fails at a core asks exactly the cores before it again |
| Power.PowerUnit.ResumeUnit | rocket_device.c:74-93 | resumes the cores upwards, or rolls the resumed ones back downwards with put_autosuspend, call by call, leaving all counts as they were |
| Power.PowerUnit.ReleaseUnit | rocket_device.c:100-132 | releases the cores downwards to core 0, each with put_autosuspend |
| Power.PowerUnit.PmGet | rocket_device.c:134-149 | is the abstract get with exactly its calls, counting under pm_lock |
| Power.PowerUnit.PmPut | rocket_device.c:151-162 | is the abstract put, warning exactly at zero; the last put releases every core downwards with put_autosuspend, others make no call; counting is under pm_lock |
| Power.PowerUnit.PmPutNoidle | rocket_device.c:164-186 | is the abstract put; the last one drops every core upwards with put_noidle, others make no call; counting is under pm_lock |
| AddressSpace.RoundingIsSafe | rkopnu_ioctl.c:99-111 | aligned starts make unrounded disjoint intervals disjoint after rounding up to pages |
| AddressSpace.MappedRangesDisjoint | rkopnu_ioctl.c:108-124 | pages of distinct nodes never coincide and lie in the aperture |
| AddressSpace.UnmapOk | rocket_gem.c:21-22 | unmapping finds every page and keeps the page table exact for all other buffers |
| AddressSpace.CreateFreeRoundTrip | rocket_gem.c:14-34 | insert, map, unmap, remove restores allocator and page table |
| Client.Pools.DomainGet | rocket_drv.c:76-119 | returns the domain in slot id (slot 0 for ids outside 0..15) with one more reference; an empty slot gets the caller's new domain, or the caller discards it for one that another caller installed meanwhile; a failed creation changes nothing; its record is the script of its branch |
| Client.Pools.DomainPut | rocket_drv.c:121-131 | drops one reference and frees the domain exactly at zero |
| Client.Pools.MapBo | rkopnu_ioctl.c:101-148 | succeeds exactly if every step does and the length survives; on failure the space is as before, unless the length was lost |
| Client.Pools.MemCreate | rkopnu_ioctl.c:67-164 | for every size and every failing step: success adds exactly one mapped buffer, in the domain of the slot of its id; failure leaves the client as it was, but for possibly one new empty domain, if and only if the rounded size is below 2^31 or the mapping is not reached; its record is the script of its branch |
| Client.Pools.BoFree | rocket_gem.c:14-34 | unmaps the whole buffer, removes node and reference, and keeps the client sound, without a warning |
| Client.Pools.CreateThenFree | rocket_gem.c:14-34 | for rounded sizes below 2^31 and any failing step, MEM_CREATE followed by the last free restores allocator, page table and counters, but for possibly one new empty domain |
| Client.Pools.DomainsClose | rocket_drv.c:133-157 | empties every slot and frees every domain, finding every allocator empty |
| Client.LengthLost | rkopnu_ioctl.c:124-148 | a concrete call, 2^31 bytes in an empty 4 GiB aperture with every answer good, that fails and leaves its translations behind |
| Driver.Npu.Submit | rocket_job.c:129-181 | launches once and counts the task, or does nothing while a reset is pending |
| Driver.Npu.AttachAndSubmit | rocket_job.c:386-400 | keeps or switches the attachment and launches, or ends detached with nothing in flight |
| Driver.Npu.RunJob | rocket_job.c:315-416 | the whole call, uninterrupted, is a run of the machine, for every failing core and refused attach, and its record is the script of its branch |
| Driver.Npu.HandleIrq | rocket_job.c:418-443 | the whole call, uninterrupted, is a run of the machine, and its record is the script of its branch: everything between taking and dropping job_lock |
| Driver.Npu.Reset | rocket_job.c:457-481 | likewise, from drm_sched_stop to drm_sched_start; it leaves the core detached, with nothing in flight and no reset pending, and other cores alone |
| Driver.Npu.JobClose | rocket_job.c:672-685 | likewise, with its loops over cores and slots, its record being one close script per core; afterwards no core has a domain of the file attached |
| Driver.RunLaunches | rocket_job.c:386-400 | such a run launches exactly if the unit powers up, no attach is refused and no reset is pending, and then through the job's own domain |
| TaskRange.SubmitCore | rocket_job.c:38-48 | the core index is below num_cores and below 3, and is 1 or 2 exactly for the single-core masks of those cores when they exist |
| TaskRange.JobOpen | rocket_job.c:633-641 | entity i has core i's scheduler |
| TaskRange.SchedToCore | rocket_job.c:302-313 | finds the first core with the scheduler, or none if there is none |
| TaskRange.CoreRoundTrip | rocket_job.c:863-872 | for every mask the scheduler that runs the job belongs to the core chosen at submit |
| TaskRange.SlotInRange | rocket_job.c:141-149 | the slot index is within 0..4, and which slot it is for every mask |
| TaskRange.ChooseRange | rocket_job.c:132-161 | the int arithmetic uses the slot read (ci, or ci + 2 for three cores) exactly if it is non-empty, starts no earlier than the job's range and ends no later modulo 2^32, else the job's range, and reads its first and last elements up to 2^31 |
| TaskRange.SlotsUsed | rocket_job.c:150-159 | with a job range that does not wrap: a non-empty slot inside it is used; an empty one, one starting earlier, or one ending past it below 2^32 is not |
| TaskRange.RangeSafe | rocket_job.c:150-161 | with the job's range up to 2^31, the chosen range is non-empty, inside the declared one and read at its ends if and only if the slot's sum does not wrap into the declared range |
| TaskRange.FallbackSafe | rocket_job.c:153-161 | with an empty slot the elements read are right if and only if the job's range ends at or below 2^31 |
| TaskRange.WrappingSlotAccepted | rocket_job.c:153-157 | a wrapping slot that the check accepts although it leaves the declared range |
| TaskRange.RangeExact | rocket_job.c:150-161 | for all 32-bit values: the chosen range is non-empty, inside the declared one and read at its ends if and only if it ends at or below 2^31 and a slot that is used really ends inside the declared range |
| Example.LaunchReached | rocket_job.c:386-400 | a concrete run from start through MEM_CREATE and SUBMIT to a launch |
| Example.ExpiryExposes | rocket_job.c:925-965 | a concrete run in which the wait expires first and the launch reads the unmapped task array |
| Example.SuccessWithoutLaunch | rocket_job.c:924-956 | a concrete run in which SUBMIT reports all tasks done for a job that was never launched |
| Example.CountExposes | rocket_job.c:480-504 | a concrete run in which the timeout handler counts a freed job |

## Left out

- Register contents, clocks, resets, OPP, regulators, device tree, probe, remove and module registration: hardware and kernel plumbing; a launch is one recorded event, and rocket_core_reset has no effect on the modelled state.
- The ioctls for actions, MEM_MAP and MEM_SYNC, and mmap offsets: constants or thin wrappers.
- The native rocket ioctls (rocket_job.c:697-807, rocket_gem.c:61-210): not in the ioctl table (rocket_drv.c:208-215). The machine keeps the task count general, as run and interrupt are written for it.
- The internals of drm_sched, drm_mm, dma_fence, the IOMMU core and runtime PM: only the contracts listed above.
- Wall-clock time: the 500 ms timeout and the 5000 ms wait may expire at any moment.
- `rocket_reset_work`: nothing queues it.
- The file-wide scheduler entity (rocket_job.c:627-630): only the native submit uses it.
- SUBMIT with task number 0 or a null task object returns before doing anything and is not a step.
- Wrap-around of fence sequence numbers, of krefs and of PAGE_ALIGN near 2^64.
- Whether the declared task range fits the task buffer: the driver does not check it either.
- rkopnu_ioctl_submit in imperative form: it blocks halfway, so it is modelled as the machine's steps of one thread, with the error labels as states.
- Driver.Npu.RunJob: executes without interference from interrupts and other cores; interference is covered by the machine, whose runs it is one of.
- Ledgers.MemCreateBalanced: assumes a rounded size below 2^31, as the machine's StartMemCreate does; Client.Pools.MemCreate states what happens for every size.
