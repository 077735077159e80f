# Verified model of the XenServer CIM provider

The provider exposes XenServer through CIM: clients enumerate and query resources, ask virtual
machines and hosts to change state, and modify virtual hardware. This project models the parts of
it that carry state, branching or arithmetic, and proves what they keep over whole runs and under
failures.

| file | what it models |
|---|---|
| `JobProtocol.dfy`, `JobTheorems.dfy` | the asynchronous job engine: any number of submitting threads, one worker, any number of threads asking whether jobs are running, interleaved one shared access at a time, spurious wake-ups included |
| `WorkList.dfy` | the engine's heap-linked list, updated in place and proved to be a queue |
| `Callbacks.dfy`, `VmStateChange.dfy`, `HostStateChange.dfy`, `JobReport.dfy` | the callbacks the engine runs, and the task records they leave |
| `XenServer.dfy` | a Xen session with its sticky error flag, and the few fields of a VM, a host and a task the callbacks touch |
| `Capabilities.dfy` | the requested states a VM advertises |
| `ResourceEnumeration.dfy` | enumeration and query over a provider cursor, with the disk provider as the instance |
| `DiskModify.dfy`, `ProcessorModify.dfy` | swapping a virtual disk, and reordering processor-count updates, under sticky errors |
| `SinglePrecision.dfy`, `MemorySettings.dfy`, `MachineIntegers.dfy` | memory sizes through single precision and 64-bit fields, and their round trip |
| `ConsoleOptions.dfy` | the two-pass `key=value,key=value` parser on C strings |
| `KvpLifecycle.dfy` | the key-value-pair daemon's set-up and migration commands |

## How failures are modelled

A session holds a sequence of fates, one for each call it will send. A call on a session whose
`ok` flag is down is not sent; a sent call succeeds when its fate allows it and the server would
accept it, and otherwise lowers the flag. An empty sequence of fates means that no call fails of
itself. All theorems quantify over the fates, so they hold for every pattern of failures. In the
daemon a call has three fates: it works, it is refused without effect, or it takes effect and
raises all the same because the reply is lost.

The code that works in place is modelled by classes whose methods are proved against functions or
against properties stated outright; what the source promises is proved about those.

## Results that differ from the source's own words

- `round_memory` is commented as rounding up. It rounds down when the excess over a whole
  megabyte is lost to single precision (`MemorySettings.RoundsDownIff`), first at one byte over
  16 MB (`MemorySettings.OneByteLost`).
- The cleanup of the provider asks `jobs_running` without the list mutex
  (`src/ProxyProvider.c:891`). That answer can miss a job (`JobTheorems.UnlockedGuardMissesAJob`),
  and is right exactly when the list is still empty at the moment the busy flag is read
  (`JobTheorems.UnlockedGuardIsRightIff`); the guard in `jobs_uninitialize`, which holds the mutex, cannot
  (`JobTheorems.LockedGuardIsSound`).
- A request to disable a host is reported as completed when the host was disabled, even if the
  maintenance key could not be written (`HostStateChange.DisabledMayLackKey`).
- The limit of eight processors is compared in signed fields, so it lets through a count that
  wraps past the field, such as 2^63 processors or 2^63 - 8 more for a VM that has eight, and stops
  a removal that wraps below it (`ProcessorModify.HugeRequests`). It means what it says exactly
  when the count stays clear of two ranges (`ProcessorModify.LimitHonouredIff`).
- A disk change compares the name, description and size with the image the device held before, but
  writes them to the image swapped in, and not at all on a CD drive. On a server that swaps the
  image of any device a change can succeed and leave a wrong name (`DiskModify.WrongNameKept`); on
  one that swaps only a CD drive's image, the values are right after every success on another
  device, and those asked for on a CD drive are ignored (`DiskModify.NameIgnoredOnCd`).
  `DiskModify.Server.Modify` states exactly when they are right.
- A query stops at the first instance that cannot be filled, where an enumeration goes on, so the
  two agree exactly when nothing was missed by stopping
  (`ResourceEnumeration.QueryEqualsFilteredEnumeration`).
- An enumeration whose broker fails in setting the property filter never gives that one record
  back (`ResourceEnumeration.Enumerator.EnumCall`); a look-up by identifier never gives back the
  handle of a device it cannot fetch or that is of the other kind
  (`ResourceEnumeration.Getter.GetInstance`).
- Advertised states are honoured under a condition weaker than consistency of the allowed
  operations with the power state, and the condition is exact
  (`Capabilities.AdvertisedHonouredIff`).
- If XAPI refuses to unplug an interface that is not plugged in, a command leaves a VM that no
  later command ever succeeds on exactly when its last change to an interface was to create or to
  unplug one: the plug had no effect, or the unplug was not followed by the destruction
  (`KvpLifecycle.KvpClient.Execute`, `KvpLifecycle.KvpClient.Serve`). One refused plug is enough
  (`KvpLifecycle.JammedByOnePlug`).
- The daemon numbers its interface one past the count of those there. With user interfaces 0 and 3
  that number is taken (`KvpLifecycle.GapTakesRoom`), and then no set-up ever succeeds.
- A set-up between two prepare-migration commands makes the second fail, after it has already torn
  the daemon's things down (`KvpLifecycle.PrepareAgain`).
- `_setup` without a preceding `_clearup` never succeeds on a VM that has a management interface,
  so the disabled start listener, which calls it that way, could not have worked
  (`KvpLifecycle.KvpClient.Setup`).

## Model

| member | source | states |
|---|---|---|
| JobProtocol.StepKeeps | src/Xen_Job_Helper.c:69-133 | one step of any thread keeps the whole invariant: mutex ownership, conservation of jobs, the meaning of the busy flag, owed signals, submission order, and agreement of the world with sequential execution |
| JobProtocol.RunKeeps | src/Xen_Job_Helper.c:215-259 | so does any interleaving of any length |
| JobProtocol.ProducerKeepsWake | src/Xen_Job_Helper.c:73-91 | a thread that links a job while the worker is on its way to sleep owes it a signal until it has signalled |
| JobTheorems.NoLostWakeUp | src/Xen_Job_Helper.c:105-131 | in every reachable state in which the worker sleeps on a non-empty list, some thread has linked a job and not signalled yet |
| JobTheorems.FifoExactlyOnce | src/Xen_Job_Helper.c:69-133 | in every reachable state the history of linked jobs is the freed ones, then at most one in hand, then the list; callbacks run in that order, once each; each thread's own submissions keep their order |
| JobTheorems.DequeueDelivers | src/Xen_Job_Helper.c:225-246 | dequeue returns only with zero and a job, so the worker's error path is dead |
| JobTheorems.LockedGuardIsSound | src/Xen_Job_Helper.c:194-207 | a negative answer of the two reads under the list mutex means every job ever linked has been executed and freed, though the flag is lowered outside it |
| JobTheorems.IdleEngineIsSeenIdle | src/Xen_Job_Helper.c:157-161 | asked of an engine asleep over an empty list, a guard, with the mutex or without, answers in three steps that nothing runs |
| JobTheorems.BusyEngineIsSeenBusy | src/Xen_Job_Helper.c:157-161 | it answers that jobs run whenever it reads the head over a queued job, or the flag with a job in hand |
| JobTheorems.UnlockedGuardCoversEarlierJobs | src/Xen_Job_Helper.c:157-161 | without the mutex a negative answer covers the jobs linked before the head was read, and all jobs if none was linked since |
| JobTheorems.UnlockedGuardIsRightIff | src/Xen_Job_Helper.c:157-161 | a negative answer covers every job ever linked if and only if the list is empty when the lowered flag is read |
| JobTheorems.UnlockedGuardMissesAJob | src/ProxyProvider.c:891 | a concrete interleaving in which the unlocked answer is negative while a job is queued |
| JobTheorems.RunsAreBounded | src/Xen_Job_Helper.c:215-259 | every run is bounded by a measure of its first state plus a constant per spurious wake-up |
| JobTheorems.FewSpuriousWakeUps | src/Xen_Job_Helper.c:105-131 | so long as a linked job has not been freed, at most one spurious wake-up can happen, and none to a worker that is not about to sleep |
| JobTheorems.QueuedJobIsServed | src/Xen_Job_Helper.c:105-131 | no queued job waits for ever: in any run longer than a bound fixed by its first state, every job linked there has been executed and freed, whatever the interleaving and however many spurious wake-ups |
| JobTheorems.StuckIsDrained | src/Xen_Job_Helper.c:69-133 | no deadlock: when no thread can move, every submission has been executed and freed and the worker sleeps on an empty list |
| JobTheorems.MaximalRunIsSequential | src/Xen_Job_Helper.c:215-259 | every maximal interleaving ends with the power states, host flags and job records of running the requests one by one in the order they were linked |
| WorkList.WorkQueue.Enqueue | src/Xen_Job_Helper.c:69-93 | the tail walk appends one new item at the end of the chain and disturbs nothing before it |
| WorkList.WorkQueue.Dequeue | src/Xen_Job_Helper.c:108-120 | the first job is taken and the flag raised, or nothing changes on an empty list |
| WorkList.WorkQueue.JobsRunning | src/Xen_Job_Helper.c:157-161 | true exactly when a job is queued or the worker is busy |
| Callbacks.RunRequestFrame | src/Xen_Job_Helper.c:225-256 | a job without a session has no effect; a job moves only the VM or host it names; its stored records are those of a job |
| Callbacks.VmRequestOutcome | src/Xen_ComputerSystem.c:879-1008 | a VM job either completes with the VM in the state asked for, or leaves its power state alone |
| Callbacks.VmJobMovesIff | src/Xen_ComputerSystem.c:879-1008 | under any failures a queued job moves its VM exactly when it gets its context and session, the request is one of those honoured in that power state, and none of its first four calls fails; and where to, by the request's number |
| Callbacks.VmJobWithoutFaults | src/Xen_ComputerSystem.c:879-1008 | without failures an honoured job sends one operation and ends Completed, another sends none and ends as an exception |
| Callbacks.HostJobWithoutFaults | src/Xen_HostComputerSystem.c:885-978 | without failures, by the request's number, what a queued host job does: power on, enable, disable, shut down, reboot, or nothing |
| Callbacks.HostJobActsIff | src/Xen_HostComputerSystem.c:885-978 | under any failures, exactly when a queued host job powers its host on, enables it or disables it |
| Callbacks.VmSeesOnlyItsOwn | src/Xen_ComputerSystem.c:879-1008 | over any sequence of jobs a VM ends where its own requests alone would have taken it |
| Callbacks.RunAllKeepsInvariants | src/Xen_HostComputerSystem.c:885-978 | over any sequence of jobs and any failures no host is left enabled with its maintenance key, and every job's stored records follow the life of a job |
| JobReport.StoredIffHealthy | src/Xen_Job_Helper.c:348-391 | a report is stored exactly when its calls succeed, and never alters what was stored |
| JobReport.ReportClosesHistory | src/Xen_Job_Helper.c:348-391 | the terminal record has 100 percent, Completed exactly with error code 0, and never both descriptions; a Xen error takes the place of the callback's message |
| VmStateChange.StateChangeJob | src/Xen_ComputerSystem.c:879-1008 | the callback, in place on a session, does what the specification function says of its whole state |
| VmStateChange.VerdictIsExact | src/Xen_ComputerSystem.c:900-985 | a job completes exactly when one operation reached Xen and succeeded, and then the VM is in the wanted state; otherwise its power state is as before; an invalid transition sends no operation |
| VmStateChange.MovesIff | src/Xen_ComputerSystem.c:890-985 | the VM ends where the request asks exactly when it is honoured and the job's first four calls succeed; a failed progress report keeps the operation from being sent |
| VmStateChange.SendsWithoutFaults | src/Xen_ComputerSystem.c:900-975 | the one operation sent, for each request number and power state |
| VmStateChange.RecordsWithoutFaults | src/Xen_ComputerSystem.c:895-1000 | the three stored records in numbers: New, Running, and Completed or the invalid transition with its text |
| VmStateChange.RecordsAFailedOperation | src/Xen_ComputerSystem.c:985-1000 | a failed operation is recorded with Xen's own error |
| VmStateChange.HistoryIsAJob | src/Xen_ComputerSystem.c:890-1000 | the stored records are New, at most one Running, at most one terminal, whatever fails, and end Completed exactly with a completed verdict |
| HostStateChange.StateChangeJob | src/Xen_HostComputerSystem.c:885-978 | the callback, in place on a session, does what the specification function says of its whole state |
| HostStateChange.ActsWithoutFaults | src/Xen_HostComputerSystem.c:900-960 | what each request number does to the flags, and which operation it carries out |
| HostStateChange.RecordsWithoutFaults | src/Xen_HostComputerSystem.c:895-973 | the three stored records in numbers |
| HostStateChange.PowersOnIff | src/Xen_HostComputerSystem.c:923-933 | a host whose one allowed operation is power-on is powered on, and reported as completed, exactly when the job's first four calls succeed |
| HostStateChange.EnablesIff | src/Xen_HostComputerSystem.c:923-940 | any other host is enabled, and reported so, exactly when the first five do; its key is gone when the first four do |
| HostStateChange.DisablesIff | src/Xen_HostComputerSystem.c:747-759 | an enabled host is disabled, and reported so, exactly when the first three succeed, and gets its key exactly when the first five do |
| HostStateChange.BracketRestores | src/Xen_HostComputerSystem.c:904-957 | from a consistent start a shutdown or reboot leaves the enabled flag and the key as it found them if and only if it did not enter maintenance mode or both calls that leave it succeed |
| HostStateChange.CompletedIffDone | src/Xen_HostComputerSystem.c:904-957 | Completed is reported exactly when the shutdown or reboot call itself succeeded |
| HostStateChange.ErrorSurvivesBracket | src/Xen_HostComputerSystem.c:918-957 | an operation's error survives the temporary reset of the flag, and is the error reported unless leaving maintenance mode failed as well |
| HostStateChange.EnterMeaning | src/Xen_HostComputerSystem.c:747-759 | maintenance mode is entered exactly when the host could be disabled; the key is there when all calls succeed |
| HostStateChange.ExitMeaning | src/Xen_HostComputerSystem.c:761-772 | stickiness orders the exit calls: the host is only enabled once the key is gone |
| HostStateChange.ConsistencyIsKept | src/Xen_HostComputerSystem.c:885-978 | for every request and every failure pattern the key is present only on a disabled host |
| HostStateChange.NoFaultsCompletes | src/Xen_HostComputerSystem.c:885-978 | without failures every request the host understands completes, from any flags |
| HostStateChange.DisabledMayLackKey | src/Xen_HostComputerSystem.c:747-759 | a disable request completes exactly when the host was disabled, and when the key is then there |
| HostStateChange.DisabledWithoutKeyWitness | src/Xen_HostComputerSystem.c:747-759 | a concrete failure after which it completes without the key |
| HostStateChange.HistoryIsAJob | src/Xen_HostComputerSystem.c:895-973 | the stored records are New, at most one Running, at most one terminal, whatever fails |
| Capabilities.SetAvailableOperations | src/Xen_ComputerSystem.c:520-556 | the count and fill passes agree: the array is full and holds the matching map entries in map order |
| Capabilities.SupportedExactly | src/Xen_ComputerSystem.c:502-556 | a state is advertised exactly when the map pairs it with an allowed operation |
| Capabilities.AdvertisedIff | src/Xen_ComputerSystem.c:502-556 | by number, which operation makes each state advertised, and that no other state ever is |
| Capabilities.SupportedIsSorted | src/Xen_ComputerSystem.c:502-556 | states come out strictly increasing, so none twice |
| Capabilities.AdvertisedHonouredIff | src/Xen_ComputerSystem.c:900-985 | every advertised state is accepted rather than refused as an invalid transition if and only if the allowed operations fit the power state |
| Capabilities.AdvertisedRunsItsOperation | src/Xen_ComputerSystem.c:900-985 | with allowed operations consistent with the power state, asking for an advertised state runs an allowed operation |
| ResourceEnumeration.Enumerator.Begin | src/ProxyHelper.c:250-304 | a session is opened once; a failed listing closes it again; a new list owns every handle |
| ResourceEnumeration.Enumerator.RecordGetNext | src/Xen_Disk.c:121-157 | the filter loop stops at the first device that the class shows or that cannot be fetched, passes over only devices the class does not show, releasing their records, and moves a shown device's handle out of its slot |
| ResourceEnumeration.Enumerator.GetNext | src/ProxyHelper.c:333-376 | the cursor ends one past the device fetched or failed on, from a cleared error flag |
| ResourceEnumeration.Enumerator.Release | src/Xen_Disk.c:164-175 | the held handle and record are given back, and the session only if the record owns it |
| ResourceEnumeration.Enumerator.End | src/ProxyHelper.c:312-323 | after the list is freed every handle has been freed once, except one still held; the session is cleaned up once |
| ResourceEnumeration.Enumerator.EnumCall | src/ProxyProvider.c:190-333 | the loop terminates; unless a broker call fails the results are exactly the devices the class shows and that can be filled, in order; sessions opened equal sessions cleaned up; each handle is freed once, except the one whose property filter could not be set |
| ResourceEnumeration.Enumerator.ExecQuery | src/ProxyProvider.c:697-818 | the same for a query, which never leaks a handle and stops at the first failed fill or evaluation |
| ResourceEnumeration.DeliveredIff | src/Xen_Disk.c:137-156 | exactly which devices an enumeration delivers: those fetched and filled, no CD drive among plain disks, no plain disk among drives |
| ResourceEnumeration.DeliveredInOrder | src/ProxyProvider.c:230-317 | each at the place after all those before it |
| ResourceEnumeration.QueriedIff | src/ProxyProvider.c:743-804 | exactly which devices a query delivers: the matching ones before the first that cannot be filled or evaluated |
| ResourceEnumeration.QueriedInOrder | src/ProxyProvider.c:743-804 | each in its place |
| ResourceEnumeration.DeliveredExactly | src/ProxyProvider.c:230-317 | a device is delivered exactly when it passes the filter and its fetch and fill succeed, and as often as it is listed |
| ResourceEnumeration.QueryEqualsFilteredEnumeration | src/ProxyProvider.c:743-804 | a query returns precisely the matching instances of the enumeration, in the same order, exactly when none lies beyond the point where it stopped; so always when no fill or evaluation fails, whatever fetches do |
| ResourceEnumeration.QueryFallsBehind | src/ProxyProvider.c:743-804 | one missed match makes the query shorter for good |
| ResourceEnumeration.Getter.GetInstance | src/ProxyHelper.c:388-458 | the session is always closed again; exactly when the handle and the record are given back |
| DiskModify.Server.Swap | src/Xen_DiskSettingData.c:465-515 | in every failure case the device holds its old image, none, or the requested one; on success the requested one |
| DiskModify.Server.Modify | src/Xen_DiskSettingData.c:452-596 | success means the device holds its old image if none was named, nothing if the empty one was, and the named one otherwise, with the number and the image values as asked; a missing image means failure with nothing changed; the number and the image are only touched after the swap; other devices and images never; exactly when a successful change leaves the named image as asked; without failures, exactly when it succeeds |
| DiskModify.ImageFollowsTemplateIff | src/Xen_DiskSettingData.c:543-595 | after success the named image is as asked if and only if no value asked for was right on the image held before and wrong on the new one, or, on a CD drive, the image needed no update |
| DiskModify.FixedDeviceFollowsTemplate | src/Xen_DiskSettingData.c:543-595 | a device that keeps its image has it as asked |
| DiskModify.WrongNameKept | src/Xen_DiskSettingData.c:543-595 | a successful change that leaves the wrong name on the image swapped in |
| DiskModify.NameIgnoredOnCd | src/Xen_DiskSettingData.c:543-595 | a successful change that ignores the name asked for on a CD drive |
| DiskModify.CanSucceedIff | src/Xen_DiskSettingData.c:465-515 | without failures a change succeeds exactly when the named image exists and may be put in, or, with none named, nothing is asked of the image held and it may be taken out |
| ProcessorModify.VmRecord.FromRasd | src/Xen_ProcessorSettingData.c:33-112 | for add, delete and modify, the maximum takes the quantity and the startup count the reservation, or the maximum if none is given, in signed fields; an instance is accepted exactly when both are at most eight, that is, when both exact counts get past the signed comparison |
| ProcessorModify.Server.Modify | src/Xen_ProcessorSettingData.c:200-254 | every intermediate state keeps 1 <= at startup <= maximum; an ordered request is never refused for ordering; the result is non-zero exactly when every call succeeded, and then both counts are the template's |
| ProcessorModify.LimitLetsThrough | src/Xen_ProcessorSettingData.c:33-112 | for any field and any of the three operations, which counts pass the comparison with eight |
| ProcessorModify.LimitHonouredIff | src/Xen_ProcessorSettingData.c:33-112 | the comparison means what it says if and only if the exact count is in neither of the two ranges that wrap |
| ProcessorModify.HugeRequests | src/Xen_ProcessorSettingData.c:54-65 | an addition, a setting and a removal that wrap |
| ProcessorModify.RequestIsOrderedIff | src/Xen_ProcessorSettingData.c:200-254 | which requests lead to an ordered target |
| SinglePrecision.RoundIsNearest | src/Xen_MemorySettingData.c:109-119 | rounding to a width of significand yields a number no multiple of any representable spacing is nearer to |
| SinglePrecision.RoundMonotone | src/Xen_MemorySettingData.c:109-119 | rounding to nearest is monotone |
| SinglePrecision.RoundFixes | src/Xen_MemorySettingData.c:109-119 | numbers that fit the significand are fixed |
| MemorySettings.RoundMemoryIsClose | src/Xen_MemorySettingData.c:109-119 | up to 2^44 the result is a whole number of megabytes, at least one; above one it is the floor or the ceiling, exact on whole megabytes |
| MemorySettings.RoundMemoryMonotone | src/Xen_MemorySettingData.c:109-119 | rounding memory is monotone on all integers |
| MemorySettings.RoundMemoryIdempotent | src/Xen_MemorySettingData.c:109-119 | and idempotent |
| MemorySettings.RoundsDownIff | src/Xen_MemorySettingData.c:109-119 | it rounds down exactly when the excess is lost to single precision |
| MemorySettings.RoundsUpToSixteenMegabytes | src/Xen_MemorySettingData.c:109-119 | it is the ceiling up to 16 MB |
| MemorySettings.OneByteLost | src/Xen_MemorySettingData.c:109-119 | and not one byte above |
| MemorySettings.VmRecord.FromRasd | src/Xen_MemorySettingData.c:35-107 | the static maximum takes the quantity, both minima the reservation or else the quantity, the dynamic maximum the limit or else the quantity, added, taken off or put in place, in signed fields; an instance that gives a quantity alone sets all four to it; a rejected instance changes nothing |
| MemorySettings.ImportedMeans | src/Xen_MemorySettingData.c:60-103 | the same of the specification function, for every instance and operation, up to wrapping round |
| MemorySettings.RoundTripIsIdentityIff | src/Xen_MemorySettingData.c:60-169 | for a halted VM exporting and re-importing is the identity exactly on positive whole megabytes with equal minima |
| MemorySettings.RoundTripIsClose | src/Xen_MemorySettingData.c:60-169 | in general it moves a field by at most a megabyte and keeps the four in order |
| MemorySettings.RoundTripTwice | src/Xen_MemorySettingData.c:60-169 | a second round trip changes nothing |
| ConsoleOptions.StrtokR | src/Xen_ConsoleSettingData.c:100-106 | one call ends the next token in place, leaves its text readable at the returned position, and leaves exactly the later tokens |
| ConsoleOptions.CountItems | src/Xen_ConsoleSettingData.c:97-107 | the first pass counts the tokens |
| ConsoleOptions.ParseOptions | src/Xen_ConsoleSettingData.c:93-148 | for every string, empty and all-comma ones included, the fill pass either rejects it or fills every counted entry with the pair of its token |
| ConsoleOptions.SplitAllIff | src/Xen_ConsoleSettingData.c:124-142 | the options are valid exactly when every token has an '=', and then there are as many pairs as tokens |
| ConsoleOptions.ParsedInvertsJoin | src/Xen_ConsoleSettingData.c:93-148 | parsing inverts joining any non-empty list of pairs whose keys have no ',' or '=' and whose values have no ',' |
| ConsoleOptions.AcceptedIsJoined | src/Xen_ConsoleSettingData.c:93-148 | conversely every accepted string means the same as the joined form of its options |
| KvpLifecycle.KvpClient.DestroyVif | kvpservice/kvpd.py:713-716 | afterwards the interface is as it was, or unplugged, or gone; it jams the VM exactly when left unplugged on a strict server |
| KvpLifecycle.KvpClient.CleanupVifs | kvpservice/kvpd.py:705-716 | success leaves no management interface; the user's interfaces are never touched; without faults it succeeds exactly unless an interface cannot be unplugged |
| KvpLifecycle.KvpClient.Clearup | kvpservice/kvpd.py:740-748 | the same, and the tag is gone from the VM's configuration |
| KvpLifecycle.KvpClient.CreateVif | kvpservice/kvpd.py:729-738 | success adds one tagged interface on the given network, numbered one past the count of those there; without faults exactly when that number is free; failure adds one or none |
| KvpLifecycle.KvpClient.AddInterface | kvpservice/kvpd.py:804-808 | afterwards there is no new interface, or one that is unplugged, or one that is plugged in; it jams the VM exactly when left unplugged on a strict server |
| KvpLifecycle.KvpClient.GetManagementVif | kvpservice/kvpd.py:750-766 | the one management interface, None exactly when there is none, an error when there are several |
| KvpLifecycle.KvpClient.SetupPersistentXenstoreData | kvpservice/kvpd.py:768-797 | success leaves the address and the restart key in the VM's stored data and the rest of it as it was |
| KvpLifecycle.KvpClient.SetupNetworkInterface | kvpservice/kvpd.py:800-820 | success leaves exactly one management interface, plugged in, on a host-internal network, with its address stored; from none, neither "could not find" nor "more than one" can be raised |
| KvpLifecycle.KvpClient.Setup | kvpservice/kvpd.py:822-845 | it succeeds only from no management interface, and then the VM is ready; the tag is only ever written on a VM that is |
| KvpLifecycle.KvpClient.SETUP | kvpservice/kvpd.py:847-849 | success leaves exactly one management interface and the tag, the migration tag and all else as it was; never two interfaces at any moment, wherever it fails |
| KvpLifecycle.KvpClient.PrepareMigration | kvpservice/kvpd.py:851-857 | success leaves no management interface, no tag, and the migration tag; that tag is only ever written after the rest is gone; exactly when it succeeds without faults, and what it destroys before failing on a second migration tag |
| KvpLifecycle.KvpClient.FinishMigration | kvpservice/kvpd.py:862-870 | success leaves the VM ready without the migration tag; nothing else changes before that tag is gone; without it nothing changes at all |
| KvpLifecycle.KvpClient.Execute | kvpservice/kvpd.py:847-873 | what each command achieves; a command jams a VM if and only if the server is strict and the command's last change to an interface was to create or unplug one |
| KvpLifecycle.KvpClient.Serve | kvpservice/kvpd.py:705-873 | over any run of commands under any failures: at most one management interface at every moment, so the two errors about it are never raised; the user's things are kept; every successful finish has a prepare of its own before it; a jammed VM fails every command; without faults, and with a network and a free number, the outcomes are those of a two-flag automaton |
| KvpLifecycle.JammedByOnePlug | kvpservice/kvpd.py:800-808 | one refused plug, after which every run of commands fails throughout |
| KvpLifecycle.NumbersInOrderLeaveRoom | kvpservice/kvpd.py:729-738 | user interfaces numbered up to their count leave the daemon's number free |
| KvpLifecycle.GapTakesRoom | kvpservice/kvpd.py:729-738 | interfaces 0 and 3 do not |
| KvpLifecycle.TagsMean | kvpservice/kvpd.py:847-873 | in that automaton a migration is pending, or the daemon installed, exactly when the last relevant accepted command says so |
| KvpLifecycle.PrepareAgain | kvpservice/kvpd.py:851-857 | set-up while a migration is pending makes the next prepare fail after tearing down, with finish still possible |

## Left out

- Effects of failed session calls: a call that fails on a C session is taken to have had no effect on the server; lost replies are modelled for the daemon only.
- Weak memory: shared accesses are interleaved one at a time, and a callback runs as one step of the engine.
- Worker cancellation, joining and re-initialisation after `jobs_uninitialize`; runs lie between initialise and uninitialise, and only the guard is proved.
- The heap list inside the interleaving: the step relation reads it as a sequence, and `WorkList` proves separately that the critical sections act on it that way.
- Job creation and the task object behind a job: a job enters the model with its stored record New.
- Server rules beyond those named: the server accepts a call when its state allows it, for example a host shutdown or reboot is refused on an enabled host; an operation that fails part-way is not distinguished. Whether a disk of another kind than a CD drive may be swapped, and whether an interface that is not plugged in may be unplugged, are parameters.
- Out-of-memory paths, CMPI property tables, tracing, sockets, curl and XML-RPC; their results are parameters where they matter.
- Error texts: messages are values of a datatype, not strings with Xen's details.
- MemorySettings.RoundMemoryIsClose: does not cover sizes above 2^44 or units other than one megabyte, because the code only uses that unit and larger sizes exceed any VM.
- `memory_rasd_modify`, the calls that send the four memory limits to Xen.
- SinglePrecision.RoundMonotone: does not cover negative, subnormal, infinite or not-a-number values, which a memory size never is.
- KvpLifecycle.KvpClient.GetCredentials: only which reads raise is modelled, not the credentials; the wait for the guest service is one local step whose answer is ignored, as it is in the code.
- KvpLifecycle.KvpClient.CreateVif: does not model an upper limit on device numbers, because the daemon sets none and XAPI is not part of this model.
- Live xenstore: a failing local write goes unnoticed in the code, so only the persistent copy is promised.
- Other clients of XAPI changing the same VM while a command runs.
- HTTP handling and retries of the daemon, switch flow rules, and the disabled start listener beyond what is said above.
- Providers with their own listing failure paths, the capability-setting providers, job filtering and processor flattening, which repeat the enumeration argument on easier cursors.
- Indications, metrics, storage and host pools, and documentation generators.
