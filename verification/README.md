# A model of the virtual USB host controller driver

The driver lets a user space program play USB devices. It has two coupled state machines behind one spinlock:

* **URBs.** Every accepted USB request block (URB) gets a private record that travels through four lists (inbox, fetched,
  cancel, canceling) until it is given back to its creator. Enqueue, dequeue, fetch-work, fetch-data, giveback and device
  removal move records concurrently, and a giveback drops the lock while it calls the creator back.
* **The root hub.** Hub requests, bus suspension and reports of user space change the status, change and flag words of the
  ports. Every change marks the port, and fetch-work hands marked ports to user space, scanning them in rotation.

## Layout

| file | contents |
|---|---|
| `Basics.dfy`, `Errno.dfy`, `Urbs.dfy` | optional values and sequence ends; error numbers; the part of an URB its creator fills in, and the tests on it |
| `UrbMachine.dfy` | the URB lists as a transition system whose steps are critical sections and unlocked actions; its invariant |
| `UrbInvariant.dfy` | every step keeps the invariant |
| `UrbRuns.dfy` | what holds after every interleaving of steps |
| `GivebackRuns.dfy` | a giveback by user space with other threads running in its unlocked windows |
| `Drain.dfy` | device removal with other threads running in its unlocked windows |
| `Ports.dfy` | one port: what each request does to its three words |
| `PortHistory.dfy` | a reference for a port: each bit explained by the events so far, and the proof that the words agree |
| `HubMachine.dfy` | the hub as a transition system: marks, the rotating scan, what user space saw last |
| `Wakeup.dfy` | fetchers sleeping on the wait queue while both machines run |
| `BitSet.dfy` | a flag word as a set, a byte buffer as a bitmap |
| `RootHub.dfy`, `UrbQueues.dfy`, `UserInterface.dfy`, `Payload.dfy` | the driver's own objects and loops, proved against the machines |

A run is a sequence of steps. A step that finds nothing to do changes nothing, so a theorem about `Play(steps)` for all
`steps` is a theorem about every interleaving of any number of threads. A submission is named by its index in acceptance
order and not by the address of its URB, because an URB can be submitted again after it was completed.

The classes keep the run they have made so far (`RootHub.ops`, `UrbQueues.trace`) as a ghost field, and their invariant says
that their fields are the state this run leads to. Their methods are proved to append exactly the steps that their
contracts name, so the theorems about runs apply to every valid object; `RootHub.PortIsLegal` is an example.

From usbcore the model takes only that an URB is enqueued while its `hcpriv` is null, that linking and unlinking may fail,
and that the creator of an URB leaves it alone while it is active. Allocation, copies to and from user space, signals and
timeouts are parameters.

## A promise the driver does not keep

`usb-vhci.h:135` defines an infinite timeout of -1 for fetch-work. The wait without a time limit returns 0 when there is
work, and `usb-vhci-iocifc.c:343` takes 0 for a timeout. So a fetch with a negative timeout never delivers work:
`InfiniteTimeoutNeverServes` gives the input, and `UserInterface.FetchWork` states the exact condition: pending work is
lowered if and only if there is work and the timeout is not negative.

## Model

| member | source | states |
|---|---|---|
| `Urbs.DataStage` | usb-vhci-iocifc.c:509-518 | a control transfer has the direction and length of its setup packet, any other one those of its pipe and buffer |
| `Urbs.RejectedIff` | usb-vhci-iocifc.c:405-447 | an URB is rejected at fetch time if and only if it is a control URB without a setup packet, or its data stage is longer than its buffer, or it has a data stage and no buffer, or it is IN with an empty data stage or no buffer |
| `Urbs.NoDataStageIsAcceptable` | usb-vhci-iocifc.c:424-428 | a control transfer to the device without data is never rejected |
| `UrbInvariant.AlwaysInv` | usb-vhci-hcd.c:156-303 | after every interleaving: list membership, `hcpriv`, records, statuses, report order and device references all agree with each other |
| `UrbRuns.OneOwner` | usb-vhci-hcd.c:156-303 | after every interleaving an accepted submission is in exactly one of the four lists, a running giveback or the completed ones, once, and an unknown one nowhere |
| `UrbRuns.StepMovesForward` | usb-vhci-iocifc.c:525-670 | every step moves its own submission strictly forward and leaves all others where they are; after unlinking only the callback and the put of the device touch it |
| `UrbRuns.RunAdvances` | usb-vhci-hcd.c:289-298 | over any continuation of any run no submission ever moves back |
| `UrbRuns.HcprivWhileLive` | usb-vhci-hcd.c:236-236 | `hcpriv` points to a record exactly while the submission is in a list or held by a giveback, so live handles are unique |
| `UrbRuns.CompletedOnce` | usb-vhci-hcd.c:124-136 | at most one callback and at most one status proposal per submission; the status delivered is the proposal if the URB came in with -EINPROGRESS, else the status it came in with |
| `UrbRuns.ReferencesConserved` | usb-vhci-hcd.c:171-188 | for each device, gets minus puts is the number of its live submissions plus its givebacks between unlink and put |
| `UrbRuns.ReportsOrdered` | usb-vhci-iocifc.c:353-455 | process reports come in acceptance order, cancel notices in dequeue order, each at most once, and a cancel notice only after the process report of that submission |
| `UrbRuns.HandedOutWasTested` | usb-vhci-iocifc.c:405-447 | everything in fetched, cancel, canceling or held by a giveback passed the test made at fetch time |
| `UrbRuns.SearchOrdersAgree` | usb-vhci-iocifc.c:479-506 | the search orders of giveback and of fetch-data find the same record, the one that `hcpriv` points to, if it is in one of the three lists |
| `GivebackRuns.HeldBySelf` | usb-vhci-iocifc.c:558-565 | a submission that a giveback has taken off its list, or unlinked, can be worked on by no step but those of that giveback |
| `GivebackRuns.WindowKeeps` | usb-vhci-iocifc.c:561-654 | however long other threads run while a submission is held, it keeps its place, its proposal and its completion |
| `GivebackRuns.SecondRemovalIsVoid` | usb-vhci-hcd.c:171-172 | in every reachable state the steps of a giveback after the first leave all four lists as they are, in spite of the second `list_del` |
| `GivebackRuns.GivebackInterleaved` | usb-vhci-iocifc.c:558-670 | with any steps of other threads between take, answer, return, callback and put: every step can be taken, only the first changes a list and only by removing the submission, the creator is called back exactly once in this run and all that follow, with the status that the answer and the initial status determine |
| `GivebackRuns.GivebackContract` | usb-vhci-iocifc.c:520-670 | a handle is found if and only if it is in one of the three lists; the giveback of a found one goes through as above, whatever other threads do meanwhile |
| `Drain.Interfere` | usb-vhci-hcd.c:171-189 | whatever other threads do in an unlocked window, no submission moves back, only enqueues lengthen the lists, and the submission being given back stays with its giveback |
| `Drain.FinishGiveback` | usb-vhci-hcd.c:176-188 | an unlinked submission is finished by its own thread, with windows of other threads after the callback and after the put |
| `Drain.GiveBackHead` | usb-vhci-hcd.c:950-953 | one round completes the head of the list, whatever others do meanwhile, and delivers -ESHUTDOWN for an URB that came in with -EINPROGRESS |
| `Drain.DrainList` | usb-vhci-hcd.c:948-954 | a drain loop ends with its list empty although others move records meanwhile |
| `Drain.Remove` | usb-vhci-hcd.c:948-973 | removal ends; everything accepted before its first loop ended has left the lists, and the four lists are empty if nothing was enqueued after that; without interference everything listed is completed with -ESHUTDOWN, unless it came in with a status of its own |
| `Ports.AlwaysLegal` | usb-vhci-hcd.c:420-497 | after any requests a port is in a state the USB specification allows and has no undefined bits |
| `Ports.HandleKeepsLegal` | usb-vhci-hcd.c:1172-1280 | each request, of whatever kind, keeps a legal port legal |
| `HubMachine.EveryPortLegal` | usb-vhci-hcd.c:528-614 | the same for every port of a hub after every interleaving of hub operations and fetches |
| `PortHistory.PortRefinesHistory` | usb-vhci-hcd.c:385-663 | after any requests each of the fourteen bits of a port is set if and only if the event table says that its last relevant event raised it |
| `PortHistory.AlwaysFollows` | usb-vhci-hcd.c:1172-1280 | on a legal port, a request marks the port exactly when it is an event of the reference, and then moves each bit as the table says; otherwise it leaves the words alone |
| `PortHistory.HoldsMeaning` | usb-vhci-hcd.c:420-614 | a bit holds if and only if some event raised it and none since raised or dropped it |
| `PortHistory.EnabledIffReset` | usb-vhci-hcd.c:1251-1272 | a port is enabled if and only if a reset was started and completed with ENABLE on the device now plugged in, and nothing disabled it since |
| `PortHistory.OvercurrentIsLatestReport` | usb-vhci-hcd.c:1245-1249 | the overcurrent bit is the one in the latest accepted overcurrent report, whatever else happened |
| `PortHistory.ResetCompletes` | usb-vhci-hcd.c:1251-1272 | on every legal resetting port a report with change 0x0010 and RESET clear is accepted, ends the reset, and enables the port if and only if it says so |
| `PortHistory.ChangeFeatures` | usb-vhci-hcd.c:483-491 | change features 16 to 20 clear and set bits 0 to 4 of the change word and nothing else |
| `PortHistory.Walkthrough` | usb-vhci-hcd.c:420-614 | a run in numbers in which every status, change and flag bit is set and cleared: plugged in, reset, enabled, suspended, resumed, overcurrent, disabled, switched off, failed reset, unplugged |
| `HubMachine.AlwaysCoherent` | usb-vhci-hcd.c:147-152 | after every interleaving marks name ports only, and an unmarked port is exactly as user space saw it last, or as it was at the start |
| `HubMachine.PortsAreIndependent` | usb-vhci-hcd.c:638-673 | after every interleaving a port is what its own requests made of it |
| `HubMachine.ScanFinds` | usb-vhci-iocifc.c:367-392 | the rotating scan finds the marked port nearest to its start, if any port is marked |
| `HubMachine.Fairness` | usb-vhci-iocifc.c:367-392 | a marked port stays marked until it is reported, which happens after at most port_count - 1 reports of other ports, no port twice, even if others are marked again forever |
| `HubMachine.MarkedMeansReport` | usb-vhci-iocifc.c:367-392 | a fetch while any port is marked reports a marked port |
| `Wakeup.NoLostWakeup` | usb-vhci-iocifc.c:329-350 | after every interleaving a fetcher that sleeps while there is work will be woken by an enqueuer that has released the lock and not yet issued its wakeup |
| `Wakeup.SleepUntilEnqueue` | usb-vhci-hcd.c:237-238 | a fetcher without work sleeps, stays asleep through an enqueue until its wakeup is issued, and then finds the work |
| `BitSet.SetAndClear` | usb-vhci-hcd.c:150-150 | setting and clearing a bit of the flag word adds and removes that number and no other |
| `BitSet.MapAfter` | usb-vhci-hcd.c:335-345 | setting one bit of the bitmap leaves all others as they were |
| `BitSet.MaskDoubles` | usb-vhci-hcd.c:342-342 | the mask of bit 0 of a byte is 1, and each further one is the last one shifted left |
| `RootHubDriver.ClearInWords` | usb-vhci-hcd.c:427-497 | the ClearPortFeature switch on a legal port marks it and moves its bits exactly as the event table says; it stalls exactly on unknown features; its outcome is that of the port machine |
| `RootHubDriver.SetInWords` | usb-vhci-hcd.c:537-614 | the SetPortFeature switch, likewise; ENABLE cannot be set |
| `RootHubDriver.StatInWords` | usb-vhci-hcd.c:1190-1275 | the switch on a port report, likewise; a report that is no event of the reference is refused without a change |
| `RootHubDriver.WordBytes` | usb-vhci-hcd.c:523-526 | of the two bytes of a status reply the first holds bits 0 to 7 and the second bits 8 to 15 |
| `RootHubDriver.ReportableIff` | usb-vhci-hcd.c:1190-1272 | a report is accepted if and only if the status word of the port allows it, in numbers |
| `RootHubDriver.RootHub.constructor` | usb-vhci-hcd.c:788-852 | a new hub is the start of a run: all ports off, nothing marked |
| `RootHubDriver.RootHub.PortIsLegal` | usb-vhci-hcd.c:420-614 | every port of a valid hub object is in a state the USB specification allows |
| `RootHubDriver.RootHub.MarkPort` | usb-vhci-hcd.c:147-152 | marking adds the port to the set of marks |
| `RootHubDriver.RootHub.HubControl` | usb-vhci-hcd.c:385-636 | returns 0 exactly under the argument conditions listed for each kind, with the feature numbers written out, -ETIMEDOUT if and only if the hardware is not accessible, else -EPIPE; a feature request changes its port as the port machine says and no other, anything else changes nothing; a status request is answered with the two words of the port; polls if and only if a port has change bits |
| `RootHubDriver.RootHub.HubStatus` | usb-vhci-hcd.c:312-355 | bit j of byte i is set if and only if port 8 i + j has changes, bit 0 is clear, nothing is written beyond 1 + port_count / 8 bytes; the result says whether any bit is set |
| `RootHubDriver.RootHub.PortStatIoctl` | usb-vhci-hcd.c:1172-1280 | -EINVAL if and only if the port number or the change word is not one of those listed in numbers; 0 if and only if the port can take the report, which then changes that port alone, marks it and polls the root hub; -EPROTO otherwise, without a change |
| `RootHubDriver.RootHub.SuspendRootHub` | usb-vhci-hcd.c:638-673 | suspends and marks exactly the enabled ports that are not suspended, ends their resuming, leaves all others alone, and puts the hub to sleep |
| `RootHubDriver.RootHub.ResumeRootHub` | usb-vhci-hcd.c:675-702 | resumes the hub if the hardware is accessible, else -ENODEV without a change |
| `RootHubDriver.RootHub.SuspendController` | usb-vhci-hcd.c:988-1008 | the hardware becomes inaccessible unless the hub is running, which is answered with -EBUSY |
| `RootHubDriver.RootHub.ResumeController` | usb-vhci-hcd.c:1010-1023 | the hardware becomes accessible again |
| `RootHubDriver.RootHub.Fetched` | usb-vhci-iocifc.c:376-381 | handing out a port clears its mark and no other, and is a fetch of the hub machine |
| `Payload.TakeAnswer` | usb-vhci-iocifc.c:567-650 | 0 if and only if the answer is right, and then the URB holds the user's data, packet results and counts; a refused answer changes nothing; all that the URB holds is given for every answer; no access is out of bounds |
| `Payload.AcceptedIff` | usb-vhci-iocifc.c:567-633 | for each kind and direction, when an answer is accepted, as an if-and-only-if on lengths, packet count and readable memory |
| `Payload.RefusedIff` | usb-vhci-iocifc.c:570-633 | -ENOBUFS if and only if IN data has the wrong length; -EFAULT if and only if memory cannot be read and the rest up to there is right; -EINVAL otherwise |
| `Payload.AnswerArrives` | usb-vhci-iocifc.c:609-648 | for a right answer the first bytes of the buffer are the user's and the rest is unchanged, and every iso packet has its result; OUT data and the results of other kinds stay |
| `Payload.ReadData` | usb-vhci-iocifc.c:742-794 | the data of an OUT transfer and all iso descriptors are copied; refused on exactly the listed conditions; no access is out of bounds |
| `Payload.ReadIff` | usb-vhci-iocifc.c:758-794 | for iso and other URBs, when data is handed out, and when -ENODATA or -EINVAL is the answer, each as an if-and-only-if |
| `Payload.ReportedLengthSuffices` | usb-vhci-iocifc.c:786-792 | a reader that offers what the fetch reported is never told that its buffer is too short |
| `UrbQueuesDriver.UrbQueues.constructor` | usb-vhci-hcd.c:788-852 | new lists are the start of a run |
| `UrbQueuesDriver.UrbQueues.Enqueue` | usb-vhci-hcd.c:195-240 | -EINVAL for a length without a buffer, then -ENOMEM, then the error of linking; on success alone the URB goes to the tail of the inbox, as an enqueue step; each error leaves everything as it was |
| `UrbQueuesDriver.UrbQueues.MaybeSetStatus` | usb-vhci-hcd.c:124-136 | the status cell takes the proposal only if it holds -EINPROGRESS |
| `UrbQueuesDriver.UrbQueues.Giveback` | usb-vhci-hcd.c:156-189 | takes the unlink, callback and put steps of one submission, and the creator gets the status that the run delivers |
| `UrbQueuesDriver.UrbQueues.Find` | usb-vhci-iocifc.c:479-506 | the search loop finds the first entry of the list with the handle |
| `UrbQueuesDriver.UrbQueues.Dequeue` | usb-vhci-hcd.c:245-303 | a waiting URB leaves the inbox and is completed with the status it came in with, a fetched one goes to the tail of the cancel list, any other is left alone |
| `UrbQueuesDriver.UrbQueues.FindHandedOut` | usb-vhci-iocifc.c:537-556 | the search of giveback and whether the URB was canceled |
| `UrbQueuesDriver.UrbQueues.AnswerUrb` | usb-vhci-iocifc.c:558-670 | the submission is taken off its list and completed whatever the answer; its contents are what the answer makes of them, no other URB is written, and all lists keep their other entries |
| `UrbQueuesDriver.UrbQueues.GivebackIoctl` | usb-vhci-iocifc.c:525-670 | -ENOENT if and only if no submission in the three lists has the handle, and then nothing changes; a right answer returns 0, or -ECANCELED for a canceled URB, is stored in the named URB alone, and delivers its status; a wrong one returns its error and delivers the initial status; in both cases the submission is completed and the lists lose nothing else |
| `UrbQueuesDriver.UrbQueues.FindForData` | usb-vhci-iocifc.c:728-742 | the search of fetch-data finds what the search of giveback would find |
| `UrbQueuesDriver.UrbQueues.FetchDataIoctl` | usb-vhci-iocifc.c:710-826 | -ENOMEM if and only if an allocation fails; else -ENOENT if and only if no submission in the three lists has the handle; a canceled one returns -ECANCELED, leaves the lists and is completed with its initial status; a fetched one changes no list and is read, with -EFAULT if and only if there is something to copy and the copy fails |
| `UrbQueuesDriver.UrbQueues.ReportFirstCancel` | usb-vhci-iocifc.c:352-365 | the oldest cancel request moves to the tail of canceling and its handle is reported |
| `UrbQueuesDriver.UrbQueues.FetchFirst` | usb-vhci-iocifc.c:453-456 | the first waiting URB moves to the tail of fetched |
| `UrbQueuesDriver.UrbQueues.RejectFirst` | usb-vhci-iocifc.c:463-471 | an invalid URB is completed with -EPIPE if it came in with -EINPROGRESS, and nothing else moves |
| `UserInterfaceDriver.CandidateIsRemainder` | usb-vhci-iocifc.c:375-375 | the remainder that the driver computes is the port at that place of the scan |
| `UserInterfaceDriver.UserInterface.HasWork` | usb-vhci-hcd.c:1158-1169 | true if and only if a port is marked, a cancel request waits or an URB waits |
| `UserInterfaceDriver.UserInterface.ScanPorts` | usb-vhci-iocifc.c:371-391 | the loop finds the port that the hub machine reports next |
| `UserInterfaceDriver.UserInterface.ReportPort` | usb-vhci-iocifc.c:367-392 | the marked port nearest to the offset is reported as it is now, its mark alone is cleared, and the next scan begins behind it |
| `UserInterfaceDriver.TestUrb` | usb-vhci-iocifc.c:405-447 | the branches of the test amount to the validity predicate, and the length reported is that of the data stage |
| `UserInterfaceDriver.UserInterface.NextUrb` | usb-vhci-iocifc.c:394-476 | exactly the maximal invalid prefix of the inbox is given back with -EPIPE and the first valid URB is fetched; -ENODATA if there is none |
| `UserInterfaceDriver.UserInterface.Serve` | usb-vhci-iocifc.c:352-476 | cancel before ports before URBs; -ENODATA if and only if there is no cancel request and no marked port and the whole inbox is invalid; pending work gets strictly less whenever there is any |
| `UserInterfaceDriver.ServedMeans` | usb-vhci-iocifc.c:352-456 | what serving means for each list, the marks and the report handed out, in each of the three cases |
| `UserInterfaceDriver.UserInterface.FetchWork` | usb-vhci-iocifc.c:308-476 | an ended wait gives the error and changes nothing; otherwise the oldest cancel request is served if there is one, else a marked port, else the first URB of the inbox, which is fetched if it passes the test and completed with -EPIPE if not; pending work gets less if and only if there is work and the timeout is not negative |
| `UserInterfaceDriver.Awaited` | usb-vhci-iocifc.c:329-350 | the wait lets the fetch go on if and only if there is work and the timeout is not negative; -EINTR if and only if there is no work and a signal ends the wait; -ETIMEDOUT otherwise |
| `UserInterfaceDriver.InfiniteTimeoutNeverServes` | usb-vhci-iocifc.c:335-344 | with the infinite timeout a fetch that finds work returns -ETIMEDOUT |

## Left out

- Drain.Remove: works on values that other threads change between its steps, so it does not capture list pointers updated in place.
- UrbQueuesDriver.UrbQueues.GivebackIoctl: the class methods run without interference; interleavings are the subject of `UrbRuns`, `GivebackRuns`, `Drain` and `Wakeup`.
- UserInterfaceDriver.UserInterface.FetchWork: starts in the state in which the wait ends; what happens during the wait is in `Wakeup`. A time limit that runs out in the moment work appears counts as work found.
- Payload.TakeAnswer: a copy that fails changes nothing, where the kernel may copy a part; a copy of a negative length fails; URB lengths and packet counts are not negative.
- Payload.ReadData: an allocation of a negative size fails in `FetchDataIoctl`, with -ENOMEM.
- RootHubDriver.RootHub.HubControl: the bytes of a hub descriptor, of which the driver initialises only the first seven.
- Address, endpoint, type, flags and interval of a fetched URB, and its setup packet beyond direction and length, which are copied unchanged.
- The linked lists of the kernel: lists are sequences, and `list_del` takes a record out of whichever list it is in.
- The decoding of ioctl arguments and their 32-bit variants.
- Registration of devices and the search for a free id, except for the bound of 31 ports.
- Module set-up, sysfs attributes and debug output.
- The older giveback mechanism selected by `OLD_GIVEBACK_MECH`.
