# rawusb: a verified model of its protocol machines

rawusb is a USB library in Rust.  Most of it is glue to an operating system, but it contains several
protocol machines that can be stated and proved by themselves.  This project models them in Dafny and
proves what they are for.

* **The life of a URB** (`UrbModel`, `UrbInvariant`, `UrbSafety`, `UrbKernel`, `UrbStatus`, `UrbDiscard`,
  `LinuxHandle`, `UrbSplit`, `UrbBuffer`). User threads submit and cancel; one event thread reaps URBs,
  expires deadlines and drains after an unplug; the kernel accepts, refuses, finishes or gives up URBs as it
  likes. A step of `UrbModel` is one critical section or one ioctl, so every interleaving is a sequence of
  steps, and the results hold for all of them. `LinuxHandle` is the backend as a class whose fields are
  updated in place: each method makes exactly the steps of the model, and `Valid()` says that the fields are
  what some run from the start leads to. `UrbSplit` is how a buffer is cut into URBs, `UrbBuffer` what the
  length that a run reports says about it.
* **Transfers and completions** (`Transfer`, `Completion`): the state behind a transfer, threads in `wait`,
  polled futures, callbacks that submit again, and a `Repeating` being dropped, again under every interleaving.
* **Mass storage** (`Scsi`, `SenseData`, `BulkDevice`, `BulkTransport`, `MassStorage`, `Refusals`, `MscDriver`,
  `FlatDisk`, `BlockDevice`): from a cursor over a disk, down over read-modify-write blocks, chunks of READ and WRITE
  commands, retries after a unit attention, and the Bulk-Only Transport with its recovery, to a device that
  decodes the bytes of the wrappers and command blocks it is sent (USB Mass Storage Bulk-Only Transport 1.0,
  sections 5.1 to 5.3, 6.3, 6.6 and 6.7; SBC-3, clause 5).  What the device and the line do is an arbitrary
  script: faults, halts, short transfers, short status, failed commands and phase errors, wrappers taken and
  forgotten.
* **Hotplug** (`Hotplug`, `HotplugReplay`, `HotplugSafety`, `HotplugListeners`, `HotplugRegistry`): device changes,
  notifications that coalesce, the dispatch loop and listeners that join or leave, as interleaved steps, and
  the registry as a class.
* **Video** (`UvcAssembler`, `UvcFrames`, `UvcStream`, `UvcBytes`, `UvcPump`): reassembly of frames from payloads (UVC
  1.5, section 2.4.3.3) against a definition that first splits the whole stream into runs and then builds a
  frame of each, a packetiser as its inverse, and the bounded queue behind it.
* **Network framing** (`Ncm`, `Rndis`): 16-bit NCM transfer blocks (NCM 1.0, sections 3.2 and 3.3) and RNDIS
  packet messages ([MS-RNDIS], section 2.2.14), both ways.
* **HID** (`HidBits`, `HidReport`, `HidWriter`, `HidDocument`): report descriptors (HID 1.11, section 6.2.2)
  and values of up to 32 bits in reports (section 5.8), with writers as the inverses of the readers.
* **Configuration trees** (`ConfigTree`, `ConfigGroups`, `ConfigPrint`): parsing (USB 2.0, sections 9.6.3,
  9.6.5 and 9.6.6) against a definition that cuts the list of descriptors, and a printer as its inverse.
* **FTDI rates** (`Ftdi`): the divisor of a rate and its encoding, decoded again (AN232B-05).

`Wrappers`, `Arith` and `Bytes` hold what they share.  Where the source changes fields or arrays step by step,
so does the model, and each method is tied by its contract to a function of the inputs or of the old state; the
lemmas then are about that function.  Threads are steps; time is a step too (a deadline passes, a wait runs
out).  The kernel, the device, the line and the enumeration of the bus are arbitrary, within what is stated.

## What turned out not to hold

* `clear_callback` called by the running callback itself succeeds and is then undone, since the callback is put
  back if it left none behind (src/transfer.rs:90-96).  `Completion.SettingSticks` says exactly when a change
  of callback lasts, `Completion.ClearUndone` is a run of a new transfer in which clearing it does not.
* A reset recovery that gets past the reset but fails to clear the halt of the IN pipe leaves a device that
  takes wrappers while that pipe is halted.  The data phase of the next command that reads stalls on the old
  halt; the library takes the stall for the command's own, clears it, and reads what the device sends as data
  for the status.  Data that looks like a status with the right tag is accepted, and the device is left with
  the real status to send.  `BulkTransport.InStepExactly`: the devices that an accepted status can leave out of
  step are exactly those, `HalfRecovered`.  `BulkTransport.HalfRecoveredHappens` is how one comes about, and
  `BulkTransport.WholeUnlessRecoveryFails` says that only a failed recovery makes one.  `transport` discards the
  outcome of its recovery (src/msc/mod.rs:328-334); a caller learns of one by calling `reset_recovery`, whose
  success is enough.
* `open_interface` starts at tag 1 and sends no reset (src/msc/mod.rs:160-191), so a device that still owes a
  status under that tag, from a driver before, gives it to the first command: `MassStorage.LeftOverCanFool`.  And
  the tag is 32 bits wide and wraps.  `MassStorage.NeverStaleExactly`, for any device at opening: after `n`
  operations no status is stale if and only if the last recovery went through, or there was none and the device
  was clean to begin with, and `n` is less than 2^32.  `MassStorage.WrappedTagCanFool` and
  `MassStorage.FailedRecoveryCanFool` are runs from a device in step that fail the condition.  A caller makes
  sure of it with a `reset_recovery` that succeeds, after opening and after an error.
* A class filter may match a device before and not after its active configuration loses an interface of the
  class, which is no arrival and no departure.  `HotplugSafety.UpToDateExactly`: over all runs, what a listener
  heard replays to what is known if and only if its filter asks for no class; `HotplugSafety.ClassOutOfDate` is
  the run, and `HotplugReplay.PlaysOutExactly` the same of a single rescan.
* When an enumeration fails after the notification was consumed, the change stays unnoticed until the next
  one.  `HotplugSafety.RestIsCurrentExactly`: a registry at rest is up to date if and only if its last
  enumeration succeeded.
* A READ or WRITE of no blocks at block 2^32 does not fit its 10-byte form: `Scsi.RwRoundTrip` (the library
  never sends one).
* The channel of interface 255 needs nine bits and is lost, on the chips that have channels; all others are
  recovered: `Ftdi.ChannelExactly`.  A divisor of zero looks like the one of eight eighths:
  `Ftdi.ZeroLooksLikeEight` (no accepted rate has it).
* `build_ntb16` builds a block that its own parser takes only if the frame is at least an Ethernet header
  long and the alignment puts the NDP at a multiple of four: `Ncm.BuildParses`.  `Ncm.NdpAligned` lists the
  alignments that do.

## Model

| member | source | states |
|---|---|---|
| UrbSafety.ExactlyOnce | src/sys/linux/mod.rs:553-787 | In every run, a submission completes at most once, only if it returned Ok, and exactly once by the time the kernel and the event thread hold nothing of it, whatever they hold of others |
| UrbSafety.BufferOwned | src/transfer.rs:226-233 | While the kernel holds a URB, it is in `pending`, its transfer is in flight, and another submit changes nothing |
| UrbSafety.Conservation | src/sys/linux/mod.rs:676-744 | For a live submission, pending URBs, the one being finished and those reaped add up to its URBs |
| UrbSafety.NeverStuck | src/sys/linux/mod.rs:676-787 | While a completion is owed, the kernel, the event thread or a submit under way can take a step |
| UrbSafety.OwedIsHeld | src/sys/linux/mod.rs:553-606 | A submission that returned Ok and has not completed has a URB in the kernel, or is in the event thread's hands, or an unplug is still to be noticed |
| UrbSafety.CancelFindsIt | src/sys/linux/mod.rs:620-629 | In every run, a transfer that nobody is submitting is in flight if and only if it has a live submission to cancel, or one that is being published |
| UrbSafety.RunInv | src/sys/linux/mod.rs:553-787 | The invariant of the life cycle (URBs, `pending`, submissions, history) holds throughout every run |
| UrbSafety.StepInv | src/sys/linux/mod.rs:553-787 | Each critical section and ioctl, by whatever thread, keeps the invariant |
| UrbStatus.StatusAttribution | src/sys/linux/mod.rs:701-752 | The reported length is the sum over the reaped URBs; unless drained, the status is the verdict on what happened: a deadline or cancel that caught a pending URB, else Error for a partial submit, else what the condition behind the first failure that we did not cause deserves; Cancelled needs a cancel that hit |
| UrbStatus.FirstFailureDecides | src/sys/linux/mod.rs:790-800 | In every run, undisturbed, a first genuine failure by a stall is reported as Stall, by babble as Overflow, by removal as NoDevice, by a time-out as TimedOut and by anything else as Error |
| UrbStatus.NoFailureCompletes | src/sys/linux/mod.rs:746-759 | And without a genuine failure the submission has completed |
| UrbStatus.CodeReadsBack | src/sys/linux/mod.rs:790-800 | Every code the kernel writes for a condition is read as that condition; an unlink as none, any other code as Error |
| UrbStatus.MovedIsBrought | src/sys/linux/mod.rs:711-726 | A URB moved the bytes of all its packets, or its length if that is not negative |
| UrbDiscard.NoneRunsOn | src/sys/linux/mod.rs:736-742 | In every run the kernel works on no URB behind one that came short or failed, and on none of a submission that was cancelled, timed out or refused in part |
| UrbDiscard.OnlyUselessKilled | src/sys/linux/mod.rs:608-618 | In every run the library takes only such URBs from the kernel |
| UrbStatus.FirstGenuineIsFirst | src/sys/linux/mod.rs:728-734 | The failure that counts is the earliest whose condition is no unlink and whose URB does not continue one that had already failed or come short |
| UrbStatus.RunStatus | src/sys/linux/mod.rs:588-673 | Throughout every run, status, length and flags of each live submission are what its history of reaps, cancels, expiries and refusals says |
| LinuxHandle.Handle.Start | src/sys/linux/mod.rs:553-556 | A submit is refused as busy while in flight, as gone after a disconnect, and otherwise puts the transfer in flight |
| LinuxHandle.Handle.Insert | src/sys/linux/mod.rs:553-571 | Every URB of the new submission enters `pending` before any is offered to the kernel; a failed build leaves nothing |
| LinuxHandle.Handle.RemoveFrom | src/sys/linux/mod.rs:578-593 | Exactly the URBs from an index on leave `pending` |
| LinuxHandle.Handle.Discard | src/sys/linux/mod.rs:608-618 | Asks the kernel to give up the URBs from an index on; the count is positive exactly if one of them was still active |
| LinuxHandle.Handle.Take | src/sys/linux/mod.rs:574-577 | An accepted URB is the kernel's, and the next one is offered |
| LinuxHandle.Handle.RefuseFirst | src/sys/linux/mod.rs:578-586 | A refused first URB undoes the submission: nothing pending, not in flight, an error |
| LinuxHandle.Handle.RefuseLater | src/sys/linux/mod.rs:587-601 | A later refusal cuts the submission to what was accepted, marks it failed and discards that |
| LinuxHandle.Handle.TakeAll | src/sys/linux/mod.rs:574-577 | The loop stops at the first URB the kernel refuses, having made every one before it the kernel's |
| LinuxHandle.Handle.Submit | src/sys/linux/mod.rs:553-606 | Ok exactly if the transfer was idle, the device there, the build succeeded and a URB was accepted; then it holds the accepted URBs, otherwise nothing is left behind |
| LinuxHandle.Handle.Cancel | src/sys/linux/mod.rs:620-629 | Not found without a submission; else all its URBs are discarded and it counts as cancelled only if one was still pending |
| LinuxHandle.Handle.Expire | src/sys/linux/mod.rs:659-673 | A passed deadline discards once, and times the submission out only if a URB was still pending |
| LinuxHandle.Handle.CountMoved | src/sys/linux/mod.rs:711-726 | The loop over packets adds up the bytes of a URB |
| LinuxHandle.Handle.AccountUrb | src/sys/linux/mod.rs:701-744 | The status rules amount to the accounting that StatusAttribution is about; says whether the tail is to be discarded |
| LinuxHandle.Handle.FinishLocked | src/sys/linux/mod.rs:701-752 | The last URB takes the submission for completion; earlier ones leave it with one more reaped |
| LinuxHandle.Handle.FinishUrb | src/sys/linux/mod.rs:701-761 | A reaped URB is accounted for, the tail discarded where it must be, and at most this transfer is left to be completed |
| LinuxHandle.Handle.TakeBack | src/sys/linux/mod.rs:676-697 | A reaped URB was in `pending`, and leaves it together with the kernel's hands |
| LinuxHandle.Handle.Reap | src/sys/linux/mod.rs:676-697 | Ends with nothing left to reap, and on a vanished device with everything drained |
| LinuxHandle.Handle.Complete | src/transfer.rs:74-86 | Publishes the outcome of the submission taken and clears `in_flight` |
| LinuxHandle.Handle.Disconnect | src/sys/linux/mod.rs:764-787 | Afterwards `pending` is empty, and every transfer that was in it is idle with NoDevice |
| UrbSplit.BuildBulk | src/sys/linux/mod.rs:864-935 | The URBs tile the buffer; too long or too old a kernel are the only errors; continuation on all but the first, zero-packet on the last only; every URB but the last is of 16384 bytes, and there is only one with scatter-gather |
| UrbSplit.BuildIso | src/sys/linux/mod.rs:937-958 | The URBs tile buffer and packets alike, with the offset of its first packet each, and 128 packets in all but the last |
| UrbSplit.TilesOrdered | src/sys/linux/mod.rs:910-935 | An earlier URB ends where or before a later one begins |
| UrbSplit.TilesOnce | src/sys/linux/mod.rs:910-935 | Every byte of the buffer lies in exactly one URB |
| UrbSplit.ReceivedIsPrefix | src/sys/linux/mod.rs:711-744 | If no data follows a short URB, the first `actual` bytes of the buffer are the bytes received |
| UrbSplit.PrefixNeedsShortEnds | src/sys/linux/mod.rs:740-744 | And only then, whence the discarding of the tail |
| UrbBuffer.RunOnce | src/sys/linux/mod.rs:701-708 | In every run, no URB of a submission is accounted for twice |
| UrbBuffer.TotalIsSum | src/sys/linux/mod.rs:711-726 | So the total is the sum, URB by URB, of what each brought back |
| UrbBuffer.RunPlanned | src/sys/linux/mod.rs:553-606 | In every run the URBs of a submission, reaped or not, are those that `build` planned, all or the first of them |
| UrbBuffer.ActualIsPrefix | src/sys/linux/mod.rs:701-787 | In every run, when a submission cut into pieces completes, no data followed a short URB and the kernel moved no more than asked, the first `actual` bytes of the buffer, for the `actual` it reports, are the bytes received |
| Transfer.DataIsWhatMoved | src/transfer.rs:297-309 | `data` is the moved bytes past a setup packet, cut only where the buffer ends |
| Transfer.SubmittableMeans | src/transfer.rs:376-390 | What is submitted has room for eight setup bytes, or has packets all of which end inside the buffer, if and only if its kind asks for that |
| Transfer.Inner.SubmitTo | src/transfer.rs:374-396 | Busy in flight, invalid if the buffer does not fit the kind, else as the backend says; refused, it is idle again with no length |
| Transfer.Inner.PublishResult | src/transfer.rs:74-86 | Completion clears `in_flight`, sets status and length and takes callback and wakers |
| Transfer.Inner.PollCompletion | src/transfer.rs:510-519 | Ready with the status when idle; in flight, the waker is registered unless one that wakes the same task is |
| Transfer.StartAgrees | src/transfer.rs:391-399 | The life cycle of URBs puts a transfer in flight, or refuses to, as `submit` does |
| Transfer.PublishAgrees | src/transfer.rs:74-86 | And publishes an outcome as `complete` does |
| Completion.NoLostWaiter | src/transfer.rs:414-440 | In every run wakers exist only in flight, a blocked thread or pending task waits for a live submission, and a task whose submission is over is owed its wake |
| Completion.OwedIsWoken | src/transfer.rs:74-89 | An owed task has been woken when the event thread has called its wakers |
| Completion.WokenByCompletion | src/transfer.rs:510-519 | Every task pending when a completion is published is woken by it |
| Completion.CleanStop | src/class.rs:95-116 | After a `Repeating` set its stop flag nothing is submitted, at most one more completion happens, and what is in flight then has been asked to cancel |
| Completion.AgainExactly | src/class.rs:98-104 | In every run the event thread submits again if and only if the callback last asked for it and nobody asked to stop |
| Completion.EndsWithLast | src/transfer.rs:414-440 | In every run a `wait` or poll that ends finds the transfer idle and gives the status of its last completion |
| Completion.StaysDown | src/class.rs:98-116 | Stopped and not in flight, it never flies again |
| Completion.CallbackKeptByRun | src/transfer.rs:90-96 | The callback, installed or in the event thread's hands, changes only through the setters |
| Completion.SettingSticks | src/transfer.rs:262-275 | A change of callback lasts if and only if it sets one, or the event thread is not holding one |
| Completion.ClearUndone | src/transfer.rs:90-96 | A run of a new transfer, through submit and completion, in which clearing from inside the callback is undone |
| Completion.RunInv | src/class.rs:95-116 | The invariant of waiters, callback and stop protocol holds throughout every run |
| Completion.Repeating.Start | src/class.rs:95-107 | Fails, changing nothing, on a busy transfer; succeeds exactly if it gets the transfer in flight with its callback |
| Completion.Repeating.AfterCompletion | src/class.rs:98-104 | Submits again exactly if asked to and not stopped |
| UvcAssembler.Assembler.MarkLost | src/uvc/stream.rs:189-193 | A lost packet damages a frame under way and nothing else |
| UvcAssembler.Assembler.Payload | src/uvc/stream.rs:196-246 | Header, turn of FID, data, PTS, error and EOF have the effect and emit the frames of the transition function |
| UvcAssembler.Assembler.TurnTo | src/uvc/stream.rs:211-216 | A turned FID finishes the frame under way and says where the next begins |
| UvcAssembler.Assembler.ExtendFrame | src/uvc/stream.rs:217-245 | Data goes into the frame under way up to the cap, past which it is in error |
| UvcAssembler.Assembler.FinishFrame | src/uvc/stream.rs:248-257 | A non-empty frame is emitted under the next number, an empty one dropped |
| UvcFrames.FeedMeets | src/uvc/stream.rs:189-258 | For any payloads and losses, a fresh assembler emits exactly the frames built of the runs of equal FID |
| UvcStream.RunsFlat | src/uvc/stream.rs:205-216 | The runs keep every payload in order and FID alternates between them |
| UvcStream.AnyStream | src/uvc/stream.rs:189-258 | The i-th frame out has number i, comes of a run after the first, is non-empty and within the cap, and without error flag it is all data of its run up to EOF |
| UvcStream.BuildWhole | src/uvc/stream.rs:217-245 | A frame is without error if and only if nothing of its run was damaged and all fits the cap; then it is all the data |
| UvcStream.RoundTrip | src/uvc/stream.rs:196-258 | Frames split anyhow into payloads, with idle packets, optional EOF and error flags, come out whole and in order from the second on, the last only if ended, in error if and only if a payload was flagged |
| UvcBytes.AnyBytes | src/uvc/stream.rs:189-258 | For any bytes, by the bits of their headers: frame `i` has number `i`, is neither empty nor over twice the frame size, and is without error if and only if all payloads of its run, up to the one that ends it, are sound, unflagged and fit; then it is all their data |
| UvcBytes.DecodesAs | src/uvc/stream.rs:196-210 | What the fields of a payload header are, and when it is empty or broken |
| UvcPump.Pump.Emit | src/uvc/stream.rs:376-380 | A frame is queued if there is room among four, else counted as dropped |
| UvcPump.Pump.Deliver | src/uvc/stream.rs:356-388 | All frames a payload completes are queued or counted, and frames are dropped only into a full queue |
| UvcPump.Pump.OnComplete | src/uvc/stream.rs:356-405 | Keeps the account of delivered, queued and dropped frames whatever the completion was |
| UvcPump.Pump.Next | src/uvc/stream.rs:327-337 | The oldest queued frame is delivered; an empty queue reports the stream's failure, if any, else a time-out |
| UvcPump.DroppedAreTheGaps | src/uvc/stream.rs:376-380 | Delivered frames are frames of the stream, gaps in their numbers are drops, and delivered, queued and dropped add up to all |
| Scsi.RwRoundTrip | src/msc/scsi.rs:207-220 | A READ or WRITE decodes to its block and count, except for no blocks at block 2^32 |
| Scsi.RwBytes | src/msc/scsi.rs:207-220 | The bytes of the command block, with its opcode, big-endian, in 10 bytes if 32 and 16 bits hold it and else in 16 |
| SenseData.SenseReadsBack | src/msc/scsi.rs:164-180 | Sense data in either format, cut off anywhere behind the key, is read back |
| SenseData.SenseOnly | src/msc/scsi.rs:164-180 | And nothing else is taken for sense data |
| SenseData.KindOfTrouble | src/msc/scsi.rs:187-196 | The error is that of the condition: no medium, becoming ready, bad request, write protection, end of medium, other; only a change is to be tried again |
| Scsi.BuildRwCdb | src/msc/scsi.rs:207-220 | The array filled in place holds that command block |
| BulkDevice.CbwRoundTrip | src/msc/mod.rs:267-274 | The device decodes a wrapper to its tag, length, direction, unit and command block |
| BulkDevice.CswFields | src/msc/mod.rs:308-326 | The fields the library reads from a status wrapper are the ones the device put there |
| BulkDevice.CbwBytes | src/msc/mod.rs:267-274 | The 31 bytes one by one |
| BulkDevice.CswBytes | src/msc/mod.rs:308-326 | The 13 bytes one by one |
| BulkTransport.OkIsInStep | src/msc/mod.rs:254-326 | Ok leaves a device that is not half-recovered ready for a wrapper, and it had taken on this command, or a status was pending under the same tag |
| BulkTransport.InStepExactly | src/msc/mod.rs:254-326 | No command and no behaviour of line and device can end in Ok out of step, if and only if the device is not half-recovered |
| BulkTransport.HalfRecoveredFools | src/msc/mod.rs:284-307 | From every half-recovered device: a command that ends in Ok while the device still owes its status |
| BulkTransport.HalfRecoveredHappens | src/msc/mod.rs:337-350 | A device in step becomes half-recovered by a stalled data phase and a recovery that fails to clear IN |
| BulkTransport.WholeUnlessRecoveryFails | src/msc/mod.rs:328-350 | A command makes a device half-recovered only if its recovery failed |
| BulkTransport.RecoveryRestores | src/msc/mod.rs:337-350 | A recovery that succeeds makes any device wait for a wrapper, and touches no data |
| BulkTransport.ErrRecovers | src/msc/mod.rs:281-334 | Every error but a vanished device has attempted exactly one recovery, and Ok none |
| BulkTransport.TransportPerforms | src/msc/mod.rs:254-326 | From a device in step: only addressed blocks may change; a passed READ delivers the medium's bytes, a passed WRITE stores exactly the data, with no residue |
| BulkTransport.AtMostOnce | src/msc/mod.rs:254-326 | No command is taken on twice by any device, whatever comes of it |
| BulkTransport.CalmPasses | src/msc/mod.rs:254-326 | When nothing fails, a command the device can do passes |
| MassStorage.StatusIsNeverStale | src/msc/mod.rs:160-350 | On any device at opening, for each of the first 2^32 operations: if the last recovery before it went through, or there was none and the device was clean, Ok means that this very command was taken on and the device is in step |
| MassStorage.WrappedTagCanFool | src/msc/mod.rs:262-263 | For every greater number of operations, a run from a device in step after which the first one's status is taken for another's |
| MassStorage.FailedRecoveryCanFool | src/msc/mod.rs:328-350 | For every number but 0, a run from a device in step with its last recovery failed, after which data is taken for the status |
| MassStorage.LeftOverCanFool | src/msc/mod.rs:177-188 | A device opened with a status pending under tag 1 gives it to the first command sent |
| MassStorage.NeverStaleExactly | src/msc/mod.rs:160-350 | Over all devices at opening, runs of `n` operations lead to no stale status if and only if the last recovery went through, or there was none and the device was clean, and `n` is less than 2^32 |
| MassStorage.OnlyAsked | src/msc/mod.rs:356-379 | Whatever state the device is in, a command makes it take on that command and REQUEST SENSE, for that unit, and nothing else |
| MassStorage.CommandPerforms | src/msc/mod.rs:356-379 | With its retries too, a command changes only what it addresses and Ok means it was performed in full |
| MassStorage.BoundedRetries | src/msc/mod.rs:356-379 | A command, and REQUEST SENSE, are sent at most four times |
| MassStorage.CalmCommand | src/msc/mod.rs:356-379 | When nothing fails, it is sent once and succeeds |
| Refusals.AttentionsPass | src/msc/mod.rs:356-379 | A command the device can do succeeds after up to three unit attentions, given as sense data of any form, and is sent once more than there were |
| Refusals.TroubleFails | src/msc/mod.rs:356-390 | After at most three of them, any other trouble, or a fourth, fails it with the error for that trouble, and it is not sent again |
| Refusals.SensedGives | src/msc/mod.rs:381-390 | The one command sent in between is REQUEST SENSE, byte for byte, and what it gives is read |
| MscDriver.BuildCbw | src/msc/mod.rs:267-274 | The 31 bytes filled in place are the wrapper |
| MscDriver.Driver.ResetRecovery | src/msc/mod.rs:337-350 | Reset, then both halts cleared, each only if what precedes it succeeded |
| MscDriver.Driver.Recover | src/msc/mod.rs:328-334 | Recovers unless the device is gone |
| MscDriver.Driver.DataStage | src/msc/mod.rs:281-298 | A stall in the data phase is cleared and counts as nothing moved |
| MscDriver.Driver.StatusStage | src/msc/mod.rs:300-307 | A stalled status is cleared and read once more |
| MscDriver.Driver.RunJob | src/msc/mod.rs:254-326 | Wrapper, data and status in sequence are the transport the lemmas are about |
| MscDriver.Driver.Transport | src/msc/mod.rs:254-270 | Bad arguments are refused before anything is sent; otherwise the tag is taken and the next differs |
| MscDriver.Driver.SenseLocked | src/msc/mod.rs:381-390 | REQUEST SENSE and its decoding |
| MscDriver.Driver.Command | src/msc/mod.rs:356-379 | Tries again on a unit attention, while tries are left |
| MscDriver.BlockCommand | src/msc/mod.rs:490-515 | One chunk's command decodes to its range on the medium and can be carried out exactly if that is inside |
| MscDriver.Driver.ReadBlocks | src/msc/mod.rs:490-501 | A length that is no multiple of the block is refused; else, however the device behaves, the commands asked for are for a first part of the range, all of it on Ok, without gap or overlap, each as large as the transfer limit allows or for all that is left, and Ok returns just the medium's bytes; when nothing goes wrong each is sent once |
| MscDriver.Driver.WriteBlocks | src/msc/mod.rs:504-515 | Likewise for writing: Ok stores just the data; on an error nothing outside the range has changed |
| FlatDisk.AmountProgress | src/msc/mod.rs:616-690 | A call moves at least a byte before the end, never past the end, and outside the direct path never across a block |
| FlatDisk.AmountExact | src/msc/mod.rs:616-690 | And just how much: at a block boundary all whole blocks there are, elsewhere what is left of block, disk or request |
| FlatDisk.LastBytes | src/msc/mod.rs:699-713 | Seeking back from the end and reading gives the last bytes |
| FlatDisk.SameBytes | src/msc/mod.rs:699-713 | Seeking back by what was read and reading gives the same again |
| FlatDisk.BytesFrom | src/msc/mod.rs:699-713 | Seeking from the start and reading gives the bytes from there; before the start there is no position |
| FlatDisk.ReadFullyIsSlice | src/msc/mod.rs:638-661 | Repeated reads end, and together are the bytes at the cursor |
| FlatDisk.WriteFullyIsSplice | src/msc/mod.rs:664-691 | Repeated writes end, and together replace just the bytes at the cursor |
| BlockDevice.BlockDevice.Direct | src/msc/mod.rs:622-629 | Whole blocks are moved directly only from a block boundary, as many as fit both request and disk |
| BlockDevice.BlockDevice.LoadScratch | src/msc/mod.rs:631-635 | The scratch block then holds the medium's block |
| BlockDevice.BlockDevice.Read | src/msc/mod.rs:638-661 | A read is one of a flat array at the cursor; an error leaves disk and cursor as they were |
| BlockDevice.BlockDevice.WriteSome | src/msc/mod.rs:664-691 | A write changes just the bytes at the cursor, the rest of a block being kept; at the end it is a zero write; a failed one spares all but the blocks it addressed |
| BlockDevice.BlockDevice.Seek | src/msc/mod.rs:699-713 | From start, cursor or end; a position before the start is an error and moves nothing |
| BlockDevice.BlockDevice.ReadExact | src/msc/mod.rs:638-661 | Reading an exact length ends, with just those bytes, and succeeds on a calm device exactly if they are there |
| BlockDevice.BlockDevice.WriteAll | src/msc/mod.rs:664-691 | Writing all ends, with just those bytes replaced, and succeeds on a calm device exactly if they fit |
| BlockDevice.BlockDevice.Session | src/msc/mod.rs:637-714 | Any sequence of reads, writes and seeks answers as a flat byte array with a cursor does, up to the first error; on a calm device there is none |
| BlockDevice.BlockDevice.RecoveringSession | src/msc/mod.rs:337-350 | With a reset recovery after each error, the session goes on as the flat array on the bytes as they stand, a failed call having moved nothing and spared all but the blocks it writes |
| HotplugReplay.StableWithoutClass | src/hotplug.rs:108-130 | A filter decides alike on all snapshots of a device if and only if it asks for no class |
| HotplugReplay.ChangesPlay | src/hotplug.rs:492-538 | Replaying the matching events of a rescan turns the matching devices before into those after, no event being out of place |
| HotplugReplay.ClassChangeMissed | src/hotplug.rs:108-130 | For every class filter, a device that loses its interface of the class changes what matches, and nothing is reported |
| HotplugReplay.PlaysOutExactly | src/hotplug.rs:492-538 | The events of every rescan replay to what matches, if and only if the filter asks for no class |
| HotplugReplay.TodoCalls | src/hotplug.rs:518-538 | Every listener is called for just the events it wants, in order |
| HotplugSafety.StepInv | src/hotplug.rs:436-575 | Each step of the OS, the backend, the loop, `add` and `remove` keeps the invariant |
| HotplugSafety.RunInv | src/hotplug.rs:436-575 | The invariant of registry, logs and signal holds throughout every run |
| HotplugSafety.ReplayIsKnown | src/hotplug.rs:436-538 | In every run a listener's events alternate per identity, and outside a dispatch replay to exactly the matching known devices, even if it joined between an enumeration and its diff |
| HotplugListeners.HeardIsAsked | src/hotplug.rs:108-130 | In every run, each event a listener hears is of a device with the vendor and product it asked for, and of the class, itself or by an interface |
| HotplugListeners.ReplayIsNumbered | src/hotplug.rs:436-538 | In every run, for a listener without a class and outside a dispatch, its events replay to just the known devices with its numbers, and to all of them if it asked for none |
| HotplugListeners.JoinsFrom | src/hotplug.rs:459-479 | A new listener starts from nothing if it asked for what is there, else from that, and then nothing is queued for it |
| HotplugReplay.MatchesExactly | src/hotplug.rs:108-130 | A filter takes just the devices that are all it asks for |
| HotplugSafety.NoLostWakeUp | src/hotplug.rs:375-406 | When the loop waits with nothing pending or owed and the last enumeration succeeded, what is known is what is attached |
| HotplugSafety.QuietMeansCurrent | src/hotplug.rs:492-575 | So a listener has then heard of exactly the matching attached devices |
| HotplugSafety.FailureLosesChange | src/hotplug.rs:492-498 | A run in which a failed enumeration leaves a change unnoticed |
| HotplugSafety.RestIsCurrentExactly | src/hotplug.rs:492-575 | What is known at rest is what is attached, in every run, if and only if the last enumeration succeeded |
| HotplugSafety.ClassOutOfDate | src/hotplug.rs:492-538 | For every class filter, a run that ends at rest with a listener out of date |
| HotplugSafety.UpToDateExactly | src/hotplug.rs:436-538 | Over all runs, listeners are up to date whenever no call is left to make, if and only if their filter asks for no class |
| HotplugSafety.FlagsKeep | src/hotplug.rs:375-406 | In every run a notification given keeps until the loop takes it, and a request to stop for good |
| HotplugRegistry.NotIn | src/hotplug.rs:503-512 | The nested search keeps exactly the devices the other snapshot lacks, in order |
| HotplugRegistry.Registry.Start | src/hotplug.rs:442-458 | The first `add` starts watching, or fails without a started registry |
| HotplugRegistry.Registry.Seed | src/hotplug.rs:468-479 | A new listener hears of each matching known device once |
| HotplugRegistry.Registry.Add | src/hotplug.rs:436-485 | Succeeds exactly if the registry is or gets started; then a new identifier and its initial batch, otherwise no listener |
| HotplugRegistry.Registry.Remove | src/hotplug.rs:487-489 | Only that listener goes |
| HotplugRegistry.Registry.Dispatch | src/hotplug.rs:518-538 | Each listener hears just the events it wants, in order, all of devices with the vendor, product and class it asked for |
| HotplugRegistry.Registry.Rescan | src/hotplug.rs:492-538 | A failed enumeration changes nothing; else each listener hears the matching changes and the snapshot is the known one |
| Ncm.ParseNtb16 | src/net/cdc.rs:188-228 | Ends on any bytes, with the verdict and frames of the specification |
| Ncm.ParseEntries | src/net/cdc.rs:206-224 | The datagrams of one NDP, up to its terminator |
| Ncm.ParseInside | src/net/cdc.rs:188-228 | From any bytes at all, every frame is a part of the block |
| Ncm.ParseLaidOut | src/net/cdc.rs:188-228 | Of any laid-out chain, even one that runs into itself, all datagrams of the first 16 NDPs come out in order; it is accepted if and only if there are at most 15 |
| Ncm.ParseOnlyLaidOut | src/net/cdc.rs:188-228 | And only such chains are accepted |
| Ncm.AlignUpIs | src/net/cdc.rs:146-148 | The least multiple not below a number |
| Ncm.Layout | src/net/cdc.rs:154-176 | NDP at the first aligned place past the header, datagram past the NDP at the remainder asked for, and a total that is no multiple of a packet, one byte longer at most |
| Ncm.NdpAligned | src/net/cdc.rs:154-162 | The NDP is where the parser looks if and only if the alignment is at most four, a multiple of four, six or ten |
| Ncm.BuildNtb16 | src/net/cdc.rs:154-183 | Fails exactly if the block would exceed the device's or the format's size; the array filled in place is the block |
| Ncm.NtbHeader | src/net/cdc.rs:164-175 | A built block has a valid header that gives its sequence, length and NDP |
| Ncm.BuildParses | src/net/cdc.rs:154-228 | A built block parses to exactly its frame if and only if the frame has an Ethernet header and the NDP is at a multiple of four |
| Rndis.ParsePackets | src/net/rndis.rs:79-97 | Ends on any bytes, with the verdict and frames of the specification |
| Rndis.ParseConcat | src/net/rndis.rs:79-97 | Any messages back to back with a tail too short to be one are accepted, all frames in order |
| Rndis.ParseOnlyConcat | src/net/rndis.rs:79-97 | And nothing else is accepted |
| Rndis.FramesInOrder | src/net/rndis.rs:79-97 | From any bytes at all, the frames are parts of them, each past its own header |
| Rndis.BuildPacket | src/net/rndis.rs:62-75 | The vector grown in place is the message, padded if a multiple of the packet |
| Rndis.BuildIsMessage | src/net/rndis.rs:62-75 | It is one message and at most a byte, and ends in a short packet |
| Rndis.BuildParses | src/net/rndis.rs:62-97 | What is built parses to exactly its frame |
| HidBits.ReadValue | src/hid/report.rs:222-242 | The loop over bits reads the number they spell, sign-extended for signed fields, and nothing outside the report |
| HidBits.ValueExactly | src/hid/report.rs:222-242 | There is a value if and only if the element exists, has 1 to 32 bits and lies in the report |
| HidBits.StoreThenRead | src/hid/report.rs:222-242 | Every value in range, of every width up to 32 bits, is read back as stored |
| HidBits.StoreKeepsOthers | src/hid/report.rs:222-242 | Storing an element leaves every other as it is |
| HidReport.ParseDescriptor | src/hid/report.rs:296-413 | The loop over items ends on any bytes, with the descriptor or error of the specification |
| HidDocument.WrittenParses | src/hid/report.rs:296-413 | A descriptor written for a list of wanted fields, in settings of any width and order, those that hold already left out, between Push and Pop or not, with short or full usages or a range, inside any collections, parses to just these fields, each with its report, place, size, count, flags, usages, limits, exponent and unit, and to the usages of its application collections |
| HidWriter.RunIsFold | src/hid/report.rs:53-85 | The items of a descriptor are those that were written |
| HidWriter.DigitsRead | src/hid/report.rs:33-48 | An item's value is read back without a sign, and with one |
| HidWriter.SettingStep | src/hid/report.rs:315-336 | Each global item sets the property its tag stands for |
| HidWriter.MaxAll | src/hid/report.rs:366-377 | A logical maximum is what was meant, written with or without a sign |
| HidReport.Parser.TakeGlobal | src/hid/report.rs:315-336 | Global items, with their limits, and the stack |
| HidReport.Parser.TakeLocal | src/hid/report.rs:337-342 | Usages and their ranges, with the page put in for short ones |
| HidReport.Parser.TakeField | src/hid/report.rs:352-393 | A field goes at the end of its report, or the total is too much for 32 bits |
| HidReport.Parser.TakeMain | src/hid/report.rs:343-405 | Fields and collections; every main item ends the local ones |
| HidReport.FindReport | src/hid/report.rs:415-424 | The entry of a report's type and number, or where it would go |
| HidReport.LayoutIsTiled | src/hid/report.rs:352-444 | In every accepted descriptor the fields of a report follow each other from bit 0 without gap, and its length is their bits rounded up to bytes |
| HidReport.FieldsApart | src/hid/report.rs:352-393 | An earlier field ends where or before a later one begins |
| HidReport.ElementsApart | src/hid/report.rs:222-242 | Elements of a report do not overlap and lie inside it, and no offset on the way leaves 32 bits |
| HidReport.StoreIsLocal | src/hid/report.rs:222-242 | In every report of every accepted descriptor, a stored value is read back and no other element changes |
| ConfigTree.FromBytes | src/descriptors.rs:153-257 | Ends on any bytes, with the tree or error of the specification |
| ConfigTree.Build | src/descriptors.rs:178-256 | The loop over descriptors builds what folding over them does |
| ConfigTree.Builder.PushInterface | src/descriptors.rs:260-269 | An alternate setting goes under its number, behind those there |
| ConfigTree.Builder.FinishEndpoint | src/descriptors.rs:187-246 | The endpoint under way goes into its interface |
| ConfigTree.Builder.FinishInterface | src/descriptors.rs:187-246 | The interface under way goes into the tree with its endpoint |
| ConfigTree.Builder.Take | src/descriptors.rs:187-246 | What each kind of descriptor does to the interface and endpoint under way |
| ConfigGroups.ParseMeets | src/descriptors.rs:153-269 | What is no configuration is refused; what is parsed of one is the list of descriptors cut at interfaces, those cut at endpoints, and grouped by number |
| ConfigGroups.CutWhole | src/descriptors.rs:187-246 | Cutting puts every descriptor in exactly one place, in order |
| ConfigGroups.CutPlain | src/descriptors.rs:187-246 | Only the first of a block is an interface or endpoint descriptor |
| ConfigGroups.GroupIs | src/descriptors.rs:260-269 | Numbers are distinct, and under each are its alternate settings, once and in order |
| ConfigGroups.ParseRaw | src/descriptors.rs:153-177 | Parsing the bytes a tree keeps gives the tree again |
| ConfigPrint.PrintThenParse | src/descriptors.rs:153-269 | Every well-formed tree is parsed back from its serialisation |
| ConfigPrint.MalformedRest | src/descriptors.rs:179-184 | Descriptors before a malformed rest are all found |
| ConfigPrint.SplitConfigs | src/sys/mod.rs:71-82 | The loop ends on any bytes, with the parts of the specification |
| ConfigPrint.SplitConcat | src/sys/mod.rs:71-82 | Trees written back to back come apart again |
| ConfigPrint.SplitParts | src/sys/mod.rs:71-82 | The parts of any data are what it begins with, and each can be parsed |
| Ftdi.BmRoundTrip | src/serial/ftdi.rs:195-210 | Every divisor but zero, and the clock, are read back from the encoding, the special codes included |
| Ftdi.BmInjective | src/serial/ftdi.rs:195-210 | So no two divisors have one encoding |
| Ftdi.ZeroLooksLikeEight | src/serial/ftdi.rs:195-210 | Zero is the exception |
| Ftdi.AmDecodes | src/serial/ftdi.rs:175-192 | The oldest chip's divisor is two eighths below the nearest to one above, and the nearest where it has the fraction |
| Ftdi.AmCode | src/serial/ftdi.rs:175-192 | Its encoding decodes to the adjusted number of eighths |
| Ftdi.AcceptedRates | src/serial/ftdi.rs:212-233 | A rate is accepted if and only if it is from 184 baud to the chip's fastest |
| Ftdi.ChipsAre | src/serial/ftdi.rs:148-168 | Which chips reach 12 Mbaud and have the fast clock, and which have ports |
| Ftdi.RequestDecodes | src/serial/ftdi.rs:212-233 | Divisor and channel are read back from wValue and wIndex, which fit 16 bits |
| Ftdi.ChannelExactly | src/serial/ftdi.rs:158-164 | The channel is read back for every interface but 255 of a chip with channels, and not for that one |
| Ftdi.RateIsNearest | src/serial/ftdi.rs:212-233 | The decoded divisor is within half an eighth of the rate's, by the clock the chip uses for it |
| Ftdi.SlowNearest | src/serial/ftdi.rs:212-233 | Rounding for the 48 MHz clock is to the nearest eighth |
| Ftdi.FastNearest | src/serial/ftdi.rs:212-233 | Likewise for the 120 MHz clock |
| Ftdi.NoOverflow | src/serial/ftdi.rs:212-233 | Nothing on the way leaves 32 bits |

## Left out

- MassStorage.StatusIsNeverStale: for fewer than 2^32 operations, and a last recovery that went through or a device that was clean at opening, because MassStorage.NeverStaleExactly shows that it fails otherwise.
- HotplugSafety.ReplayIsKnown: for filters without a class, because HotplugSafety.UpToDateExactly shows that it fails with one.
- HotplugSafety.NoLostWakeUp: supposes that the last enumeration succeeded, because HotplugSafety.RestIsCurrentExactly shows that it fails otherwise.
- UvcStream.RoundTrip: the first frame does not come out, because the code waits for a boundary before it believes a frame whole.
- UrbSafety.ExactlyOnce: safety, and by NeverStuck absence of deadlock; that the kernel finishes what it was given is not assumed.
- Real ioctls, poll, netlink, sysfs, raw pointers and the memory layout of URBs: the kernel is abstract, and finishes URBs as it likes.
- The Windows and macOS backends: other shapes of the same submit and finish.
- Where the results of isochronous packets are put, and their status codes; only their lengths count.
- The control and interrupt branches of `Submission::build`: one URB each.
- In the URB model a callback that submits again is an ordinary submit, and the number of transfers is fixed from the start; callbacks are in Completion.
- Wall-clock time: a deadline passing and a wait running out are steps that may come at any time.
- The isochronous branch of the video pump, its start and stop, and the error it reports when a resubmission fails.
- Buffers of mass-storage transfers are values, not memory of the caller; a failed read does not say what is in the caller's buffer.
- One medium, of one logical unit; INQUIRY, MODE SENSE, READ CAPACITY and the rest of the commands; the text of sense data; GET MAX LUN.
- A device that answers with forged status wrappers: the device keeps to the Bulk-Only Transport, however badly it performs.
- Blocks and lengths whose sum or product leaves 64 bits are required not to occur, as the code would overflow.
- `BlockDevice::read_blocks`, `write_blocks` and `flush`: range checks before calls that are modelled.
- A listener unregistered while a dispatch holds it may hear of the rest of that dispatch; nothing is claimed of it.
- Joining the hotplug thread when the registry is dropped; enumerations are taken to have distinct identities.
- Picking a usage by index, array usages, and stripping the report number of a HID report.
- Interface associations, string descriptors and the device descriptor.
- Reading the NTB parameters, RNDIS control messages, notifications, MAC addresses and counters.
- Recognising FTDI chips and their status bytes, CDC-ACM, kernel drivers, claims and leases.
