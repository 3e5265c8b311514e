# Verified models of the Apple platform drivers

Dafny models of the drivers in this repository whose correctness rests on an invariant no single function shows, with
proofs of what they keep over every input, every run or every interleaving. `dafny verify dfyconfig.toml` checks all
of it. Each module opens with a sentence on what it models; the main results are in a section headed "Guarantees".

**The SIO DMA engine** (`Sio*.dfy`). Each channel is a cyclic ring of up to 64 periods, shared by a client that commits
periods, a worker that issues them, whichever thread drains the mailbox, a firmware that acknowledges, refuses and
reports them, and the control operations start, stop, prepare and drop. `SioSystem` is the engine as a state machine:
one label is one region run under a lock, or one access to an atomic, so every state another thread can see is a state
of the model. `SioInvariant` and `SioSteps` prove what every step keeps against a firmware that may put any message
into the mailbox at any time, and `SioTheorems` draws the consequences: the ring refines two counters, no issue is
lost, no mail is forgotten, tags and descriptors are accounted for. `SioFirmware` and `SioRelease` add a firmware that
keeps the protocol and prove that a transfer is released only when firmware owns nothing of it. `SioChannel` and
`SioTags` are the objects the driver updates in place: each locked region is proved equal to its step of the machine, and
the send and the start made of them equal to the machine's steps when nobody interrupts.

`issue_pending` and its token (the one outstanding request to issue a period) agree whenever firmware keeps the protocol
(`SioRelease.PendingIffToken`). Against arbitrary firmware `SioTokens.RunAgreesIff` says exactly when they do: in all
states of a run if and only if in no step of it a sender takes its claim back while the reply to that very issue is being
processed. Such a reply answers a message the mailbox then refuses; `SioEarlyReply.TokenWithoutPending` gives a run.

**The display audio driver on its channel** (`DpAudio*.dfy`). `DpAudioView` proves what any step of the engine can do to
one channel as its client sees it. Over that, the driver's count of periods in flight is conserved across both layers,
every completion is delivered once, and a client that submits in ring order never copies into a period firmware may
still read. `DpAudioStream` is the stream object with its bounce ring.

**The DART page table** (`Dart*.dfy`). `DartWalk` defines what the hardware finds for a page and what one write changes;
`DartRanges` says what mapping and unmapping a range mean byte by byte;
`DartPageTable` is the driver: descend, allocate, map, unmap, translate, adopt a hierarchy left by firmware, import
another one. Every operation is stated on a plain map from pages to entries. `DartMemory` stands for the memory that
holds tables and for the kernel's views of it.

**The display coprocessor's DMA mapper** (`DcpMapper.dfy`): compare-and-exchange allocation of I/O addresses by any number
of threads over one page table.

**The IOMFB transport** (`Iomfb*.dfy`): remote calls that serve firmware's callbacks while they wait, where a callback may
make calls itself; and the table of buffers and register windows firmware has asked for.

**The NCO clock** (`Nco*.dfy`): its coarse divisor is stored as a state of an 11-bit feedback shift register, so the rate
arithmetic needs the register's whole orbit.

**The power-manager walk** (`Pmgr*.dfy`): a depth-first walk along parent links that must survive cycles, and lists
dependencies first.

**The ELF flattener** (`ElfFlatten.dfy`): PT_LOAD segments of an ELF32 file (Program Header section of the System V gABI,
chapter 5) laid out as a raw image.

Conventions. A `u64` bitmap is the set of its bit positions. A result that can fail is an `Option` or an `ok` flag. What
the drivers get from the outside - whether the mailbox takes a message, whether a wait runs out, whether memory or a
mapping is granted - is a parameter of the step or a value the proof knows nothing about.

## Model

| member | source | states |
|---|---|---|
| SioTheorems.RingRefinement | drivers/dma/apple-sio/src/lib.rs:563-728 | In every reachable state of every interleaving, for any firmware: two counts of accepted ACKs and reports explain both cursors, the in-flight count (at most 4 and at most the ring) and the issued bitmap; issued periods are committed; a pending issue is for a committed, unissued period |
| SioTheorems.MismatchUnreachable | drivers/dma/apple-sio/src/lib.rs:683-687 | The branch that finds the bitmaps disagreeing with the cursor is never taken, whatever firmware sends |
| SioTheorems.NoLostIssue | drivers/dma/apple-sio/src/lib.rs:613-695 | Whenever a running channel's next period could be sent, the worker flag is set or a thread still has the duty to set it or to send |
| SioTheorems.QuietMeansIdle | drivers/dma/apple-sio/src/lib.rs:328-380 | With no flag, no drainer, a sleeping worker and a free issue lock, no channel has anything it could send |
| SioTheorems.TokenConservation | drivers/dma/apple-sio/src/lib.rs:518-611 | The issue token is in at most one place; `issue_pending` implies it exists; a token without the flag is with the drainer only, and then the channel is in error or a sender is about to set it |
| SioTokens.RunAgreesIff | drivers/dma/apple-sio/src/lib.rs:518-611 | For any firmware, `issue_pending` holds exactly when the token exists in every state of a run, if and only if in no step of the run a sender takes its claim back under the reply to it being processed |
| SioTokens.StepAgreesIff | drivers/dma/apple-sio/src/lib.rs:594-603 | From a state in which they agree, one step of any actor keeps the flag and the token in agreement if and only if it is not that one |
| SioEarlyReply.TokenWithoutPending | drivers/dma/apple-sio/src/lib.rs:585-609 | A run from boot in which a failing send clears `issue_pending` under a reply that is being processed, so that they do not agree |
| SioFailures.TerminatedHasCause | drivers/dma/apple-sio/src/lib.rs:644-653 | In every run, for any firmware: a terminated transfer has its channel in error, or a sender about to put it there, or a stop has marked it and it has been terminated ever since |
| SioFailures.ErrorClearedAfterReset | drivers/dma/apple-sio/src/lib.rs:834-844 | The error flag, once set, is cleared only after the transfer has been reset or replaced, and over no terminated one: nothing runs on the old ring after a refusal until a stop |
| SioDrainProofs.ReplyDelivered | drivers/dma/apple-sio/src/lib.rs:518-545 | A reply gives a waiting request its own answer, takes an issue's tag off the table and goes to that issue's channel with it, and touches no other tag |
| SioRelease.PendingIffToken | drivers/dma/apple-sio/src/lib.rs:563-665 | Against firmware that keeps the protocol, `issue_pending` holds exactly when the token exists, in every state of every run |
| SioTheorems.StopLeavesNoTag | drivers/dma/apple-sio/src/lib.rs:792-845 | From the reset of a successful stop on, the channel has no Issue tag in the table and no reply of its transfer in processing |
| SioTheorems.TagsAreCurrent | drivers/dma/apple-sio/src/lib.rs:518-545 | No Issue tag of an older generation survives: every one in the table is of its channel's present generation |
| SioTheorems.DrainHandoff | drivers/dma/apple-sio/src/lib.rs:460-504 | At most one thread drains, exactly while `draining` is set; unless a receive failed, mail in the box means the worker flag, an undelivered interrupt, a drainer, or a thread that has yet to make its final check or try the compare-exchange |
| SioTheorems.DescriptorsAccounted | drivers/dma/apple-sio/src/lib.rs:387-410 | Outside a prepare or release in progress the descriptor bitmap is the disjoint union of the live transfers' slots, after failed prepares and failed stops too |
| SioTheorems.RunInv | drivers/dma/apple-sio/src/lib.rs:307-845 | The whole invariant holds in every state of every run from boot |
| SioTheorems.InvStep | drivers/dma/apple-sio/src/lib.rs:307-845 | Every step of every actor keeps the whole invariant |
| SioSteps.BaseStep | drivers/dma/apple-sio/src/lib.rs:460-845 | Every step keeps the locks, the drainer's seat and every channel's own invariant |
| SioRelease.ReleaseSafety | drivers/dma/apple-sio/src/lib.rs:405-410 | When a transfer is about to be taken and its descriptors and mapping freed, firmware owns none of its descriptors, has no unanswered issue of it, and no report or ACK of it is on the way |
| SioRelease.NothingOwnedWithoutTransfer | drivers/dma/apple-sio/src/lib.rs:902-1012 | Between a release and the next successful prepare firmware owns nothing of the channel |
| SioRelease.OwnedIsBounded | drivers/dma/apple-sio/src/lib.rs:563-665 | Firmware never owns more than four descriptors of a channel |
| SioRelease.OneAck | drivers/dma/apple-sio/src/lib.rs:518-545 | At most one ACK of a channel is on its way, and only while its issue is pending |
| SioRelease.WorldRunInv | drivers/dma/apple-sio/src/lib.rs:412-845 | Along every run with protocol-keeping firmware, which is one of the firmwares the machine allows: each request is answered at most once under a tag still kept, reports never outrun their ACK, and what firmware owns plus what it has reported is what the driver counts in flight |
| SioTransfer.AckKeepsRing | drivers/dma/apple-sio/src/lib.rs:632-665 | Accepting an ACK keeps cursors, count and bitmaps describing one run of issues |
| SioTransfer.ReportKeepsRing | drivers/dma/apple-sio/src/lib.rs:667-718 | A report never finds its bits missing, retires the oldest issue, and never makes the next period unsendable |
| SioTransfer.CommitKeepsRing | drivers/dma/apple-sio/src/lib.rs:1047-1075 | Queueing commits a period of the ring that firmware does not own |
| SioTransfer.CommitAcceptedIff | drivers/dma/apple-sio/src/lib.rs:1053-1065 | An offset is accepted exactly when it starts a period of the buffer that is not already committed |
| SioTransfer.RoomToIssue | drivers/dma/apple-sio/src/lib.rs:563-585 | A next period that is not issued means the ring is not full |
| SioTags.SearchFailsIff | drivers/dma/apple-sio/src/lib.rs:133-144 | The tag search gives up exactly when every tag it may try is taken |
| SioTags.SearchIsFirstFree | drivers/dma/apple-sio/src/lib.rs:133-144 | Otherwise it returns the first free tag in cyclic order after the last one given out |
| SioTags.AllocateIsExact | drivers/dma/apple-sio/src/lib.rs:133-144 | Allocation fails only when tags 1 to 15 are all taken, never hands out tag 0, and changes one entry |
| SioTags.SioTags.AllocateTag | drivers/dma/apple-sio/src/lib.rs:133-144 | The in-place search loop finds what the specification search finds and leaves the table it describes |
| SioTags.SioTags.FreeTag | drivers/dma/apple-sio/src/lib.rs:146-153 | Freeing clears one entry; a tag out of range is ignored |
| SioChannel.CyclicTransfer.TryClaim | drivers/dma/apple-sio/src/lib.rs:563-584 | A descriptor is named exactly if the generation is the present one, the transfer is neither terminated nor pending, fewer than four are in flight, and the next period is committed and not issued; it is that period's |
| SioChannel.ChannelState.SendIssueLocked | drivers/dma/apple-sio/src/lib.rs:563-611 | Exactly when a send goes on to a tag; then one free tag is taken for the issue and the period is pending, or the tags are as they were and the channel is stopped, in error and terminated; the ring is kept |
| SioChannel.SendAlone | drivers/dma/apple-sio/src/lib.rs:412-611 | That outcome is what the machine's separate steps of a send come to when nobody interrupts them |
| SioChannel.ChannelState.Start | drivers/dma/apple-sio/src/lib.rs:763-785 | A channel in error, running or unprepared is left as it is, and error refuses the start; otherwise it runs on a transfer that is not terminated, or its first send failed and it is in error |
| SioChannel.StartAlone | drivers/dma/apple-sio/src/lib.rs:763-785 | The machine's steps of a start, and of the send it makes, come to the method's outcome |
| SioChannel.ChannelState.BeginStop | drivers/dma/apple-sio/src/lib.rs:787-804 | TERMINATE is needed exactly if the channel ran, or its transfer was terminated, pending or has issued periods; from here on no send can claim a period |
| SioChannel.ChannelState.FinishStop | drivers/dma/apple-sio/src/lib.rs:832-845 | The ring of the same slots is empty again and whole, nothing is pending, and error and untaken completions are cleared |
| SioChannel.StopWaits | drivers/dma/apple-sio/src/lib.rs:805-832 | A stop passes its wait exactly if firmware acknowledged TERMINATE and its drain exactly if nothing is in flight or pending; otherwise it waits or fails, leaving transfer and flags alone |
| SioChannel.ChannelState.ApplyReply | drivers/dma/apple-sio/src/lib.rs:632-665 | A NACK of the present generation puts the channel in error, stops it, terminates the transfer and moves no cursor, count or bit; an ACK gives firmware exactly the next period; a stale reply changes nothing; the worker is queued exactly if there is room to send |
| SioChannel.ChannelState.ApplyReport | drivers/dma/apple-sio/src/lib.rs:667-728 | On a ring with periods in flight exactly the oldest comes back, and is counted once, exactly if the transfer is not terminated; the error exit is not taken; without one in flight nothing changes |
| SioChannel.ChannelState.CommitPeriod | drivers/dma/apple-sio/src/lib.rs:1047-1075 | The exact condition of each answer; an accepted period, and only it, is committed; the worker is queued exactly if the channel could be sent more |
| SioChannel.ChannelState.TakeCompleted | drivers/dma/apple-sio/src/lib.rs:1039-1045 | The count is taken and zeroed at once |
| SioChannel.DescriptorSlots.Alloc | drivers/dma/apple-sio/src/lib.rs:387-397 | The slot taken was free and all below it are taken, or all 64 are |
| DpAudioView.EngineStep | drivers/audio/apple-dpaudio/src/lib.rs:85-137 | Whatever everybody else does in one step, the client's channel sees one of five kinds of move |
| DpAudioClient.CountConserved | drivers/audio/apple-dpaudio/src/lib.rs:85-137 | In every state of every run the driver's count covers committed periods, untaken completions and the report being counted, and equals them while no stop is in progress and the transfer is not terminated |
| DpAudioClient.TakesAreExact | drivers/audio/apple-dpaudio/src/lib.rs:129-136 | The `min` never truncates, and every completion made visible is delivered once or discarded by a stop |
| DpAudioClient.WorldRunOk | drivers/audio/apple-dpaudio/src/lib.rs:212-423 | The driver's phases, the channel's state and the books agree along every run |
| DpAudioChannel.EngineKeeps | drivers/dma/apple-sio/src/lib.rs:632-845 | Under any move of the engine a channel with a transfer stays idle since its reset, streaming, or terminated, and a half-counted report never meets an answered stop |
| DpAudioOrder.CopySafe | drivers/audio/apple-dpaudio/src/lib.rs:86-127 | For a client that submits in ring order, passing the ring-full test means the next period is neither committed nor issued, so the copy touches nothing firmware may read, and queueing it is accepted |
| DpAudioOrder.CopyStateHolds | drivers/audio/apple-dpaudio/src/lib.rs:86-127 | In every run of such a client, a stream that may submit has its committed periods in ring order and no more of them than it counts |
| DpAudioOrder.NextIsFree | drivers/audio/apple-dpaudio/src/lib.rs:90-92 | In that state a ring that is not full by the count has its next period neither committed nor issued |
| DpAudioOrder.RunOrdered | drivers/audio/apple-dpaudio/src/lib.rs:86-127 | Along every such run the committed periods are the last queued ones, counted around the ring |
| DpAudioStream.AppleDpAudioStream.QueuePeriod | drivers/audio/apple-dpaudio/src/lib.rs:86-127 | The exact condition of each answer on the fields; only a queued period is counted and the count never exceeds the ring; the period's bytes and no others are copied, and for a stream in ring order these are in no committed or issued period |
| DpAudioStream.AppleDpAudioStream.TakeCompletions | drivers/audio/apple-dpaudio/src/lib.rs:129-136 | What is taken is subtracted from the count, and the channel's count is zeroed |
| DartWalk.LeafWriteIsExact | drivers/iommu/apple-dart/src/lib.rs:687-695 | Writing the leaf entry of one page changes what the hardware finds for that page and for no other |
| DartWalk.LeafHolds | drivers/iommu/apple-dart/src/lib.rs:697-703 | A leaf entry keeps every flag it is made with, opens the whole page and holds every 4 KiB-aligned address below 2^36 |
| DartWalk.PathUnique | drivers/iommu/apple-dart/src/lib.rs:756-762 | In an unshared hierarchy two pages that meet in a table have come the same way |
| DartWalk.AttachShowsNothing | drivers/iommu/apple-dart/src/lib.rs:781-788 | Hanging a new, empty table under an unused entry changes no page |
| DartWalk.AttachKeepsShape | drivers/iommu/apple-dart/src/lib.rs:781-788 | It keeps every table at one level and under one entry |
| DartWalk.WalkVia | drivers/iommu/apple-dart/src/lib.rs:836-851 | The walk factors through the table at any level on the way |
| DartGeometry.GeometryCovers | drivers/iommu/apple-dart/src/lib.rs:596-630 | Every accepted page shift gives two or three levels that reach the whole 32-bit space, none to spare beyond the second |
| DartGeometry.GeometryAccepts | drivers/iommu/apple-dart/src/lib.rs:596-630 | A page shift is accepted exactly from 12 to 31 |
| DartGeometry.TableFillsPage | drivers/iommu/apple-dart/src/lib.rs:596-630 | A table of 8-byte entries fills one page |
| DartGeometry.IndexIsDigit | drivers/iommu/apple-dart/src/lib.rs:756-762 | The shift-and-mask index of a level is that digit of the page number |
| DartPageTable.PageTable.MapPage | drivers/iommu/apple-dart/src/lib.rs:775-799 | Success sets exactly one page and leaves every other translation alone; failure leaves the page map unchanged although tables may have been allocated |
| DartPageTable.PageTable.UnmapPage | drivers/iommu/apple-dart/src/lib.rs:811-825 | Removes exactly one page from the page map, and cannot fail on an adopted hierarchy |
| DartPageTable.PageTable.TranslateIova | drivers/iommu/apple-dart/src/lib.rs:836-851 | Agrees with the hardware walk for every address in range, though it never maps a table |
| DartPageTable.PageTable.MapContiguous | drivers/iommu/apple-dart/src/lib.rs:892-905 | Success translates every byte of an aligned range to its counterpart; failure has mapped exactly the first `done` pages; pages with no byte of the range are as they were |
| DartPageTable.PageTable.UnmapRange | drivers/iommu/apple-dart/src/lib.rs:519-533 | No byte of an aligned range translates any more, and pages with no byte of it are as they were |
| DartRanges.ContiguousTranslates | drivers/iommu/apple-dart/src/lib.rs:892-905 | Each byte of the mapped pages translates by its offset |
| DartRanges.PagesForIsLeast | drivers/iommu/apple-dart/src/lib.rs:892-905 | The page count is the least number of pages that hold the size |
| DartRanges.PageHolds | drivers/iommu/apple-dart/src/lib.rs:756-762 | The page of an address is the one whose bytes it is among |
| DartRanges.MapTranslates | drivers/iommu/apple-dart/src/lib.rs:892-905 | After mapping an aligned range every byte of `iova .. iova + size` translates to its counterpart |
| DartRanges.MapKeepsOthers | drivers/iommu/apple-dart/src/lib.rs:892-905 | A mapping, or the part a failed one has done, leaves every page that holds no byte of the range as it was |
| DartRanges.UnmapAbsent | drivers/iommu/apple-dart/src/lib.rs:519-533 | After unmapping an aligned range no byte of it translates |
| DartRanges.UnmapKeepsOthers | drivers/iommu/apple-dart/src/lib.rs:519-533 | Unmapping leaves every page that holds no byte of the range as it was |
| DartRanges.MapThenUnmap | drivers/iommu/apple-dart/src/lib.rs:500-533 | Unmapping a range undoes a mapping into it, also one that failed after some pages; for a range that was empty the translations are as before |
| DartPageTable.PageTable.NextTable | drivers/iommu/apple-dart/src/lib.rs:777-793 | Finds or makes the next table on the way to the address without changing any translation |
| DartPageTable.PageTable.Hang | drivers/iommu/apple-dart/src/lib.rs:781-788 | The new table is on the path, known to the driver, and shows nothing |
| DartPageTable.PageTable.WriteLeaf | drivers/iommu/apple-dart/src/lib.rs:795-798 | One page of the page map is set or removed |
| DartPageTable.PageTable.MapFirmwareTable | drivers/iommu/apple-dart/src/lib.rs:722-731 | A known table is never mapped again; a mapped one becomes known |
| DartPageTable.PageTable.New | drivers/iommu/apple-dart/src/lib.rs:596-630 | A new table is well formed and translates nothing |
| DartPageTable.PageTable.WrapExisting | drivers/iommu/apple-dart/src/lib.rs:645-680 | On success every table reachable from the root is known to the driver; every later map and unmap keeps that |
| DartPageTable.PageTable.MapExistingTableHierarchy | drivers/iommu/apple-dart/src/lib.rs:733-754 | Visiting each table once is enough: on success everything below the table is known, shared subtrees included |
| DartPageTable.PageTable.AdoptChild | drivers/iommu/apple-dart/src/lib.rs:748-751 | A table already known is skipped, and what lies below it is known nevertheless |
| DartPageTable.PageTable.ImportFromExisting | drivers/iommu/apple-dart/src/lib.rs:922-926 | On success the page map has gained exactly the foreign hierarchy's pages, and the result counts them; on failure exactly those up to some page, in ascending order |
| DartPageTable.PageTable.ImportLevel | drivers/iommu/apple-dart/src/lib.rs:928-962 | A foreign table of any level adds exactly its own pages under its own base address, or on failure the first of them |
| DartImport.ImportTranslates | drivers/iommu/apple-dart/src/lib.rs:922-962 | Imported into an empty table, the hierarchy translates every address as at its source, each page with its source's flags, and the count is the number of its valid leaves |
| DartImport.ImportTurn | drivers/iommu/apple-dart/src/lib.rs:936-959 | Or-ing the index into the base gives the child's address, and its pages are disjoint from those of earlier entries |
| DartImport.EntryBegun | drivers/iommu/apple-dart/src/lib.rs:928-962 | An entry imported in part, after the entries before it, is its table imported up to some page |
| DartDomain.Domain.Map | drivers/iommu/apple-dart/src/lib.rs:500-517 | Every byte of the 32-bit masked range translates to its counterpart, with exactly the permissions asked for; other pages are as they were; a failure leaves its first `done` pages mapped |
| DartDomain.Domain.Unmap | drivers/iommu/apple-dart/src/lib.rs:519-533 | No byte of the aligned, 32-bit masked range translates, and pages with no byte of it are as they were |
| DartDomain.FlagsPermit | drivers/iommu/apple-dart/src/lib.rs:548-557 | Which bits of an entry deny reading and writing, set exactly when not asked for, and no other flag is set |
| DcpMapper.ClaimsDisjoint | drivers/display/dcp/src/lib.rs:397-423 | Under every interleaving of the compare-and-exchange loops the claimed ranges are whole pages, pairwise disjoint, inside the dynamic range |
| DcpMapper.ClaimHoldsSize | drivers/display/dcp/src/lib.rs:397-423 | Each claim holds the bytes its caller asked for, and less than a page more |
| DcpMapper.CallOutcome | drivers/display/dcp/src/lib.rs:397-406 | A call asks for space exactly with a size and an aligned address, and for the least number of pages |
| DcpMapper.CasOutcome | drivers/display/dcp/src/lib.rs:407-423 | A thread gives up only if what is left of the range is too small for it, and takes exactly its pages if the cursor is as it last saw it |
| DcpMapper.UnmapGone | drivers/display/dcp/src/lib.rs:433-447 | After an unmap no byte of the mapping translates, and pages with no byte of it are as they were |
| DcpMapper.LiveTranslates | drivers/display/dcp/src/lib.rs:397-447 | In every reachable state each byte of a live mapping translates to its physical byte: no map, unmap or failure of another mapping changes it |
| DcpMapper.DvaRoundTrip | drivers/display/dcp/src/lib.rs:383-389 | The two address forms undo each other while the base keeps clear of the I/O address bits |
| DcpMapper.DvaIsAbove | drivers/display/dcp/src/lib.rs:383-389 | An address of the coprocessor is the base with the I/O address below it, and taken apart it gives that address back |
| DcpMapper.RunInv | drivers/display/dcp/src/lib.rs:397-447 | The claims tile the range from its base to the cursor, in every state of every run |
| IomfbRpc.CallSucceedsIff | drivers/display/dcp/src/iomfb.rs:995-1037 | A call succeeds exactly when what arrives begins with a well-nested exchange; it consumes that exchange and nothing more, leaves the open callbacks as on entry, and has sent exactly the exchange's messages |
| IomfbRpc.CallComplete | drivers/display/dcp/src/iomfb.rs:995-1037 | Every well-nested exchange is served, its nested commands included, and exactly consumed |
| IomfbRpc.CallSound | drivers/display/dcp/src/iomfb.rs:995-1037 | A call that returned success has been through a well-nested exchange |
| IomfbRpc.HandleComplete | drivers/display/dcp/src/iomfb.rs:380-592 | A callback runs its commands, pops its frame, and only then is acknowledged |
| IomfbRpc.HandleSound | drivers/display/dcp/src/iomfb.rs:380-592 | A callback that succeeded consumed exactly its commands' exchanges and was acknowledged last |
| IomfbRpc.CallbackFails | drivers/display/dcp/src/iomfb.rs:380-592 | A callback that fails is not acknowledged, and exactly which failures leave its frame open |
| IomfbRpc.HandlerCalls | drivers/display/dcp/src/iomfb.rs:380-592 | Which callbacks make calls, and how many |
| IomfbRpc.EachCallbackAckedOnce | drivers/display/dcp/src/iomfb.rs:583-591 | Over a well-nested exchange every callback is acknowledged exactly once, in its own context |
| IomfbRpc.Target | drivers/display/dcp/src/iomfb.rs:317-345 | Whatever callbacks are open, a call goes to a context that has a transmit area |
| IomfbRpc.TargetPlace | drivers/display/dcp/src/iomfb.rs:335-345 | Under a callback a call stays in its context and begins exactly at the end of its frame; under anything else it begins the transmit area of the context named |
| IomfbRpc.PacketsApart | drivers/display/dcp/src/iomfb.rs:327-372 | Over a well-nested exchange, with a firmware that opens each callback beyond the frames open in its context, no packet overlaps a frame open in its context |
| IomfbRpc.PacketsAreSent | drivers/display/dcp/src/iomfb.rs:995-1009 | These are the packets the exchange sends, all of them and in order |
| IomfbRpc.FitsInMemory | drivers/display/dcp/src/iomfb.rs:270-299 | A packet or a reply is used exactly if every byte of it lies in shared memory |
| IomfbRpc.ChannelsApart | drivers/display/dcp/src/iomfb.rs:317-325 | Different contexts have channel areas at least 32 KiB apart, inside shared memory |
| IomfbRpc.RpcRoundTrip | drivers/display/dcp/src/iomfb.rs:300-315 | Fields that fit are read back from the packed message as written |
| IomfbRpc.MessageLayout | drivers/display/dcp/src/iomfb.rs:300-306 | Where each field lies in the 64-bit message |
| IomfbRpc.Iomfb.CallFirmware | drivers/display/dcp/src/iomfb.rs:995-1037 | The send and the receive loop do what the specification call does, on success and on every error exit, the deadline passing at any receive included |
| IomfbRpc.Iomfb.HandleCallback | drivers/display/dcp/src/iomfb.rs:380-592 | So does the callback handler, including the exits that leave its frame behind |
| IomfbDescriptors.IdsDistinctIff | drivers/display/dcp/src/iomfb.rs:594-598 | Identifiers stay distinct exactly as long as no more than 2^32 - 1 are handed out |
| IomfbDescriptors.Descriptors.MapRegister | drivers/display/dcp/src/iomfb.rs:600-636 | Success adds one entry under a new identifier; mapped ranges stay exactly shared memory plus both tables if and only if the request does not get its mapping and then find its response too short, which leaves that one range behind |
| IomfbDescriptors.Descriptors.MapPhysical | drivers/display/dcp/src/iomfb.rs:798-844 | The same with its own late exit, and only for a range inside one of the display's register windows |
| IomfbDescriptors.Descriptors.AllocateBuffer | drivers/display/dcp/src/iomfb.rs:748-796 | The same with its own late exit, for a fresh buffer that PIODMA does not map yet |
| IomfbDescriptors.Descriptors.Release | drivers/display/dcp/src/iomfb.rs:846-881 | The accounting holds on every exit; on success the identifier is in neither table, its range is unmapped everywhere, and every other entry stays; an unknown one is ignored |
| IomfbDescriptors.Descriptors.MapPiodma | drivers/display/dcp/src/iomfb.rs:638-700 | The PIODMA domain maps exactly the buffers marked so, and the status sent back is zero exactly if this one is |
| IomfbDescriptors.Descriptors.UnmapPiodma | drivers/display/dcp/src/iomfb.rs:702-746 | The first mapped buffer with this identifier and address loses its PIODMA mapping, or nothing changes |
| IomfbDescriptors.Descriptors.Close | drivers/display/dcp/src/iomfb.rs:1201-1214 | RTKit maps nothing afterwards, and the PIODMA domain exactly the buffers it refused to unmap: none if it refused none |
| IomfbDescriptors.AllocationLeaves | drivers/display/dcp/src/iomfb.rs:846-866 | Removing an entry takes exactly its range and its identifier out of use |
| NcoLfsr.NoEarlierReturn | drivers/clk/apple-nco/src/lib.rs:98-136 | The register comes back to its initial state after 2047 steps and not before |
| NcoLfsr.OrbitDistinct | drivers/clk/apple-nco/src/lib.rs:98-136 | The 2047 states of the orbit are all different, and none is zero |
| NcoLfsr.OrbitComplete | drivers/clk/apple-nco/src/lib.rs:118-136 | Every nonzero state is on the orbit |
| NcoLfsr.StepDivides | drivers/clk/apple-nco/src/lib.rs:98-136 | A step of the register divides by x modulo x^11 + x^9 + 1 |
| NcoClock.LfsrStateForCoarse | drivers/clk/apple-nco/src/lib.rs:98-116 | A code is found exactly for divisors up to 2047, and is where a register stepped from its initial state stands when the count down from 2047 reaches the divisor |
| NcoClock.CoarseForLfsrState | drivers/clk/apple-nco/src/lib.rs:118-136 | The divisor found is the one whose code the state is |
| NcoClock.CodeByStep | drivers/clk/apple-nco/src/lib.rs:98-116 | The code of 2047 is one step from the initial state, that of every other divisor one step from the next divisor's, that of 1 the initial state |
| NcoClock.CodesIff | drivers/clk/apple-nco/src/lib.rs:98-116 | The closed form of the code is exactly such a stepped register's state |
| NcoClock.CoarseRoundTrip | drivers/clk/apple-nco/src/lib.rs:98-136 | Decoding undoes encoding for every coarse divisor 0 to 2047 |
| NcoClock.EveryCodeDecodes | drivers/clk/apple-nco/src/lib.rs:118-136 | All 2048 register values stand for a divisor |
| NcoClock.CodesUnique | drivers/clk/apple-nco/src/lib.rs:98-116 | No code stands for two divisors |
| NcoClock.DivRoundTrip | drivers/clk/apple-nco/src/lib.rs:138-159 | Exactly the divisors 8 to 8199 have a register value, and it reads back as the divisor |
| NcoClock.ReadBack | drivers/clk/apple-nco/src/lib.rs:181-243 | An accepted rate reads back exactly if its accumulator increments fit their halves of the range, and as zero otherwise |
| NcoClock.RateExact | drivers/clk/apple-nco/src/lib.rs:181-243 | Below 2^31 every accepted rate reads back exactly |
| NcoClock.Clock.SetRate | drivers/clk/apple-nco/src/lib.rs:215-243 | Succeeds exactly if the rate fits 32 bits, twice the parent rate fits 64, and 8 <= floor(2P/rate) <= 8199; then the divisor field holds the code and remainder of the quotient and the increments its remainder and the remainder less the rate in 32 bits; failure changes nothing; the enable bit is left as it was |
| NcoClock.RecalcQuotes | drivers/clk/apple-nco/src/lib.rs:181-203 | For every setting of the registers and every parent rate the value read is 2P over the mean divisor, rounded down to 64 bits, or zero for an invalid setting |
| NcoClock.Clock.RecalcRate | drivers/clk/apple-nco/src/lib.rs:181-203 | Reads the rate the specification assigns to the registers, zero for every invalid setting |
| PmgrGraph.ReachSound | projects/aarch64-apple-limine-full/tools/apple_avd_dtb.py:190-238 | Every device the walk meets ends a path of parents from its start that keeps off the stack |
| PmgrGraph.ReachComplete | projects/aarch64-apple-limine-full/tools/apple_avd_dtb.py:190-238 | Every such path's end is met, although the walk never enters a device twice at once, on cyclic graphs too |
| PmgrGraph.AncestorMet | projects/aarch64-apple-limine-full/tools/apple_avd_dtb.py:206-224 | While a device is on no cycle, the devices the walk is inside of never hide one of its ancestors |
| PmgrGraph.FindIsFirst | projects/aarch64-apple-limine-full/tools/apple_avd_dtb.py:147-151 | The search finds the first entry with the id, and gives up only if there is none |
| PmgrGraph.IdForm | projects/aarch64-apple-limine-full/tools/apple_avd_dtb.py:122-136 | Which id and parent list of an entry count, by whether the 8-bit ids tell the first two entries apart; a zero parent never counts |
| PmgrClockGates.Collector.Collect | projects/aarch64-apple-limine-full/tools/apple_avd_dtb.py:190-238 | The walk ends on every graph, only appends, emits each (die, id) once, and adds exactly what is reachable; of what it adds a virtual device comes first and a real one last, all under the gate it was begun for |
| PmgrClockGates.Collector.CollectAll | projects/aarch64-apple-limine-full/tools/apple_avd_dtb.py:241-269 | The records are exactly the devices reachable from the gates, each once and naming the first gate that reaches it, and a real device on no cycle comes after all its real ancestors, through virtual ones too |
| PmgrClockGates.GateReachesByPath | projects/aarch64-apple-limine-full/tools/apple_avd_dtb.py:241-269 | What a gate yields is what a path of parents from its device reaches, on the gate's die |
| PmgrClockGates.GateFields | projects/aarch64-apple-limine-full/tools/apple_avd_dtb.py:254-256 | Where a gate holds its device and its die |
| PmgrClockGates.RecordIs | projects/aarch64-apple-limine-full/tools/apple_avd_dtb.py:154-187 | A record is of its gate, die and device; only a real device has an address, its own on die 0 and 0x2000000000 further on each next die |
| PmgrClockGates.ClockGatePaddrs | projects/aarch64-apple-limine-full/tools/apple_avd_dtb.py:684-694 | The addresses of the non-virtual records, each once, at its first occurrence and in that order |
| PmgrClockGates.PaddrsOrdered | projects/aarch64-apple-limine-full/tools/apple_avd_dtb.py:684-694 | De-duplication keeps dependencies first when no two devices share an address |
| ElfFlatten.ElfToRaw | drivers/video/apple-avd/build.rs:72-138 | Succeeds on exactly the accepted files, and its result is their image |
| ElfFlatten.HeaderFields | drivers/video/apple-avd/build.rs:72-83 | Which files are read, and which bytes give the program header table's place, entry size and count |
| ElfFlatten.EntryFields | drivers/video/apple-avd/build.rs:87-103 | Which entries are used, and which bytes give file offset, physical address and size, least significant first |
| ElfFlatten.RawStartsCode | drivers/video/apple-avd/build.rs:140-161 | An image is accepted exactly if it starts with a stack pointer in 0x10000000..0x10ffffff and an odd reset vector inside it, and is no ELF file |
| ElfFlatten.LastCoveringWins | drivers/video/apple-avd/build.rs:114-134 | Every image byte is that of the last PT_LOAD segment that covers its address, for any order and overlap |
| ElfFlatten.UncoveredIsZero | drivers/video/apple-avd/build.rs:114-134 | A byte no segment covers is zero |
| ElfFlatten.Extent | drivers/video/apple-avd/build.rs:84-103 | The first pass finds the lowest address and highest end of the load segments, and stops exactly where one overflows or cannot be read |
| ElfFlatten.CopySegment | drivers/video/apple-avd/build.rs:132-133 | A copy changes exactly the bytes its segment covers and stays inside the image |
| ElfFlatten.Fill | drivers/video/apple-avd/build.rs:114-134 | The second pass leaves the image of all the segments, or stops exactly when one lies outside the file |

## Left out

- SioSystem: bitmaps are sets and generations unbounded; the waker, RTKit and the timers appear only as steps that may
  or may not happen, and a wait that runs out is a choice of the step.
- SioSystem: start, stop, prepare and drop of one channel are assumed not to overlap, which is up to their callers, as no
  lock of the driver spans a prepare or a drop; and `buffer_len` is assumed to be the number of periods times their
  length, as the configuration check (not part of this model) is taken to guarantee.
- SioSystem: the drain loop, the worker's sweep and the sends appear as steps of the machine, not as methods: their
  point is what happens between two of their steps.
- SioFirmware: synchronous requests abandoned at a timeout are excluded from the runs with protocol-keeping firmware,
  because a late answer would then meet a reused tag; the invariant against arbitrary firmware includes them.
- SioTransfer: generations are not claimed to be globally unique; a reset and the next prepare may give the same one.
- SioTheorems.TokenConservation: the equivalence of flag and token is stated outside the error case only; exactly when
  it holds is `SioTokens.RunAgreesIff`.
- SioChannel.ChannelState.BeginStop: the wait for the answer to TERMINATE and for the ring to drain, between it and
  `FinishStop`, appears in the machine only.
- DpAudioOrder.CopySafe: that a client submits in ring order is a condition on the client; the audio core is not modelled.
- DpAudioClient.WorldRunOk: submits are assumed not to overlap a start or stop of their stream; the stream lock is
  released during both, so this is up to the audio core.
- DpAudioClient: the display link, its clocks and the order in which a release frees the buffer's pages are left out.
- DpAudioStream.AppleDpAudioStream.QueuePeriod: cache maintenance and the alignment of pages are left out.
- DartWalk: an entry is a record of its bit fields; its arithmetic on addresses is exact.
- DartMemory.Memory.Remap: why an allocation or a mapping of a table fails is not modelled; either may fail at any time.
- DartPageTable.PageTable.MapPage: addresses beyond the space of the levels are a precondition, as the code does not test
  for them.
- DartPageTable.PageTable.WrapExisting: the foreign hierarchy is assumed to be one in which no table is reached at two
  levels; nothing is said of others.
- DartDomain: attaching streams, the translation registers and TLB maintenance are left out; a flush may fail.
- DcpMapper: memory orderings of the cursor's accesses are left out, each access is one step; an unmap is by the owner
  with the size it mapped.
- IomfbRpc.PacketsApart: how firmware places its callbacks is a condition; packets of calls that are open at once in
  different contexts are not claimed to be apart, as two contexts share a transmit area.
- IomfbRpc: the contents of packets are reduced to what they make the driver do; a send that the mailbox refuses and the
  polling entry point are left out.
- IomfbDescriptors.Descriptors.MapRegister: after a late exit, in the three requests that map, the accounting is off by the
  range left behind, and what later requests do with it is not modelled; nor are they once 2^32 - 1 identifiers are out.
- IomfbDescriptors.Descriptors.MapPiodma: a mapping the domain refuses is taken to have mapped nothing.
- NcoClock: register bits outside the modelled fields and `round_rate`, whose answers are not always accepted.
- PmgrClockGates: parsing of the device tree and of its numbers; a gate list is given.
- ElfFlatten.ElfToRaw: reading and writing files; a panic of the tool is the result `None`.
- Device probing, clocks, power domains, codecs, PCIe, I2C, the interrupt controller and the simpler DMA controllers: they
  would add members with one-function properties.
