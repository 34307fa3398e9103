# A verified model of the Xbox One controller driver

The repository is a DriverKit extension for the Xbox One controller. Its input interface copies two USB pipes, wakes
the controller up, reads packets into one buffer, and passes the buffer on to the host unchanged. That the host then
sees buttons and sticks rests on a hand-written HID report descriptor, which must give the bytes the meaning that the
packet structs give them. A user client can switch the driver on and off.

This project models both halves and proves what they promise, for every descriptor, every packet and every run.

**The descriptor as a program.** `HidItems` is the grammar of short items (section 6.2.2.2 of the Device Class
Definition for HID 1.11), `HidInterpreter` the item state machine (sections 6.2.2.4 to 6.2.2.8), `HidReports` the
decoding of reports through the fields it yields. Their theorems hold for every descriptor. `XboxDescriptor` is the
driver's byte table, `XboxPackets` the structs, and `XboxMeaning` proves that the two agree on every packet.

**The driver as a state machine.** `Driver` has one function per routine of the input interface, on a value that holds
the instance variables and a trace of the calls made; using a null pointer or overrunning a buffer raises `fault`.
`DriverRuns` puts the routines into runs: every order of start, completions, stops, finished cancels, retains and
releases by others, `free`, and calls by any number of user clients, with every combination of library answers.
`DriverSafety`, `DriverRefinement`, `DriverSends`, `DriverFields`, `DriverLedger` and `DriverStops` hold the theorems
about whole runs, stated from the events and the answers alone, and `EndToEnd` joins both halves. `Counterexamples`
has concrete inputs for four places where the code falls short; the exact conditions, over every run, are in
`LedgerTheorem` (the interface), `PipeTheorem` (pipe references), `ReportSizeTheorem` (report sizes) and
`EndToEndTheorem` (the guide button).

**The source's own form.** `InputInterface` and `UserClient` are classes with the source's fields and methods: the
out-buffer is an array written in place, the pipe records are filled field by field, the endpoint scan and the string
copy (`StringCopy`) are loops. Each method is proved to take the object's view from one value to the next as the
function of the same name says. `DriverSystem` puts the driver object and its client objects together and carries out
any run with their methods, ending where the machine ends, so the theorems about runs are about these objects.

What the libraries answer is a parameter: the success of Open, CopyPipe, CreateIOBuffer, Map, AsyncIO, IO and
handleReport, the endpoints, descriptors and packet sizes, the bytes, counts and timestamps of completed reads.
`DriverRuns.Possible` states what is assumed of the surroundings:

- routines run one at a time, as on the driver's one serial queue, and an instance is started at most once;
- a read completes only if its request was accepted, and fills the mapped in-buffer;
- a successful CopyPipe yields a pipe, a failed one leaves the slot as it was, and Map reports the length it mapped;
- the mapped in-buffer holds at least the four header bytes, and the two mapped buffers do not overlap;
- Stop and the clients call a driver that has not been freed, and `free` comes when the last reference is gone;
- super::Start fails if handleStart returned false;
- IOUserClient checks the shape of the arguments against the table entry before it calls the handler.

Where the code and its comments disagree, the model follows the code:

- the second padding field of the descriptor is 10 bits, not the 15 of its comment (XboxOneDescriptors.h:109); with
  byte padding the report is still 6 bytes;
- the buttons of report 0x20 have logical minimum 1 and no maximum yet (XboxOneDescriptors.h:34), so they are read as
  raw bits; triggers are read in full 16 bits, although the comments promise 0 to 1023 (XboxOneInputPackets.h:50-51);
- the SWAP packet announces 15 bytes and carries one (XboxOneInputInterface.cpp:80), and the guide response is the first
  9 of the 13 bytes of its struct (XboxOneInputPackets.h:121);
- the number of bytes that arrived is never compared with the size in the header (XboxOneInputInterface.cpp:721-743), so
  short packets are passed on and it is the host that refuses them;
- the output report size is written to the in-pipe (XboxOneInputInterface.cpp:336);
- a provider that is no USB interface makes Start return success (XboxOneInputInterface.cpp:150-155).

## Model

| member | source | states |
|---|---|---|
| `HidItems.ParseOfPrint` | XboxControllerDriver/XboxOne/XboxOneDescriptors.h:19-113 | Parsing the byte form of any list of short items (0, 1, 2 or 4 data bytes, long-item prefix excluded) gives exactly that list. |
| `HidItems.PrintOfParse` | XboxControllerDriver/XboxOne/XboxOneDescriptors.h:19-113 | Whatever byte string the parser accepts is the byte form of the list it returns. |
| `HidItems.ParseFails` | XboxControllerDriver/XboxOne/XboxOneDescriptors.h:19-113 | A byte string that is not accepted starts with the byte form of some items, followed by a byte that announces a long item, or a short one whose data is cut off; the error tells which. |
| `HidItems.ParseExact` | XboxControllerDriver/XboxOne/XboxOneDescriptors.h:19-113 | A byte string parses to a list of items if and only if it is the byte form of that list; so every descriptor has at most one reading. |
| `HidInterpreter.RunConcat` | XboxControllerDriver/XboxOne/XboxOneDescriptors.h:91-112 | Interpreting a concatenation of two item lists is interpreting the second from the state, or with the error, left by the first. |
| `HidInterpreter.StepRefuses` | XboxControllerDriver/XboxOne/XboxOneDescriptors.h:19-113 | An item is refused for exactly five reasons, each with its own error: an End Collection with none open, a Pop of an empty stack, report ID 0, a usage maximum without or below its minimum, a delimiter. |
| `HidInterpreter.RunRefuses` | XboxControllerDriver/XboxOne/XboxOneDescriptors.h:19-113 | An item list that is refused has a first item that is, with that error, in the state left by the items before it. |
| `HidInterpreter.PushPopTheorem` | XboxControllerDriver/XboxOne/XboxOneDescriptors.h:19-113 | Whatever balanced items come between a Push and its Pop, the global table is afterwards what it was before. |
| `HidInterpreter.NestingTheorem` | XboxControllerDriver/XboxOne/XboxOneDescriptors.h:22-23 | In every accepted item list, after every prefix, the nesting is the number of collections opened minus those closed; it is never negative. |
| `HidInterpreter.LayoutTheorem` | XboxControllerDriver/XboxOne/XboxOneDescriptors.h:19-113 | For every accepted descriptor and every report, the fields lie one after the other from bit 0 and end exactly at the sum of REPORT_SIZE times REPORT_COUNT over the main items met under that report's ID. |
| `HidInterpreter.EveryBitInOneField` | XboxControllerDriver/XboxOne/XboxOneDescriptors.h:19-113 | For every accepted descriptor, every declared bit of every report belongs to one field and to no other. |
| `HidInterpreter.OtherReportsUntouched` | XboxControllerDriver/XboxOne/XboxOneDescriptors.h:91-112 | Items that declare nothing for a report leave its fields and its length unchanged, whatever came before them. |
| `HidReports.ReportBijection` | XboxControllerDriver/XboxOne/XboxOneDescriptors.h:19-113 | For every accepted descriptor and every report, decoding all fields and encoding values are inverse to each other: bit strings of the declared length correspond one to one to the vectors of values the fields can hold. |
| `HidReports.HostReadsExactly` | XboxControllerDriver/XboxOne/XboxOneDescriptors.h:19-113 | For every descriptor and packet: the host refuses the descriptor exactly if it is not the byte form of an accepted item list; otherwise it refuses an empty packet, an ID without fields and a packet too short for a field of its report, and reads the data fields from all others. |
| `XboxDescriptor.DescriptorParses` | XboxControllerDriver/XboxOne/XboxOneDescriptors.h:19-113 | The driver's byte table parses completely, to the item list that its comments name. |
| `XboxDescriptor.DescriptorFields` | XboxControllerDriver/XboxOne/XboxOneDescriptors.h:19-113 | The table is accepted with all collections closed; report 0x20 has its 25 fields in 136 bits, report 0x07 its 5 fields in 35 bits, each at a given offset, size, usage and range, with REPORT_COUNT and the ranges inherited where the table leaves them out; there is no other report. |
| `XboxDescriptor.DescriptorNesting` | XboxControllerDriver/XboxOne/XboxOneDescriptors.h:19-113 | After any number of items of the table at most two collections are open. |
| `XboxDescriptor.GuideBlockLeavesButtons` | XboxControllerDriver/XboxOne/XboxOneDescriptors.h:91-112 | The second half of the table leaves report 0x20 as the first half made it. |
| `XboxDescriptor.DescriptorBits` | XboxControllerDriver/XboxOne/XboxOneDescriptors.h:19-113 | The sizes and counts of the table add up to 136 bits for report 0x20 and 35 for report 0x07. |
| `XboxPackets.ButtonReportRoundTrip` | XboxControllerDriver/XboxOne/XboxOneInputPackets.h:38-63 | Writing any button report by the struct layout gives 18 bytes that read back as the same report. |
| `XboxPackets.ButtonPacketRoundTrip` | XboxControllerDriver/XboxOne/XboxOneInputPackets.h:38-63 | Reading any 18 bytes as a button report and writing it again gives the same bytes. |
| `XboxMeaning.ButtonMeaning` | XboxControllerDriver/XboxOne/XboxOneDescriptors.h:24-88 | From every packet that starts with 0x20 the host, interpreting the byte table, reads exactly what the struct and the button masks say: 15 buttons, two unsigned triggers, four signed axes; a packet of fewer than 18 bytes is refused. |
| `XboxMeaning.GuideMeaning` | XboxControllerDriver/XboxOne/XboxOneDescriptors.h:91-112 | From every packet that starts with 0x07 the host reads button 16 as the lowest bit of the guide byte; fewer than 6 bytes are refused. |
| `XboxMeaning.GuideMeaningExact` | XboxControllerDriver/XboxOne/XboxOneInputPackets.h:68-75 | The host's value for button 16 is the struct's `guide` value if and only if that is 0 or 1. |
| `XboxMeaning.OtherPackets` | XboxControllerDriver/XboxOne/XboxOneDescriptors.h:19-113 | A packet with any other first byte is no report of the table. |
| `XboxMeaning.PacketLengths` | XboxControllerDriver/XboxOne/XboxOneInputPackets.h:63-76 | Padded to bytes and with the ID byte, the two reports are as long as the two packet structs, 18 and 6 bytes. |
| `XboxMeaning.StructSurvives` | XboxControllerDriver/XboxOne/XboxOneInputPackets.h:56-103 | Every button report written out by its struct comes back to the host with every trigger, every axis and every button but bit 1. |
| `XboxMeaning.HostDistinguishes` | XboxControllerDriver/XboxOne/XboxOneInputPackets.h:56-103 | The host reads the same from two button packets if and only if they differ at most in header bytes 1 to 3 and bit 1 of the button word. |
| `UsbPipes.InitPipesSelects` | XboxControllerDriver/XboxOne/XboxOneInputInterface.cpp:204-255 | The endpoint scan succeeds if and only if some shortest prefix of the endpoints has both interrupt directions and all its interrupt pipes can be copied; it then stops at the end of that prefix, each slot has pipe and descriptor of the last endpoint of its direction, the copies are the interrupt endpoints of the prefix in order, and the endpoint it stopped at is the only one of its direction. |
| `UsbPipes.ScanVisits` | XboxControllerDriver/XboxOne/XboxOneInputInterface.cpp:211-251 | Every scan, also one that fails, goes through exactly the endpoints that `Visited` tells from the endpoint list and the copy answers alone; the copies it makes, in order, are the interrupt endpoints among them, and each slot then holds the pipe of the last of its direction, with the descriptor of the last one described. |
| `UsbPipes.VisitedUnique` | XboxControllerDriver/XboxOne/XboxOneInputInterface.cpp:211-251 | There is only one such place to stop. |
| `UsbPipes.OneDirectionOnce` | XboxControllerDriver/XboxOne/XboxOneInputInterface.cpp:247-250 | Wherever the scan stops, it has met at most one interrupt endpoint of one of the two directions. |
| `UsbPipes.InitPipesComplete` | XboxControllerDriver/XboxOne/XboxOneInputInterface.cpp:211-251 | If every pipe can be copied, the scan succeeds if and only if both interrupt directions occur at all. |
| `UsbPipes.SetupPipeReady` | XboxControllerDriver/XboxOne/XboxOneInputInterface.cpp:258-304 | Setting a pipe up succeeds exactly on the answers that leave interval and packet size non-zero and a buffer created and mapped; the pipe is then ready. In any case each field has the value the answers give it, up to the first failure, a created buffer is kept, and pipe, descriptor and report size are left alone. |
| `DriverRuns.SendForm` | XboxControllerDriver/XboxOne/XboxOneInputInterface.cpp:864-900 | Sending on a ready pipe: a packet that does not fit changes nothing; of any other the third byte is replaced by the counter, exactly that packet is sent on the out-pipe and stands at the start of the out-buffer, whose other bytes are kept, and the counter goes on modulo 256. |
| `DriverRuns.ResponseBytes` | XboxControllerDriver/XboxOne/XboxOneInputInterface.cpp:791-804 | The packets sent, byte for byte: the guide response is the nine bytes 01 20 n 09 00 07 20 02 00, INIT is 05 20 n 01 00, SWAP is 05 20 n 0f 06, with n the counter. |
| `DriverRuns.GuideForm` | XboxControllerDriver/XboxOne/XboxOneInputInterface.cpp:778-811 | A guide packet is recognised by first byte 0x07 and fourth byte 2; it is passed on, and if accepted and of version 0x30 answered, in this order, with the response in the out-buffer; it counts as handled exactly if recognised and accepted. |
| `DriverRuns.GotDataForm` | XboxControllerDriver/XboxOne/XboxOneInputInterface.cpp:815-856 | A completion makes exactly the looks, reports and sends that status, flag, header bytes and the answers of handleReport call for, then asks for the next read on the in-pipe once, in this order; out-buffer and counter change exactly if a response was sent, and nothing else does. |
| `DriverRuns.StartForm` | XboxControllerDriver/XboxOne/XboxOneInputInterface.cpp:144-411 | A start from scratch, wherever it fails: every instance variable and every call made, in order, from the answers alone. It gets through if and only if all the answers in `StartSucceeds` are favourable; then the wake-up packets, one read request and the retain of the interface follow the acquisitions, and the SWAP packet is left in the out-buffer; otherwise nothing was sent, requested or read. |
| `DriverSafety.SafetyTheorem` | XboxControllerDriver/XboxOne/XboxOneInputInterface.cpp:351-411 | In every state of every run no null pipe, buffer or action was used and no buffer was overrun; whenever a read is outstanding both pipes are copied, with non-zero interval and packet size and mapped buffers, and the action exists. |
| `DriverSafety.RequestFaults` | XboxControllerDriver/XboxOne/XboxOneInputInterface.cpp:699-715 | Requesting a read uses a null pointer exactly if the pipe, the buffer or the action is missing. |
| `DriverSafety.SendFaults` | XboxControllerDriver/XboxOne/XboxOneInputInterface.cpp:864-900 | Sending goes wrong exactly if the packet passes the length check and there is no pipe, no mapping, or a mapping too short for the packet or the counter byte. |
| `DriverSafety.ReportFaults` | XboxControllerDriver/XboxOne/XboxOneInputInterface.cpp:721-743 | Looking at a packet goes wrong exactly if the in-buffer is not mapped or shorter than the header. |
| `DriverSafety.SetupFaults` | XboxControllerDriver/XboxOne/XboxOneInputInterface.cpp:258-346 | Setting a pipe up goes wrong exactly if that pipe is missing. |
| `DriverSafety.ProtocolMeaning` | XboxControllerDriver/XboxOne/XboxOneInputInterface.cpp:699-715 | For any trace: keeping the ownership protocol means that successful requests minus completions is 0 or 1, that every look at the in-buffer happens when it is 0, and that no request follows a refused one. |
| `DriverSafety.OwnershipTheorem` | XboxControllerDriver/XboxOne/XboxOneInputInterface.cpp:699-856 | Every run keeps the ownership protocol: at most one read is outstanding, the driver touches the in-buffer only while none is, each completion is answered by one request, and after a refused request there is never another. |
| `DriverRefinement.RefinementTheorem` | XboxControllerDriver/XboxOne/XboxOneInputInterface.cpp:721-856 | Over every run the read requests, the reports passed on and the packets sent are, in order, exactly those of a machine without pipe records or buffers: one request, on the pipe found and for the whole in-buffer, at the start and after each completion; one report, with its bytes, count and timestamp, for each completion with success status, the flag on and header (0x20, 14) or (0x07, 2), accepted or not; and the answers to guide packets. |
| `DriverRefinement.CounterTheorem` | XboxControllerDriver/XboxOne/XboxOneInputInterface.cpp:878-883 | Over every run the k-th packet sent, from 0, carries k modulo 256 in its third byte, and two packets carry the same number if and only if 256 divides their distance. |
| `DriverRefinement.LicensingTheorem` | XboxControllerDriver/XboxOne/XboxOneUserClient.cpp:244-269 | With any number of clients, in every run, the flag has the truth value of the scalar in the last licensing call that came through an attached client. |
| `DriverRefinement.EnabledByDefault` | XboxControllerDriver/XboxOne/XboxOneInputInterface.cpp:133-133 | A run without such a call leaves the driver enabled. |
| `DriverSends.SendTheorem` | XboxControllerDriver/XboxOne/XboxOneInputInterface.cpp:396-398 | In every run with a start that got through, the packets sent are, in literal bytes, INIT numbered 0, SWAP numbered 1, then one nine-byte response, numbered on from 2, for each guide packet of version 0x30 that was handled while the flag was on and the out-buffer holds nine bytes; there is none if it holds fewer, and nothing is sent at all if it is shorter than five. |
| `DriverSends.NoStartNoSends` | XboxControllerDriver/XboxOne/XboxOneInputInterface.cpp:351-411 | A run in which no start gets through sends nothing. |
| `DriverFields.FieldsTheorem` | XboxControllerDriver/XboxOne/XboxOneInputInterface.cpp:144-411 | In every state of every run, from the start until `free`, each pointer, pipe record and descriptor is the one that the answers to the start give. |
| `DriverFields.PipeRecordTheorem` | XboxControllerDriver/XboxOne/XboxOneInputInterface.cpp:204-346 | Over every run, from a start that got through until `free`: in-pipe and out-pipe are the pipes of the last interrupt endpoints of their directions in the shortest prefix that has both, each with its own descriptor, speed, interval, packet size and buffer. |
| `DriverFields.TransferTheorem` | XboxControllerDriver/XboxOne/XboxOneInputInterface.cpp:699-900 | Over every run each read is requested on that in-pipe for the whole in-buffer and each packet is sent on that out-pipe, and there are none unless a start got through. |
| `DriverFields.OutBufferTheorem` | XboxControllerDriver/XboxOne/XboxOneInputInterface.cpp:864-900 | In every state of every run until `free` the out-buffer starts with the packet that was sent last. |
| `DriverFields.ReportSizeTheorem` | XboxControllerDriver/XboxOne/XboxOneInputInterface.cpp:322-336 | Over every run, from a start that got through until `free`, the in-pipe has the output report size and the out-pipe 0; so both have the size of their own direction if and only if both sizes are 0. |
| `DriverLedger.StartCounts` | XboxControllerDriver/XboxOne/XboxOneInputInterface.cpp:144-411 | What a start acquires, wherever it fails, from the answers alone: each buffer once if and only if its set-up was reached and created it, a pipe once per interrupt endpoint of its direction up to where the scan stops, the action and the second reference on the interface if and only if the start gets through; it gives back the property dictionary and nothing else. |
| `DriverLedger.FreeCounts` | XboxControllerDriver/XboxOne/XboxOneInputInterface.cpp:467-494 | `free` releases one reference for each field that is set, and no other. |
| `DriverLedger.LedgerTheorem` | XboxControllerDriver/XboxOne/XboxOneInputInterface.cpp:467-494 | In every state of every run each thing was acquired exactly as often as the answers to the start say, and released exactly by `free` as far as its field was set. So on a freed driver buffers, action, configuration descriptor and property dictionary are balanced; the references lost on a pipe are one less than those copied, if any; the interface is released once too often if and only if the start took it and failed before the retain. |
| `DriverLedger.PipeTheorem` | XboxControllerDriver/XboxOne/XboxOneInputInterface.cpp:204-255 | Over every run that ends with `free`, whether its start got through or failed anywhere, and for both slots: no pipe reference is lost if and only if the endpoint scan was not reached or met at most one interrupt endpoint of the slot's direction; otherwise all but one are lost; and at most one of the two slots loses any. |
| `DriverStops.StopTheorem` | XboxControllerDriver/XboxOne/XboxOneInputInterface.cpp:419-464 | Over every interleaving of starts, stops and finished cancels, from the events alone: the number of Stop calls; a Stop call is in flight if and only if it came after a start that got through and its cancel is not finished; the superclass is stopped once, at once without such a start, otherwise when the cancel is finished; cancel and references on driver and provider are made once each if and only if there was such a start, and the references are out exactly while in flight, when the driver cannot have been freed; the driver's count is the references of others plus the calls in flight. |
| `DriverStops.StopOrderTheorem` | XboxControllerDriver/XboxOne/XboxOneInputInterface.cpp:419-458 | In every run a Stop call cancels only after it has taken its references on driver and provider, and gives them back only after it has stopped the superclass. |
| `DriverStops.SolventTheorem` | XboxControllerDriver/XboxOne/XboxOneInputInterface.cpp:144-494 | At every moment of every run nothing but the interface has been released more often than it was acquired. |
| `Counterexamples.InterfaceOverReleased` | XboxControllerDriver/XboxOne/XboxOneInputInterface.cpp:150-162 | A run in which the interface cannot be opened ends with one release of it too many. |
| `Counterexamples.PipeReferenceLost` | XboxControllerDriver/XboxOne/XboxOneInputInterface.cpp:225-245 | A run with two input endpoints before the output endpoint ends with one pipe reference never released. |
| `Counterexamples.ReportSizesMixedUp` | XboxControllerDriver/XboxOne/XboxOneInputInterface.cpp:328-336 | A start with report sizes 18 and 9 that gets through leaves 9 in the in-pipe and 0 in the out-pipe. |
| `Counterexamples.GuideValueCutOff` | XboxControllerDriver/XboxOne/XboxOneDescriptors.h:100-110 | A guide byte of 2 is read by the host as 0. |
| `EndToEnd.ReadingTheorem` | XboxControllerDriver/XboxOne/XboxOneInputInterface.cpp:743-743 | Over every run the host, reading the forwarded buffers through the byte table, obtains one reading for each packet that arrived without error, with a known header, while the driver was enabled, in order: the struct's buttons, triggers and axes, or the lowest bit of the guide byte; packets that arrived short it refuses. |
| `EndToEnd.EndToEndTheorem` | XboxControllerDriver/XboxOne/XboxOneInputInterface.cpp:721-856 | Over every run, what the host obtains is exactly what the packet structs say about the packets passed on, guide value included, if and only if every guide packet passed on whole has a guide byte of 0 or 1. |
| `InputInterface.UsbPipeData.constructor` | XboxControllerDriver/Shared/USBPipeData.h:24-51 | A new pipe record is empty. |
| `InputInterface.InputInterface.constructor` | XboxControllerDriver/XboxOne/XboxOneInputInterface.cpp:113-141 | After `init` nothing is set, the counter is 0 and the flag is on. |
| `InputInterface.InputInterface.SendInterruptData` | XboxControllerDriver/XboxOne/XboxOneInputInterface.cpp:864-900 | The in-place copy into the out-buffer takes the driver to the state that `Driver.SendInterruptData` gives, and nothing else changes; the status tells refusal, failure and success apart. |
| `InputInterface.InputInterface.RequestAsyncInterruptData` | XboxControllerDriver/XboxOne/XboxOneInputInterface.cpp:699-715 | One request, recorded as outstanding if and only if it was accepted; the status is its answer. |
| `InputInterface.InputInterface.HandleReportGeneric` | XboxControllerDriver/XboxOne/XboxOneInputInterface.cpp:721-754 | Refines `Driver.HandleReportGeneric`: the in-buffer is passed on if and only if packet type and size match, and the packet counts as handled if and only if it was also accepted. |
| `InputInterface.InputInterface.HandleControllerReport` | XboxControllerDriver/XboxOne/XboxOneInputInterface.cpp:758-774 | Refines the machine's handling of button packets. |
| `InputInterface.InputInterface.HandleGuideReport` | XboxControllerDriver/XboxOne/XboxOneInputInterface.cpp:778-811 | Refines the machine's handling of guide packets, with the response for version 0x30. |
| `InputInterface.InputInterface.Deliver` | XboxControllerDriver/XboxOne/XboxOneInputInterface.cpp:705-705 | The USB stack writes the bytes of a completed read into the in-buffer in place, and gives it back. |
| `InputInterface.InputInterface.GotData` | XboxControllerDriver/XboxOne/XboxOneInputInterface.cpp:815-856 | Refines the machine's completion step, whose behaviour over runs the theorems above describe. |
| `InputInterface.InputInterface.InitDescriptors` | XboxControllerDriver/XboxOne/XboxOneInputInterface.cpp:177-201 | Refines the machine's step, failing without the configuration descriptor or the interface descriptor, and keeping what was copied. |
| `InputInterface.InputInterface.ScanEndpoints` | XboxControllerDriver/XboxOne/XboxOneInputInterface.cpp:211-251 | The loop that overwrites the two slots ends with the result, the slots and the copies that the scan on values gives. |
| `InputInterface.InputInterface.InitPipes` | XboxControllerDriver/XboxOne/XboxOneInputInterface.cpp:204-255 | Refines the machine's step; one reference is gained for every pipe copied. |
| `InputInterface.InputInterface.SetupPipe` | XboxControllerDriver/XboxOne/XboxOneInputInterface.cpp:258-304 | The record is filled field by field up to the first failure, as on values; the mapping is kept on success only. |
| `InputInterface.InputInterface.SetupPipes` | XboxControllerDriver/XboxOne/XboxOneInputInterface.cpp:307-346 | Refines the machine's step for both pipes, with the report sizes as the source writes them. |
| `InputInterface.InputInterface.Listen` | XboxControllerDriver/XboxOne/XboxOneInputInterface.cpp:396-403 | Refines the end of a start: two packets, one request, one retain. |
| `InputInterface.InputInterface.HandleStart` | XboxControllerDriver/XboxOne/XboxOneInputInterface.cpp:351-411 | Refines the machine's start from empty pipes, with every early exit. |
| `InputInterface.InputInterface.Start` | XboxControllerDriver/XboxOne/XboxOneInputInterface.cpp:144-174 | Refines the machine's start; the status is success if and only if the provider is no USB interface, or the start gets through and super::Start does not fail after it. |
| `InputInterface.InputInterface.Stop` | XboxControllerDriver/XboxOne/XboxOneInputInterface.cpp:419-464 | Refines the machine's stop: at once without an action, otherwise with two extra retains and the cancel; the status is that of super::Stop if it is called at once, otherwise success. |
| `InputInterface.InputInterface.Finalize` | XboxControllerDriver/XboxOne/XboxOneInputInterface.cpp:446-458 | Refines the end of one cancel: one stop of the superclass and two releases. |
| `InputInterface.InputInterface.Free` | XboxControllerDriver/XboxOne/XboxOneInputInterface.cpp:467-494 | Refines the machine's `free`: everything set is released, everything is cleared. |
| `InputInterface.InputInterface.SetEnable` | XboxControllerDriver/XboxOne/XboxOneInputInterface.cpp:944-954 | Changes the flag and nothing else. |
| `UserClient.UserClient.SetInputInterface` | XboxControllerDriver/XboxOne/XboxOneUserClient.cpp:141-154 | The client is attached to the candidate, or to nothing if the cast failed. |
| `UserClient.UserClient.HandleLicensing` | XboxControllerDriver/XboxOne/XboxOneUserClient.cpp:244-269 | An attached client sets the driver's flag to the truth value of the scalar and replies the flag; an unattached one replies 0 and changes no driver. |
| `UserClient.UserClient.StaticHandleLicensing` | XboxControllerDriver/XboxOne/XboxOneUserClient.cpp:229-239 | Without a target the call fails and writes nothing; otherwise it is the target's licensing call. |
| `UserClient.UserClient.ExternalMethod` | XboxControllerDriver/XboxOne/XboxOneUserClient.cpp:199-223 | For every 64-bit selector the table is read within its bounds; the call succeeds if and only if it reaches a licensing handler, which without a dispatch passed in means selector 1 with one scalar in and one out; then exactly the addressee's driver is switched and the reply is the flag just set, otherwise no driver and no output changes. |
| `DriverSystem.DriverSystem.NewUserClient` | XboxControllerDriver/XboxOne/XboxOneInputInterface.cpp:908-940 | A client that was created and is of the right class is attached to the driver; otherwise nothing changes. |
| `DriverSystem.DriverSystem.Perform` | XboxControllerDriver/XboxOne/XboxOneInputInterface.cpp:144-954 | Whenever the surroundings may make an event happen, the preconditions of the objects' methods hold, and carrying the event out with them leads to the state that the machine's step gives. |
| `DriverSystem.DriverSystem.PerformAll` | XboxControllerDriver/XboxOne/XboxOneInputInterface.cpp:144-954 | Any run, carried out by the driver object and its client objects, ends in the state of the machine's run; so the theorems about runs are about the objects. |
| `StringCopy.CopyStringAtIndex` | XboxControllerDriver/XboxOne/XboxOneInputInterface.cpp:502-558 | There is no string exactly for index 0, a missing descriptor, or one shorter than its header; otherwise byte i of the string is code unit i modulo 256, it ends at the first zero unit or after the announced (bLength - 2) / 2 units, it has at most 126 bytes, and the array is never exceeded. |
| `StringCopy.StringRoundTrip` | XboxControllerDriver/XboxOne/XboxOneInputInterface.cpp:533-546 | Every Latin-1 string of at most 126 characters without NUL, encoded as in section 9.6.7 of USB 2.0, has exactly itself as copy. |

## Left out

- DriverKit, USBDriverKit and HIDDriverKit: only their answers are modelled, not what happens inside Open, Map, AsyncIO, Cancel or handleReport.
- Concurrency below whole routines: steps are atomic, so a completion that interrupts a stop half-way is not modelled.
- Logging and the printing of button packets, and the superclass calls of `init` and `free`, which only add easy members.
- `newDeviceDescription`, apart from its string copy: plumbing of library values.
- The life of a user client: clients are attached and called, but not stopped or freed; releasing a client that failed its cast is not counted.
- XboxOneDevice.cpp, XboxOneInterface.cpp and the two apps: straight-line start routines, code outside the driver's build, and user interface.
- Long items and delimiters of HID descriptors are refused by the parser and the interpreter; physical items, units, exponents and designators are accepted and ignored.
- Reports without an ID, and array fields: the host's reading covers numbered reports of variable fields, which is what this descriptor declares; an array field would be read as if it were variable.
- The usage page of a one- or two-byte usage is the one in force at the usage item; section 6.2.2.8 of HID 1.11 takes the last one before the main item. This descriptor sets no page between a usage and its main item, so both give the same fields.
- InputInterface.InputInterface.SendInterruptData: for a packet that fits, asks for a pipe and for mapped memory that holds the packet and byte 2, as the copy and the write do; what a write elsewhere does is modelled only as `fault` in module Driver.
- InputInterface.InputInterface.Finalize: the number of the Stop call it belongs to is a ghost argument standing for the captured block.
- UserClient.UserClient.ExternalMethod: a dispatch passed in by the caller names the licensing handler or none, and if it names it asks for at least one scalar in and out, which the handler reads and writes unchecked.
- The trace kept by the classes is ghost: it records calls, and is not state of the driver.
