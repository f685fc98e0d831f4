# Nivona emulator: a verified model

The repository is firmware that makes an ESP32 look like a Nivona coffee machine to the
phone app and to Home Assistant. This project models its two halves in Dafny and proves
what holds of them.

**The wire.** Bytes arrive over Bluetooth in chunks. A byte-at-a-time parser cuts them into
frames, by length for some commands and by the end byte for others; frames are deciphered
(RC4 under one master key), checked by a checksum, stripped of a two-byte session prefix,
and dispatched to handlers that read and write a slot table kept in memory and in flash.
Replies are printed the same way and sent in notifications of up to 20 bytes.

**The machine.** Brews and maintenance cycles run as tasks under a lock with a cancel flag.
They use up water, beans and tray space, count cups, wear gauges, and show a status block
whose prompt follows from the tanks and the parts.

## How the files fit together

| Files | What they hold |
|---|---|
| `Bytes` | integer widths, exclusive or, big-endian coding |
| `Rc4`, `Verifier` | the cipher and the handshake check bytes, with their loops |
| `CipherVector` | the published vector of the cipher, by a record of its 256 rounds of key setup |
| `Framing`, `Stream` | frames as values; the parser over a byte stream, with the place of each frame |
| `Slots`, `Registers`, `Boot` | the slot table in place; the registers as values, memory and flash; what a boot restores |
| `Store`, `StoreRuns` | the store as a class; every sequence of calls on it |
| `Dispatch` | what a request does, as a function |
| `Front`, `Device` | the machine's commands on tanks, panel and task flags; the parser, printer and handlers as the class `Radio`, which reaches the machine through them |
| `Client` | the client of the repository's own checks: an independent cipher, frame builder and reader |
| `Protocol`, `EndToEnd` | the results that run from chunk to reply, on values |
| `Session` | the same on a `Radio` with its store and machine, one chunk after another |
| `Families`, `Consumables`, `Status`, `Maint` | family tables, tanks and parts, status block, prompt |
| `Ramp`, `Clock` | how long a brew takes; its ticks and its progress as 32-bit words compute them |
| `Wear`, `WearStore` | cup counters and gauges, and the same through the store's batch |
| `Control` | the two locks: every interleaving of start, cancel and task sections |
| `Brew`, `Cycle` | starting and running a brew and a cycle |
| `Machine`, `Runs`, `EveryRun`, `Alone` | commands and tasks interleaved step by step, what holds of every run, and tasks that nothing interferes with |
| `Locked` | the machine at the granularity of its locks, and when its start calls are as good as one step |
| `Emulator` | radio and machine together: requests answered by the machine as it is at that moment |
| `Notified` | what the client is told by a machine at work: a brew and a cycle from first status to last |
| `Durable` | runs from factory registers on the slot table, with flash, and power failing at any moment |

A class or method here is proved equal to a function on values; the results are about those
functions, and `Session` carries the ones about the wire and about brews on request over to the
objects. The cipher enters the framing results only as a function that undoes itself,
keeps lengths and maps a change of one byte to a change of that byte (`Framing.IsCipher`);
`Device.MasterIsCipher` shows RC4 under the master key is one.

## Where the code does less than its comments say

- A frame under the wrong session key is dispatched all the same, with the key left in its
  payload (`Protocol.WrongKeyIsDispatched`).
- A handshake completes whatever its check bytes are (`Protocol.HandshakeFromReset` holds for
  every `check`), but a second handshake is lost exactly when its seed begins with the
  session key (`Protocol.RehandshakeIff`).
- Commands of no fixed length end at the first 0x45, in the ciphertext or not; the exact
  condition for such a frame to arrive whole is `Protocol.RequestTakenWholeIff`.
- The factor on the brew time is not bounded by 4: `Ramp.ScaleAtMostFourIff` gives the exact
  budget, `Ramp.ScaleExceedsFour` a request that reaches 6.4.
- Strength is any number a client writes, and the progress of a brew need not reach 100. For
  every time that 32 bits hold, the progress of a brew that is not cancelled ends at 99 or more
  exactly if the plain time times what is asked for stays below a bound
  (`Clock.EndsNear100Iff`, and `Brew.RunBrew` of the tick loop itself); coffee at strength 10000
  and 320 ml does not, and its progress falls (`Clock.StrongBrewFalls`). Up to strength 4 every
  brew stays below it (`Ramp.MildBrewsFit`).
- Profile names are overwritten at every boot, and texts over 64 bytes in flash are not read
  back (`Boot.TextSurvivesIff`).
- A register reset with HD reads 0 until the next boot; that is its factory value exactly if it
  is not one of the gauges, which start at 100 (`Boot.ResetWaitsForBoot`).
- A write to a full slot table reaches flash and not memory (`Registers.PutNumSyncs`).
- A write or a reset served while a brew's batch holds the same id is undone in flash when the
  batch lands, if it lands as a whole at its commit (`StoreRuns.CommitUndoesWrite`);
  `StoreRuns.AlwaysSyncedIff` tells exactly which calls part memory and flash.
- A brew and a cycle can both become active: exactly if one start call claims after the other
  task has been claimed for since it looked (`Control.CollideIff`,
  `Control.OverlappingStartsCollide`); never if start calls do not overlap
  (`Control.BrewExcludesCycle`).
- A prompt raised between a start call's look at it and its claim does not stop the brew: with
  the water run out in between, it begins on a machine unfit for it (`Locked.LateLookMisses`).
  `Locked.RefinesIff` tells exactly for which runs a start call is as good as one step.
- On the 1040, warm milk moves the total but no cup counter (`EveryRun.TotalOfRunIff`).

## Model

| member | source | states |
|---|---|---|
| `Bytes.Be16RoundTrip` | main/nivona_dispatch.c:41-46 | an id put on the wire reads back as itself |
| `Bytes.Be32RoundTrip` | main/nivona_dispatch.c:47-52 | so does a value, negative ones included |
| `Rc4.CipherInvolutive` | main/nivona_crypto.h:12-16 | deciphering what was enciphered under one key gives the input back |
| `Rc4.CipherPrefix` | main/nivona_crypto.c:36-52 | the output on a prefix is the prefix of the output |
| `Rc4.CipherChangesOneByte` | main/nivona_crypto.c:36-52 | changing one input byte changes that output byte and no other |
| `Rc4.KeySetupPermutes` | main/nivona_crypto.c:38-44 | the state is a permutation of 0..255 after every round of key setup |
| `Rc4.GeneratorPermutes` | main/nivona_crypto.c:45-51 | and stays one through all of the output |
| `Rc4.Crypt` | main/nivona_crypto.c:36-52 | the loops write the cipher's output to the target and leave the rest of it alone, in place or between two buffers |
| `Rc4.NextKeyByte` | main/nivona_crypto.c:46-50 | one round moves the state in place as the generator moves, and yields its output |
| `Rc4.MixKey` | main/nivona_crypto.c:38-44 | the two setup loops arrive at the generator's first state |
| `CipherVector.KnownCipher` | tests/test_emulator.py:150-153 | the published vector: 000047 under the master key becomes 1fc846 |
| `CipherVector.KnownStream` | main/nivona_crypto.c:36-52 | under the master key the first three bytes of any input are combined with 1f, c8 and 01 |
| `CipherVector.SetupIs` | main/nivona_crypto.c:38-44 | for any key of 32 bytes, a record that fits the 256 rounds one by one tells what the setup holds at every position after any number of them |
| `Verifier.HuTableDistinct` | main/nivona_crypto.c:17-34 | the verifier table has no value twice, so it is a permutation |
| `Verifier.FoldInjective` | main/nivona_crypto.c:54-67 | folding the same bytes from two different states ends in different states |
| `Verifier.FoldSeesOneByte` | main/nivona_crypto.c:54-67 | folding inputs that differ in one byte from one state ends in different states |
| `Verifier.CheckWithSeesOneByte` | main/nivona_crypto.c:54-67 | for any table without repeats, inputs of equal length that differ in exactly one byte get check bytes that both differ |
| `Verifier.CheckSeesOneByte` | main/nivona_crypto.c:54-67 | the same of the table in use |
| `Verifier.KnownCheck` | tests/test_emulator.py:156-158 | the published example: seed b3890048 has check bytes d7aa |
| `Verifier.ComputeCheck` | main/nivona_crypto.c:54-67 | the code's loop yields both check bytes of the stretch it is given |
| `Framing.ParsePrinted` | main/nivona_frame.c:72-192 | a printed frame parses to the command and body it was printed from, prefix stripped exactly if it matches |
| `Framing.PrintParsed` | main/nivona_frame.c:317-341 | printing what a frame parsed to gives that frame back byte for byte; its command has two bytes and begins with H, or is A or N and no handshake has been made |
| `Framing.CorruptionIsSeen` | main/nivona_frame.c:155-171 | a frame with exactly one byte of its ciphertext changed never parses |
| `Framing.ChunksRejoin` | main/nivona_frame.c:345-352 | notifications are 1 to 20 bytes long and join up to the frame |
| `Stream.FeedConcat` | main/nivona_frame.c:231-274 | feeding two stretches is feeding their concatenation |
| `Stream.FeedResumes` | main/nivona_frame.c:231-274 | the parser goes on from its pending bytes alone: what it hands on later, and what it is left with, depend on nothing else |
| `Stream.ChunkingIsIrrelevant` | main/nivona_frame.c:231-274 | however a stream is cut into chunks, the parser ends in the same state with the same frames |
| `Stream.StaysInBounds` | main/nivona_frame.c:231-274 | from any reachable state: idle, or 1 to 512 bytes from 0x53 on, and short of the expected size where there is one |
| `Stream.Recovers` | main/nivona_frame.c:231-274 | 512 bytes none of which is 0x53 bring the parser back to idle from any reachable state |
| `Stream.RecoveryIsTight` | main/nivona_frame.c:248-258 | 511 need not: after one 0x53 as many zeros are all collected |
| `Stream.OverflowDrops` | main/nivona_frame.c:248-258 | a frame that has grown to 512 bytes unfinished is dropped, and the next byte with it, whatever it is |
| `Stream.FramesAreStretches` | main/nivona_frame.c:231-274 | frames handed on are disjoint stretches of the stream, in order, each whole; what is pending comes after them |
| `Stream.TakenWholeIff` | main/nivona_frame.c:259-271 | a byte string comes out as one frame exactly when no proper prefix is complete and it is |
| `Stream.PlainWholeIff` | main/nivona_frame.c:259-271 | a frame whose second byte is not H is whole exactly when it has at most 512 bytes and its first 0x45 is its last byte |
| `Stream.FeedRun` | main/nivona_frame.c:231-274 | any run of whole frames fed to an idle parser comes out as those frames and leaves it idle |
| `Slots.HeldIff` | main/nivona_store.c:21-25 | an id is held exactly when a used slot has it, holes or not |
| `Slots.FullIff` | main/nivona_store.c:173-189 | as many ids are held as there are slots exactly when no slot is free |
| `Slots.Find` | main/nivona_store.c:138-150 | the scan finds the slot of an id, or there is none |
| `Slots.Set` | main/nivona_store.c:173-189 | setting in place keeps one slot per id and is a put into a bounded map: updated if held, added if there is room, else ignored |
| `Slots.Erase` | main/nivona_store.c:152-167 | erasing in place removes the id from that map and nothing else |
| `Registers.PutNumSyncs` | main/nivona_store.c:191-200 | a write keeps memory and flash alike exactly when the id is held or the table has room, and no open batch holds another value for the id |
| `Registers.PutAlphaSyncs` | main/nivona_store.c:277-287 | the same of a text register |
| `Registers.EraseNumSyncs` | main/nivona_store.c:152-167 | erasing keeps them alike exactly when no open batch holds the id |
| `Registers.BatchBeginSyncs` | main/nivona_store.c:214-220 | opening a batch keeps them alike exactly when none is open, or what the open one holds is in flash already |
| `Registers.BatchPutSyncs` | main/nivona_store.c:222-229 | in a batch, memory stays flash overlaid with the open writes exactly while there is room; outside one, exactly when the write changes nothing |
| `Registers.BatchEndSyncs` | main/nivona_store.c:231-236 | committing makes flash what memory is, and changes memory not at all |
| `StoreRuns.CallSyncsIff` | main/nivona_store.c:152-287 | for every call of the store, the exact condition under which memory and flash still agree after it |
| `StoreRuns.AlwaysSyncedIff` | main/nivona_store.c:152-287 | over every sequence of calls: they agree all along exactly if each call met its condition when it was made |
| `StoreRuns.FlashIsMemory` | main/nivona_store.c:38-134 | after such a sequence, with no batch open, flash equals memory, and a reboot restores what was held with the missing factory values |
| `StoreRuns.CommitUndoesWrite` | main/nivona_store.c:231-236 | a write or an erase of an id that an open batch holds is undone in flash by the commit, and not in memory |
| `Boot.LoadedAll` | main/nivona_store.c:38-73 | loading in any iterator order brings back all that is readable, if it fits |
| `Boot.RebootRestores` | main/nivona_store.c:77-134 | while all fits, a reboot in any order restores all that flash can give back and adds exactly the missing factory values |
| `Boot.SecondRebootIsIdle` | main/nivona_store.c:128-134 | a second reboot, in any other order, changes nothing |
| `Boot.TextSurvivesIff` | main/nivona_store.c:54-85 | a text survives a reboot exactly if it has at most 64 bytes and is not, at one of the ids 0x0100 to 0x0103, another than "Profile 1" to "Profile 4" |
| `Boot.ResetWaitsForBoot` | main/nivona_store.c:97-126 | a register that was erased reads 0 until the next boot, and after it 100 if it is 600, 610, 620 or 640, and 0 if it is not |
| `Store.RegisterStore.constructor` | main/nivona_store.c:128-134 | power-up over any flash contents, in any iterator order, arrives at the booted registers |
| `Store.RegisterStore.Load` | main/nivona_store.c:38-73 | the load fills memory with what is readable and fits, and writes nothing back |
| `Store.RegisterStore.SeedDefaults` | main/nivona_store.c:77-126 | the seeding loops arrive at the seeded registers |
| `Store.RegisterStore.GetNum` | main/nivona_store.c:138-143 | reads the map, 0 for a missing id |
| `Store.RegisterStore.HasNum` | main/nivona_store.c:145-150 | tells whether the map has the id |
| `Store.RegisterStore.SetNum` | main/nivona_store.c:191-200 | writes the bounded map and flash, nothing else |
| `Store.RegisterStore.EraseNum` | main/nivona_store.c:152-167 | removes the id from both |
| `Store.RegisterStore.BatchSetNum` | main/nivona_store.c:222-229 | writes memory at once and leaves flash to the commit |
| `Store.RegisterStore.BatchEnd` | main/nivona_store.c:231-236 | lands the batch in flash |
| `Store.RegisterStore.GetAlpha` | main/nivona_store.c:240-249 | copies as much of the text as fits and touches no other byte |
| `Store.RegisterStore.SetAlpha` | main/nivona_store.c:256-287 | stores at most 64 bytes, in memory if there is room and in flash |
| `Store.LoadAll` | main/nivona_store.c:38-73 | the load loop fills memory and writes nothing back |
| `Dispatch.DispatchKeeps` | main/nivona_dispatch.c:304-360 | only HU changes the handshake; what was sent stays sent |
| `Device.MasterIsCipher` | main/nivona_crypto.c:8-15 | RC4 under the master key is a cipher in the sense the framing results need |
| `Device.Radio.Feed` | main/nivona_frame.c:231-274 | feeding a chunk moves parser, registers, replies and machine exactly as the specification of radio and machine together does |
| `Device.Radio.TryParse` | main/nivona_frame.c:72-192 | a completed buffer is served as the frame it holds |
| `Device.Radio.SendFrame` | main/nivona_frame.c:278-353 | the frame built in the buffer and cut into notifications is the printed one; nothing is sent if it does not fit |
| `Device.Radio.Reset` | main/nivona_frame.c:194-206 | no handshake, a zero prefix and an idle parser, whatever was before |
| `Device.Radio.HandleHu` | main/nivona_dispatch.c:75-103 | draws a key, completes the handshake and replies with seed, key and check bytes |
| `Device.Radio.HandleHr` | main/nivona_dispatch.c:178-185 | replies with the id and its current value |
| `Device.Radio.HandleHw` | main/nivona_dispatch.c:187-202 | stores the value if the payload is long enough; acknowledges either way |
| `Device.Radio.HandleHa` | main/nivona_dispatch.c:206-212 | replies with the text padded to 64 bytes |
| `Device.Radio.HandleHb` | main/nivona_dispatch.c:214-223 | stores the text cut to 64 bytes |
| `Device.Radio.HandleHe` | main/nivona_dispatch.c:235-293 | starts a brew on the machine, or refuses, and answers by what the start call said |
| `Device.Radio.HandleHx` | main/nivona_dispatch.c:120-125 | replies with the packed status of the machine |
| `Device.Radio.HandleHy` | main/nivona_dispatch.c:322-334 | confirms the prompt of the machine and acknowledges |
| `Device.Radio.HandleHz` | main/nivona_dispatch.c:321-321 | cancels the brew of the machine and acknowledges |
| `Front.Front.constructor` | main/nivona_maint.c:126-141 | power-up over what flash holds of the tanks is the machine just powered up |
| `Front.Front.Start` | main/nivona_brew.c:432-498 | a brew start on tanks, panel and flags is the machine's step, and says yes exactly if the machine takes the order |
| `Front.Front.Cancel` | main/nivona_brew.c:500-508 | so is a cancel |
| `Front.Front.Confirm` | main/nivona_maint.c:102-124 | a confirm |
| `Front.Front.SetLevel` | main/nivona_cli.c:262-263 | setting a level, with the prompt re-evaluated |
| `Front.Front.SetPart` | main/nivona_cli.c:315-316 | setting a part, likewise |
| `Front.Front.ResetTanks` | main/nivona_cli.c:283-292 | resetting all tanks, likewise |
| `Front.Front.OrderCycle` | main/nivona_maint_cycle.c:253-285 | a cycle start, which says yes exactly if nothing runs, the kind is known and the task can be made |
| `Front.Front.CancelCycle` | main/nivona_maint_cycle.c:287-292 | and its cancel |
| `Device.Radio.HandleHd` | main/nivona_dispatch.c:335-353 | erases the one register named |
| `Device.Radio.DispatchRequest` | main/nivona_dispatch.c:304-360 | every command goes to its handler, unknown ones are acknowledged |
| `Client.FramesAgree` | tests/test_emulator.py:87-96 | client and emulator print the same bytes for every command, payload and prefix |
| `Client.ClientReads` | tests/test_emulator.py:99-110 | the client reads back every two-byte-command frame the emulator prints |
| `Client.Cipher` | tests/test_emulator.py:62-72 | the client's own loops compute the emulator's cipher |
| `Client.HuVerifier` | tests/test_emulator.py:75-84 | and its check bytes |
| `Protocol.RequestTakenWholeIff` | main/nivona_frame.c:259-271 | a client's request of at most 512 bytes arrives as one frame exactly when it has its fixed size or, with no fixed size, no 0x45 before its end |
| `Protocol.SizedRequestsArrive` | main/nivona_frame.c:72-192 | after a handshake, any list of fixed-size requests, in any chunks, is dispatched as those requests in order, and the parser is idle |
| `Protocol.SizedRequestsCut` | main/nivona_frame.c:231-274 | they are cut apart right whatever bytes the ciphertext has |
| `Protocol.WrongKeyIsDispatched` | main/nivona_frame.c:173-188 | a request under another key is dispatched with that key in its payload |
| `Protocol.HandshakeFromReset` | main/nivona_dispatch.c:75-103 | from reset, a HU frame in any chunks gets exactly one reply, which the client reads as its seed, the new key and check bytes valid over both |
| `Protocol.HandshakeAnswered` | main/nivona_dispatch.c:84-103 | the reply to a handshake and the state it leaves |
| `Protocol.RehandshakeIff` | main/nivona_frame.c:173-188 | a second handshake is answered exactly when its seed does not begin with the session key |
| `Protocol.CorruptedIsIgnored` | main/nivona_frame.c:155-171 | a frame, once cut, with one ciphertext byte changed has no effect at all |
| `Protocol.CorruptedRequest` | main/nivona_frame.c:231-274 | as a stream in any chunks, a request with one ciphertext byte changed has no effect and leaves the parser idle, unless its command has no fixed size and the new byte is 0x45: then the frame is cut at that byte |
| `Protocol.DispatchedAreStretches` | main/nivona_frame.c:231-274 | for any stream at all: every dispatched request comes from a stretch of it, in order and disjoint, and reprinting the request gives that stretch back |
| `Protocol.ReprintsIff` | main/nivona_frame.c:317-341 | reprinting works unless the command has a zero byte, which the C string would end at |
| `EndToEnd.RegistersAreAMap` | main/nivona_dispatch.c:178-202 | after a handshake, any list of reads, writes and resets, as one stream in any chunks, gets the answers a bounded map would give, read by the client's own reader |
| `EndToEnd.QueryHandled` | main/nivona_dispatch.c:335-353 | one such query: the map moves, the reply is the map's |
| `EndToEnd.TextRoundTrip` | main/nivona_dispatch.c:206-223 | an HB and an HA request frame in any chunks: the write is acknowledged, and the client reads the text back from the joined notifications, cut to 64 bytes and padded, if the HB frame has no 0x45 before its end and the table has room |
| `EndToEnd.LongReplyIsRead` | main/nivona_frame.c:278-353 | a reply of any length arrives as notifications of at most 20 bytes that the client reads, joined, as what was sent |
| `EndToEnd.ReportIsRead` | main/nivona_dispatch.c:129-176 | HV, HI, HL, HS, Hp and HC get no acknowledgement but a reply with the command itself, which the client reads as what there is to report; nothing else changes |
| `EndToEnd.CommandsAre` | main/nivona_frame.h:18-33 | every command is spelled as the client spells it |
| `EndToEnd.ShortWrite` | main/nivona_dispatch.c:187-223 | a write or a reset too short for its command is acknowledged and changes nothing |
| `EndToEnd.ShortRead` | main/nivona_dispatch.c:178-185 | a read without an id reads register 0 |
| `EndToEnd.ShortFetch` | main/nivona_dispatch.c:206-212 | so does a read of a text |
| `EndToEnd.ShortHandshake` | main/nivona_dispatch.c:75-80 | a handshake too short for its seed and check bytes is passed over |
| `EndToEnd.UnknownIsAcked` | main/nivona_dispatch.c:354-360 | any other command is acknowledged and changes nothing |
| `EndToEnd.ShortBrew` | main/nivona_dispatch.c:252-255 | a brew request too short for its fields is as good as one filled up with zeros |
| `EndToEnd.BrewAnswerIff` | main/nivona_dispatch.c:235-293 | a brew request is acknowledged exactly when mode and flag are right and the start call says yes, whatever that depends on |
| `Session.PowerUp` | main/nivona_store.c:128-134 | power-up over any flash contents gives a `Radio` with its store and machine, sound and with no handshake |
| `Session.Receive` | main/nivona_frame.c:231-274 | a `Radio` fed one chunk after another, with its store and machine, ends where the results on radio and machine have them, and the machine stays sound |
| `Session.Connect` | main/nivona_dispatch.c:75-103 | on a `Radio`: a reset and a handshake in any chunks give one reply, which the client can check, and a session under its key; registers and machine unchanged |
| `Session.Serve` | main/nivona_frame.c:72-192 | on a `Radio` in session: fixed-size requests in any chunks are dispatched one for one |
| `Session.Converse` | main/nivona_dispatch.c:178-202 | on a `Radio` in session: queries in any chunks get a bounded map's answers, and the store's tables end as that map |
| `Session.Visit` | main/nivona_dispatch.c:75-202 | a whole visit on a `Radio`: handshake, then queries under the key it gave |
| `Session.OrderBrew` | main/nivona_dispatch.c:235-293 | on a `Radio` in session, on the tanks, panel and flags themselves: a brew request in any chunks is acknowledged exactly when byte 1 is 4 on the 8000 or 11 elsewhere, byte 5 is 0 or 1, and the machine is idle, fit, has the recipe and can make the task; the flag is then up, and else nothing of the machine changed |
| `Emulator.AllChunksMerge` | main/nivona_frame.c:231-274 | with a machine that answers by its state at each frame, chunking still makes no difference |
| `Emulator.AlwaysHolds` | main/nivona_dispatch.c:304-360 | over every run of radio and machine together the machine is sound; that its registers are the ones the radio reads and writes is how the two are put together |
| `Emulator.BrewOnRequestIff` | main/nivona_dispatch.c:235-293 | at any point of any such run, in any chunks: a brew request is acknowledged exactly when byte 1 is 4 on the 8000 or 11 on another family, byte 5 is 0 or 1, the machine is idle and fit to brew, has the recipe and can make the task; then and only then a brew begins, else the machine stays as it is |
| `Emulator.StatusOnRequest` | main/nivona_dispatch.c:120-125 | a status request, in any chunks, is answered with the machine's own status, which changes nothing |
| `Emulator.CancelOnRequest` | main/nivona_brew.c:500-508 | a cancel request is acknowledged and sets the cancel flag of the brew under way, if there is one |
| `Emulator.ConfirmOnRequest` | main/nivona_maint.c:102-124 | a confirm request is acknowledged, and a prompt that is up gives way to what tanks and parts call for, a task under way or not; with none up nothing changes, and an idle machine then needs none |
| `Emulator.PushIsRead` | main/nivona_brew.c:30-36 | what a task pushes reaches the client as the status of that moment |
| `Notified.StepIsTold` | main/nivona_brew.c:30-36 | without a list of the steps that push: whatever step the machine makes, the client reads just the statuses that the step adds to what its task has pushed, or a cycle's first prompt |
| `Notified.PushesAreRead` | main/nivona_maint_cycle.c:53-57 | over any run of brews, cycles, commands and cancels, the client reads all that was pushed, one notification for one status, in order, and nothing else |
| `Notified.WorkedIsRun` | main/nivona_brew.c:258-424 | such a run is one of radio and machine together in which nothing arrives |
| `Notified.BrewIsTold` | main/nivona_brew.c:322-414 | as long as a brew is under way, whatever is done at the machine, what the client has read since it began is the brew's own record, status for status |
| `Notified.WholeBrewIsTold` | main/nivona_brew.c:322-414 | over a whole brew left alone the client reads its announcement (the brewing code, the selector, no prompt), a status for each tick with the stage's code and that tick's progress, and last ready with the prompt the tanks call for: those and no others |
| `Notified.WholeCycleIsTold` | main/nivona_maint_cycle.c:144-234 | over a whole cycle left alone: the prompt it begins with, if it has one, its code, a status for each tick, and last ready with the true prompt: those and no others |
| `Families.FindRecipe` | main/nivona_families.c:238-245 | the search finds the first recipe with the selector |
| `Families.BrewsIff` | main/nivona_families.c:30-118 | which selectors each family's table has |
| `Families.RecipeCountedIff` | main/nivona_stats.c:131-172 | every recipe has a cup counter but two on the 600 and one on the 1040 |
| `Families.CodesDiffer` | main/nivona_families.c:142-152 | ready, brewing and busy codes are told apart in every family |
| `Families.FamilyIs` | main/nivona_families.c:142-152 | ready, brewing and mode are 3, 4 and 4 on the 8000 and 8, 11 and 11 elsewhere; the 1030, 1040 and 8000 have a lid, and all but the 600, 700 and 79x milk |
| `Families.RecipeIs` | main/nivona_families.c:30-118 | each selector of each family makes the drink it stands for |
| `Families.StatsAre` | main/nivona_stats.c:15-172 | the ids of total, coffee cleaning, rinse, filter change, descaling and via-app counter: 213, 214, 216, 219, 220, 221 on the 8000 and 900, two higher on the 1030 and 1040, none on the others; and that of the filter setting |
| `Consumables.AdjustExactIff` | main/nivona_consumables.c:139-153 | an adjustment is exact exactly when it stays within 0 and 100 |
| `Consumables.RestoredIs` | main/nivona_consumables.c:62-111 | saved levels and parts come back as they are, parts not saved are taken to be in, and without levels all is full, the tray empty and all parts in |
| `Consumables.Tanks.constructor` | main/nivona_consumables.c:85-97 | power-up takes what flash holds as it is, or the factory state, and flash agrees with it from then on; the tanks are in order exactly if no level is above 100 |
| `Consumables.Tanks.Reset` | main/nivona_consumables.c:99-111 | the factory state, in memory and flash |
| `Consumables.Tanks.Set` | main/nivona_consumables.c:125-130 | sets one level within 0..100, and flash with it |
| `Consumables.Tanks.SetPart` | main/nivona_consumables.c:132-137 | sets one part, and flash with it |
| `Consumables.Tanks.Adjust` | main/nivona_consumables.c:139-153 | moves one level, held within 0..100, and flash with it |
| `Status.PackedIsRead` | main/nivona_fsm.c:69-111 | both readers of the eight bytes get the block back, the phone's message exactly while the info byte is 0 |
| `Status.Panel.Pack` | main/nivona_fsm.c:99-111 | the buffer is filled with the packed block |
| `Maint.PromptNoneIff` | main/nivona_maint.c:53-79 | no prompt exactly when brew unit and trays are in, the lid too on a family that has one, water is at 10 or more and the tray at 90 or less |
| `Maint.PromptIsTrue` | main/nivona_maint.c:53-79 | a prompt names a real fault that the family can raise: 1 the brew unit, 2 the trays, 5 the lid, 4 the water, 3 the tray |
| `Maint.PromptIsMostUrgent` | main/nivona_maint.c:49-79 | of all faults the most urgent is shown, in the order 1, 2, 5, 4, 3: a prompt is up exactly when it is called for and none before it is |
| `Maint.ConfirmSettles` | main/nivona_maint.c:102-124 | a confirm clears a soft prompt and never hides a real one |
| `Maint.Reevaluate` | main/nivona_maint.c:81-90 | only the prompt changes, to the most urgent one |
| `Maint.HandleConfirm` | main/nivona_maint.c:102-124 | the state after a confirm, and when it reports success |
| `Maint.ColdStart` | main/nivona_maint.c:126-141 | power-up raises a flush (20) exactly if nothing is wrong, and else the true prompt |
| `Ramp.ElapsedBounds` | main/nivona_brew.c:337-346 | the stage times add up to the total, less at most a millisecond for each stage after the first |
| `Ramp.TimelineIs` | main/nivona_brew.c:54-70 | the code shown in each tenth of the time of each drink: 1 for grinding, 2 coffee, 3 steam, 4 water |
| `Ramp.ScaleAtMostFourIff` | main/nivona_brew.c:215-256 | the factor is at least 0.5, and at most 4 exactly within a budget of strength and volume |
| `Ramp.ScaleExceedsFour` | main/nivona_brew.c:215-256 | a request that takes it to 6.4 |
| `Ramp.ScaleRange` | main/nivona_brew.c:233-256 | up to strength 4 it lies within 0.5 and 6.4 |
| `Ramp.TotalIs` | main/nivona_brew.c:283-301 | the total is the plain time's share of what is asked for, rounded down |
| `Ramp.InRangeIff` | main/nivona_brew.c:283-301 | 100 times the total stays below 2^32 exactly if the plain time times the demand is less than 42949673 times 1600 |
| `Ramp.MildBrewsFit` | main/nivona_brew.c:215-256 | up to strength 4 that is so, at every volume |
| `Clock.NoProductPassesIff` | main/nivona_brew.c:337-397 | for every time that 32 bits hold: no stage's and no tick's product passes 32 bits over a brew that is not cancelled exactly if that is so |
| `Clock.EndsIff` | main/nivona_brew.c:388-396 | for any total from 200 ms on and any table's stages: the last tick shows 99 or more exactly if the clock ends before 42949673 and the total is below 43383509 |
| `Clock.EndsNear100Iff` | main/nivona_brew.c:337-397 | for every recipe, strength and volume whose time, in exact arithmetic, 32 bits hold: a brew that is not cancelled ends at 99 or more exactly if what is asked for fits; and, with a tenfold time that 32 bits hold, its progress climbs all along exactly if it fits |
| `Clock.ClimbsIff` | main/nivona_brew.c:388-396 | at any point of a brew, cancelled or not, progress has never fallen exactly if the clock has not reached 42949673 |
| `Clock.StrongBrewFalls` | main/nivona_brew.c:388-396 | coffee at strength 10000 and 320 ml takes 168112000 ms; every run of its ticks to the end falls in progress and ends below 99 |
| `Clock.StageFits` | main/nivona_brew.c:344-346 | a stage's product fits 32 bits and its time the total |
| `Clock.ShowsClimb` | main/nivona_brew.c:388-396 | progress is a percentage, never falls, and is 100 when all the time is up |
| `Clock.ProgressClimbs` | main/nivona_brew.c:388-396 | a completed brew's last tick shows 99 or more in spite of the rounding |
| `Wear.WearClosedForm` | main/nivona_brew.c:140-167 | after n brews from tick t: filter less n, brew unit less the even ticks passed, descaling less those divisible by 5, none below 0, whatever was brewed |
| `Wear.FamilyWearClosedForm` | main/nivona_brew.c:104-167 | the same for the recipes of every family |
| `Wear.BrewKeepsFlags` | main/nivona_brew.c:151-167 | a brew keeps each flag up exactly while its gauge is low |
| `Wear.BrewWrites` | main/nivona_brew.c:104-170 | a brew raises by one the counter of its recipe (200 and the selector, but for two on the 600 and one on the 1040), the total 213 and the via-app counter 221, or 215 and 223 on the 1030 and 1040, and neither on the 600, 700 and 79x; it wears 640 always, 610 at even and 600 at fifth ticks, and leaves every register alone that is no gauge or flag |
| `Wear.TotalInStepIff` | main/nivona_brew.c:108-138 | a brew keeps the total in step with the cup counters exactly unless it is warm milk on the 1040 |
| `Wear.SeededTracks` | main/nivona_store.c:97-126 | factory registers have every flag tracking its gauge |
| `WearStore.ApplyWear` | main/nivona_brew.c:104-170 | the code's batch arrives at the registers specified, in memory and flash |
| `WearStore.BatchIsPlain` | main/nivona_brew.c:104-170 | with room in the table the batch does what the plain map does, and flash agrees |
| `Control.AlwaysCoherent` | main/nivona_brew.c:455-516 | under every interleaving: at most one task, the flag up exactly while it lives, a cancel pending only then, and its argument the one its own start gave |
| `Control.NoStaleCancel` | main/nivona_brew.c:416-508 | a task begins with no cancel pending; only a cancel made while it is alive makes one |
| `Control.BrewExcludesCycle` | main/nivona_maint_cycle.c:253-285 | if start calls do not overlap, a brew and a cycle are never both active |
| `Control.OverlappingStartsCollide` | main/nivona_maint_cycle.c:258-264 | if they do, both can be |
| `Control.CollideIff` | main/nivona_brew.c:455-497 | over every interleaving: both are active at some point exactly if a call claims successfully although the other task has been claimed for since it looked, and is active still |
| `Control.TaskControl.Cancel` | main/nivona_brew.c:500-508 | a cancel reaches the task alive, if there is one |
| `Control.TaskControl.Start` | main/nivona_brew.c:473-497 | the locked part of a start call: claims exactly if idle and the task is made, and keeps the state coherent |
| `Control.TaskControl.TakeSnapshot` | main/nivona_brew.c:265-268 | the task reads the argument of its own start |
| `Control.TaskControl.Finish` | main/nivona_brew.c:416-420 | the task's last section |
| `Brew.WaterIsExact` | main/nivona_brew.c:349-373 | with enough water the level falls by exactly what the stages cost |
| `Brew.WaterUseRange` | main/nivona_brew.c:54-70 | every recipe costs 3 to 8 percent |
| `Brew.BrewTakes` | main/nivona_brew.c:349-373 | what a whole brew of each drink takes of water and beans and adds to the tray, down to an empty tank and up to a full tray; filter and parts stay |
| `Brew.StartBrew` | main/nivona_brew.c:432-498 | a start call claims exactly if the recipe exists, no cycle runs and no hard prompt stands |
| `Brew.RunTicks` | main/nivona_brew.c:386-397 | the tick loop keeps the clock, wraps nothing, ticks every 500 ms after the start of its stage and at its end, and at each tick shows the share of the total passed and the stage the clock is in |
| `Brew.RunStages` | main/nivona_brew.c:337-398 | all stages unless cancelled: the clock runs for exactly their times as 32 bits have them, tanks lose what they use up, and for every total it is told exactly when progress climbs and when it ends at 99 or more |
| `Brew.LoadOverrides` | main/nivona_brew.c:187-213 | reads the six fields, telling a missing one from a zero |
| `Brew.TimeAskedIs` | main/nivona_brew.c:199-301 | the time of a brew by what a client wrote: the plain time, times 20 plus three for each unit of strength (9002), times the volume, over 1600, rounded down; the volume is the sum of what is positive of 9006, 9007 and 9009 on the 600, of 9006 to 9009 on the 700, 79x and 8000, of 9010 to 9013 on the others, held within 40 and 320 ml, or 80 if there is none |
| `Brew.RunBrew` | main/nivona_brew.c:258-424 | one whole brew: announcement, then at each tick the brewing code, the current stage and the progress 32 bits make of the time passed, then one ready status with the true prompt; whenever 32 bits hold the time asked for, progress ends at 99 or more, if not cancelled, exactly if what was asked for fits, and is then the true share; tanks less the stages entered; registers changed only if not cancelled |
| `Cycle.FindPlan` | main/nivona_maint_cycle.c:98-103 | the search finds the plan of a kind, or there is none |
| `Cycle.PlansAre` | main/nivona_maint_cycle.c:87-103 | there are plans for 9, 10, 11, 12, 13, 17, 19 and 20 only; how long each takes, and the prompt it begins with |
| `Cycle.EmitCodeIsApart` | main/nivona_maint_cycle.c:166-181 | a cycle's code is never the family's ready or brewing code; it is that of its kind, but 99 for filter insertion (11) off the 8000 |
| `Cycle.CycleWrites` | main/nivona_maint_cycle.c:191-215 | a completed cycle, kind by kind and family by family: 10 sets 600 to 100 and 601 to 0 and raises 220, 19 sets 610 and 611 and raises 214, 11 and 12 set 640 and 641 and raise 219, 13 sets 640 and 641, and 9, 17 and 20 raise 216; counters are two higher on the 1030 and 1040, and there are none on the 600, 700 and 79x; every other register stays |
| `Cycle.FilterIs` | main/nivona_maint_cycle.c:216-226 | 11 and 12 leave the filter full, 13 leaves it empty, and no other kind touches the tanks |
| `Cycle.CycleKeepsFlags` | main/nivona_maint_cycle.c:191-215 | a cycle keeps flags tracking gauges |
| `Cycle.CycleLeavesCups` | main/nivona_maint_cycle.c:191-215 | and leaves cup counters and total alone |
| `Cycle.CycleIsPlain` | main/nivona_maint_cycle.c:191-215 | its writes are those of a plain map, in memory and flash, with room in the table |
| `Cycle.StartCycle` | main/nivona_maint_cycle.c:253-285 | a start call claims exactly if no brew runs and the kind is known |
| `Cycle.RunCycleTicks` | main/nivona_maint_cycle.c:184-196 | a tick every 500 ms and one at the end; progress climbs to 100, and nothing else of the status changes |
| `Cycle.RunCycle` | main/nivona_maint_cycle.c:123-245 | one whole cycle: prompt first, its own code throughout, then ready with the true prompt; counter, gauge, flag and filter changed only if not cancelled |
| `Runs.StepKeepsInTurn` | main/nivona_brew.c:258-424 | every step keeps tasks exclusive and the process code that of the task running |
| `Runs.StepKeepsPrompt` | main/nivona_maint.c:53-141 | every step keeps the prompt settled while no task is at work |
| `Runs.StepKeepsWater` | main/nivona_consumables.c:139-165 | every step keeps the account of water and completed brews |
| `Runs.StepKeepsPushes` | main/nivona_brew.c:322-414 | every step keeps pushed statuses in order |
| `Runs.StepKeepsBooks` | main/nivona_brew.c:104-170 | every step keeps registers what completed brews and cycles make of them |
| `EveryRun.IdleIsSettled` | main/nivona_maint.c:53-141 | in every run from power-up, an idle machine shows ready, 3 on the 8000 and 8 elsewhere, and the prompt its tanks and parts call for, or the flush if they call for none |
| `EveryRun.AcceptedIff` | main/nivona_brew.c:432-498 | in every run, a brew order is taken exactly when the machine is idle, unit, trays and lid are in, water is at least 10 and the tray at most 90, the family has the recipe and the task can be made; the state after it is given in full, and is the state before it when it is not taken, also while a brew or a cycle runs |
| `EveryRun.SettingsHold` | main/nivona_consumables.c:99-137 | a level or part that is set is what it was set to, within 0 and 100, and no other changes; a reset fills all, empties the tray and puts all parts in |
| `EveryRun.PartsAreNeeded` | main/nivona_brew.c:460-471 | in every run: with the brew unit or the trays out, or the lid of a machine that has one, no order is taken; with the part back in, orders are taken as before |
| `EveryRun.WaterIsSpentExactly` | main/nivona_brew.c:349-373 | in every run, a brew under way has spent exactly what its stages cost, unless the level was set meanwhile; and no cycle runs beside it |
| `EveryRun.BrewsPerFilling` | main/nivona_brew.c:349-373 | at most 31 brews begin and complete between two fillings, and no more than the level filled in allows |
| `EveryRun.BrewStatuses` | main/nivona_brew.c:322-414 | a brew pushes its brewing code, 4 on the 8000 and 11 elsewhere, throughout and ready once at the end, and at most one progress status after a cancel |
| `EveryRun.CycleStatuses` | main/nivona_maint_cycle.c:166-234 | past its prompt, a cycle pushes neither the ready nor the brewing code until its last status |
| `EveryRun.FlagsAlwaysTrack` | main/nivona_brew.c:151-167 | in every run each flag is up exactly while its gauge is low |
| `EveryRun.FlagsTrackFromFactory` | main/nivona_store.c:97-108 | in particular from factory registers, on every family |
| `EveryRun.WearOfRun` | main/nivona_brew.c:140-167 | in every run without a completed cycle, gauges depend only on how many brews completed |
| `EveryRun.TotalOfRunIff` | main/nivona_stats.c:15-51 | in every run on a family with a total, it stays in step with the cup counters exactly unless a 1040 completes a warm milk |
| `Locked.AlwaysCoupled` | main/nivona_brew.c:455-516 | under every interleaving of start calls, tasks and commands, each flag is up exactly while its task is there, and the task has the argument and the cancel flag of its own start |
| `Locked.RefinesIff` | main/nivona_brew.c:432-498 | such a run is, all along, a run of the machine whose start calls are one step exactly if at every claim the other task's flag is down and, for a brew, no hard prompt is up |
| `Locked.UndisturbedIsSound` | main/nivona_brew.c:432-498 | that is so if start calls do not overlap and no hard prompt is raised between a look and a claim, and then all that holds of the machine's runs holds |
| `Locked.LateLookMisses` | main/nivona_brew.c:460-475 | it need not be so: with the water run out between the look and the claim, a brew begins on a machine unfit for it |
| `Alone.BrewAlone` | main/nivona_brew.c:258-424 | a brew left alone leaves tanks, status and registers as `Brew.RunBrew` specifies |
| `Alone.CycleAlone` | main/nivona_maint_cycle.c:123-245 | a cycle left alone leaves status, registers and filter as `Cycle.RunCycle` specifies |
| `Alone.CycleChangesAlone` | main/nivona_maint_cycle.c:191-227 | and by kind and family: which registers it has then changed and to what, as `Cycle.CycleWrites` has it |
| `Alone.BrewEnds` | main/nivona_brew.c:337-424 | an uncancelled brew comes to its end in a number of steps that is known from its state, and counts as one brew since the last filling |
| `Alone.CancelledBrewEnds` | main/nivona_brew.c:386-424 | a cancelled brew is over after at most eight of its steps, whatever time is left, and counts nowhere |
| `Alone.CancelledCycleEnds` | main/nivona_maint_cycle.c:176-242 | a cancelled cycle is over after at most eleven, and changes neither registers nor tanks |
| `Alone.EspressosInARow` | main/nivona_brew.c:54-70 | the tanks after n espressos from a full tank are fit for one more exactly up to n = 30; after 31 they call for water |
| `Alone.BoundIsReached` | main/nivona_brew.c:432-498 | the bound of `EveryRun.BrewsPerFilling` is reached by a run: 31 espressos are ordered and completed one after another, and only then an order is refused |
| `Durable.WrittenIdsFit` | main/nivona_stats.c:15-51 | factory registers and all that any brew or cycle of a family writes are at most 34 ids |
| `Durable.AlwaysKept` | main/nivona_brew.c:104-170 | over every run from factory registers, the slot table of 256 and flash hold just what the machine's plain map holds |
| `Durable.PowerMayFail` | main/nivona_store.c:38-134 | at any point of such a run, memory is the machine's own account, flash is memory, flags track gauges, and a power cycle brings back the very same registers |

## Left out

- BLE stack, GATT, advertising, WiFi, OTA, telnet, HTTP diagnostics, command-line parsing, touchscreen and display: input and output around the modelled core; their actions appear as the commands of `Machine.Step`.
- FreeRTOS and flash internals: a lock is an atomic step, task creation succeeds or fails, flash calls succeed, a batch lands at its commit.
- Keys under which flash stores registers (decimal text of the id): flash is a map from ids.
- Family selection and switching: the family is fixed for a run; families are an enumeration, so fallbacks for an unknown name are not modelled.
- Content of the replies to HV, HL, HI, HS, Hp and HC: given to `Dispatch.Env` as a function; that each is sent under its own command is `EndToEnd.ReportIsRead`. The status in the reply to HX and the outcome of a brew start are functions there too, and those of the machine in `Emulator`.
- Random session keys: any two bytes.
- Notifications of replies interleaved with pushes of a task: one sender at a time, each frame served in one step.
- Flash writes of the tanks outside their lock, racing each other.
- Raw prompt setting and status reset from the command line.
- Labels, names, logs and diagnostic counters.
- EndToEnd.BrewAnswerIff: for a radio by itself, whatever the start call says; which answer the machine gives is in `Emulator.BrewOnRequestIff` and `Session.OrderBrew`.
- Emulator.Recorded: a completion's register writes are one step, so no request is served while its batch is open there; `StoreRuns` has what such a request does to memory and flash.
- Durable.AlwaysKept: register writes over the radio are not among its steps; with them the table may fill up, and `Registers.PutNumSyncs` says what happens then.
- Alone.BoundIsReached: with the factory tanks and the recipe that costs least, which is what reaching the bound takes.
- Ramp.Overrides.Fluid: the sum of the four volumes wraps, where C leaves open what comes of passing 31 bits; whatever comes of it, the clamps bring the volume to 40..320 ml or 80.
- Levels above 100 in flash, which the firmware never writes: `Consumables.Tanks` restores them, but its other methods need levels of at most 100.
- Tasks on the objects while the radio is served: `Brew.RunBrew` and `Cycle.RunCycle` run on objects that nothing else touches; among requests and commands a task's steps are those of `Machine`.
- EveryRun.AcceptedIff: start calls are one step there and in what builds on it; `Locked` tells for which runs they are.
- Ramp.Scale: exact arithmetic where the code has single-precision floats, so a total may differ by the float's rounding.
- Brew.RunBrew: for a time of 2^32 ms and more C leaves open what its conversion from a float gives, so progress is left open there; tanks, codes, statuses and registers are not. The cancel flag is looked at as the code looks, but given in advance as the first look that finds it set; what tanks and panel show with others at work is in `EveryRun`.
- Machine.Step: the ticks a stage makes and the progress they show are left open there, and a completion's register writes are one step; the exact clock is in `Ramp`, `Clock` and `Brew`.
- Wear.WearClosedForm: for gauges and ticks that are not negative and a counter that does not reach its 32-bit limit.
- EveryRun.TotalOfRunIff: for counters that stay below their 32-bit limit.
- Control.BrewExcludesCycle: needs start calls that do not overlap, as the counterexample beside it shows.
