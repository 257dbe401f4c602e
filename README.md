# OpenRF JwikBrik x69HW bridge firmware, modelled in Dafny

This project models the application core of the JwikBrik x69HW serial-radio module firmware (`OpenRF_JwikBrik_x69HW.c`). The firmware bridges a UART to an OpenRF radio link. It has four parts:

- an AT command handler that queries and sets the device parameters;
- a persistent configuration block that the "WS" command saves and `LoadPresets` reads back;
- a transparent bridge that packs UART bytes into radio packets by trigger level or trigger timeout;
- a remote I/O slave that answers analog/digital requests from a master.

The modules follow the program's structure:

- `Bytes` (bytes.dfy): the `UU32`/`UU128` unions as little-endian byte sequences (`Word`, `Key`).
- `HexCodec` (hex_codec.dfy): `WriteCharToUart`/`WriteU32ToUart` as functions, `parseHexU8/U16/U32` as a fold plus a loop method, and the `Read*FromUart` outcome as `ReadHex`.
- `DeviceConfig` (device_config.dfy): the configuration globals, the `OpenRFInitialize` snapshot, and the header constants taken as parameters (`Platform`).
- `ConfigStore` (config_store.dfy): the save image of "WS", the load of `LoadPresets`, and what a save followed by a load restores. The two are not symmetric:
  - the 32-bit fields come back byte-reversed;
  - `_quiet` receives the saved `_operatingMode`;
  - only the low byte of the trigger timeout survives;
  - offsets 28–31 are read but never written.
- `AtDispatcher` (at_dispatcher.dfy): `ATCommand` as a pure function over the part of the state it touches (`AtView`), with the properties of each case.
- `TransmitTrigger` (transmit_trigger.dfy): the per-pass trigger decision, the 1 ms tick, and runs of the bridge over several passes.
- `BridgeEngine` (bridge.dfy): the globals as the class `Bridge`, with imperative methods:
  - for `ATCommand`, `LoadPresets`, `SendPacketFromUART1Data`, one pass of the main loop and the MAC callbacks;
  - each proved equal to the pure specification or stating the new state outright.

Calls into the MAC/radio layer are recorded on the object: `OpenRFInitialize`, `OpenRFSendPacket` and `RadioSetTxPower` in sequences (`inits`, `sent`, `txPowerRequests`), `ExitCommandMode` in a counter (`exitRequests`). RSSI, temperature and ADC readings are parameters.

The code behaves in these ways a reader may not expect:

- A save followed by a load is not the identity (`ConfigStore.SaveThenLoad`).
- Only opcode 0xFF writes "OK"; other numbers with no `case` label do nothing (`AtDispatcher.UnknownCommandIgnored`).
- A set with a non-hex first character still stores 0 rather than leaving the field alone (`AtDispatcher.NonHexArgumentSetsZero`).
- The trigger timer is not reset by a level flush or by the queue emptying. A timer that expires over an empty queue sends an empty packet (`TransmitTrigger.LevelFlushKeepsTimer`, `TransmitTrigger.EmptyPacketQuirk`).
- Set-digital echoes the last sampled digital value, not the pin it drives, and that value survives every pass that serves no read-digital (`BridgeEngine.Bridge.Step`).
- The analog-trigger replies are one NACK byte on failure and ACK plus the stale second response byte on success.

## Model

| member | source | states |
|---|---|---|
| Bytes.LeBytesThenU32Of | Protocol_Platform/Projects/OpenRF_JwikBrik_x69HW/App/OpenRF_JwikBrik_x69HW.c:171-174 | reading the `.U32` of a `UU32` whose bytes were set from a value gives the value back |
| Bytes.U32OfThenLeBytes | Protocol_Platform/Projects/OpenRF_JwikBrik_x69HW/App/OpenRF_JwikBrik_x69HW.c:171-174 | the bytes of a `UU32` are determined by its `.U32` (the union view is a bijection) |
| Bytes.SetKeyWord | Protocol_Platform/Projects/OpenRF_JwikBrik_x69HW/App/OpenRF_JwikBrik_x69HW.c:429-440 | `_encryptionKey.UU32[j].U32 = v` makes word j hold v and leaves the other twelve key bytes unchanged |
| Bytes.ReverseInvolution | Protocol_Platform/Projects/OpenRF_JwikBrik_x69HW/App/OpenRF_JwikBrik_x69HW.c:649-672 | reversing a field's bytes twice restores it: the byte reversal a load applies is its own inverse |
| HexCodec.HexChar | Protocol_Platform/Projects/OpenRF_JwikBrik_x69HW/App/OpenRF_JwikBrik_x69HW.c:201-207 | `WriteCharToUart` maps 0–15 to a hex digit of that value, never a lower-case one |
| HexCodec.U32HexOrder | Protocol_Platform/Projects/OpenRF_JwikBrik_x69HW/App/OpenRF_JwikBrik_x69HW.c:208-216 | `WriteU32ToUart` emits 8 characters, the high nibble of the most significant byte first and the low nibble of the least significant byte last |
| HexCodec.U32HexRoundTrip | Protocol_Platform/Projects/OpenRF_JwikBrik_x69HW/App/OpenRF_JwikBrik_x69HW.c:208-242 | the 8 characters `WriteU32ToUart` emits are all hex digits, and `parseHexU32` of them returns the original value |
| HexCodec.ByteHexRoundTrip | Protocol_Platform/Projects/OpenRF_JwikBrik_x69HW/App/OpenRF_JwikBrik_x69HW.c:297-321 | the two nibble characters of a byte parse back, as 8 bits, to the byte |
| HexCodec.HexOfBytesValue | Protocol_Platform/Projects/OpenRF_JwikBrik_x69HW/App/OpenRF_JwikBrik_x69HW.c:208-216 | the nibble text of a byte sequence has two hex digits per byte and denotes the bytes read big-endian |
| HexCodec.HexOfFourBytes | Protocol_Platform/Projects/OpenRF_JwikBrik_x69HW/App/OpenRF_JwikBrik_x69HW.c:208-216 | the text of four bytes is the concatenation of each byte's two digits, and their big-endian value is the usual positional sum |
| HexCodec.HexPrefixLen | Protocol_Platform/Projects/OpenRF_JwikBrik_x69HW/App/OpenRF_JwikBrik_x69HW.c:221-240 | the parse loop consumes a prefix of hex digits and stops exactly at the first non-hex character |
| HexCodec.PrefixLenOfHexThen | Protocol_Platform/Projects/OpenRF_JwikBrik_x69HW/App/OpenRF_JwikBrik_x69HW.c:221-240 | hex digits followed by a non-hex character or nothing are consumed in full and no further |
| HexCodec.FoldHex | Protocol_Platform/Projects/OpenRF_JwikBrik_x69HW/App/OpenRF_JwikBrik_x69HW.c:217-242 | the running value (shifted left by 4, digit or-ed in) stays below 2^width (8, 16 or 32 bits) |
| HexCodec.ParseHexString | Protocol_Platform/Projects/OpenRF_JwikBrik_x69HW/App/OpenRF_JwikBrik_x69HW.c:217-242 | the loop over a NUL-terminated string computes the fold of its leading hex digits modulo 2^width |
| HexCodec.ParseHexStep | Protocol_Platform/Projects/OpenRF_JwikBrik_x69HW/App/OpenRF_JwikBrik_x69HW.c:226-234 | one more hex digit (either case) turns the value into `value*16 + digit` modulo 2^width |
| HexCodec.ParseStopsAtNonHex | Protocol_Platform/Projects/OpenRF_JwikBrik_x69HW/App/OpenRF_JwikBrik_x69HW.c:236-237 | whatever follows the first non-hex character does not affect the parsed value |
| HexCodec.ParseIgnoresTerminator | Protocol_Platform/Projects/OpenRF_JwikBrik_x69HW/App/OpenRF_JwikBrik_x69HW.c:222 | the NUL that `Read*FromUart` appends ends the parse without changing the value |
| HexCodec.FoldExact | Protocol_Platform/Projects/OpenRF_JwikBrik_x69HW/App/OpenRF_JwikBrik_x69HW.c:217-242 | when the digits denote a number below 2^width no bits are lost: the parse is the number the text denotes |
| HexCodec.ReadHex | Protocol_Platform/Projects/OpenRF_JwikBrik_x69HW/App/OpenRF_JwikBrik_x69HW.c:243-256 | a read consumes at most 2/4/8 characters from the front (all of them when fewer are buffered), leaves the rest in order, returns the number consumed (nonzero exactly when the buffer was non-empty) and a value below 2^width |
| HexCodec.ParseExample16 | Protocol_Platform/Projects/OpenRF_JwikBrik_x69HW/App/OpenRF_JwikBrik_x69HW.c:283-296 | reading "1A2B" as 16 bits consumes 4 characters and yields 0x1A2B |
| HexCodec.ParseExample8 | Protocol_Platform/Projects/OpenRF_JwikBrik_x69HW/App/OpenRF_JwikBrik_x69HW.c:322-336 | reading "1A2B3C" as 8 bits consumes only "1A", yields 0x1A and leaves "2B3C" |
| ConfigStore.SentinelCompletesImage | Protocol_Platform/Projects/OpenRF_JwikBrik_x69HW/App/OpenRF_JwikBrik_x69HW.c:497-499 | after offsets 0–27, the 0x55 written at offset 254 completes the save image |
| ConfigStore.WriteExtendsPrefix | Protocol_Platform/Projects/OpenRF_JwikBrik_x69HW/App/OpenRF_JwikBrik_x69HW.c:488-496 | each `WritePersistentValue` of "WS" extends the block saved so far by the next offsets of the layout |
| ConfigStore.ReversedStored | Protocol_Platform/Projects/OpenRF_JwikBrik_x69HW/App/OpenRF_JwikBrik_x69HW.c:649-672 | filling `U8[n-1] .. U8[0]` from consecutive offsets gives the stored bytes reversed |
| ConfigStore.StoredOfSave | Protocol_Platform/Projects/OpenRF_JwikBrik_x69HW/App/OpenRF_JwikBrik_x69HW.c:489-491 | the bytes a save image holds at offsets 0–23 are the fields' bytes in memory order |
| ConfigStore.ReadSaved | Protocol_Platform/Projects/OpenRF_JwikBrik_x69HW/App/OpenRF_JwikBrik_x69HW.c:487-499 | after a save, offsets 0–27 and 254 read as the layout says and every other offset reads as erased |
| ConfigStore.LoadOfKnownBytes | Protocol_Platform/Projects/OpenRF_JwikBrik_x69HW/App/OpenRF_JwikBrik_x69HW.c:647-681 | with the sentinel present, the load sets each field from its offsets (32-bit fields reversed) and the baud rate from offset 25 |
| ConfigStore.SaveThenLoad | Protocol_Platform/Projects/OpenRF_JwikBrik_x69HW/App/OpenRF_JwikBrik_x69HW.c:645-681 | a save followed by a load restores the trigger level and baud rate exactly, returns network id, destination and key byte-reversed, puts `_operatingMode` into `_quiet`, keeps only the timeout's low byte, sets ack retries/timeout/hop table from erased bytes, and leaves every other field as it was |
| ConfigStore.TimeoutAfterSaveLoad | Protocol_Platform/Projects/OpenRF_JwikBrik_x69HW/App/OpenRF_JwikBrik_x69HW.c:676 | the reloaded trigger timeout is the saved one modulo 256 |
| ConfigStore.TimeoutSurvivesIffBelow256 | Protocol_Platform/Projects/OpenRF_JwikBrik_x69HW/App/OpenRF_JwikBrik_x69HW.c:676 | the trigger timeout survives a save and load exactly when it is below 256 |
| ConfigStore.NetworkIdAfterSaveLoad | Protocol_Platform/Projects/OpenRF_JwikBrik_x69HW/App/OpenRF_JwikBrik_x69HW.c:649-652 | the reloaded network id is the saved one byte-reversed, whatever the state before the load |
| ConfigStore.NetworkIdSurvivesIffPalindrome | Protocol_Platform/Projects/OpenRF_JwikBrik_x69HW/App/OpenRF_JwikBrik_x69HW.c:649-652 | the network id survives a save and load exactly when its four bytes read the same backwards |
| ConfigStore.ReverseFactoryNetworkId | Protocol_Platform/Projects/OpenRF_JwikBrik_x69HW/App/OpenRF_JwikBrik_x69HW.c:688 | the bytes of 0x11332244 reversed are 0x44223311 |
| ConfigStore.SaveLoadSwapsNetworkId | Protocol_Platform/Projects/OpenRF_JwikBrik_x69HW/App/OpenRF_JwikBrik_x69HW.c:649-652 | saving the factory network id 0x11332244 and loading gives 0x44223311 |
| ConfigStore.SaveLoadTwiceRestoresAddresses | Protocol_Platform/Projects/OpenRF_JwikBrik_x69HW/App/OpenRF_JwikBrik_x69HW.c:649-672 | a second save and load undoes the byte reversal of the first: network id, destination and key are back as they were |
| ConfigStore.LoadWithoutSentinel | Protocol_Platform/Projects/OpenRF_JwikBrik_x69HW/App/OpenRF_JwikBrik_x69HW.c:682-699 | without the sentinel the load sets mac 0x11223344, network id 0x11332244 (the 0xaa555aa5 store is overwritten), destination 0x44332211, the four key words, quiet 0, level 4, timeout 200, the multicast packet type and 38400 rate, and leaves every other global and the baud rate untouched |
| ConfigStore.DefaultKeyWords | Protocol_Platform/Projects/OpenRF_JwikBrik_x69HW/App/OpenRF_JwikBrik_x69HW.c:689-692 | the factory key's words 0–3 are 0x11223344, 0x1A1B1C1D, 0x1E1F1A1B, 0x1C1D1E1F |
| ConfigStore.LoadAfterEraseGivesDefaults | Protocol_Platform/Projects/OpenRF_JwikBrik_x69HW/App/OpenRF_JwikBrik_x69HW.c:756-757 | loading right after an erase always gives the factory defaults (when an erased byte is not 0x55) |
| AtDispatcher.CommandNumbering | Protocol_Platform/Projects/OpenRF_JwikBrik_x69HW/App/OpenRF_JwikBrik_x69HW.c:112-139 | each command is selected by its enumeration number and by no other number |
| AtDispatcher.DispatchedNumbers | Protocol_Platform/Projects/OpenRF_JwikBrik_x69HW/App/OpenRF_JwikBrik_x69HW.c:109-139 | exactly the numbers below 24 and 0xFF have a `case`; the mnemonic table has 24 distinct entries |
| AtDispatcher.BitAndOfCounts | Protocol_Platform/Projects/OpenRF_JwikBrik_x69HW/App/OpenRF_JwikBrik_x69HW.c:432-441 | `retVal &= count` with counts of at most 8 stays 8 only while every read found 8 characters |
| AtDispatcher.QueryChangesNoConfig | Protocol_Platform/Projects/OpenRF_JwikBrik_x69HW/App/OpenRF_JwikBrik_x69HW.c:338-643 | with an empty argument buffer no command changes a configuration field, re-initialises the MAC, or changes the baud rate, clock or transmit power |
| AtDispatcher.ActionKeepsConfig | Protocol_Platform/Projects/OpenRF_JwikBrik_x69HW/App/OpenRF_JwikBrik_x69HW.c:338-643 | the commands without an argument leave configuration, argument buffer, baud rate, clock and MAC alone |
| AtDispatcher.QueryKeepsConfig | Protocol_Platform/Projects/OpenRF_JwikBrik_x69HW/App/OpenRF_JwikBrik_x69HW.c:349-637 | a query of an argument-taking command changes nothing but the UART output |
| AtDispatcher.RadioSetReinitializes | Protocol_Platform/Projects/OpenRF_JwikBrik_x69HW/App/OpenRF_JwikBrik_x69HW.c:349-637 | a set of network id, radio rate, ack retries, ack timeout or hop table issues exactly one `OpenRFInitialize` whose snapshot holds channel count 25, start channel 0, GFSK modifier 1, the current MAC and the updated configuration |
| AtDispatcher.OnlyRadioSetsReinitialize | Protocol_Platform/Projects/OpenRF_JwikBrik_x69HW/App/OpenRF_JwikBrik_x69HW.c:338-643 | no other command calls `OpenRFInitialize` |
| AtDispatcher.KeySetQuirk | Protocol_Platform/Projects/OpenRF_JwikBrik_x69HW/App/OpenRF_JwikBrik_x69HW.c:417-456 | the "EK" set stores word 0 from the first read, word j >= 1 only when all earlier reads and this one found 8 characters, consumes up to 32 characters, and re-initialises the MAC exactly for a full 32-character argument |
| AtDispatcher.KeyReadsCases | Protocol_Platform/Projects/OpenRF_JwikBrik_x69HW/App/OpenRF_JwikBrik_x69HW.c:429-441 | the four reads leave each key word as above, the unconsumed argument, and a nonzero `retVal` exactly for 32 or more characters |
| AtDispatcher.KeyWordOfSet | Protocol_Platform/Projects/OpenRF_JwikBrik_x69HW/App/OpenRF_JwikBrik_x69HW.c:429-440 | storing a 32-bit word of the key changes that word only |
| AtDispatcher.NonHexArgumentSetsZero | Protocol_Platform/Projects/OpenRF_JwikBrik_x69HW/App/OpenRF_JwikBrik_x69HW.c:357-358 | an argument starting with a non-hex character still counts as a set: the field becomes 0, and for the network id the MAC is re-initialised |
| AtDispatcher.NetworkIdSetThenQuery | Protocol_Platform/Projects/OpenRF_JwikBrik_x69HW/App/OpenRF_JwikBrik_x69HW.c:349-373 | setting the network id from the text a query prints and querying again prints the same text |
| AtDispatcher.TriggerLevelSetThenQuery | Protocol_Platform/Projects/OpenRF_JwikBrik_x69HW/App/OpenRF_JwikBrik_x69HW.c:512-523 | the same for the two-digit trigger level |
| AtDispatcher.AddressQueries | Protocol_Platform/Projects/OpenRF_JwikBrik_x69HW/App/OpenRF_JwikBrik_x69HW.c:346-348 | "SL" and "GS" write 8 characters that parse back to the MAC address and the last sender's MAC |
| AtDispatcher.NullCommandWritesOk | Protocol_Platform/Projects/OpenRF_JwikBrik_x69HW/App/OpenRF_JwikBrik_x69HW.c:638-641 | `kNullCommand` writes exactly "OK" and changes nothing else |
| AtDispatcher.TimeReferenceNeverSet | Protocol_Platform/Projects/OpenRF_JwikBrik_x69HW/App/OpenRF_JwikBrik_x69HW.c:552-561 | "TS" reads only from an empty buffer, so it never sets the clock and changes nothing |
| AtDispatcher.UnknownCommandIgnored | Protocol_Platform/Projects/OpenRF_JwikBrik_x69HW/App/OpenRF_JwikBrik_x69HW.c:344-643 | a number from 24 to 254 matches no `case` and changes nothing |
| AtDispatcher.WriteSettingsSaves | Protocol_Platform/Projects/OpenRF_JwikBrik_x69HW/App/OpenRF_JwikBrik_x69HW.c:487-500 | "WS" replaces storage by the save image of the current configuration and baud rate and changes nothing else |
| AtDispatcher.WriteSettingsThenLoad | Protocol_Platform/Projects/OpenRF_JwikBrik_x69HW/App/OpenRF_JwikBrik_x69HW.c:487-500 | "WS" then `LoadPresets` restores baud rate and trigger level, reverses the network id, moves operating mode into quiet, and truncates the timeout to its low byte |
| TransmitTrigger.FlushLength | Protocol_Platform/Projects/OpenRF_JwikBrik_x69HW/App/OpenRF_JwikBrik_x69HW.c:724-727 | a flush takes `min(buffered, level)` bytes |
| TransmitTrigger.Tick | Protocol_Platform/Projects/OpenRF_JwikBrik_x69HW/App/OpenRF_JwikBrik_x69HW.c:988-992 | the 1 ms tick advances the trigger counter with 16-bit wrap-around whether or not the timer is active |
| TransmitTrigger.FlushIff | Protocol_Platform/Projects/OpenRF_JwikBrik_x69HW/App/OpenRF_JwikBrik_x69HW.c:925-951 | a pass flushes exactly when more than the level is buffered or the timer was already active past the timeout |
| TransmitTrigger.LevelFlushKeepsTimer | Protocol_Platform/Projects/OpenRF_JwikBrik_x69HW/App/OpenRF_JwikBrik_x69HW.c:928-931 | a level flush sends `level` bytes and leaves the timer flag and counter unchanged |
| TransmitTrigger.FirstByteStartsTimer | Protocol_Platform/Projects/OpenRF_JwikBrik_x69HW/App/OpenRF_JwikBrik_x69HW.c:935-941 | with bytes waiting, none above the level and the timer off, the timer starts at 0 and nothing is sent |
| TransmitTrigger.TimeoutFlushStopsTimer | Protocol_Platform/Projects/OpenRF_JwikBrik_x69HW/App/OpenRF_JwikBrik_x69HW.c:942-948 | a flush at or below the level only happens for an active timer past the timeout, and it stops the timer |
| TransmitTrigger.EmptyPacketQuirk | Protocol_Platform/Projects/OpenRF_JwikBrik_x69HW/App/OpenRF_JwikBrik_x69HW.c:942-948 | an expired timer over an empty queue still flushes, sending a packet of 0 bytes |
| TransmitTrigger.MaxTimeoutNeverFires | Protocol_Platform/Projects/OpenRF_JwikBrik_x69HW/App/OpenRF_JwikBrik_x69HW.c:943 | with timeout 0xFFFF the 16-bit counter can never exceed it, so only the level flushes |
| TransmitTrigger.LevelFlushDrains | Protocol_Platform/Projects/OpenRF_JwikBrik_x69HW/App/OpenRF_JwikBrik_x69HW.c:928-931 | above the level one pass sends the first `level` bytes as one packet and keeps the rest in order |
| TransmitTrigger.LevelFlushExample | Protocol_Platform/Projects/OpenRF_JwikBrik_x69HW/App/OpenRF_JwikBrik_x69HW.c:928-931 | level 4 and 10 bytes buffered: one packet of the first 4 bytes, 6 stay queued |
| TransmitTrigger.TimeoutWaits | Protocol_Platform/Projects/OpenRF_JwikBrik_x69HW/App/OpenRF_JwikBrik_x69HW.c:933-948 | a short message with no further input waits `timeout + 1` passes, the timer counting up, with nothing sent |
| TransmitTrigger.TimeoutFlushesShortMessage | Protocol_Platform/Projects/OpenRF_JwikBrik_x69HW/App/OpenRF_JwikBrik_x69HW.c:933-948 | and the next pass sends it whole as one packet and stops the timer |
| BridgeEngine.Deliver | Protocol_Platform/Projects/OpenRF_JwikBrik_x69HW/App/OpenRF_JwikBrik_x69HW.c:965-967 | the first `length` receive-buffer bytes become the packet's and later bytes keep their old values |
| BridgeEngine.LatestArrivalWins | Protocol_Platform/Projects/OpenRF_JwikBrik_x69HW/App/OpenRF_JwikBrik_x69HW.c:963-972 | a second arrival before the first is consumed replaces it: the bytes the loop forwards are the second packet's |
| BridgeEngine.Bridge.constructor | Protocol_Platform/Projects/OpenRF_JwikBrik_x69HW/App/OpenRF_JwikBrik_x69HW.c:171-195 | every global of lines 171-195 starts at zero, as static storage does (configuration, timers, receive slot, count, type and sender, trigger arrays), with nothing received, queued or sent; the response buffer and digital sample, locals of `main`, start with whatever values they are given |
| BridgeEngine.Bridge.WriteCharToUart | Protocol_Platform/Projects/OpenRF_JwikBrik_x69HW/App/OpenRF_JwikBrik_x69HW.c:201-207 | appends the hex character of the nibble to the UART output |
| BridgeEngine.Bridge.WriteU32ToUart | Protocol_Platform/Projects/OpenRF_JwikBrik_x69HW/App/OpenRF_JwikBrik_x69HW.c:208-216 | the loop appends the 8-character big-endian hex text of the word |
| BridgeEngine.Bridge.ReadHexFromAt | Protocol_Platform/Projects/OpenRF_JwikBrik_x69HW/App/OpenRF_JwikBrik_x69HW.c:243-256 | the counted loop drains the AT buffer and returns the count and value `ReadHex` specifies |
| BridgeEngine.Bridge.ATCommand | Protocol_Platform/Projects/OpenRF_JwikBrik_x69HW/App/OpenRF_JwikBrik_x69HW.c:338-643 | the new state is `Dispatch` of the old one: every dispatcher lemma holds of the method |
| BridgeEngine.Bridge.RunAction | Protocol_Platform/Projects/OpenRF_JwikBrik_x69HW/App/OpenRF_JwikBrik_x69HW.c:338-643 | the cases without an argument do what `Action` says |
| BridgeEngine.Bridge.RunQuery | Protocol_Platform/Projects/OpenRF_JwikBrik_x69HW/App/OpenRF_JwikBrik_x69HW.c:349-637 | the query branches do what `Query` says |
| BridgeEngine.Bridge.RunSet | Protocol_Platform/Projects/OpenRF_JwikBrik_x69HW/App/OpenRF_JwikBrik_x69HW.c:349-637 | the set branches do what `Set` says |
| BridgeEngine.Bridge.SetEncryptionKey | Protocol_Platform/Projects/OpenRF_JwikBrik_x69HW/App/OpenRF_JwikBrik_x69HW.c:427-455 | the four reads with `&=` and the conditional re-initialisation do what `SetKey` says |
| BridgeEngine.Bridge.SaveSettings | Protocol_Platform/Projects/OpenRF_JwikBrik_x69HW/App/OpenRF_JwikBrik_x69HW.c:487-499 | erase, the writes at offsets 0–27 and the sentinel leave storage equal to the save image |
| BridgeEngine.Bridge.LoadPresets | Protocol_Platform/Projects/OpenRF_JwikBrik_x69HW/App/OpenRF_JwikBrik_x69HW.c:645-701 | configuration and baud rate become `LoadImage` of storage and the old state |
| BridgeEngine.Bridge.LoadStoredBlock | Protocol_Platform/Projects/OpenRF_JwikBrik_x69HW/App/OpenRF_JwikBrik_x69HW.c:649-680 | the sentinel branch sets each field from its offsets and nothing else |
| BridgeEngine.Bridge.LoadFactoryDefaults | Protocol_Platform/Projects/OpenRF_JwikBrik_x69HW/App/OpenRF_JwikBrik_x69HW.c:683-699 | the default branch sets the factory defaults |
| BridgeEngine.Bridge.SendPacketFromUart1Data | Protocol_Platform/Projects/OpenRF_JwikBrik_x69HW/App/OpenRF_JwikBrik_x69HW.c:718-737 | removes exactly `min(buffered, level)` bytes from the front of the UART queue, keeps the rest in order, and sends one packet of them to the destination with the packet type |
| BridgeEngine.Bridge.RunTransmitTrigger | Protocol_Platform/Projects/OpenRF_JwikBrik_x69HW/App/OpenRF_JwikBrik_x69HW.c:925-951 | timer and queue change as `TriggerDecision` says; a flush sends one packet, otherwise nothing is sent |
| BridgeEngine.Bridge.ServeReadAnalog | Protocol_Platform/Projects/OpenRF_JwikBrik_x69HW/App/OpenRF_JwikBrik_x69HW.c:784-797 | ACK and the sample high byte then low byte iff channel > 4 and count >= 2 (the ADC channel is then set), otherwise a single NACK |
| BridgeEngine.Bridge.ServeReadDigital | Protocol_Platform/Projects/OpenRF_JwikBrik_x69HW/App/OpenRF_JwikBrik_x69HW.c:798-834 | ACK and the pin level iff count >= 2 and channel 0–4, otherwise a single NACK |
| BridgeEngine.Bridge.ServeSetDigital | Protocol_Platform/Projects/OpenRF_JwikBrik_x69HW/App/OpenRF_JwikBrik_x69HW.c:835-884 | on count >= 2 and channel 0–4, drives only that output pin to `buf[2] > 0` and replies ACK with the last digital sample; otherwise a single NACK and no pin changes |
| BridgeEngine.Bridge.ServeSetDigitalTrigger | Protocol_Platform/Projects/OpenRF_JwikBrik_x69HW/App/OpenRF_JwikBrik_x69HW.c:885-894 | changes only `_digitalTriggers[ch]`, and only when ch < 5 and count >= 2 (a 2-byte reply whose second byte is NACK); otherwise a 1-byte reply of the old first response byte |
| BridgeEngine.Bridge.ServeSetAnalogTrigger | Protocol_Platform/Projects/OpenRF_JwikBrik_x69HW/App/OpenRF_JwikBrik_x69HW.c:895-906 | for ch < 6 and count >= 2 writes the trigger bytes at `2ch+1` and `2ch+2` and replies ACK plus the old second response byte; otherwise a single NACK |
| BridgeEngine.Bridge.ServeUnknown | Protocol_Platform/Projects/OpenRF_JwikBrik_x69HW/App/OpenRF_JwikBrik_x69HW.c:907-910 | an unknown opcode gets a single NACK |
| BridgeEngine.Bridge.ServeIoRequest | Protocol_Platform/Projects/OpenRF_JwikBrik_x69HW/App/OpenRF_JwikBrik_x69HW.c:778-911 | clears the flag and sends exactly one reply, to the sender with the packet type, whose payload depends on the opcode and its guards as above, and changes only the output pin, digital trigger or analog trigger bytes that request sets; a read-digital with count >= 2 and pin 0–4 stores the pin in the digital sample, a read-analog with channel > 4 and count >= 2 stores the channel, and the response bytes become those the reply was built from, the rest kept for later replies (`IoServed`) |
| BridgeEngine.Bridge.ForwardReceivedToUart | Protocol_Platform/Projects/OpenRF_JwikBrik_x69HW/App/OpenRF_JwikBrik_x69HW.c:916-922 | clears the flag and writes exactly the received bytes to the UART in order |
| BridgeEngine.Bridge.Step | Protocol_Platform/Projects/OpenRF_JwikBrik_x69HW/App/OpenRF_JwikBrik_x69HW.c:770-953 | in I/O mode an unconsumed packet is served as `ServeIoRequest` states (one reply, the pins and triggers it sets), and without one nothing is sent or set; the digital sample, ADC channel and response bytes change only when a packet is served in I/O mode, so later set-digital and trigger replies echo what earlier passes left; the UART and trigger timer are untouched in I/O mode; in bridge mode the packet is forwarded to the UART and, outside AT mode, queue, timer and sent packets change as `TriggerDecision` says; in AT mode nothing is sent |
| BridgeEngine.Bridge.NotifyMacPacketReceived | Protocol_Platform/Projects/OpenRF_JwikBrik_x69HW/App/OpenRF_JwikBrik_x69HW.c:963-972 | overwrites the first `length` buffer bytes (later ones unchanged), the sender, count and type, and sets the flag |
| BridgeEngine.Bridge.NotifyMac1MilliSecond | Protocol_Platform/Projects/OpenRF_JwikBrik_x69HW/App/OpenRF_JwikBrik_x69HW.c:988-992 | both 16-bit timers advance by one with wrap-around |

## Left out

- The OpenRF MAC and radio layer (`OpenRFInitialize`, `OpenRFLoop`, `OpenRFSendPacket`, `OpenRFReadyToSend`): its calls are recorded in sequences (`inits`, `sent`). `OpenRFLoop` and `ATProcess` at the top of each pass are not modelled, and RSSI and temperature readings are parameters.
- The busy-wait on `OpenRFReadyToSend` in `SendPacketFromUART1Data` (lines 733-734): it has no termination argument, so the model sends as soon as the packet is built.
- The microcontroller peripherals:
  - the UART baud-rate register is a field (`uartBaud`);
  - the ADC sample is a parameter of the I/O step;
  - the pins are boolean arrays;
  - persistent storage is a byte map that an erase empties, and an unwritten offset reads as `Platform.erasedByte`.
- AT escape-sequence detection in the AT processor is not part of this model: the AT argument buffer is a sequence and the AT state a field.
- Interrupt concurrency: `NotifyMac1MilliSecond` is a sequential method and the bridge runs (`TransmitTrigger.Run`) assume one tick per pass.
- BridgeEngine.Bridge.constructor: the power-on values of the peripherals are choices of the model, not behaviour of this code: UART baud register 0, ADC channel 0, output pins low, AT layer disabled. Storage contents and input pin levels are parameters.
- Start-up plumbing: the `CPPAPP` constructor runner, `PrintString`/`PrintLine` and the boot sequence of `main` (which erases storage before `LoadPresets`, so the defaults always apply; see `ConfigStore.LoadAfterEraseGivesDefaults`).
- Header constants are not part of this model:
  - `kMulticastPacketType`, `k38400BPS` and the erased byte value are fields of `Platform`;
  - `INITIALIZEDVALUE` is taken to be 0x55, the value "WS" writes as the sentinel.
- BridgeEngine.Bridge.ServeSetAnalogTrigger: the write to `.U8[2]` of a two-byte trigger lands in the next trigger's first byte, which is modelled on a flat 12-byte array; for channel 5 it lands past the array, and that write is not modelled.
- BridgeEngine.Bridge.ServeSetDigitalTrigger: the contents of the stale response bytes are carried as they were, with no claim about what they hold.
- BridgeEngine.Bridge.SendPacketFromUart1Data: requires fewer than 256 queued bytes (the `U8` count) and a flush length of at most 63, the size of `buff`; the source does not check the trigger level against 63.
- BridgeEngine.Bridge.RunTransmitTrigger: the same two requirements, when the pass flushes.
- BridgeEngine.Bridge.Step: fewer than 256 queued bytes on a bridge-mode pass outside AT mode, and a flush length of at most 63 on such a pass that flushes.
- BridgeEngine.Bridge.NotifyMacPacketReceived: requires a length of at most 63, the size of the receive buffer, which the source does not check.
- ConfigStore.LoadImage: lines 678-679 assign to `((UU16)_ackTimeout).U8[1]` and `.U8[0]`. Standard C does not accept a cast as an assignment target, and a compiler extension that accepts it may store into a temporary and leave `_ackTimeout` unchanged. The model reads the two lines as stores into the high and low bytes of `_ackTimeout`; `ConfigStore.SaveThenLoad`, `BridgeEngine.Bridge.LoadStoredBlock` and `BridgeEngine.Bridge.LoadRadioTuning` follow that reading.
- The preamble count 128 that `SendPacketFromUART1Data` passes to `OpenRFSendPacket` (line 736) is a constant of the radio layer; `Packet` records destination, packet type and payload only.
