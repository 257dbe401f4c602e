/** The AT command dispatcher `ATCommand`: each opcode either queries a
    setting (the AT argument buffer is empty) and writes it to the UART, or
    parses a hex argument from the buffer and sets it. Setting one of the six
    radio parameters re-initialises the OpenRF MAC layer. */
module AtDispatcher {
  import opened Bytes
  import opened HexCodec
  import opened DeviceConfig
  import opened ConfigStore

  /** The command numbers, in the order of the opcode enumeration. */
  datatype AtCommand =
    | GetMacAddress | GetSetNetworkAddress | GetSetDestinationMacAddress
    | ExitCommandMode | ResetToFactory | GetSetEncryptionKey | GetSetDataRate
    | GetSetParity | GetSetStopBits | GetRssi | GetTemperature | GetPowerSupply
    | GetFirmwareVersion | WriteSettings | GetSetRadioRate | GetSetPacketType
    | GetSetTriggerLevel | GetSetTriggerTimeout | GetSenderMac | GetSetTransmitPower
    | SetTimeReference | GetSetAckRetries | GetSetAckTimeout | GetSetHopTable
    | NullCommand

  /** `kATCommandCount`: the number of mnemonics handed to the AT processor. */
  const CommandCount: nat := 24

  /** The bytes `WriteCharUART1('O')`, `WriteCharUART1('K')` send. */
  const OkReply: seq<u8> := [0x4F, 0x4B]

  /** `atCommands`: the mnemonic of command number i is entry i. */
  const Mnemonics: seq<string> :=
    ["SL", "NA", "DL", "CN", "RE", "EK", "BD", "NB", "SB", "SS", "TE", "%V",
     "VR", "WS", "RR", "SP", "TL", "TT", "GS", "TP", "TS", "AR", "AT", "HT"]

  /** The number the enumeration gives each command (`kNullCommand` is 0xff). */
  function Code(c: AtCommand): u8
  {
    match c
    case GetMacAddress => 0
    case GetSetNetworkAddress => 1
    case GetSetDestinationMacAddress => 2
    case ExitCommandMode => 3
    case ResetToFactory => 4
    case GetSetEncryptionKey => 5
    case GetSetDataRate => 6
    case GetSetParity => 7
    case GetSetStopBits => 8
    case GetRssi => 9
    case GetTemperature => 10
    case GetPowerSupply => 11
    case GetFirmwareVersion => 12
    case WriteSettings => 13
    case GetSetRadioRate => 14
    case GetSetPacketType => 15
    case GetSetTriggerLevel => 16
    case GetSetTriggerTimeout => 17
    case GetSenderMac => 18
    case GetSetTransmitPower => 19
    case SetTimeReference => 20
    case GetSetAckRetries => 21
    case GetSetAckTimeout => 22
    case GetSetHopTable => 23
    case NullCommand => 0xFF
  }

  /** The `case` label a command number selects; None when no label matches
      and the `switch` falls through without doing anything. */
  function CommandOf(n: u8): Option<AtCommand>
  {
    if n == 0xFF then Some(NullCommand)
    else if n < 12 then
      Some([GetMacAddress, GetSetNetworkAddress, GetSetDestinationMacAddress,
            ExitCommandMode, ResetToFactory, GetSetEncryptionKey, GetSetDataRate,
            GetSetParity, GetSetStopBits, GetRssi, GetTemperature, GetPowerSupply][n])
    else if n < 24 then
      Some([GetFirmwareVersion, WriteSettings, GetSetRadioRate, GetSetPacketType,
            GetSetTriggerLevel, GetSetTriggerTimeout, GetSenderMac, GetSetTransmitPower,
            SetTimeReference, GetSetAckRetries, GetSetAckTimeout, GetSetHopTable][n - 12])
    else None
  }

  /** Every command is selected by its own number and by no other. */
  lemma CommandNumbering(c: AtCommand, n: u8)
    ensures CommandOf(Code(c)) == Some(c)
    ensures CommandOf(n) == Some(c) <==> n == Code(c)
  {
  }

  /** Exactly the numbers below `kATCommandCount`, each with a mnemonic, and
      the null command are dispatched. */
  lemma DispatchedNumbers(n: u8)
    ensures CommandOf(n).Some? <==> n < CommandCount || n == 0xFF
    ensures |Mnemonics| == CommandCount
    ensures forall i, j :: 0 <= i < j < |Mnemonics| ==> Mnemonics[i] != Mnemonics[j]
  {
  }

  /** Values the radio reports when asked; each query reads the radio twice. */
  datatype RadioReadings = RadioReadings(rssi1: u8, rssi2: u8, temperature1: u8, temperature2: u8)

  /** Everything `ATCommand` reads or changes: the configuration globals, the
      AT argument buffer, the UART output, the `OpenRFInitialize` calls so far,
      persistent storage, the UART baud-rate register, the real-time clock,
      the `ExitCommandMode` and `RadioSetTxPower` calls so far, and the MAC of
      the last sender. */
  datatype AtView = AtView(
    cfg: Config,
    atBuffer: seq<u8>,
    uartOut: seq<u8>,
    inits: seq<InitConfig>,
    persist: Flash,
    uartBaud: u8,
    rtc: Word,
    exitRequests: nat,
    txPowerRequests: seq<u8>,
    senderMac: Word)

  /** `U8 & U8` on the counts the `ReadU32FromUart` calls return. */
  function BitAnd(a: u8, b: u8): u8
  {
    ((a as bv8) & (b as bv8)) as int
  }

  /** The `&` of a count of 0 or 8 with another count of at most 8 is 8 when
      both are 8 and 0 otherwise; anything `&` 0 is 0. */
  lemma BitAndOfCounts(a: u8, b: u8)
    requires b <= 8
    ensures (a == 0 || a == 8) ==> BitAnd(a, b) == if a == 8 && b == 8 then 8 else 0
    ensures b == 0 ==> BitAnd(a, b) == 0
  {
  }

  function Emit(s: AtView, out: seq<u8>): AtView
  {
    s.(uartOut := s.uartOut + out)
  }

  /** The `OpenRFInitialize` call every radio set ends with. */
  function Reinit(s: AtView): AtView
  {
    s.(inits := s.inits + [InitFrom(s.cfg)])
  }

  /** Two writes in a row are one write of the two outputs joined. */
  lemma EmitTwo(s: AtView, a: seq<u8>, b: seq<u8>)
    ensures Emit(Emit(s, a), b) == Emit(s, a + b)
  {
    assert s.uartOut + a + b == s.uartOut + (a + b);
  }

  /** Four writes in a row are one write of the four outputs joined. */
  lemma EmitFour(s: AtView, a: seq<u8>, b: seq<u8>, c: seq<u8>, d: seq<u8>)
    ensures Emit(Emit(Emit(Emit(s, a), b), c), d) == Emit(s, a + b + c + d)
  {
    assert s.uartOut + a + b + c + d == s.uartOut + (a + b + c + d);
  }

  /** `WriteCharUART1(v + '0')`: the UART takes the low byte. */
  function DigitChar(v: u8): u8
  {
    (v + '0' as int) % 0x100
  }

  /** The state of the "EK" set between its four reads: the key so far, the
      running `retVal` and the unread argument. */
  datatype KeyProgress = KeyProgress(key: Key, acc: u8, rest: seq<u8>)

  /** Read j of the key set: `retVal = Read...` for the first word,
      `retVal &= Read...` for the others; word j is stored if `retVal` is
      then nonzero. */
  function KeyRead(p: KeyProgress, j: nat): KeyProgress
    requires j < 4
  {
    var r := ReadHex(p.rest, W32);
    var a := if j == 0 then r.count else BitAnd(p.acc, r.count);
    KeyProgress(if a != 0 then SetKeyWord(p.key, j, r.value) else p.key, a, r.rest)
  }

  /** Reads j .. 3 of the key set. */
  function KeyReadsFrom(p: KeyProgress, j: nat): KeyProgress
    requires j <= 4
    decreases 4 - j
  {
    if j == 4 then p else KeyReadsFrom(KeyRead(p, j), j + 1)
  }

  /** The four reads of the key set, starting from `key` and the argument. */
  function KeyReads(key: Key, arg: seq<u8>): KeyProgress
  {
    KeyReadsFrom(KeyProgress(key, 0, arg), 0)
  }

  /** Four reads in a row are `KeyReads`: a proof step for
      `Bridge.SetEncryptionKey`, which performs the reads one by one. */
  lemma KeyReadsUnrolled(key: Key, arg: seq<u8>)
    ensures var p1 := KeyRead(KeyProgress(key, 0, arg), 0);
      var p2 := KeyRead(p1, 1);
      var p3 := KeyRead(p2, 2);
      KeyReads(key, arg) == KeyRead(p3, 3)
  {
    var p0 := KeyProgress(key, 0, arg);
    var p1 := KeyRead(p0, 0);
    var p2 := KeyRead(p1, 1);
    var p3 := KeyRead(p2, 2);
    var p4 := KeyRead(p3, 3);
    assert KeyReadsFrom(p4, 4) == p4;
    assert KeyReadsFrom(p3, 3) == p4;
    assert KeyReadsFrom(p2, 2) == p4;
    assert KeyReadsFrom(p1, 1) == p4;
  }

  /** The state after the four reads of the key set: the key as they left
      it and the argument they did not consume. */
  function KeyStage(s: AtView): AtView
  {
    var p := KeyReads(s.cfg.encryptionKey, s.atBuffer);
    s.(cfg := s.cfg.(encryptionKey := p.key), atBuffer := p.rest)
  }

  /** The key set of "EK": four 32-bit reads, then a re-initialisation if
      `retVal` is still nonzero. */
  function SetKey(s: AtView): AtView
  {
    var t := KeyStage(s);
    if KeyReads(s.cfg.encryptionKey, s.atBuffer).acc != 0 then Reinit(t) else t
  }

  /** `SetKey` from the state after the reads and the final `retVal`: a
      proof step for `Bridge.SetEncryptionKey`. */
  lemma SetKeyAfterStage(s: AtView, t: AtView, acc: u8)
    requires t == KeyStage(s) && acc == KeyReads(s.cfg.encryptionKey, s.atBuffer).acc
    ensures SetKey(s) == if acc != 0 then Reinit(t) else t
  {
  }

  /** The commands that look at the AT argument buffer: they query when it
      is empty and set otherwise ("TS" the other way round). */
  predicate TakesArgument(c: AtCommand)
  {
    c in {GetSetNetworkAddress, GetSetDestinationMacAddress, GetSetRadioRate,
          GetSetEncryptionKey, GetSetDataRate, GetSetPacketType, GetSetTriggerLevel,
          GetSetTriggerTimeout, GetSetTransmitPower, SetTimeReference,
          GetSetAckRetries, GetSetAckTimeout, GetSetHopTable}
  }

  /** What `ATCommand(cmd)` does. */
  function Dispatch(cmd: u8, s: AtView, radio: RadioReadings): AtView
  {
    match CommandOf(cmd)
    case None => s
    case Some(c) => Execute(c, s, radio)
  }

  /** The `case` of command `c`. */
  function Execute(c: AtCommand, s: AtView, radio: RadioReadings): AtView
  {
    if !TakesArgument(c) then Action(c, s, radio)
    else if s.atBuffer == [] then Query(c, s)
    else Set(c, s)
  }

  /** The commands that do not look at the argument buffer. */
  function Action(c: AtCommand, s: AtView, radio: RadioReadings): AtView
    requires !TakesArgument(c)
  {
    match c
    case GetMacAddress => Emit(s, U32Hex(s.cfg.macAddress))
    case ExitCommandMode => s.(exitRequests := s.exitRequests + 1)
    case GetRssi => Emit(s, [HexChar(radio.rssi1 / 16), HexChar(radio.rssi2)])
    case GetTemperature => Emit(s, [HexChar(radio.temperature1 / 16), HexChar(radio.temperature2)])
    case GetFirmwareVersion => Emit(s, [DigitChar(0), DigitChar(1)])
    case WriteSettings => s.(persist := SaveImage(s.cfg, s.uartBaud))
    case GetSenderMac => Emit(s, U32Hex(s.senderMac))
    case NullCommand => Emit(s, OkReply)
    case _ => s  // reset to factory, parity, stop bits, power supply: empty cases
  }

  /** The argument-taking commands with an empty buffer. */
  function Query(c: AtCommand, s: AtView): AtView
    requires TakesArgument(c)
  {
    match c
    case GetSetNetworkAddress => Emit(s, U32Hex(s.cfg.networkId))
    case GetSetDestinationMacAddress => Emit(s, U32Hex(s.cfg.destinationAddress))
    case GetSetRadioRate => Emit(s, [DigitChar(s.cfg.radioDataRate)])
    case GetSetEncryptionKey =>
      Emit(s, U32Hex(KeyWord(s.cfg.encryptionKey, 0)) + U32Hex(KeyWord(s.cfg.encryptionKey, 1))
            + U32Hex(KeyWord(s.cfg.encryptionKey, 2)) + U32Hex(KeyWord(s.cfg.encryptionKey, 3)))
    case GetSetDataRate => Emit(s, [DigitChar(s.uartBaud)])
    case GetSetPacketType => Emit(s, [DigitChar(s.cfg.packetType)])
    case GetSetTriggerLevel => Emit(s, ByteHex(s.cfg.transmitTriggerLevel))
    case GetSetTriggerTimeout =>
      Emit(s, [HexChar((s.cfg.transmitTriggerTimeout / 16) % 0x100), HexChar(s.cfg.transmitTriggerTimeout % 16)])
    case GetSetTransmitPower => Emit(s, ByteHex(s.cfg.transmitPower))
    case SetTimeReference =>
      // the read happens only here, on the empty buffer
      var r := ReadHex(s.atBuffer, W32);
      if r.count != 0 then s.(rtc := LeBytes(r.value), atBuffer := r.rest) else s.(atBuffer := r.rest)
    case GetSetAckRetries => Emit(s, [HexChar(s.cfg.ackRetries)])
    case GetSetAckTimeout => Emit(s, [HexChar(s.cfg.ackTimeout / 0x100), HexChar(s.cfg.ackTimeout % 0x100)])
    case GetSetHopTable => Emit(s, [HexChar(s.cfg.hopTable)])
  }

  /** The argument-taking commands with a non-empty buffer. */
  function Set(c: AtCommand, s: AtView): AtView
    requires TakesArgument(c)
  {
    match c
    case GetSetNetworkAddress =>
      var r := ReadHex(s.atBuffer, W32);
      var t := s.(cfg := s.cfg.(networkId := LeBytes(r.value)), atBuffer := r.rest);
      if r.count != 0 then Reinit(t) else t
    case GetSetDestinationMacAddress =>
      var r := ReadHex(s.atBuffer, W32);
      if r.count != 0 then s.(cfg := s.cfg.(destinationAddress := LeBytes(r.value)), atBuffer := r.rest)
      else s.(atBuffer := r.rest)
    case GetSetRadioRate =>
      var r := ReadHex(s.atBuffer, W8);
      var t := s.(cfg := s.cfg.(radioDataRate := r.value), atBuffer := r.rest);
      if r.count != 0 then Reinit(t) else t
    case GetSetEncryptionKey => SetKey(s)
    case GetSetDataRate =>
      var r := ReadHex(s.atBuffer, W8);
      var t := s.(cfg := s.cfg.(uartBaudRate := r.value), atBuffer := r.rest);
      if r.count != 0 then t.(uartBaud := r.value) else t
    case GetSetPacketType =>
      var r := ReadHex(s.atBuffer, W8);
      s.(cfg := s.cfg.(packetType := r.value), atBuffer := r.rest)
    case GetSetTriggerLevel =>
      var r := ReadHex(s.atBuffer, W8);
      s.(cfg := s.cfg.(transmitTriggerLevel := r.value), atBuffer := r.rest)
    case GetSetTriggerTimeout =>
      var r := ReadHex(s.atBuffer, W16);
      s.(cfg := s.cfg.(transmitTriggerTimeout := r.value), atBuffer := r.rest)
    case GetSetTransmitPower =>
      var r := ReadHex(s.atBuffer, W8);
      var t := s.(cfg := s.cfg.(transmitPower := r.value), atBuffer := r.rest);
      if r.count != 0 then t.(txPowerRequests := t.txPowerRequests + [r.value]) else t
    case SetTimeReference => s
    case GetSetAckRetries =>
      var r := ReadHex(s.atBuffer, W8);
      var t := s.(cfg := s.cfg.(ackRetries := r.value), atBuffer := r.rest);
      if r.count != 0 then Reinit(t) else t
    case GetSetAckTimeout =>
      var r := ReadHex(s.atBuffer, W16);
      var t := s.(cfg := s.cfg.(ackTimeout := r.value), atBuffer := r.rest);
      if r.count != 0 then Reinit(t) else t
    case GetSetHopTable =>
      var r := ReadHex(s.atBuffer, W8);
      var t := s.(cfg := s.cfg.(hopTable := r.value), atBuffer := r.rest);
      if r.count != 0 then Reinit(t) else t
  }

  /** The six commands whose set re-initialises the MAC layer. */
  predicate IsRadioSet(c: AtCommand)
  {
    c in {GetSetNetworkAddress, GetSetRadioRate, GetSetEncryptionKey,
          GetSetAckRetries, GetSetAckTimeout, GetSetHopTable}
  }

  /** A query (empty argument buffer) changes no configuration field, starts
      no re-initialisation, and leaves the baud rate and clock alone. */
  lemma QueryChangesNoConfig(c: AtCommand, s: AtView, radio: RadioReadings)
    requires s.atBuffer == []
    ensures var t := Execute(c, s, radio);
      && t.cfg == s.cfg && t.inits == s.inits && t.atBuffer == []
      && t.uartBaud == s.uartBaud && t.rtc == s.rtc && t.txPowerRequests == s.txPowerRequests
  {
    if TakesArgument(c) {
      QueryKeepsConfig(c, s);
    } else {
      ActionKeepsConfig(c, s, radio);
    }
  }

  /** The commands without an argument leave the configuration alone. */
  lemma ActionKeepsConfig(c: AtCommand, s: AtView, radio: RadioReadings)
    requires !TakesArgument(c)
    ensures var t := Action(c, s, radio);
      && t.cfg == s.cfg && t.inits == s.inits && t.atBuffer == s.atBuffer
      && t.uartBaud == s.uartBaud && t.rtc == s.rtc && t.txPowerRequests == s.txPowerRequests
  {
  }

  /** The queries only write to the UART ("TS" reads an empty buffer). */
  lemma QueryKeepsConfig(c: AtCommand, s: AtView)
    requires TakesArgument(c) && s.atBuffer == []
    ensures Query(c, s) == s.(uartOut := Query(c, s).uartOut)
  {
  }

  /** A set of networkId, radio rate, ack retries, ack timeout or hop table
      (non-empty argument buffer) issues exactly one `OpenRFInitialize`,
      whose snapshot holds the constant channel settings and the updated
      configuration. */
  lemma RadioSetReinitializes(c: AtCommand, s: AtView, radio: RadioReadings)
    requires IsRadioSet(c) && c != GetSetEncryptionKey
    requires s.atBuffer != []
    ensures var t := Execute(c, s, radio);
      && t.inits == s.inits + [InitFrom(t.cfg)]
      && t.inits[|s.inits|].channelCount == 25
      && t.inits[|s.inits|].startChannel == 0
      && t.inits[|s.inits|].gfskModifier == 1
      && t.inits[|s.inits|].macAddress == s.cfg.macAddress
  {
  }

  /** No other command re-initialises the MAC layer. */
  lemma OnlyRadioSetsReinitialize(c: AtCommand, s: AtView, radio: RadioReadings)
    requires !IsRadioSet(c)
    ensures Execute(c, s, radio).inits == s.inits
  {
  }

  /** The "EK" set: the first word is always stored; word j >= 1 only when
      the argument holds at least 8 * (j + 1) characters, because the `&` of
      an 8 with a shorter count is 0; and the MAC is re-initialised only for
      a full 32-character argument. Up to 32 characters are consumed. */
  lemma KeySetQuirk(s: AtView, radio: RadioReadings)
    requires s.atBuffer != []
    ensures var t := Execute(GetSetEncryptionKey, s, radio);
      && (forall j :: 0 <= j < 4 ==>
            KeyWord(t.cfg.encryptionKey, j) == KeyWordAfterSet(s.cfg.encryptionKey, s.atBuffer, j))
      && t.atBuffer == s.atBuffer[Min(32, |s.atBuffer|)..]
      && t.inits == (if |s.atBuffer| >= 32 then s.inits + [InitFrom(t.cfg)] else s.inits)
  {
    var p := KeyReads(s.cfg.encryptionKey, s.atBuffer);
    KeyReadsCases(s.cfg.encryptionKey, s.atBuffer);
    var t := Execute(GetSetEncryptionKey, s, radio);
    assert t == SetKey(s);
    assert t.cfg.encryptionKey == p.key && t.atBuffer == p.rest;
  }

  /** Word i of a key after `UU32[j].U32 = v`. */
  lemma KeyWordOfSet(k: Key, j: nat, v: u32, i: nat)
    requires j < 4 && i < 4
    ensures KeyWord(SetKeyWord(k, j, v), i) == if i == j then LeBytes(v) else KeyWord(k, i)
  {
  }

  /** The word j of the key after an "EK" set with argument `b`, stated
      directly on the argument rather than through the running `retVal`:
      word 0 from the first (up to) eight characters, word j >= 1 from
      characters 8j .. 8j+7 when all eight are present, and the old word
      otherwise. */
  function KeyWordAfterSet(key: Key, b: seq<u8>, j: nat): Word
    requires j < 4
  {
    if j == 0 then LeBytes(ParseHex(b[..Min(8, |b|)], W32))
    else if |b| >= 8 * (j + 1) then LeBytes(ParseHex(b[8 * j .. 8 * j + 8], W32))
    else KeyWord(key, j)
  }

  /** The postcondition of the four key reads. */
  predicate KeyReadsOutcome(key: Key, b: seq<u8>, p: KeyProgress)
  {
    && (forall j :: 0 <= j < 4 ==> KeyWord(p.key, j) == KeyWordAfterSet(key, b, j))
    && p.rest == b[Min(32, |b|)..]
    && (p.acc != 0 <==> |b| >= 32)
  }

  /** The state after reads 0 .. j-1 of the key set with argument `b`:
      8j characters consumed (or all), `retVal` 8 while every read found
      eight characters (the count itself after a short first read, 0 once a
      later read came up short), words below j as `KeyWordAfterSet` says
      and the others as they were. */
  predicate KeyReadsSoFar(key: Key, b: seq<u8>, j: nat, p: KeyProgress)
    requires 1 <= j <= 4
  {
    && p.rest == b[Min(8 * j, |b|)..]
    && p.acc == (if |b| >= 8 * j then 8 else if j == 1 then |b| else 0)
    && (forall i :: 0 <= i < 4 ==>
          KeyWord(p.key, i) == if i < j then KeyWordAfterSet(key, b, i) else KeyWord(key, i))
  }

  /** The first read stores word 0 from up to eight characters. */
  lemma KeyReadFirst(key: Key, b: seq<u8>)
    requires b != []
    ensures KeyReadsSoFar(key, b, 1, KeyRead(KeyProgress(key, 0, b), 0))
  {
    var q := KeyRead(KeyProgress(key, 0, b), 0);
    var v := ParseHex(b[..Min(8, |b|)], W32);
    assert q.key == SetKeyWord(key, 0, v);
    forall i | 0 <= i < 4
      ensures KeyWord(q.key, i) == if i < 1 then KeyWordAfterSet(key, b, i) else KeyWord(key, i)
    {
      KeyWordOfSet(key, 0, v, i);
    }
  }

  /** Read j >= 1 stores word j exactly when eight more characters are
      there, and otherwise drives `retVal` to 0. */
  lemma KeyReadNext(key: Key, b: seq<u8>, j: nat, p: KeyProgress)
    requires 1 <= j < 4 && KeyReadsSoFar(key, b, j, p)
    ensures KeyReadsSoFar(key, b, j + 1, KeyRead(p, j))
  {
    var q := KeyRead(p, j);
    var r := ReadHex(p.rest, W32);
    BitAndOfCounts(p.acc, r.count);
    if |b| >= 8 * (j + 1) {
      assert p.rest[..8] == b[8 * j .. 8 * j + 8];
      var v := ParseHex(b[8 * j .. 8 * j + 8], W32);
      assert q.acc == 8 && q.key == SetKeyWord(p.key, j, v);
      forall i | 0 <= i < 4
        ensures KeyWord(q.key, i) == if i < j + 1 then KeyWordAfterSet(key, b, i) else KeyWord(key, i)
      {
        KeyWordOfSet(p.key, j, v, i);
      }
    } else {
      assert q.acc == 0 && q.key == p.key;
    }
  }

  /** Reads j .. 3 complete the invariant. */
  lemma {:induction false} KeyReadsFromSoFar(key: Key, b: seq<u8>, j: nat, p: KeyProgress)
    requires 1 <= j <= 4 && KeyReadsSoFar(key, b, j, p)
    ensures KeyReadsSoFar(key, b, 4, KeyReadsFrom(p, j))
    decreases 4 - j
  {
    if j < 4 {
      KeyReadNext(key, b, j, p);
      KeyReadsFromSoFar(key, b, j + 1, KeyRead(p, j));
    }
  }

  /** The four key reads: each word as `KeyWordAfterSet` says, up to 32
      characters consumed, and `retVal` nonzero exactly for a full key. */
  lemma KeyReadsCases(key: Key, b: seq<u8>)
    requires b != []
    ensures KeyReadsOutcome(key, b, KeyReads(key, b))
  {
    var p0 := KeyProgress(key, 0, b);
    KeyReadFirst(key, b);
    KeyReadsFromSoFar(key, b, 1, KeyRead(p0, 0));
    assert KeyReads(key, b) == KeyReadsFrom(KeyRead(p0, 0), 1);
  }

  /** A set whose argument starts with a non-hex character still succeeds
      and stores 0; for the network id it also re-initialises the MAC. */
  lemma NonHexArgumentSetsZero(s: AtView, radio: RadioReadings)
    requires s.atBuffer != [] && !IsHexDigit(s.atBuffer[0])
    ensures var t := Execute(GetSetNetworkAddress, s, radio);
      t.cfg.networkId == LeBytes(0) && t.inits == s.inits + [InitFrom(t.cfg)]
    ensures Execute(GetSetTriggerLevel, s, radio).cfg.transmitTriggerLevel == 0
    ensures Execute(GetSetTriggerTimeout, s, radio).cfg.transmitTriggerTimeout == 0
  {
    var b := s.atBuffer;
    assert b[..Min(8, |b|)][0] == b[0];
    assert b[..Min(4, |b|)][0] == b[0];
    assert b[..Min(2, |b|)][0] == b[0];
  }

  /** Setting the network id from the eight characters a query writes, then
      querying it, writes those same characters: the id is restored. */
  lemma NetworkIdSetThenQuery(s: AtView, w: Word, radio: RadioReadings)
    requires s.atBuffer == U32Hex(w)
    ensures var t := Execute(GetSetNetworkAddress, s, radio);
      && t.cfg.networkId == w && t.atBuffer == []
      && Execute(GetSetNetworkAddress, t, radio).uartOut == s.uartOut + U32Hex(w)
  {
    U32HexRoundTrip(w);
    U32OfThenLeBytes(w);
    assert s.atBuffer[..8] == s.atBuffer;
  }

  /** Likewise for the trigger level, written and read as two hex digits. */
  lemma TriggerLevelSetThenQuery(s: AtView, v: u8, radio: RadioReadings)
    requires s.atBuffer == ByteHex(v)
    ensures var t := Execute(GetSetTriggerLevel, s, radio);
      && t.cfg.transmitTriggerLevel == v && t.atBuffer == []
      && Execute(GetSetTriggerLevel, t, radio).uartOut == s.uartOut + ByteHex(v)
  {
    ByteHexRoundTrip(v);
    assert s.atBuffer[..2] == s.atBuffer;
  }

  /** The MAC and sender queries write the eight digits that parse back to
      the address. */
  lemma AddressQueries(s: AtView, radio: RadioReadings)
    ensures var out := Execute(GetMacAddress, s, radio).uartOut;
      |out| == |s.uartOut| + 8 && ParseHex(out[|s.uartOut|..], W32) == U32Of(s.cfg.macAddress)
    ensures var out := Execute(GetSenderMac, s, radio).uartOut;
      |out| == |s.uartOut| + 8 && ParseHex(out[|s.uartOut|..], W32) == U32Of(s.senderMac)
  {
    U32HexRoundTrip(s.cfg.macAddress);
    U32HexRoundTrip(s.senderMac);
    var o1 := Execute(GetMacAddress, s, radio).uartOut;
    assert o1[|s.uartOut|..] == U32Hex(s.cfg.macAddress);
    var o2 := Execute(GetSenderMac, s, radio).uartOut;
    assert o2[|s.uartOut|..] == U32Hex(s.senderMac);
  }

  /** The null command writes exactly "OK" and changes nothing else. */
  lemma NullCommandWritesOk(s: AtView, radio: RadioReadings)
    ensures Execute(NullCommand, s, radio) == s.(uartOut := s.uartOut + Ascii("OK"))
  {
    assert OkReply == Ascii("OK");
  }

  /** "TS" never sets the clock: it reads only when the buffer is empty, and
      then reads nothing. The command changes nothing at all. */
  lemma TimeReferenceNeverSet(s: AtView, radio: RadioReadings)
    ensures Execute(SetTimeReference, s, radio) == s
  {
  }

  /** A number with no `case` label does nothing. */
  lemma UnknownCommandIgnored(cmd: u8, s: AtView, radio: RadioReadings)
    requires CommandCount <= cmd < 0xFF
    ensures Dispatch(cmd, s, radio) == s
  {
  }

  /** "WS" followed by the next boot's `LoadPresets`: what the saved block
      gives back (see `ConfigStore.SaveThenLoad`). */
  lemma WriteSettingsThenLoad(s: AtView, radio: RadioReadings, plat: Platform, c0: Config, baud0: u8)
    ensures var p := Execute(WriteSettings, s, radio).persist;
      var l := LoadImage(p, plat, c0, baud0);
      && l.uartBaud == s.uartBaud
      && l.cfg.transmitTriggerLevel == s.cfg.transmitTriggerLevel
      && l.cfg.quiet == s.cfg.operatingMode
      && l.cfg.networkId == Reverse(s.cfg.networkId)
      && l.cfg.transmitTriggerTimeout == s.cfg.transmitTriggerTimeout % 0x100
  {
    WriteSettingsSaves(s, radio);
    SaveThenLoad(s.cfg, s.uartBaud, plat, c0, baud0);
  }

  /** "WS" writes the save image and changes nothing else. */
  lemma WriteSettingsSaves(s: AtView, radio: RadioReadings)
    ensures Execute(WriteSettings, s, radio) == s.(persist := SaveImage(s.cfg, s.uartBaud))
  {
  }
}
