/** The firmware's globals and main loop as one object: the AT command
    handler, the configuration load, the transparent UART-to-radio bridge
    with its transmit trigger, the remote I/O slave, and the MAC-layer
    callbacks that fill the single-slot receive buffer and tick the timers. */
module BridgeEngine {
  import opened Bytes
  import opened HexCodec
  import opened DeviceConfig
  import opened ConfigStore
  import opened AtDispatcher
  import opened TransmitTrigger

  /** `tAtStates`: the escape-sequence state of the AT processor. */
  datatype AtState = Disabled | Plus1 | Plus2 | Plus3 | Enabled

  const Ack: u8 := 0x06
  const Nack: u8 := 0x15

  /** The remote I/O opcodes, the first byte of a request in I/O-slave mode. */
  const ReadAnalog: u8 := 0
  const ReadDigital: u8 := 1
  const SetDigital: u8 := 2
  const SetDigitalTrigger: u8 := 3
  const SetAnalogTrigger: u8 := 4

  /** The digital input and output pins `pinDI0` .. `pinDI4`, `pinDO0` .. `pinDO4`. */
  const PinCount: nat := 5

  /** One `OpenRFSendPacket` call: destination, packet type and payload. */
  datatype Packet = Packet(destination: Word, packetType: u8, payload: seq<u8>)

  /** The receive buffer after a packet of `length` bytes arrives: its first
      `length` bytes are the packet's, the rest keep what was there. */
  function Deliver(buf: seq<u8>, length: nat, sdu: seq<u8>): (r: seq<u8>)
    requires length <= |buf| && length <= |sdu|
    ensures |r| == |buf|
    ensures forall i :: 0 <= i < length ==> r[i] == sdu[i]
    ensures forall i :: length <= i < |buf| ==> r[i] == buf[i]
  {
    sdu[..length] + buf[length..]
  }

  /** A second arrival before the first is consumed replaces it: the bytes
      the loop will forward are the second packet's alone. */
  lemma LatestArrivalWins(buf: seq<u8>, l1: nat, s1: seq<u8>, l2: nat, s2: seq<u8>)
    requires l1 <= |buf| && l1 <= |s1| && l2 <= |buf| && l2 <= |s2|
    ensures Deliver(Deliver(buf, l1, s1), l2, s2)[..l2] == s2[..l2]
  {
  }

  class Bridge {
    /** The configuration globals `_macAddress` .. `_hopTable`. */
    var cfg: Config

    /** Run-time globals. */
    var transmitTimer: u16
    var transmitTriggerTimer: u16
    var transmitTriggerTimerActive: bool
    var packetReceived: bool
    const receivePacketDataBuffer: array<u8>
    var receivePacketCount: u8
    var receivePacketType: u8
    var receivePacketSenderMAC: Word
    const digitalTriggers: array<u8>
    /** `_analogTriggers`, six `UU16`s, as the twelve bytes they occupy. */
    const analogTriggers: array<u8>

    /** Locals of `main` declared outside its loop: their values carry over
        from one pass to the next. */
    const respBuffer: array<u8>
    var digitalSample: u8

    /** The peripherals and the other layers, as far as this code sees them:
        the AT argument buffer and state, the UART receive queue and what has
        been written to the UART, the UART baud-rate register, persistent
        storage, the real-time clock, the ADC channel, and the pins. */
    var atBuffer: seq<u8>
    var atState: AtState
    var uartRx: seq<u8>
    var uartOut: seq<u8>
    var uartBaud: u8
    var persist: Flash
    var rtc: Word
    var adcChannel: u8
    const inputPins: array<bool>
    const outputPins: array<bool>
    const platform: Platform

    /** Calls into the MAC, radio and AT layers, in order. */
    var sent: seq<Packet>
    var inits: seq<InitConfig>
    var exitRequests: nat
    var txPowerRequests: seq<u8>

    ghost predicate Valid()
      reads this
    {
      && receivePacketDataBuffer.Length == MaxPayload
      && digitalTriggers.Length == PinCount
      && analogTriggers.Length == 12
      && respBuffer.Length == 16
      && inputPins.Length == PinCount
      && outputPins.Length == PinCount
      && receivePacketDataBuffer != digitalTriggers && receivePacketDataBuffer != analogTriggers
      && receivePacketDataBuffer != respBuffer && digitalTriggers != analogTriggers
      && digitalTriggers != respBuffer && analogTriggers != respBuffer
      && inputPins != outputPins
      && receivePacketCount as int <= MaxPayload
    }

    /** The part of the state the AT command handler works on. */
    function AtViewOf(): AtView
      reads this`cfg, this`atBuffer, this`uartOut, this`inits, this`persist, this`uartBaud,
            this`rtc, this`exitRequests, this`txPowerRequests, this`receivePacketSenderMAC
    {
      AtView(cfg, atBuffer, uartOut, inits, persist, uartBaud, rtc, exitRequests,
             txPowerRequests, receivePacketSenderMAC)
    }

    /** Power-on: every global is zero (static storage), nothing received or
        sent. The two locals of `main` that outlive a pass start with
        whatever `resp` and `sample` hold, storage with `storage` and the
        input pins at the levels `inputs` gives. */
    constructor(plat: Platform, resp: seq<u8>, sample: u8, storage: Flash, inputs: seq<bool>)
      requires |resp| == 16 && |inputs| == PinCount
      ensures Valid()
      ensures cfg == ZeroConfig() && platform == plat
      ensures !packetReceived && !transmitTriggerTimerActive && transmitTriggerTimer == 0
      ensures atBuffer == [] && uartRx == [] && uartOut == [] && sent == [] && inits == []
      ensures transmitTimer == 0 && receivePacketCount == 0 && receivePacketType == 0
      ensures receivePacketSenderMAC == [0, 0, 0, 0]
      ensures respBuffer[..] == resp && digitalSample == sample
      ensures forall i :: 0 <= i < MaxPayload ==> receivePacketDataBuffer[i] == 0
      ensures forall i :: 0 <= i < PinCount ==> digitalTriggers[i] == 0
      ensures forall i :: 0 <= i < 12 ==> analogTriggers[i] == 0
      ensures inputPins[..] == inputs
      ensures forall i :: 0 <= i < PinCount ==> !outputPins[i]
      ensures atState == Disabled && uartBaud == 0 && persist == storage && rtc == [0, 0, 0, 0]
      ensures adcChannel == 0 && exitRequests == 0 && txPowerRequests == []
    {
      cfg := ZeroConfig();
      transmitTimer := 0;
      transmitTriggerTimer := 0;
      transmitTriggerTimerActive := false;
      packetReceived := false;
      receivePacketDataBuffer := new u8[MaxPayload](_ => 0);
      receivePacketCount := 0;
      receivePacketType := 0;
      receivePacketSenderMAC := [0, 0, 0, 0];
      digitalTriggers := new u8[PinCount](_ => 0);
      analogTriggers := new u8[12](_ => 0);
      respBuffer := new u8[16](i => if 0 <= i < |resp| then resp[i] else 0);
      digitalSample := sample;
      atBuffer := [];
      atState := Disabled;
      uartRx := [];
      uartOut := [];
      uartBaud := 0;
      persist := storage;
      rtc := [0, 0, 0, 0];
      adcChannel := 0;
      inputPins := new bool[PinCount](i => if 0 <= i < |inputs| then inputs[i] else false);
      outputPins := new bool[PinCount](_ => false);
      platform := plat;
      sent := [];
      inits := [];
      exitRequests := 0;
      txPowerRequests := [];
      new;
      assert respBuffer[..] == resp;
      assert inputPins[..] == inputs;
    }

    /** `WriteCharUART1`. */
    method WriteCharUart1(ch: u8)
      modifies this`uartOut
      ensures uartOut == old(uartOut) + [ch]
      ensures AtViewOf() == Emit(old(AtViewOf()), [ch])
    {
      uartOut := uartOut + [ch];
    }

    /** `WriteCharToUart`: one nibble as a hex digit. */
    method WriteCharToUart(ch: u8)
      modifies this`uartOut
      ensures uartOut == old(uartOut) + [HexChar(ch)]
      ensures AtViewOf() == Emit(old(AtViewOf()), [HexChar(ch)])
    {
      if ch < 0x0A {
        WriteCharUart1(ch + '0' as int);
      } else {
        WriteCharUart1((ch - 10 + 'A' as int) % 0x100);
      }
    }

    /** `WriteU32ToUart`: `U8[3]` down to `U8[0]`, high nibble first. */
    method WriteU32ToUart(val: Word)
      modifies this`uartOut
      ensures uartOut == old(uartOut) + U32Hex(val)
      ensures AtViewOf() == Emit(old(AtViewOf()), U32Hex(val))
    {
      ghost var bs := [val[3], val[2], val[1], val[0]];
      for i := 0 to 4
        invariant uartOut == old(uartOut) + HexOfBytes(bs[..i])
      {
        assert bs[..i + 1][..i] == bs[..i];
        WriteNibbles(val[3 - i]);
      }
      assert bs[..4] == bs;
    }

    /** One iteration of `WriteU32ToUart`: the byte's high nibble, then its low one. */
    method WriteNibbles(b: u8)
      modifies this`uartOut
      ensures uartOut == old(uartOut) + ByteHex(b)
    {
      WriteCharToUart(b / 16);
      WriteCharToUart(b % 16);
    }

    /** `ReadU8FromUart`, `ReadU16FromUart`, `ReadU32FromUart`: take up to
        `MaxDigits(w)` characters off the AT buffer, NUL-terminate them and
        parse; the result is the number of characters taken. */
    method ReadHexFromAt(w: Width) returns (count: nat, value: nat)
      modifies this`atBuffer
      ensures var r := ReadHex(old(atBuffer), w);
        count == r.count && value == r.value && atBuffer == r.rest
      ensures AtViewOf() == old(AtViewOf()).(atBuffer := atBuffer)
    {
      var str: seq<u8> := [];
      count := 0;
      while count < MaxDigits(w) && atBuffer != []
        invariant count <= MaxDigits(w) && count <= |old(atBuffer)|
        invariant str == old(atBuffer)[..count] && atBuffer == old(atBuffer)[count..]
        decreases MaxDigits(w) - count
      {
        str := str + [atBuffer[0]];
        atBuffer := atBuffer[1..];
        count := count + 1;
      }
      value := ParseHexString(str + [0], w);
      ParseIgnoresTerminator(str, w);
    }

    /** Fill a `tOpenRFInitializer` from the globals and call `OpenRFInitialize`. */
    method Reinitialize()
      modifies this`inits
      ensures AtViewOf() == Reinit(old(AtViewOf()))
    {
      var ini := InitConfig(cfg.ackRetries, cfg.ackTimeout, 25, cfg.radioDataRate, cfg.encryptionKey,
                            1, cfg.hopTable, cfg.macAddress, cfg.networkId, 0);
      inits := inits + [ini];
    }

    /** An assignment to one of the configuration globals. */
    method StoreConfig(c: Config)
      modifies this`cfg
      ensures cfg == c
      ensures AtViewOf() == old(AtViewOf()).(cfg := c)
    {
      cfg := c;
    }

    /** `SetUART1BaudRate`: the UART driver takes the new rate. */
    method SetUart1BaudRate(rate: u8)
      modifies this`uartBaud
      ensures AtViewOf() == old(AtViewOf()).(uartBaud := rate)
    {
      uartBaud := rate;
    }

    /** `RadioSetTxPower`: the request to the radio, recorded. */
    method RadioSetTxPower(power: u8)
      modifies this`txPowerRequests
      ensures AtViewOf() == old(AtViewOf()).(txPowerRequests := old(txPowerRequests) + [power])
    {
      txPowerRequests := txPowerRequests + [power];
    }

    method ErasePersistentArea()
      modifies this`persist
      ensures persist == map[]
    {
      persist := map[];
    }

    method WritePersistentValue(offset: int, bs: seq<u8>)
      modifies this`persist
      ensures persist == WriteBytes(old(persist), offset, bs)
    {
      persist := WriteBytes(persist, offset, bs);
    }

    method ReadPersistentValue(k: int) returns (v: u8)
      ensures v == ReadPersistent(persist, platform, k)
    {
      v := if k in persist then persist[k] else platform.erasedByte;
    }

    /** `ATCommand`: the handler the AT processor calls with the number of
        the command it recognised. */
    method ATCommand(commandNumber: u8, radio: RadioReadings)
      modifies this`cfg, this`atBuffer, this`uartOut, this`inits, this`persist,
               this`uartBaud, this`rtc, this`exitRequests, this`txPowerRequests
      ensures AtViewOf() == Dispatch(commandNumber, old(AtViewOf()), radio)
    {
      match CommandOf(commandNumber)
      case None =>
      case Some(c) =>
        if !TakesArgument(c) {
          RunAction(c, radio);
        } else if atBuffer == [] {
          RunQuery(c);
        } else {
          RunSet(c);
        }
    }

    /** The cases that do not look at the argument buffer. */
    method RunAction(c: AtCommand, radio: RadioReadings)
      requires !TakesArgument(c)
      modifies this`uartOut, this`persist, this`exitRequests
      ensures AtViewOf() == Action(c, old(AtViewOf()), radio)
    {
      if c == GetRssi || c == GetTemperature {
        WriteRadioReading(c, radio);
      } else if c == GetFirmwareVersion || c == NullCommand {
        WriteFixedReply(c, radio);
      } else {
        match c
        case GetMacAddress => WriteU32ToUart(cfg.macAddress);
        case ExitCommandMode => exitRequests := exitRequests + 1;
        case ResetToFactory =>
        case GetSetParity =>
        case GetSetStopBits =>
        case GetPowerSupply =>
        case WriteSettings => SaveSettings();
        case GetSenderMac => WriteU32ToUart(receivePacketSenderMAC);
      }
    }

    /** "RR" and "TE": two readings from the radio, as two characters. */
    method WriteRadioReading(c: AtCommand, radio: RadioReadings)
      requires c == GetRssi || c == GetTemperature
      modifies this`uartOut
      ensures AtViewOf() == Action(c, old(AtViewOf()), radio)
    {
      ghost var s0 := AtViewOf();
      if c == GetRssi {
        WriteCharToUart(radio.rssi1 / 16);
        WriteCharToUart(radio.rssi2);
        EmitTwo(s0, [HexChar(radio.rssi1 / 16)], [HexChar(radio.rssi2)]);
      } else {
        WriteCharToUart(radio.temperature1 / 16);
        WriteCharToUart(radio.temperature2);
        EmitTwo(s0, [HexChar(radio.temperature1 / 16)], [HexChar(radio.temperature2)]);
      }
    }

    /** "VR" and the null command: a fixed two-character answer. */
    method WriteFixedReply(c: AtCommand, radio: RadioReadings)
      requires c == GetFirmwareVersion || c == NullCommand
      modifies this`uartOut
      ensures AtViewOf() == Action(c, old(AtViewOf()), radio)
    {
      ghost var s0 := AtViewOf();
      if c == GetFirmwareVersion {
        WriteCharUart1(DigitChar(0));
        WriteCharUart1(DigitChar(1));
        EmitTwo(s0, [DigitChar(0)], [DigitChar(1)]);
      } else {
        WriteCharUart1('O' as int);
        WriteCharUart1('K' as int);
        EmitTwo(s0, [0x4F], [0x4B]);
      }
    }

    /** "WS": erase the storage, write the block, write the sentinel. */
    method SaveSettings()
      modifies this`persist
      ensures persist == SaveImage(cfg, uartBaud)
    {
      ErasePersistentArea();
      assert persist == SavedPrefix(cfg, uartBaud, 0);
      WritePersistentValue(0, cfg.networkId);
      WriteExtendsPrefix(cfg, uartBaud, 0, cfg.networkId);
      assert persist == SavedPrefix(cfg, uartBaud, 4);
      WritePersistentValue(4, cfg.destinationAddress);
      WriteExtendsPrefix(cfg, uartBaud, 4, cfg.destinationAddress);
      assert persist == SavedPrefix(cfg, uartBaud, 8);
      WritePersistentValue(8, cfg.encryptionKey);
      WriteExtendsPrefix(cfg, uartBaud, 8, cfg.encryptionKey);
      assert persist == SavedPrefix(cfg, uartBaud, 24);
      WritePersistentValue(24, [cfg.operatingMode]);
      WriteExtendsPrefix(cfg, uartBaud, 24, [cfg.operatingMode]);
      assert persist == SavedPrefix(cfg, uartBaud, 25);
      var bo := uartBaud;
      WritePersistentValue(25, [bo]);
      WriteExtendsPrefix(cfg, uartBaud, 25, [bo]);
      assert persist == SavedPrefix(cfg, uartBaud, 26);
      WritePersistentValue(26, [cfg.transmitTriggerLevel]);
      WriteExtendsPrefix(cfg, uartBaud, 26, [cfg.transmitTriggerLevel]);
      assert persist == SavedPrefix(cfg, uartBaud, 27);
      WritePersistentValue(27, [cfg.transmitTriggerTimeout % 0x100]);
      WriteExtendsPrefix(cfg, uartBaud, 27, [cfg.transmitTriggerTimeout % 0x100]);
      assert persist == SavedPrefix(cfg, uartBaud, 28);
      bo := InitializedValue;
      WritePersistentValue(SentinelOffset, [bo]);
      assert persist == WriteBytes(SavedPrefix(cfg, uartBaud, 28), SentinelOffset, [InitializedValue]);
      SentinelCompletesImage(cfg, uartBaud);
    }

    /** The argument-taking cases with an empty buffer ("TS" reads here). */
    method RunQuery(c: AtCommand)
      requires TakesArgument(c)
      modifies this`uartOut, this`rtc, this`atBuffer
      ensures AtViewOf() == Query(c, old(AtViewOf()))
    {
      if c == GetSetEncryptionKey {
        QueryKey();
      } else if c == SetTimeReference {
        QueryTimeReference();
      } else {
        QueryField(c);
      }
    }

    /** The "EK" query: the four key words, `UU32[0]` first. */
    method QueryKey()
      modifies this`uartOut
      ensures AtViewOf() == Query(GetSetEncryptionKey, old(AtViewOf()))
    {
      ghost var s0 := AtViewOf();
      ghost var k := cfg.encryptionKey;
      WriteU32ToUart(KeyWord(cfg.encryptionKey, 0));
      WriteU32ToUart(KeyWord(cfg.encryptionKey, 1));
      WriteU32ToUart(KeyWord(cfg.encryptionKey, 2));
      WriteU32ToUart(KeyWord(cfg.encryptionKey, 3));
      EmitFour(s0, U32Hex(KeyWord(k, 0)), U32Hex(KeyWord(k, 1)), U32Hex(KeyWord(k, 2)), U32Hex(KeyWord(k, 3)));
    }

    /** "TS" with an empty buffer: the read finds nothing to parse. */
    method QueryTimeReference()
      modifies this`rtc, this`atBuffer
      ensures AtViewOf() == Query(SetTimeReference, old(AtViewOf()))
    {
      var count, val32 := ReadHexFromAt(W32);
      if count != 0 {
        rtc := LeBytes(val32);
      }
    }

    /** The other queries: one field written as hex or decimal digits. */
    method QueryField(c: AtCommand)
      requires TakesArgument(c) && c != GetSetEncryptionKey && c != SetTimeReference
      modifies this`uartOut
      ensures AtViewOf() == Query(c, old(AtViewOf()))
    {
      match c
      case GetSetNetworkAddress => WriteU32ToUart(cfg.networkId);
      case GetSetDestinationMacAddress => WriteU32ToUart(cfg.destinationAddress);
      case GetSetRadioRate => WriteCharUart1(DigitChar(cfg.radioDataRate));
      case GetSetDataRate => WriteCharUart1(DigitChar(uartBaud));
      case GetSetPacketType => WriteCharUart1(DigitChar(cfg.packetType));
      case GetSetTriggerLevel =>
        WriteCharToUart(cfg.transmitTriggerLevel / 16);
        WriteCharToUart(cfg.transmitTriggerLevel % 16);
      case GetSetTriggerTimeout =>
        WriteCharToUart((cfg.transmitTriggerTimeout / 16) % 0x100);
        WriteCharToUart(cfg.transmitTriggerTimeout % 16);
      case GetSetTransmitPower =>
        WriteCharToUart(cfg.transmitPower / 16);
        WriteCharToUart(cfg.transmitPower % 16);
      case GetSetAckRetries => WriteCharToUart(cfg.ackRetries);
      case GetSetAckTimeout =>
        WriteCharToUart(cfg.ackTimeout / 0x100);
        WriteCharToUart(cfg.ackTimeout % 0x100);
      case GetSetHopTable => WriteCharToUart(cfg.hopTable);
    }

    /** The argument-taking cases with a non-empty buffer. */
    method RunSet(c: AtCommand)
      requires TakesArgument(c) && atBuffer != []
      modifies this`cfg, this`atBuffer, this`inits, this`uartBaud, this`txPowerRequests
      ensures AtViewOf() == Set(c, old(AtViewOf()))
    {
      if c == GetSetEncryptionKey {
        SetEncryptionKey();
      } else if IsRadioSet(c) {
        SetRadioField(c);
      } else {
        SetLocalField(c);
      }
    }

    /** The sets of a radio parameter other than the key: store the value
        read (0 for a non-hex argument) and re-initialise the MAC layer if
        any character was read. */
    method SetRadioField(c: AtCommand)
      requires TakesArgument(c) && IsRadioSet(c) && c != GetSetEncryptionKey
      modifies this`cfg, this`atBuffer, this`inits
      ensures AtViewOf() == Set(c, old(AtViewOf()))
    {
      var count, value;
      match c {
      case GetSetNetworkAddress =>
        count, value := ReadHexFromAt(W32);
        StoreConfig(cfg.(networkId := LeBytes(value)));
      case GetSetRadioRate =>
        count, value := ReadHexFromAt(W8);
        StoreConfig(cfg.(radioDataRate := value));
      case GetSetAckRetries =>
        count, value := ReadHexFromAt(W8);
        StoreConfig(cfg.(ackRetries := value));
      case GetSetAckTimeout =>
        count, value := ReadHexFromAt(W16);
        StoreConfig(cfg.(ackTimeout := value));
      case GetSetHopTable =>
        count, value := ReadHexFromAt(W8);
        StoreConfig(cfg.(hopTable := value));
      }
      if count != 0 {
        Reinitialize();
      }
    }

    /** The sets that only change the firmware's own globals. */
    method SetLocalField(c: AtCommand)
      requires TakesArgument(c) && !IsRadioSet(c)
      modifies this`cfg, this`atBuffer, this`uartBaud, this`txPowerRequests
      ensures AtViewOf() == Set(c, old(AtViewOf()))
    {
      if c in {GetSetDestinationMacAddress, GetSetDataRate, GetSetTransmitPower} {
        SetGuardedField(c);
      } else {
        SetPlainField(c);
      }
    }

    /** The local sets that do something more when a character was read. */
    method SetGuardedField(c: AtCommand)
      requires c in {GetSetDestinationMacAddress, GetSetDataRate, GetSetTransmitPower}
      modifies this`cfg, this`atBuffer, this`uartBaud, this`txPowerRequests
      ensures AtViewOf() == Set(c, old(AtViewOf()))
    {
      match c
      case GetSetDestinationMacAddress =>
        var count, val32 := ReadHexFromAt(W32);
        if count != 0 {
          StoreConfig(cfg.(destinationAddress := LeBytes(val32)));
        }
      case GetSetDataRate =>
        var count, value := ReadHexFromAt(W8);
        StoreConfig(cfg.(uartBaudRate := value));
        if count != 0 {
          SetUart1BaudRate(cfg.uartBaudRate);
        }
      case GetSetTransmitPower =>
        var count, value := ReadHexFromAt(W8);
        StoreConfig(cfg.(transmitPower := value));
        if count != 0 {
          RadioSetTxPower(cfg.transmitPower);
        }
    }

    /** The local sets that store whatever was parsed ("TS" does nothing). */
    method SetPlainField(c: AtCommand)
      requires c in {GetSetPacketType, GetSetTriggerLevel, GetSetTriggerTimeout, SetTimeReference}
      modifies this`cfg, this`atBuffer
      ensures AtViewOf() == Set(c, old(AtViewOf()))
    {
      match c
      case GetSetPacketType =>
        var count, value := ReadHexFromAt(W8);
        StoreConfig(cfg.(packetType := value));
      case GetSetTriggerLevel =>
        var count, value := ReadHexFromAt(W8);
        StoreConfig(cfg.(transmitTriggerLevel := value));
      case GetSetTriggerTimeout =>
        var count, value := ReadHexFromAt(W16);
        StoreConfig(cfg.(transmitTriggerTimeout := value));
      case SetTimeReference =>
    }

    /** The set branch of "EK": four 32-bit reads combined with `&=`, then
        one re-initialisation if the combined count is nonzero. */
    method SetEncryptionKey()
      modifies this`cfg, this`atBuffer, this`inits
      ensures AtViewOf() == SetKey(old(AtViewOf()))
    {
      ghost var s0 := AtViewOf();
      var retVal := ReadKeyStage();
      ghost var t := AtViewOf();
      SetKeyAfterStage(s0, t, retVal);
      if retVal != 0 {
        Reinitialize();
      }
    }

    /** The four reads as seen by the AT command handler. */
    method ReadKeyStage() returns (retVal: u8)
      modifies this`cfg, this`atBuffer
      ensures AtViewOf() == KeyStage(old(AtViewOf()))
      ensures retVal == KeyReads(old(cfg.encryptionKey), old(atBuffer)).acc
    {
      ghost var s0 := AtViewOf();
      ghost var p;
      retVal, p := ReadKey();
      assert AtViewOf() == s0.(cfg := s0.cfg.(encryptionKey := p.key), atBuffer := p.rest);
    }

    /** The four reads of the key set, as `KeyReads`. */
    method ReadKey() returns (retVal: u8, ghost p: KeyProgress)
      modifies this`cfg, this`atBuffer
      ensures p == KeyReads(old(cfg.encryptionKey), old(atBuffer))
      ensures p == KeyProgress(cfg.encryptionKey, retVal, atBuffer)
      ensures cfg == old(cfg).(encryptionKey := cfg.encryptionKey)
    {
      ghost var p0 := KeyProgress(cfg.encryptionKey, 0, atBuffer);
      var r1, p1 := ReadKeyWord(0, 0, p0);
      var r2, p2 := ReadKeyWord(1, r1, p1);
      var r3, p3 := ReadKeyWord(2, r2, p2);
      retVal, p := ReadKeyWord(3, r3, p3);
      KeyReadsUnrolled(old(cfg.encryptionKey), old(atBuffer));
    }

    /** One read of the key set: `retVal = ReadU32FromUart(&val32)` for the
        first word, `retVal &= ReadU32FromUart(&val32)` for the others, then
        `if(retVal) _encryptionKey.UU32[j].U32 = val32`. */
    method ReadKeyWord(j: nat, retVal: u8, ghost p: KeyProgress) returns (newRetVal: u8, ghost q: KeyProgress)
      requires j < 4 && p == KeyProgress(cfg.encryptionKey, retVal, atBuffer)
      modifies this`cfg, this`atBuffer
      ensures q == KeyRead(p, j) && q == KeyProgress(cfg.encryptionKey, newRetVal, atBuffer)
      ensures cfg == old(cfg).(encryptionKey := cfg.encryptionKey)
    {
      var count, val32 := ReadHexFromAt(W32);
      newRetVal := if j == 0 then count else BitAnd(retVal, count);
      if newRetVal != 0 {
        cfg := cfg.(encryptionKey := SetKeyWord(cfg.encryptionKey, j, val32));
      }
      q := KeyRead(p, j);
    }

    /** `LoadPresets`: the stored block if the sentinel is present, the
        factory defaults otherwise. */
    method LoadPresets()
      modifies this`cfg, this`uartBaud
      ensures Loaded(cfg, uartBaud) == LoadImage(persist, platform, old(cfg), old(uartBaud))
    {
      var marker := ReadPersistentValue(SentinelOffset);
      if marker == InitializedValue {
        LoadStoredBlock();
      } else {
        LoadFactoryDefaults();
      }
    }

    /** The then-branch of `LoadPresets`, one `ReadPersistentValue` per byte. */
    method LoadStoredBlock()
      modifies this`cfg, this`uartBaud
      ensures cfg == old(cfg).(networkId := Reverse(Stored(persist, platform, 0, 4)),
                               destinationAddress := Reverse(Stored(persist, platform, 4, 4)),
                               encryptionKey := Reverse(Stored(persist, platform, 8, 16)),
                               quiet := ReadPersistent(persist, platform, 24),
                               transmitTriggerLevel := ReadPersistent(persist, platform, 26),
                               transmitTriggerTimeout := ReadPersistent(persist, platform, 27),
                               ackRetries := ReadPersistent(persist, platform, 28),
                               ackTimeout := ReadPersistent(persist, platform, 29) * 0x100
                                             + ReadPersistent(persist, platform, 30),
                               hopTable := ReadPersistent(persist, platform, 31))
      ensures uartBaud == ReadPersistent(persist, platform, 25)
    {
      LoadNetworkId();
      LoadDestination();
      LoadKey();
      LoadTrigger();
      LoadRadioTuning();
    }

    /** Offsets 24 .. 27: quiet flag, baud rate and the two trigger settings. */
    method LoadTrigger()
      modifies this`cfg, this`uartBaud
      ensures cfg == old(cfg).(quiet := ReadPersistent(persist, platform, 24),
                               transmitTriggerLevel := ReadPersistent(persist, platform, 26),
                               transmitTriggerTimeout := ReadPersistent(persist, platform, 27))
      ensures uartBaud == ReadPersistent(persist, platform, 25)
    {
      var v := ReadPersistentValue(24);
      cfg := cfg.(quiet := v);
      v := ReadPersistentValue(25);
      uartBaud := v;
      v := ReadPersistentValue(26);
      cfg := cfg.(transmitTriggerLevel := v);
      v := ReadPersistentValue(27);
      cfg := cfg.(transmitTriggerTimeout := v);
    }

    /** Offsets 28 .. 31: ack retries, ack timeout and hop table. */
    method LoadRadioTuning()
      modifies this`cfg
      ensures cfg == old(cfg).(ackRetries := ReadPersistent(persist, platform, 28),
                               ackTimeout := ReadPersistent(persist, platform, 29) * 0x100
                                             + ReadPersistent(persist, platform, 30),
                               hopTable := ReadPersistent(persist, platform, 31))
    {
      var v := ReadPersistentValue(28);
      cfg := cfg.(ackRetries := v);
      // `((UU16)_ackTimeout).U8[1]`, then `.U8[0]`: high byte, then low byte.
      v := ReadPersistentValue(29);
      cfg := cfg.(ackTimeout := v * 0x100 + cfg.ackTimeout % 0x100);
      v := ReadPersistentValue(30);
      cfg := cfg.(ackTimeout := cfg.ackTimeout / 0x100 * 0x100 + v);
      v := ReadPersistentValue(31);
      cfg := cfg.(hopTable := v);
    }

    /** `_networkId.U8[3]` from offset 0 down to `U8[0]` from offset 3. */
    method LoadNetworkId()
      modifies this`cfg
      ensures cfg == old(cfg).(networkId := Reverse(Stored(persist, platform, 0, 4)))
    {
      var v := ReadPersistentValue(0);
      cfg := cfg.(networkId := cfg.networkId[3 := v]);
      v := ReadPersistentValue(1);
      cfg := cfg.(networkId := cfg.networkId[2 := v]);
      v := ReadPersistentValue(2);
      cfg := cfg.(networkId := cfg.networkId[1 := v]);
      v := ReadPersistentValue(3);
      cfg := cfg.(networkId := cfg.networkId[0 := v]);
      ReversedStored(persist, platform, 0, cfg.networkId);
    }

    /** `_destinationAddress.U8[3]` from offset 4 down to `U8[0]` from offset 7. */
    method LoadDestination()
      modifies this`cfg
      ensures cfg == old(cfg).(destinationAddress := Reverse(Stored(persist, platform, 4, 4)))
    {
      var v := ReadPersistentValue(4);
      cfg := cfg.(destinationAddress := cfg.destinationAddress[3 := v]);
      v := ReadPersistentValue(5);
      cfg := cfg.(destinationAddress := cfg.destinationAddress[2 := v]);
      v := ReadPersistentValue(6);
      cfg := cfg.(destinationAddress := cfg.destinationAddress[1 := v]);
      v := ReadPersistentValue(7);
      cfg := cfg.(destinationAddress := cfg.destinationAddress[0 := v]);
      ReversedStored(persist, platform, 4, cfg.destinationAddress);
    }

    /** `_encryptionKey.U8[15]` from offset 8 down to `U8[0]` from offset 23. */
    method LoadKey()
      modifies this`cfg
      ensures cfg == old(cfg).(encryptionKey := Reverse(Stored(persist, platform, 8, 16)))
    {
      var k := cfg.encryptionKey;
      var v := ReadPersistentValue(8);
      k := k[15 := v];
      v := ReadPersistentValue(9);
      k := k[14 := v];
      v := ReadPersistentValue(10);
      k := k[13 := v];
      v := ReadPersistentValue(11);
      k := k[12 := v];
      v := ReadPersistentValue(12);
      k := k[11 := v];
      v := ReadPersistentValue(13);
      k := k[10 := v];
      v := ReadPersistentValue(14);
      k := k[9 := v];
      v := ReadPersistentValue(15);
      k := k[8 := v];
      v := ReadPersistentValue(16);
      k := k[7 := v];
      v := ReadPersistentValue(17);
      k := k[6 := v];
      v := ReadPersistentValue(18);
      k := k[5 := v];
      v := ReadPersistentValue(19);
      k := k[4 := v];
      v := ReadPersistentValue(20);
      k := k[3 := v];
      v := ReadPersistentValue(21);
      k := k[2 := v];
      v := ReadPersistentValue(22);
      k := k[1 := v];
      v := ReadPersistentValue(23);
      k := k[0 := v];
      ReversedStored(persist, platform, 8, k);
      cfg := cfg.(encryptionKey := k);
    }

    /** The else-branch of `LoadPresets`, assignment by assignment (the
        network id is set twice; the second value stays). */
    method LoadFactoryDefaults()
      modifies this`cfg
      ensures cfg == Defaults(old(cfg), platform)
    {
      cfg := cfg.(macAddress := LeBytes(0x11223344));
      cfg := cfg.(networkId := LeBytes(0xaa555aa5));
      cfg := cfg.(destinationAddress := LeBytes(0x44332211));
      cfg := cfg.(networkId := LeBytes(0x11332244));
      var k := cfg.encryptionKey;
      k := SetKeyWord(k, 3, 0x1C1D1E1F);
      k := SetKeyWord(k, 2, 0x1E1F1A1B);
      k := SetKeyWord(k, 1, 0x1A1B1C1D);
      k := SetKeyWord(k, 0, 0x11223344);
      KeyOfWords(k);
      cfg := cfg.(encryptionKey := k);
      cfg := cfg.(quiet := 0);
      cfg := cfg.(transmitTriggerLevel := 4);
      cfg := cfg.(transmitTriggerTimeout := 200);
      cfg := cfg.(packetType := platform.multicastPacketType);
      cfg := cfg.(radioDataRate := platform.dataRate38400);
    }

    /** `ReadCharUART1`: take the oldest byte off the UART receive queue. */
    method ReadCharUart1() returns (ch: u8)
      requires uartRx != []
      modifies this`uartRx
      ensures ch == old(uartRx)[0] && uartRx == old(uartRx)[1..]
    {
      ch := uartRx[0];
      uartRx := uartRx[1..];
    }

    /** `SendPacketFromUART1Data`: drain at most the trigger level from the
        UART queue into a 63-byte buffer and send it to the destination. */
    method SendPacketFromUart1Data()
      requires |uartRx| < 0x100
      requires FlushLength(|uartRx|, cfg.transmitTriggerLevel) <= MaxPayload
      modifies this`uartRx, this`sent
      ensures var n := FlushLength(|old(uartRx)|, cfg.transmitTriggerLevel);
        && uartRx == old(uartRx)[n..]
        && sent == old(sent) + [Packet(cfg.destinationAddress, cfg.packetType, old(uartRx)[..n])]
    {
      var buff := new u8[MaxPayload];
      var count: u8 := |uartRx|;
      if count > cfg.transmitTriggerLevel {
        count := cfg.transmitTriggerLevel;
      }
      var i := 0;
      while i < count
        invariant i <= count
        invariant buff[..i] == old(uartRx)[..i] && uartRx == old(uartRx)[i..]
        invariant sent == old(sent)
      {
        var ch := ReadCharUart1();
        buff[i] := ch;
        i := i + 1;
      }
      assert buff[..count] == old(uartRx)[..count];
      sent := sent + [Packet(cfg.destinationAddress, cfg.packetType, buff[..count])];
    }

    /** The transmit trigger of one bridge-mode pass (AT state not enabled). */
    method RunTransmitTrigger()
      requires |uartRx| < 0x100
      requires TriggerDecision(|uartRx|, cfg.transmitTriggerLevel, cfg.transmitTriggerTimeout,
                               TxTimer(transmitTriggerTimerActive, transmitTriggerTimer)).flush
               ==> FlushLength(|uartRx|, cfg.transmitTriggerLevel) <= MaxPayload
      modifies this`uartRx, this`sent, this`transmitTriggerTimerActive, this`transmitTriggerTimer
      ensures var o := TriggerDecision(|old(uartRx)|, cfg.transmitTriggerLevel, cfg.transmitTriggerTimeout,
                                       TxTimer(old(transmitTriggerTimerActive), old(transmitTriggerTimer)));
        var n := FlushLength(|old(uartRx)|, cfg.transmitTriggerLevel);
        && TxTimer(transmitTriggerTimerActive, transmitTriggerTimer) == o.timer
        && (o.flush ==> uartRx == old(uartRx)[n..]
                        && sent == old(sent) + [Packet(cfg.destinationAddress, cfg.packetType, old(uartRx)[..n])])
        && (!o.flush ==> uartRx == old(uartRx) && sent == old(sent))
    {
      var byteCount: u8 := |uartRx|;
      if byteCount > cfg.transmitTriggerLevel {
        SendPacketFromUart1Data();
      } else {
        if byteCount > 0 {
          if !transmitTriggerTimerActive {
            transmitTriggerTimerActive := true;
            transmitTriggerTimer := 0;
          }
        }
        if transmitTriggerTimerActive && transmitTriggerTimer > cfg.transmitTriggerTimeout {
          SendPacketFromUart1Data();
          transmitTriggerTimerActive := false;
        }
      }
    }

    /** `OpenRFSendPacket(_receivePacketSenderMAC, _packetType, byteCount, respBuffer)`. */
    method SendReply(byteCount: nat)
      requires Valid() && byteCount <= respBuffer.Length
      modifies this`sent
      ensures sent == old(sent) + [Packet(receivePacketSenderMAC, cfg.packetType, respBuffer[..byteCount])]
    {
      sent := sent + [Packet(receivePacketSenderMAC, cfg.packetType, respBuffer[..byteCount])];
    }

    /** `kReadAnalog`: ACK with the sample, high byte first, when the channel
        byte is above 4 and the request has at least two bytes. */
    method ServeReadAnalog(analogSample: u16)
      requires Valid()
      modifies this`sent, this`adcChannel, respBuffer
      ensures var ch := receivePacketDataBuffer[1];
        var hi := analogSample / 0x100;
        var lo := analogSample % 0x100;
        if ch > 4 && receivePacketCount >= 2 then
          && adcChannel == ch
          && respBuffer[..] == old(respBuffer[..])[0 := Ack][1 := hi][2 := lo]
          && sent == old(sent) + [Packet(receivePacketSenderMAC, cfg.packetType, [Ack, hi, lo])]
        else
          && adcChannel == old(adcChannel)
          && respBuffer[..] == old(respBuffer[..])[0 := Nack]
          && sent == old(sent) + [Packet(receivePacketSenderMAC, cfg.packetType, [Nack])]
    {
      var byteCount := 1;
      respBuffer[0] := Nack;
      if receivePacketDataBuffer[1] > 4 && receivePacketCount >= 2 {
        adcChannel := receivePacketDataBuffer[1];
        respBuffer[0] := Ack;
        respBuffer[1] := analogSample / 0x100;
        respBuffer[2] := analogSample % 0x100;
        byteCount := 3;
        assert respBuffer[..byteCount] == [respBuffer[0], respBuffer[1], respBuffer[2]];
      } else {
        assert respBuffer[..byteCount] == [respBuffer[0]];
      }
      SendReply(byteCount);
    }

    /** `kReadDigital`: ACK with the input pin when the request has at least
        two bytes and names pin 0 .. 4; the second response byte is
        `digitalSample` either way. */
    method ServeReadDigital()
      requires Valid()
      modifies this`sent, this`digitalSample, respBuffer
      ensures var ch := receivePacketDataBuffer[1];
        if receivePacketCount >= 2 && ch < PinCount then
          && digitalSample == (if inputPins[ch] then 1 else 0)
          && respBuffer[..] == old(respBuffer[..])[0 := Ack][1 := digitalSample]
          && sent == old(sent) + [Packet(receivePacketSenderMAC, cfg.packetType, [Ack, digitalSample])]
        else
          && digitalSample == old(digitalSample)
          && respBuffer[..] == old(respBuffer[..])[0 := Nack][1 := digitalSample]
          && sent == old(sent) + [Packet(receivePacketSenderMAC, cfg.packetType, [Nack])]
    {
      var byteCount;
      respBuffer[0] := Ack;
      if receivePacketCount >= 2 {
        byteCount := 2;
        var ch := receivePacketDataBuffer[1];
        if ch < PinCount as int {
          digitalSample := if inputPins[ch] then 1 else 0;
        } else {
          byteCount := 1;
          respBuffer[0] := Nack;
        }
      } else {
        byteCount := 1;
        respBuffer[0] := Nack;
      }
      respBuffer[1] := digitalSample;
      assert respBuffer[..byteCount] == if byteCount == 2 then [respBuffer[0], respBuffer[1]] else [respBuffer[0]];
      SendReply(byteCount);
    }

    /** `kSetDigital`: drive output pin `ch` to `buf[2] > 0` and ACK, when the
        request has at least two bytes and names pin 0 .. 4; the ACK carries
        the `digitalSample` left from earlier passes. */
    method ServeSetDigital()
      requires Valid()
      modifies this`sent, outputPins, respBuffer
      ensures var ch := receivePacketDataBuffer[1];
        if receivePacketCount >= 2 && ch < PinCount then
          && outputPins[..] == old(outputPins[..])[ch := receivePacketDataBuffer[2] > 0]
          && respBuffer[..] == old(respBuffer[..])[0 := Ack][1 := digitalSample]
          && sent == old(sent) + [Packet(receivePacketSenderMAC, cfg.packetType, [Ack, digitalSample])]
        else
          && outputPins[..] == old(outputPins[..])
          && respBuffer[..] == old(respBuffer[..])[0 := Nack][1 := digitalSample]
          && sent == old(sent) + [Packet(receivePacketSenderMAC, cfg.packetType, [Nack])]
    {
      var byteCount;
      respBuffer[0] := Ack;
      if receivePacketCount >= 2 {
        byteCount := 2;
        var ch := receivePacketDataBuffer[1];
        if ch < PinCount as int {
          outputPins[ch] := receivePacketDataBuffer[2] > 0;
        } else {
          byteCount := 1;
          respBuffer[0] := Nack;
        }
      } else {
        byteCount := 1;
        respBuffer[0] := Nack;
      }
      respBuffer[1] := digitalSample;
      assert respBuffer[..byteCount] == if byteCount == 2 then [respBuffer[0], respBuffer[1]] else [respBuffer[0]];
      SendReply(byteCount);
    }

    /** `kSetDigitalTriggerCmd`: store `buf[2]` as the trigger of pin `ch`
        when `ch` is below 5 and the request has at least two bytes; the
        reply is `respBuffer[0]` as left by earlier passes, followed by a
        NACK when the trigger was stored. */
    method ServeSetDigitalTrigger()
      requires Valid()
      modifies this`sent, digitalTriggers, respBuffer
      ensures var ch := receivePacketDataBuffer[1];
        if ch < 5 && receivePacketCount >= 2 then
          && digitalTriggers[..] == old(digitalTriggers[..])[ch := receivePacketDataBuffer[2]]
          && respBuffer[..] == old(respBuffer[..])[1 := Nack]
          && sent == old(sent) + [Packet(receivePacketSenderMAC, cfg.packetType, [old(respBuffer[0]), Nack])]
        else
          && digitalTriggers[..] == old(digitalTriggers[..])
          && respBuffer[..] == old(respBuffer[..])
          && sent == old(sent) + [Packet(receivePacketSenderMAC, cfg.packetType, [old(respBuffer[0])])]
    {
      var byteCount := 1;
      var ch := receivePacketDataBuffer[1];
      if ch < 5 && receivePacketCount >= 2 {
        respBuffer[1] := Nack;
        digitalTriggers[ch] := receivePacketDataBuffer[2];
        byteCount := 2;
      }
      assert respBuffer[..byteCount] == if byteCount == 2 then [respBuffer[0], respBuffer[1]] else [respBuffer[0]];
      SendReply(byteCount);
    }

    /** `kSetAnalogTriggerCmd`: when `ch` is below 6 and the request has at
        least two bytes, write `buf[2]` and `buf[3]` to bytes 1 and 2 of
        `_analogTriggers[ch]`, that is bytes `2ch+1` and `2ch+2` of the
        array, and ACK with the `respBuffer[1]` left by earlier passes. Byte
        `2ch+2` lies in the next trigger, or past the array for channel 5;
        that last write is not modelled. */
    method ServeSetAnalogTrigger()
      requires Valid()
      modifies this`sent, analogTriggers, respBuffer
      ensures var ch := receivePacketDataBuffer[1];
        if ch < 6 && receivePacketCount >= 2 then
          && analogTriggers[..] == (var t := old(analogTriggers[..])[2 * ch + 1 := receivePacketDataBuffer[2]];
                                    if ch < 5 then t[2 * ch + 2 := receivePacketDataBuffer[3]] else t)
          && respBuffer[..] == old(respBuffer[..])[0 := Ack]
          && sent == old(sent) + [Packet(receivePacketSenderMAC, cfg.packetType, [Ack, old(respBuffer[1])])]
        else
          && analogTriggers[..] == old(analogTriggers[..])
          && respBuffer[..] == old(respBuffer[..])[0 := Nack]
          && sent == old(sent) + [Packet(receivePacketSenderMAC, cfg.packetType, [Nack])]
    {
      var byteCount := 1;
      respBuffer[0] := Nack;
      var ch := receivePacketDataBuffer[1];
      if ch < 6 && receivePacketCount >= 2 {
        respBuffer[0] := Ack;
        byteCount := 2;
        analogTriggers[2 * ch + 1] := receivePacketDataBuffer[2];
        if ch < 5 {
          analogTriggers[2 * ch + 2] := receivePacketDataBuffer[3];
        }
      }
      assert respBuffer[..byteCount] == if byteCount == 2 then [respBuffer[0], respBuffer[1]] else [respBuffer[0]];
      SendReply(byteCount);
    }

    /** An unknown opcode: a single NACK. */
    method ServeUnknown()
      requires Valid()
      modifies this`sent, respBuffer
      ensures respBuffer[..] == old(respBuffer[..])[0 := Nack]
      ensures sent == old(sent) + [Packet(receivePacketSenderMAC, cfg.packetType, [Nack])]
    {
      respBuffer[0] := Nack;
      assert respBuffer[..1] == [Nack];
      SendReply(1);
    }

    /** What the I/O-slave branch does with the request in the receive
        buffer: exactly one reply, to the sender with the configured packet
        type, whose payload the opcode and its guards decide, and the pins and
        triggers the request sets. */
    twostate predicate IoServed(analogSample: u16)
      requires Valid()
      reads this, receivePacketDataBuffer, respBuffer, inputPins, outputPins, digitalTriggers, analogTriggers
    {
      var b := receivePacketDataBuffer;
      var op := b[0];
      var ch := b[1];
      var n := receivePacketCount;
      && |sent| == |old(sent)| + 1 && sent[..|old(sent)|] == old(sent)
      && var reply := sent[|old(sent)|];
      && reply.destination == receivePacketSenderMAC && reply.packetType == cfg.packetType
      && (op == ReadAnalog ==>
            reply.payload == if ch > 4 && n >= 2 then [Ack, analogSample / 0x100, analogSample % 0x100] else [Nack])
      && (op == ReadDigital ==>
            reply.payload == if n >= 2 && ch < PinCount then [Ack, if inputPins[ch] then 1 else 0] else [Nack])
      && (op == SetDigital ==>
            reply.payload == if n >= 2 && ch < PinCount then [Ack, old(digitalSample)] else [Nack])
      && (op == SetDigitalTrigger ==>
            reply.payload == if ch < 5 && n >= 2 then [old(respBuffer[0]), Nack] else [old(respBuffer[0])])
      && (op == SetAnalogTrigger ==>
            reply.payload == if ch < 6 && n >= 2 then [Ack, old(respBuffer[1])] else [Nack])
      && (op > SetAnalogTrigger ==> reply.payload == [Nack])
      && outputPins[..] == (if op == SetDigital && n >= 2 && ch < PinCount
                            then old(outputPins[..])[ch := b[2] > 0] else old(outputPins[..]))
      && digitalTriggers[..] == (if op == SetDigitalTrigger && ch < 5 && n >= 2
                                 then old(digitalTriggers[..])[ch := b[2]] else old(digitalTriggers[..]))
      && analogTriggers[..] == (if op == SetAnalogTrigger && ch < 6 && n >= 2
                                then (var t := old(analogTriggers[..])[2 * ch + 1 := b[2]];
                                      if ch < 5 then t[2 * ch + 2 := b[3]] else t)
                                else old(analogTriggers[..]))
      && digitalSample == (if op == ReadDigital && n >= 2 && ch < PinCount
                           then (if inputPins[ch] then 1 else 0) else old(digitalSample))
      && adcChannel == (if op == ReadAnalog && ch > 4 && n >= 2 then ch else old(adcChannel))
      && respBuffer[..] == RespAfterServe(old(respBuffer[..]), op, ch > 4 && n >= 2,
                                          n >= 2 && ch < PinCount, ch < 5 && n >= 2, ch < 6 && n >= 2,
                                          analogSample, digitalSample)
    }

    /** The response buffer after one I/O request with opcode `op`, where the
        flags say whether each opcode's guard held: the first bytes are the
        ones the reply was built from, the rest keep what earlier passes left. */
    static function RespAfterServe(r: seq<u8>, op: u8, analogOk: bool, digitalOk: bool,
                                   digitalTriggerOk: bool, analogTriggerOk: bool,
                                   analogSample: u16, sample: u8): (r': seq<u8>)
      requires |r| >= 3
      ensures |r'| == |r| && r'[3..] == r[3..]
    {
      if op == ReadAnalog then
        (if analogOk then r[0 := Ack][1 := analogSample / 0x100][2 := analogSample % 0x100] else r[0 := Nack])
      else if op == ReadDigital || op == SetDigital then
        r[0 := if digitalOk then Ack else Nack][1 := sample]
      else if op == SetDigitalTrigger then
        (if digitalTriggerOk then r[1 := Nack] else r)
      else
        r[0 := if op == SetAnalogTrigger && analogTriggerOk then Ack else Nack]
    }

    /** The I/O-slave branch for an unconsumed packet: clear the flag and
        answer the request whose opcode is the first payload byte. */
    method ServeIoRequest(analogSample: u16)
      requires Valid()
      modifies this`packetReceived, this`sent, this`digitalSample, this`adcChannel,
               respBuffer, outputPins, digitalTriggers, analogTriggers
      ensures !packetReceived
      ensures IoServed(analogSample)
    {
      packetReceived := false;
      var op := receivePacketDataBuffer[0];
      if op == ReadAnalog {
        ServeReadAnalog(analogSample);
      } else if op == ReadDigital {
        ServeReadDigital();
      } else if op == SetDigital {
        ServeSetDigital();
      } else if op == SetDigitalTrigger {
        ServeSetDigitalTrigger();
      } else if op == SetAnalogTrigger {
        ServeSetAnalogTrigger();
      } else {
        ServeUnknown();
      }
    }

    /** The bridge-mode branch for an unconsumed packet: clear the flag and
        copy the payload to the UART. */
    method ForwardReceivedToUart()
      requires Valid()
      modifies this`packetReceived, this`uartOut
      ensures !packetReceived
      ensures uartOut == old(uartOut) + receivePacketDataBuffer[..receivePacketCount]
    {
      packetReceived := false;
      for i := 0 to receivePacketCount
        invariant !packetReceived
        invariant uartOut == old(uartOut) + receivePacketDataBuffer[..i]
      {
        assert receivePacketDataBuffer[..i + 1] == receivePacketDataBuffer[..i] + [receivePacketDataBuffer[i]];
        WriteCharUart1(receivePacketDataBuffer[i]);
      }
    }

    /** One pass of the main loop after `OpenRFLoop` and `ATProcess`:
        `networkMode` is the level of `pinNetworkMode`, `analogSample` what
        the ADC returns if a read-analog request samples it. */
    method Step(networkMode: bool, analogSample: u16)
      requires Valid()
      requires !networkMode && atState != Enabled ==> |uartRx| < 0x100
      requires !networkMode && atState != Enabled &&
               TriggerDecision(|uartRx|, cfg.transmitTriggerLevel, cfg.transmitTriggerTimeout,
                               TxTimer(transmitTriggerTimerActive, transmitTriggerTimer)).flush
               ==> FlushLength(|uartRx|, cfg.transmitTriggerLevel) <= MaxPayload
      modifies this`packetReceived, this`sent, this`digitalSample, this`adcChannel,
               respBuffer, outputPins, digitalTriggers, analogTriggers,
               this`uartOut, this`uartRx, this`transmitTriggerTimerActive, this`transmitTriggerTimer
      ensures !packetReceived
      ensures networkMode ==>
        && uartRx == old(uartRx) && uartOut == old(uartOut)
        && transmitTriggerTimerActive == old(transmitTriggerTimerActive)
        && transmitTriggerTimer == old(transmitTriggerTimer)
        && (old(packetReceived) ==> IoServed(analogSample))
        && (!old(packetReceived) ==> sent == old(sent) && outputPins[..] == old(outputPins[..])
                                     && digitalTriggers[..] == old(digitalTriggers[..])
                                     && analogTriggers[..] == old(analogTriggers[..]))
      ensures !networkMode || !old(packetReceived) ==>
        && digitalSample == old(digitalSample) && adcChannel == old(adcChannel)
        && respBuffer[..] == old(respBuffer[..])
      ensures !networkMode ==>
        && uartOut == old(uartOut) + (if old(packetReceived) then receivePacketDataBuffer[..receivePacketCount] else [])
        && outputPins[..] == old(outputPins[..])
        && digitalTriggers[..] == old(digitalTriggers[..])
        && analogTriggers[..] == old(analogTriggers[..])
      ensures !networkMode && atState != Enabled ==>
        var o := TriggerDecision(|old(uartRx)|, cfg.transmitTriggerLevel, cfg.transmitTriggerTimeout,
                                 TxTimer(old(transmitTriggerTimerActive), old(transmitTriggerTimer)));
        var n := if o.flush then FlushLength(|old(uartRx)|, cfg.transmitTriggerLevel) else 0;
        && TxTimer(transmitTriggerTimerActive, transmitTriggerTimer) == o.timer
        && uartRx == old(uartRx)[n..]
        && sent == old(sent) + if o.flush then [Packet(cfg.destinationAddress, cfg.packetType, old(uartRx)[..n])] else []
      ensures !networkMode && atState == Enabled ==>
        && uartRx == old(uartRx) && sent == old(sent)
        && transmitTriggerTimerActive == old(transmitTriggerTimerActive)
        && transmitTriggerTimer == old(transmitTriggerTimer)
    {
      if networkMode {
        if packetReceived {
          ServeIoRequest(analogSample);
        }
      } else {
        if packetReceived {
          ForwardReceivedToUart();
        }
        if atState != Enabled {
          RunTransmitTrigger();
        }
      }
    }

    /** `NotifyMacPacketReceived`: the MAC layer hands over a packet; it
        takes the single receive slot whether or not the previous one was
        consumed. */
    method NotifyMacPacketReceived(packetType: u8, sourceMacAddress: Word, length: u8, sdu: seq<u8>)
      requires Valid() && length as int <= MaxPayload && length as int <= |sdu|
      modifies receivePacketDataBuffer, this`receivePacketSenderMAC, this`receivePacketCount,
               this`receivePacketType, this`packetReceived
      ensures Valid()
      ensures receivePacketDataBuffer[..] == Deliver(old(receivePacketDataBuffer[..]), length, sdu)
      ensures receivePacketSenderMAC == sourceMacAddress && receivePacketCount == length
      ensures receivePacketType == packetType && packetReceived
    {
      for i := 0 to length
        invariant forall k :: 0 <= k < i ==> receivePacketDataBuffer[k] == sdu[k]
        invariant forall k :: i <= k < MaxPayload ==> receivePacketDataBuffer[k] == old(receivePacketDataBuffer[k])
      {
        receivePacketDataBuffer[i] := sdu[i];
      }
      assert receivePacketDataBuffer[..] == Deliver(old(receivePacketDataBuffer[..]), length, sdu);
      receivePacketSenderMAC := sourceMacAddress;
      receivePacketCount := length;
      receivePacketType := packetType;
      packetReceived := true;
    }

    /** `NotifyMac1MilliSecond`: both 16-bit counters advance and wrap; the
        trigger timer advances as `Tick` says, active or not. */
    method NotifyMac1MilliSecond()
      modifies this`transmitTimer, this`transmitTriggerTimer
      ensures transmitTimer == if old(transmitTimer) == 0xFFFF then 0 else old(transmitTimer) + 1
      ensures TxTimer(transmitTriggerTimerActive, transmitTriggerTimer) ==
              Tick(TxTimer(transmitTriggerTimerActive, old(transmitTriggerTimer)))
    {
      transmitTimer := (transmitTimer + 1) % U16Modulus;
      transmitTriggerTimer := (transmitTriggerTimer + 1) % U16Modulus;
    }
  }

}
