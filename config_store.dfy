/** The persistent configuration block: the byte layout written by the
    "WS" (write settings) command and read back by `LoadPresets`. The two are
    not symmetric, and the lemmas here state what a save followed by a load
    actually restores. */
module ConfigStore {
  import opened Bytes
  import opened DeviceConfig

  /** Persistent storage: the offsets written since the last erase. */
  type Flash = map<int, u8>

  /** The marker that says the block holds saved settings (the value "WS"
      writes; `LoadPresets` compares it with `INITIALIZEDVALUE`). */
  const InitializedValue: u8 := 0x55
  const SentinelOffset: int := 254

  /** `ReadPersistentValue(k)`: an offset not written since the erase reads
      as the platform's erased byte. */
  function ReadPersistent(p: Flash, plat: Platform, k: int): u8
  {
    if k in p then p[k] else plat.erasedByte
  }

  /** The byte of `bs` that lands at offset `k` when `bs` is written at `offset`. */
  function ByteAt(bs: seq<u8>, offset: int, k: int): u8
    requires offset <= k < offset + |bs|
  {
    bs[k - offset]
  }

  /** `WritePersistentValue(offset, bs, |bs|)`. */
  function WriteBytes(p: Flash, offset: int, bs: seq<u8>): Flash
  {
    p + map k | offset <= k < offset + |bs| :: ByteAt(bs, offset, k)
  }

  /** The layout of the block "WS" saves, offset by offset: the network id,
      destination and key in memory order (least significant byte first),
      `_operatingMode`, the UART baud rate, the trigger level, the first
      (low) byte of the trigger timeout, and the sentinel. */
  function SavedByte(c: Config, baud: u8, k: int): u8
    requires 0 <= k < 28 || k == SentinelOffset
  {
    if k < 4 then c.networkId[k]
    else if k < 8 then c.destinationAddress[k - 4]
    else if k < 24 then c.encryptionKey[k - 8]
    else if k == 24 then c.operatingMode
    else if k == 25 then baud
    else if k == 26 then c.transmitTriggerLevel
    else if k == 27 then c.transmitTriggerTimeout % 0x100
    else InitializedValue
  }

  /** The storage contents right after "WS": only the saved offsets hold data. */
  function SaveImage(c: Config, baud: u8): Flash
  {
    map k | 0 <= k <= SentinelOffset && (k < 28 || k == SentinelOffset) :: SavedByte(c, baud, k)
  }

  /** Writing `bs` at `offset`: the offsets it covers now hold its bytes,
      every other offset is as before. */
  lemma WriteBytesAt(p: Flash, offset: int, bs: seq<u8>, k: int)
    ensures k in WriteBytes(p, offset, bs) <==> k in p || offset <= k < offset + |bs|
    ensures offset <= k < offset + |bs| ==> WriteBytes(p, offset, bs)[k] == bs[k - offset]
    ensures !(offset <= k < offset + |bs|) && k in p ==> WriteBytes(p, offset, bs)[k] == p[k]
  {
  }

  /** The block as far as offset `n`: what "WS" has written once its writes
      below `n` are done. */
  function SavedPrefix(c: Config, baud: u8, n: int): Flash
    requires n <= 28
  {
    map k | 0 <= k < n :: SavedByte(c, baud, k)
  }

  /** Each write of "WS" extends the written prefix by its bytes, provided
      they are the layout's bytes at those offsets. */
  lemma WriteExtendsPrefix(c: Config, baud: u8, lo: nat, bs: seq<u8>)
    requires lo + |bs| <= 28
    requires forall i :: 0 <= i < |bs| ==> bs[i] == SavedByte(c, baud, lo + i)
    ensures WriteBytes(SavedPrefix(c, baud, lo), lo, bs) == SavedPrefix(c, baud, lo + |bs|)
  {
    var p := WriteBytes(SavedPrefix(c, baud, lo), lo, bs);
    var q := SavedPrefix(c, baud, lo + |bs|);
    forall k
      ensures k in p <==> k in q
      ensures k in q ==> p[k] == q[k]
    {
      WriteBytesAt(SavedPrefix(c, baud, lo), lo, bs, k);
    }
    assert p == q;
  }

  /** Writing the sentinel after offsets 0 .. 27 completes the block. */
  lemma SentinelCompletesImage(c: Config, baud: u8)
    ensures WriteBytes(SavedPrefix(c, baud, 28), SentinelOffset, [InitializedValue]) == SaveImage(c, baud)
  {
    var p := WriteBytes(SavedPrefix(c, baud, 28), SentinelOffset, [InitializedValue]);
    var img := SaveImage(c, baud);
    forall k
      ensures k in p <==> k in img
      ensures k in img ==> p[k] == img[k]
    {
      WriteBytesAt(SavedPrefix(c, baud, 28), SentinelOffset, [InitializedValue], k);
    }
    assert p == img;
  }

  /** What `LoadPresets` leaves in the globals it sets. */
  datatype Loaded = Loaded(cfg: Config, uartBaud: u8)

  /** The bytes at offsets lo .. lo+n-1. */
  function Stored(p: Flash, plat: Platform, lo: int, n: nat): (r: seq<u8>)
    ensures |r| == n
    ensures forall i :: 0 <= i < n ==> r[i] == ReadPersistent(p, plat, lo + i)
    decreases n
  {
    if n == 0 then [] else [ReadPersistent(p, plat, lo)] + Stored(p, plat, lo + 1, n - 1)
  }

  /** Bytes assigned highest index first from offsets lo, lo+1, ...: they
      are the stored bytes in reverse. */
  lemma ReversedStored(p: Flash, plat: Platform, lo: int, w: seq<u8>)
    requires forall i :: 0 <= i < |w| ==> w[i] == ReadPersistent(p, plat, lo + |w| - 1 - i)
    ensures w == Reverse(Stored(p, plat, lo, |w|))
  {
    var r := Reverse(Stored(p, plat, lo, |w|));
    forall i | 0 <= i < |w|
      ensures r[i] == w[i]
    {
      ReverseAt(Stored(p, plat, lo, |w|), i);
    }
  }

  /** The factory defaults of the else-branch of `LoadPresets`, applied to
      the current globals (the fields it does not set keep their value). */
  function Defaults(c: Config, plat: Platform): Config
  {
    c.(macAddress := LeBytes(0x11223344),
       networkId := LeBytes(0x11332244),
       destinationAddress := LeBytes(0x44332211),
       encryptionKey := LeBytes(0x11223344) + LeBytes(0x1A1B1C1D) + LeBytes(0x1E1F1A1B) + LeBytes(0x1C1D1E1F),
       quiet := 0,
       transmitTriggerLevel := 4,
       transmitTriggerTimeout := 200,
       packetType := plat.multicastPacketType,
       radioDataRate := plat.dataRate38400)
  }

  /** `LoadPresets`: with the sentinel present, offset 0 goes to the top byte
      `U8[3]` of the network id (likewise for the destination and, over
      sixteen bytes, the key), offset 24 to `_quiet`, offset 25 to the UART
      baud rate, 26 and 27 to the trigger level and timeout, 28 .. 31 to the
      ack retries, ack timeout (high byte first) and hop table. */
  function LoadImage(p: Flash, plat: Platform, c: Config, baud: u8): Loaded
  {
    if ReadPersistent(p, plat, SentinelOffset) == InitializedValue then
      Loaded(
        c.(networkId := Reverse(Stored(p, plat, 0, 4)),
           destinationAddress := Reverse(Stored(p, plat, 4, 4)),
           encryptionKey := Reverse(Stored(p, plat, 8, 16)),
           quiet := ReadPersistent(p, plat, 24),
           transmitTriggerLevel := ReadPersistent(p, plat, 26),
           transmitTriggerTimeout := ReadPersistent(p, plat, 27),
           ackRetries := ReadPersistent(p, plat, 28),
           ackTimeout := ReadPersistent(p, plat, 29) * 0x100 + ReadPersistent(p, plat, 30),
           hopTable := ReadPersistent(p, plat, 31)),
        ReadPersistent(p, plat, 25))
    else
      Loaded(Defaults(c, plat), baud)
  }

  /** Reading the saved image: a saved offset holds its layout byte, every
      other offset reads as erased. */
  lemma ReadSaved(c: Config, baud: u8, plat: Platform, k: int)
    ensures ReadPersistent(SaveImage(c, baud), plat, k) ==
            if 0 <= k < 28 || k == SentinelOffset then SavedByte(c, baud, k) else plat.erasedByte
  {
  }

  /** The bytes saved from offset `lo` on, read back in offset order. */
  lemma StoredOfSave(c: Config, baud: u8, plat: Platform, lo: nat, n: nat, w: seq<u8>)
    requires lo + n <= 24 && |w| == n
    requires forall i :: 0 <= i < n ==> SavedByte(c, baud, lo + i) == w[i]
    ensures Stored(SaveImage(c, baud), plat, lo, n) == w
  {
    var r := Stored(SaveImage(c, baud), plat, lo, n);
    forall i | 0 <= i < n
      ensures r[i] == w[i]
    {
      ReadSaved(c, baud, plat, lo + i);
    }
  }

  /** The network id comes back byte-reversed. */
  lemma NetworkIdAfterSaveLoad(c: Config, baud: u8, plat: Platform, c0: Config, baud0: u8)
    ensures LoadImage(SaveImage(c, baud), plat, c0, baud0).cfg.networkId == Reverse(c.networkId)
  {
    ReadSaved(c, baud, plat, SentinelOffset);
    StoredOfSave(c, baud, plat, 0, 4, c.networkId);
  }

  /** The load of storage whose bytes are known: the general step behind
      `SaveThenLoad`, stated for any storage contents. */
  lemma LoadOfKnownBytes(p: Flash, plat: Platform, c0: Config, baud0: u8, c: Config, baud: u8)
    requires ReadPersistent(p, plat, SentinelOffset) == InitializedValue
    requires Stored(p, plat, 0, 4) == c.networkId
    requires Stored(p, plat, 4, 4) == c.destinationAddress
    requires Stored(p, plat, 8, 16) == c.encryptionKey
    requires ReadPersistent(p, plat, 24) == c.operatingMode
    requires ReadPersistent(p, plat, 25) == baud
    requires ReadPersistent(p, plat, 26) == c.transmitTriggerLevel
    requires ReadPersistent(p, plat, 27) == c.transmitTriggerTimeout % 0x100
    requires forall k :: 28 <= k < 32 ==> ReadPersistent(p, plat, k) == plat.erasedByte
    ensures var e := plat.erasedByte;
      LoadImage(p, plat, c0, baud0) ==
      Loaded(c0.(networkId := Reverse(c.networkId),
                 destinationAddress := Reverse(c.destinationAddress),
                 encryptionKey := Reverse(c.encryptionKey),
                 quiet := c.operatingMode,
                 transmitTriggerLevel := c.transmitTriggerLevel,
                 transmitTriggerTimeout := c.transmitTriggerTimeout % 0x100,
                 ackRetries := e,
                 ackTimeout := e * 0x100 + e,
                 hopTable := e),
             baud)
  {
    assert ReadPersistent(p, plat, 28) == plat.erasedByte;
    assert ReadPersistent(p, plat, 29) == plat.erasedByte;
    assert ReadPersistent(p, plat, 30) == plat.erasedByte;
    assert ReadPersistent(p, plat, 31) == plat.erasedByte;
  }

  /** What a save followed by a load restores. The trigger level and the UART
      baud rate come back exactly; the network id, destination and key come
      back byte-reversed; `_quiet` receives the saved `_operatingMode`; only
      the low byte of the timeout survives; the ack retries, ack timeout and
      hop table, never written, read as erased bytes. */
  lemma SaveThenLoad(c: Config, baud: u8, plat: Platform, c0: Config, baud0: u8)
    ensures var e := plat.erasedByte;
      LoadImage(SaveImage(c, baud), plat, c0, baud0) ==
      Loaded(c0.(networkId := Reverse(c.networkId),
                 destinationAddress := Reverse(c.destinationAddress),
                 encryptionKey := Reverse(c.encryptionKey),
                 quiet := c.operatingMode,
                 transmitTriggerLevel := c.transmitTriggerLevel,
                 transmitTriggerTimeout := c.transmitTriggerTimeout % 0x100,
                 ackRetries := e,
                 ackTimeout := e * 0x100 + e,
                 hopTable := e),
             baud)
  {
    ReadSaved(c, baud, plat, SentinelOffset);
    StoredOfSave(c, baud, plat, 0, 4, c.networkId);
    StoredOfSave(c, baud, plat, 4, 4, c.destinationAddress);
    StoredOfSave(c, baud, plat, 8, 16, c.encryptionKey);
    ReadSaved(c, baud, plat, 24);
    ReadSaved(c, baud, plat, 25);
    ReadSaved(c, baud, plat, 26);
    ReadSaved(c, baud, plat, 27);
    forall k | 28 <= k < 32
      ensures ReadPersistent(SaveImage(c, baud), plat, k) == plat.erasedByte
    {
      ReadSaved(c, baud, plat, k);
    }
    LoadOfKnownBytes(SaveImage(c, baud), plat, c0, baud0, c, baud);
  }

  /** The trigger timeout survives a save and load exactly when it is below 256. */
  lemma TimeoutSurvivesIffBelow256(c: Config, baud: u8, plat: Platform)
    ensures LoadImage(SaveImage(c, baud), plat, c, baud).cfg.transmitTriggerTimeout == c.transmitTriggerTimeout
            <==> c.transmitTriggerTimeout < 256
  {
    TimeoutAfterSaveLoad(c, baud, plat);
    LowByteKeeps(c.transmitTriggerTimeout);
  }

  lemma LowByteKeeps(t: nat)
    ensures t % 0x100 == t <==> t < 0x100
  {
  }

  /** Only the low byte of the trigger timeout is saved and loaded. */
  lemma TimeoutAfterSaveLoad(c: Config, baud: u8, plat: Platform)
    ensures LoadImage(SaveImage(c, baud), plat, c, baud).cfg.transmitTriggerTimeout
            == c.transmitTriggerTimeout % 0x100
  {
    ReadSaved(c, baud, plat, SentinelOffset);
    ReadSaved(c, baud, plat, 27);
  }

  /** A saved network id comes back unchanged exactly when its bytes read the
      same in both orders. */
  lemma NetworkIdSurvivesIffPalindrome(c: Config, baud: u8, plat: Platform)
    ensures LoadImage(SaveImage(c, baud), plat, c, baud).cfg.networkId == c.networkId
            <==> c.networkId == Reverse(c.networkId)
  {
    SaveThenLoad(c, baud, plat, c, baud);
  }

  /** The bytes of the word 0x11332244 in the opposite order make 0x44223311. */
  lemma ReverseFactoryNetworkId(w: Word)
    requires U32Of(w) == 0x11332244
    ensures U32Of(Reverse(w)) == 0x44223311
  {
    U32OfThenLeBytes(w);
    assert w == [0x44, 0x22, 0x33, 0x11];
    ReverseAt(w, 0);
    ReverseAt(w, 1);
    ReverseAt(w, 2);
    ReverseAt(w, 3);
    assert Reverse(w) == [0x11, 0x33, 0x22, 0x44];
  }

  /** The factory network id 0x11332244, saved and loaded, reads 0x44223311. */
  lemma SaveLoadSwapsNetworkId(c: Config, baud: u8, plat: Platform)
    requires U32Of(c.networkId) == 0x11332244
    ensures U32Of(LoadImage(SaveImage(c, baud), plat, c, baud).cfg.networkId) == 0x44223311
  {
    NetworkIdAfterSaveLoad(c, baud, plat, c, baud);
    ReverseFactoryNetworkId(c.networkId);
  }

  /** A second save and load undoes the byte reversal of the first: the
      network id, destination and key are back as they were. */
  lemma SaveLoadTwiceRestoresAddresses(c: Config, baud: u8, plat: Platform)
    ensures var l1 := LoadImage(SaveImage(c, baud), plat, c, baud);
      var l2 := LoadImage(SaveImage(l1.cfg, l1.uartBaud), plat, l1.cfg, l1.uartBaud);
      && l2.cfg.networkId == c.networkId
      && l2.cfg.destinationAddress == c.destinationAddress
      && l2.cfg.encryptionKey == c.encryptionKey
  {
    var l1 := LoadImage(SaveImage(c, baud), plat, c, baud);
    SaveThenLoad(c, baud, plat, c, baud);
    SaveThenLoad(l1.cfg, l1.uartBaud, plat, l1.cfg, l1.uartBaud);
    ReverseInvolution(c.networkId);
    ReverseInvolution(c.destinationAddress);
    ReverseInvolution(c.encryptionKey);
  }

  /** Without the sentinel, loading sets the factory defaults and leaves the
      UART baud rate and every other global as they were. */
  lemma LoadWithoutSentinel(p: Flash, plat: Platform, c: Config, baud: u8)
    requires ReadPersistent(p, plat, SentinelOffset) != InitializedValue
    ensures var r := LoadImage(p, plat, c, baud);
      && U32Of(r.cfg.macAddress) == 0x11223344
      && U32Of(r.cfg.networkId) == 0x11332244
      && U32Of(r.cfg.destinationAddress) == 0x44332211
      && U32Of(KeyWord(r.cfg.encryptionKey, 0)) == 0x11223344
      && U32Of(KeyWord(r.cfg.encryptionKey, 1)) == 0x1A1B1C1D
      && U32Of(KeyWord(r.cfg.encryptionKey, 2)) == 0x1E1F1A1B
      && U32Of(KeyWord(r.cfg.encryptionKey, 3)) == 0x1C1D1E1F
      && r.cfg.quiet == 0 && r.cfg.transmitTriggerLevel == 4 && r.cfg.transmitTriggerTimeout == 200
      && r.cfg.packetType == plat.multicastPacketType && r.cfg.radioDataRate == plat.dataRate38400
      && r.cfg.operatingMode == c.operatingMode && r.cfg.transmitPower == c.transmitPower
      && r.cfg.uartBaudRate == c.uartBaudRate && r.cfg.ackRetries == c.ackRetries
      && r.cfg.ackTimeout == c.ackTimeout && r.cfg.hopTable == c.hopTable
      && r.uartBaud == baud
  {
    assert LoadImage(p, plat, c, baud) == Loaded(Defaults(c, plat), baud);
    LeBytesThenU32Of(0x11223344);
    LeBytesThenU32Of(0x11332244);
    LeBytesThenU32Of(0x44332211);
    DefaultKeyWords(c, plat);
  }

  /** The four words of the factory key. */
  lemma DefaultKeyWords(c: Config, plat: Platform)
    ensures var k := Defaults(c, plat).encryptionKey;
      && U32Of(KeyWord(k, 0)) == 0x11223344
      && U32Of(KeyWord(k, 1)) == 0x1A1B1C1D
      && U32Of(KeyWord(k, 2)) == 0x1E1F1A1B
      && U32Of(KeyWord(k, 3)) == 0x1C1D1E1F
  {
    WordsOfKey(LeBytes(0x11223344), LeBytes(0x1A1B1C1D), LeBytes(0x1E1F1A1B), LeBytes(0x1C1D1E1F));
    LeBytesThenU32Of(0x11223344);
    LeBytesThenU32Of(0x1A1B1C1D);
    LeBytesThenU32Of(0x1E1F1A1B);
    LeBytesThenU32Of(0x1C1D1E1F);
  }

  /** Storage that was just erased holds no sentinel (when an erased byte is
      not the marker), so loading from it always yields the defaults: the
      situation `main` creates by erasing before `LoadPresets`. */
  lemma LoadAfterEraseGivesDefaults(plat: Platform, c: Config, baud: u8)
    requires plat.erasedByte != InitializedValue
    ensures LoadImage(map[], plat, c, baud) == Loaded(Defaults(c, plat), baud)
  {
  }
}
