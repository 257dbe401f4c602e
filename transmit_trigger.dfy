/** The transmit-trigger policy of the transparent-UART (bridge) mode: the
    bytes waiting in the UART receive queue are sent as one radio packet once
    more than the trigger level are buffered, or once the trigger timer,
    started by the first waiting byte, has run past the trigger timeout. */
module TransmitTrigger {
  import opened Bytes

  /** The size of the local packet buffer of `SendPacketFromUART1Data`. */
  const MaxPayload: nat := 63

  /** `_transmitTriggerTimerActive` and `_transmitTriggerTimer`. */
  datatype TxTimer = TxTimer(active: bool, elapsed: u16)

  /** One pass of the trigger code: whether it flushes, and the timer after. */
  datatype TriggerOutcome = TriggerOutcome(flush: bool, timer: TxTimer)

  /** The number of bytes one flush takes from the queue. */
  function FlushLength(buffered: nat, level: u8): (n: nat)
    ensures n <= buffered && n <= level
    ensures n == buffered || n == level
  {
    Min(buffered, level)
  }

  /** The trigger code of one main-loop pass, with `buffered` bytes waiting. */
  function TriggerDecision(buffered: nat, level: u8, timeout: u16, timer: TxTimer): TriggerOutcome
  {
    if buffered > level then TriggerOutcome(true, timer)
    else
      var t := if buffered > 0 && !timer.active then TxTimer(true, 0) else timer;
      if t.active && t.elapsed > timeout then TriggerOutcome(true, t.(active := false))
      else TriggerOutcome(false, t)
  }

  /** `NotifyMac1MilliSecond`: the 16-bit counter advances whether or not the
      timer is active, wrapping at 2^16. */
  function Tick(timer: TxTimer): (r: TxTimer)
    ensures r.active == timer.active
    ensures r.elapsed == if timer.elapsed == 0xFFFF then 0 else timer.elapsed + 1
  {
    timer.(elapsed := (timer.elapsed + 1) % U16Modulus)
  }

  /** A pass flushes exactly when more than the level is buffered or the
      timer was already running and past the timeout: a timer started in
      this pass never fires in it. */
  lemma FlushIff(buffered: nat, level: u8, timeout: u16, timer: TxTimer)
    ensures TriggerDecision(buffered, level, timeout, timer).flush <==>
            buffered > level || (timer.active && timer.elapsed > timeout)
  {
  }

  /** The level flush leaves the timer flag and counter as they were. */
  lemma LevelFlushKeepsTimer(buffered: nat, level: u8, timeout: u16, timer: TxTimer)
    requires buffered > level
    ensures TriggerDecision(buffered, level, timeout, timer) == TriggerOutcome(true, timer)
    ensures FlushLength(buffered, level) == level
  {
  }

  /** With waiting bytes, at most the level, and no timer running, the timer
      starts at 0 and nothing is sent. */
  lemma FirstByteStartsTimer(buffered: nat, level: u8, timeout: u16, timer: TxTimer)
    requires 0 < buffered <= level && !timer.active
    ensures TriggerDecision(buffered, level, timeout, timer) == TriggerOutcome(false, TxTimer(true, 0))
  {
  }

  /** A flush at or below the level is a timeout flush: it stops the timer. */
  lemma TimeoutFlushStopsTimer(buffered: nat, level: u8, timeout: u16, timer: TxTimer)
    requires buffered <= level
    ensures var o := TriggerDecision(buffered, level, timeout, timer);
      o.flush ==> !o.timer.active && timer.active && timer.elapsed > timeout
  {
  }

  /** When the timer is running past the timeout but the queue has been
      emptied, the pass still flushes: a packet with no payload is sent. */
  lemma EmptyPacketQuirk(level: u8, timeout: u16, timer: TxTimer)
    requires timer.active && timer.elapsed > timeout
    ensures TriggerDecision(0, level, timeout, timer).flush
    ensures FlushLength(0, level) == 0
  {
  }

  /** A timeout of 0xFFFF never fires: the 16-bit counter cannot exceed it. */
  lemma MaxTimeoutNeverFires(buffered: nat, level: u8, timer: TxTimer)
    ensures TriggerDecision(buffered, level, 0xFFFF, timer).flush <==> buffered > level
  {
  }

  /** Bridge mode over time: the UART receive queue, the timer, and the
      payloads sent so far. */
  datatype Bridging = Bridging(rx: seq<u8>, timer: TxTimer, sent: seq<seq<u8>>)

  /** One main-loop pass with no new input, followed by one millisecond tick. */
  function Iterate(b: Bridging, level: u8, timeout: u16): Bridging
  {
    var o := TriggerDecision(|b.rx|, level, timeout, b.timer);
    var n := if o.flush then FlushLength(|b.rx|, level) else 0;
    Bridging(b.rx[n..], Tick(o.timer), if o.flush then b.sent + [b.rx[..n]] else b.sent)
  }

  /** `k` passes, each followed by a tick. */
  function Run(b: Bridging, level: u8, timeout: u16, k: nat): Bridging
  {
    if k == 0 then b else Iterate(Run(b, level, timeout, k - 1), level, timeout)
  }

  /** More than the level buffered: one pass sends the first `level` bytes
      and keeps the rest, in order. */
  lemma LevelFlushDrains(b: Bridging, level: u8, timeout: u16)
    requires |b.rx| > level
    ensures var r := Iterate(b, level, timeout);
      r.sent == b.sent + [b.rx[..level]] && r.rx == b.rx[level..] && r.timer == Tick(b.timer)
  {
  }

  /** Four bytes of trigger level and ten bytes waiting: four are sent and
      six stay queued. */
  lemma LevelFlushExample(rx: seq<u8>, timer: TxTimer)
    requires |rx| == 10
    ensures var r := Iterate(Bridging(rx, timer, []), 4, 200);
      r.sent == [rx[..4]] && |r.rx| == 6
  {
    LevelFlushDrains(Bridging(rx, timer, []), 4, 200);
  }

  /** A short message waits: from an idle timer, with no more input, the
      first `timeout + 1` passes send nothing and count the timer up. */
  lemma {:induction false} TimeoutWaits(rx: seq<u8>, level: u8, timeout: u16, k: nat)
    requires 0 < |rx| <= level && timeout < 0xFFFF
    requires 1 <= k <= timeout + 1
    ensures Run(Bridging(rx, TxTimer(false, 0), []), level, timeout, k) == Bridging(rx, TxTimer(true, k), [])
  {
    if k > 1 {
      TimeoutWaits(rx, level, timeout, k - 1);
    }
  }

  /** ... and pass `timeout + 2` sends it whole, as one packet, and stops
      the timer. */
  lemma TimeoutFlushesShortMessage(rx: seq<u8>, level: u8, timeout: u16)
    requires 0 < |rx| <= level && timeout < 0xFFFF
    ensures var r := Run(Bridging(rx, TxTimer(false, 0), []), level, timeout, timeout + 2);
      r.sent == [rx] && r.rx == [] && !r.timer.active
  {
    TimeoutWaits(rx, level, timeout, timeout + 1);
    assert rx[..|rx|] == rx;
  }
}
