/**
 * The per-tick output rules that both engine adapters apply after a
 * successful read: rumble decay scaled by the transport, the rumble bytes
 * sent to the motors, the player-LED rule, the trigger-effect type switch,
 * the mic-LED rule and the fixed trigger-effect parameters.
 */
module AdapterPolicy {
  import opened Ds5w
  import Wrappers

  // ---------------------------------------------------------------------
  // Rumble
  // ---------------------------------------------------------------------

  /** The Bluetooth multiplier: 10 over Bluetooth, 1 over USB. */
  function BtMul(conn: DeviceConnection): (m: int)
    ensures m == 10 || m == 1
    ensures m == 10 <==> conn == Bt
  {
    if conn == Bt then 10 else 1
  }

  /** The per-tick decrement of the left (hard) motor's counter, `0x200 / btMul`. */
  function LeftRumbleStep(btMul: int): nat
    requires btMul > 0
  {
    0x200 / btMul
  }

  /** The per-tick decrement of the right (soft) motor's counter, `0x100 / btMul`. */
  function RightRumbleStep(btMul: int): nat
    requires btMul > 0
  {
    0x100 / btMul
  }

  /** Over USB the counters drop by 512 and 256 per tick, over Bluetooth by 51 and 25. */
  lemma RumbleSteps()
    ensures LeftRumbleStep(BtMul(Usb)) == 0x200 && RightRumbleStep(BtMul(Usb)) == 0x100
    ensures LeftRumbleStep(BtMul(Bt)) == 51 && RightRumbleStep(BtMul(Bt)) == 25
  {
  }

  /**
   * `max(counter - step, 0)` stored back into the `uint16_t` counter: the
   * counter loses `step`, or all it has if that is less.
   */
  function Decay(counter: u16, step: nat): (r: u16)
    ensures counter - r == if step < counter then step else counter
  {
    if counter - step > 0 then counter - step else 0
  }

  /** `k` successive ticks of decay. */
  function DecayTicks(counter: u16, step: nat, k: nat): u16 {
    if k == 0 then counter else Decay(DecayTicks(counter, step, k - 1), step)
  }

  /** After `k` ticks the counter has lost `k` steps, saturating at 0. */
  lemma {:induction false} DecayTicksClosedForm(counter: u16, step: nat, k: nat)
    ensures DecayTicks(counter, step, k) == if counter - k * step > 0 then counter - k * step else 0
  {
    if k > 0 {
      DecayTicksClosedForm(counter, step, k - 1);
      assert counter - k * step == counter - (k - 1) * step - step;
    }
  }

  /** With a nonzero step the counter reaches 0 after at most `counter` ticks and stays there. */
  lemma DecayReachesZero(counter: u16, step: nat, k: nat)
    requires step > 0 && k >= counter
    ensures DecayTicks(counter, step, k) == 0
  {
    DecayTicksClosedForm(counter, step, k);
    assert k * step >= k;
  }

  /**
   * `(counter & 0xFF00) >> 8`: the counter's high byte, the value sent to the
   * motor. For a 16-bit counter this is its quotient by 0x100.
   */
  function HighByte(counter: u16): (b: u8)
    ensures b * 0x100 <= counter < b * 0x100 + 0x100
  {
    counter / 0x100
  }

  /** A larger counter never has a smaller high byte. */
  lemma HighByteMonotone(c1: u16, c2: u16)
    requires c1 <= c2
    ensures HighByte(c1) <= HighByte(c2)
  {
  }

  /** The byte sent to a motor never increases under decay. */
  lemma RumbleByteNonIncreasing(counter: u16, step: nat)
    ensures HighByte(Decay(counter, step)) <= HighByte(counter)
  {
    HighByteMonotone(Decay(counter, step), counter);
  }

  // ---------------------------------------------------------------------
  // Player LEDs
  // ---------------------------------------------------------------------

  /**
   * While the right motor's byte is nonzero the middle player LED is lit,
   * fading in at high brightness; otherwise the bitmask is cleared and the fade
   * flag and brightness are left as they were.
   */
  function PlayerLedsAfter(leds: PlayerLeds, rightRumble: u8): (r: PlayerLeds)
    ensures r.bitmask != 0 <==> rightRumble != 0
    ensures r.bitmask & 0xE0 == 0
    ensures rightRumble != 0 ==> r.playerLedFade && r.brightness == High && r.bitmask == OSTATE_PLAYER_LED_MIDDLE
    ensures rightRumble == 0 ==> r.playerLedFade == leds.playerLedFade && r.brightness == leds.brightness
  {
    if rightRumble != 0 then
      leds.(playerLedFade := true, bitmask := OSTATE_PLAYER_LED_MIDDLE, brightness := High)
    else
      leds.(bitmask := 0)
  }

  // ---------------------------------------------------------------------
  // Trigger-effect type switch
  // ---------------------------------------------------------------------

  /** Trigger fully pressed (0xFF) selects continuous resistance, fully released (0x00) none. */
  function TriggerTypeAfter(prev: TriggerEffectType, reading: u8): (r: TriggerEffectType)
    ensures r == prev || r == ContinuousResitance || r == NoResitance
    ensures r == ContinuousResitance <==> reading == 0xFF || (prev == ContinuousResitance && reading != 0x00)
    ensures r == NoResitance <==> reading == 0x00 || (prev == NoResitance && reading != 0xFF)
  {
    if reading == 0xFF then ContinuousResitance
    else if reading == 0x00 then NoResitance
    else prev
  }

  /** The type after a sequence of readings, one per tick. */
  function TriggerTypeRun(t: TriggerEffectType, readings: seq<u8>): TriggerEffectType {
    if readings == [] then t
    else TriggerTypeAfter(TriggerTypeRun(t, readings[..|readings| - 1]), readings[|readings| - 1])
  }

  /** The last reading that was at an end of the trigger's travel, if any. */
  function LastExtreme(readings: seq<u8>): (r: Wrappers.Option<u8>)
    ensures r.Some? ==> r.value in readings && (r.value == 0x00 || r.value == 0xFF)
  {
    if readings == [] then Wrappers.None
    else
      var last := readings[|readings| - 1];
      if last == 0x00 || last == 0xFF then Wrappers.Some(last)
      else LastExtreme(readings[..|readings| - 1])
  }

  /**
   * Hysteresis: after any readings the type is decided by the last reading at
   * an end of travel (0xFF continuous, 0x00 none), or is the initial type if
   * there was none.
   */
  lemma {:induction false} TriggerTypeFollowsLastExtreme(t: TriggerEffectType, readings: seq<u8>)
    ensures TriggerTypeRun(t, readings) ==
      match LastExtreme(readings)
      case None => t
      case Some(b) => if b == 0xFF then ContinuousResitance else NoResitance
  {
    if readings != [] {
      TriggerTypeFollowsLastExtreme(t, readings[..|readings| - 1]);
    }
  }

  // ---------------------------------------------------------------------
  // Mic LED
  // ---------------------------------------------------------------------

  /** The mic button lights the mic LED and wins; otherwise the PS button turns it off. */
  function MicLedAfter(prev: MicLed, buttonsB: bv8): (r: MicLed)
    ensures r == prev || r == On || r == Off
    ensures r == On <==>
      buttonsB & ISTATE_BTN_B_MIC_BUTTON != 0 ||
      (prev == On && buttonsB & ISTATE_BTN_B_PLAYSTATION_LOGO == 0)
    ensures r == Off <==>
      buttonsB & ISTATE_BTN_B_MIC_BUTTON == 0 &&
      (buttonsB & ISTATE_BTN_B_PLAYSTATION_LOGO != 0 || prev == Off)
  {
    if buttonsB & ISTATE_BTN_B_MIC_BUTTON != 0 then On
    else if buttonsB & ISTATE_BTN_B_PLAYSTATION_LOGO != 0 then Off
    else prev
  }

  /** The adapters never start the mic LED pulsing. */
  lemma MicLedNeverStartsPulse(prev: MicLed, buttonsB: bv8)
    requires prev != Pulse
    ensures MicLedAfter(prev, buttonsB) != Pulse
  {
  }

  // ---------------------------------------------------------------------
  // Trigger-effect parameters
  // ---------------------------------------------------------------------

  /**
   * The left effect as the adapters write it: the tag `t`, then
   * `Section.startPosition = 0x00` and `Section.endPosition = 0x60`. The
   * padding bytes keep whatever they held.
   */
  function LeftEffectAfter(e: TriggerEffect, t: TriggerEffectType): (r: TriggerEffect)
    ensures r.effectType == t
    ensures Get(r, SectionStartPosition) == 0x00 && Get(r, SectionEndPosition) == 0x60
    ensures r.params[2..] == e.params[2..]
  {
    Set(Set(e.(effectType := t), SectionStartPosition, 0x00), SectionEndPosition, 0x60)
  }

  /**
   * The right effect as the adapters write it: the tag `t`, then
   * `Continuous.force = 0xFF` and `Continuous.startPosition = 0x00`.
   */
  function RightEffectAfter(e: TriggerEffect, t: TriggerEffectType): (r: TriggerEffect)
    ensures r.effectType == t
    ensures Get(r, ContinuousStartPosition) == 0x00 && Get(r, ContinuousForce) == 0xFF
    ensures r.params[2..] == e.params[2..]
  {
    Set(Set(e.(effectType := t), ContinuousForce, 0xFF), ContinuousStartPosition, 0x00)
  }

  /**
   * Bytes 2..5 of both trigger effects are 0. `ZeroMemory` establishes this
   * and the adapters only ever write bytes 0 and 1.
   */
  predicate PadsClear(o: OutputState) {
    o.leftTriggerEffect.params[2..] == ZeroBlock[2..] && o.rightTriggerEffect.params[2..] == ZeroBlock[2..]
  }

  /**
   * Over a block whose padding bytes are 0, the effects as the adapters
   * write them are exactly [0x00, 0x60, 0, 0, 0, 0] on the left and
   * [0x00, 0xFF, 0, 0, 0, 0] on the right, under the given tag.
   */
  lemma EffectsOverClearPads(e: TriggerEffect, t: TriggerEffectType)
    requires e.params[2..] == ZeroBlock[2..]
    ensures LeftEffectAfter(e, t) == TriggerEffect(t, [0x00, 0x60, 0, 0, 0, 0])
    ensures RightEffectAfter(e, t) == TriggerEffect(t, [0x00, 0xFF, 0, 0, 0, 0])
  {
    var l, r := LeftEffectAfter(e, t).params, RightEffectAfter(e, t).params;
    assert l == l[..2] + l[2..];
    assert r == r[..2] + r[2..];
  }

  /**
   * Read through the union, the left effect is a Section from 0x00 to 0x60
   * (which respects end >= start) and, tagged as continuous, a continuous
   * resistance from 0x00 with force 0x60, since `Continuous.force` aliases
   * `Section.endPosition`.
   */
  lemma LeftEffectAsRead(e: TriggerEffect)
    ensures Active(LeftEffectAfter(e, SectionResitance)) == SectionParams(0x00, 0x60)
    ensures SectionOrdered(LeftEffectAfter(e, SectionResitance))
    ensures Active(LeftEffectAfter(e, ContinuousResitance)) == ContinuousParams(0x00, 0x60)
    ensures Active(LeftEffectAfter(e, NoResitance)) == NoResistanceParams
  {
  }

  /** Read through the union, the right effect is a continuous resistance from 0x00 at full force, or none. */
  lemma RightEffectAsRead(e: TriggerEffect)
    ensures Active(RightEffectAfter(e, ContinuousResitance)) == ContinuousParams(0x00, 0xFF)
    ensures Active(RightEffectAfter(e, NoResitance)) == NoResistanceParams
  {
  }
}
