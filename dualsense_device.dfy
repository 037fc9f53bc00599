/**
 * `FWinDualSenseDevice`, the engine input device: once per engine tick it
 * reads the controller, steps one state machine per registered button,
 * dispatches press/repeat/release events, and computes and writes the output
 * state (rumble, player LEDs, mic LED, adaptive triggers). When the read
 * fails it enumerates, re-initialises and reconnects instead.
 */
module DualSenseDevice {
  import opened Ds5w
  import opened DualSenseStruct
  import opened AdapterPolicy
  import Wrappers

  // ---------------------------------------------------------------------
  // Buttons
  // ---------------------------------------------------------------------

  /** `EDualSenseButtonType`. */
  datatype ButtonType =
    | Triangle | Cross | Square | Circle
    | DpadUp | DpadDown | DpadLeft | DpadRight
    | BumperLeft | BumperRight
    | TriggerLeft | TriggerRight
    | LeftStickPush | RightStickPush
    | Select | Menu | PlaystationLogo | Touchpad | Mic
    | MaxCount

  /** The three button bytes of `DS5InputState`. */
  datatype InputByte = ButtonsAndDpadByte | ButtonsAByte | ButtonsBByte

  /** A nonzero test of one mask on one input byte. */
  datatype BitTest = BitTest(byteOf: InputByte, mask: bv8)

  /** The value of one button byte. */
  function ByteOf(s: InputState, b: InputByte): bv8 {
    match b
    case ButtonsAndDpadByte => s.buttonsAndDpad
    case ButtonsAByte => s.buttonsA
    case ButtonsBByte => s.buttonsB
  }

  /** `x & m != 0`: some bit of mask `m` is set in `x`. */
  predicate BitSet(x: bv8, m: bv8) {
    x & m != 0
  }

  /** The pressed flag a bit test reads. */
  function Reading(s: InputState, test: BitTest): bool {
    BitSet(ByteOf(s, test.byteOf), test.mask)
  }

  /** `s` with button byte `b` replaced by `v`; the other two keep their values. */
  function WithByte(s: InputState, b: InputByte, v: bv8): (r: InputState)
    ensures ByteOf(r, b) == v
    ensures b != ButtonsAndDpadByte ==> r.buttonsAndDpad == s.buttonsAndDpad
    ensures b != ButtonsAByte ==> r.buttonsA == s.buttonsA
    ensures b != ButtonsBByte ==> r.buttonsB == s.buttonsB
  {
    match b
    case ButtonsAndDpadByte => s.(buttonsAndDpad := v)
    case ButtonsAByte => s.(buttonsA := v)
    case ButtonsBByte => s.(buttonsB := v)
  }

  /** Writing one button byte keeps each of the others. */
  lemma OtherByteKept(s: InputState, b: InputByte, v: bv8, c: InputByte)
    requires c != b
    ensures ByteOf(WithByte(s, b, v), c) == ByteOf(s, c)
  {
  }

  /** `s` with the bit that `test` reads flipped. */
  function Toggle(s: InputState, test: BitTest): InputState {
    WithByte(s, test.byteOf, ByteOf(s, test.byteOf) ^ test.mask)
  }

  /**
   * The bit test `UpdateButtons` applies to a button of each type. MAX_COUNT
   * has none: such a button is not updated.
   */
  function Probe(t: ButtonType): (r: Wrappers.Option<BitTest>)
    ensures r.None? <==> t == MaxCount
    ensures r.Some? ==> SingleBit(r.value.mask)
  {
    match t
    case Triangle => Wrappers.Some(BitTest(ButtonsAndDpadByte, ISTATE_BTX_TRIANGLE))
    case Cross => Wrappers.Some(BitTest(ButtonsAndDpadByte, ISTATE_BTX_CROSS))
    case Square => Wrappers.Some(BitTest(ButtonsAndDpadByte, ISTATE_BTX_SQUARE))
    case Circle => Wrappers.Some(BitTest(ButtonsAndDpadByte, ISTATE_BTX_CIRCLE))
    case DpadUp => Wrappers.Some(BitTest(ButtonsAndDpadByte, ISTATE_DPAD_UP))
    case DpadDown => Wrappers.Some(BitTest(ButtonsAndDpadByte, ISTATE_DPAD_DOWN))
    case DpadLeft => Wrappers.Some(BitTest(ButtonsAndDpadByte, ISTATE_DPAD_LEFT))
    case DpadRight => Wrappers.Some(BitTest(ButtonsAndDpadByte, ISTATE_DPAD_RIGHT))
    case BumperLeft => Wrappers.Some(BitTest(ButtonsAByte, ISTATE_BTN_A_LEFT_BUMPER))
    case BumperRight => Wrappers.Some(BitTest(ButtonsAByte, ISTATE_BTN_A_RIGHT_BUMPER))
    case TriggerLeft => Wrappers.Some(BitTest(ButtonsAByte, ISTATE_BTN_A_LEFT_TRIGGER))
    case TriggerRight => Wrappers.Some(BitTest(ButtonsAByte, ISTATE_BTN_A_RIGHT_TRIGGER))
    case LeftStickPush => Wrappers.Some(BitTest(ButtonsAByte, ISTATE_BTN_A_LEFT_STICK))
    case RightStickPush => Wrappers.Some(BitTest(ButtonsAByte, ISTATE_BTN_A_RIGHT_STICK))
    case Select => Wrappers.Some(BitTest(ButtonsAByte, ISTATE_BTN_A_SELECT))
    case Menu => Wrappers.Some(BitTest(ButtonsAByte, ISTATE_BTN_A_MENU))
    case PlaystationLogo => Wrappers.Some(BitTest(ButtonsBByte, ISTATE_BTN_B_PLAYSTATION_LOGO))
    case Touchpad => Wrappers.Some(BitTest(ButtonsBByte, ISTATE_BTN_B_PAD_BUTTON))
    case Mic => Wrappers.Some(BitTest(ButtonsBByte, ISTATE_BTN_B_MIC_BUTTON))
    case MaxCount => Wrappers.None
  }

  /** Two bit tests share no bit: they read different bytes, or disjoint masks. */
  predicate Disjoint(a: BitTest, b: BitTest) {
    a.byteOf != b.byteOf || a.mask & b.mask == 0
  }

  /** No two button types share a bit. */
  lemma ProbesDisjoint(t: ButtonType, u: ButtonType)
    requires t != u && t != MaxCount && u != MaxCount
    ensures Disjoint(Probe(t).value, Probe(u).value)
  {
  }

  /**
   * No crosstalk: flipping the bit of any other button type (registered or
   * not, so the touchpad and mic bits too) leaves a button's reading alone,
   * and flipping its own bit flips its reading.
   */
  lemma ReadingIsOwnBit(s: InputState, t: ButtonType, u: ButtonType)
    requires t != MaxCount && u != MaxCount
    ensures t != u ==> Reading(Toggle(s, Probe(u).value), Probe(t).value) == Reading(s, Probe(t).value)
    ensures Reading(Toggle(s, Probe(t).value), Probe(t).value) == !Reading(s, Probe(t).value)
  {
    var a, b := Probe(t).value, Probe(u).value;
    ToggleOwnBit(s, a);
    if t != u {
      ProbesDisjoint(t, u);
      ToggleOtherBit(s, a, b);
    }
  }

  /** Flipping the bit a single-bit test reads flips the reading. */
  lemma ToggleOwnBit(s: InputState, a: BitTest)
    requires SingleBit(a.mask)
    ensures Reading(Toggle(s, a), a) == !Reading(s, a)
  {
    FlipOwnBit(ByteOf(s, a.byteOf), a.mask);
  }

  /** Flipping a bit another test reads, in another byte or under a disjoint mask, leaves the reading alone. */
  lemma ToggleOtherBit(s: InputState, a: BitTest, b: BitTest)
    requires Disjoint(a, b)
    ensures Reading(Toggle(s, b), a) == Reading(s, a)
  {
    if a.byteOf == b.byteOf {
      ToggleSameByte(s, a, b);
    } else {
      ToggleOtherByte(s, a, b);
    }
  }

  /** Flipping a bit in another byte leaves a test's reading alone. */
  lemma ToggleOtherByte(s: InputState, a: BitTest, b: BitTest)
    requires a.byteOf != b.byteOf
    ensures Reading(Toggle(s, b), a) == Reading(s, a)
  {
    OtherByteKept(s, b.byteOf, ByteOf(s, b.byteOf) ^ b.mask, a.byteOf);
  }

  /** Within one byte, flipping bits outside a test's mask leaves its reading alone. */
  lemma ToggleSameByte(s: InputState, a: BitTest, b: BitTest)
    requires a.byteOf == b.byteOf && a.mask & b.mask == 0
    ensures Reading(Toggle(s, b), a) == Reading(s, a)
  {
    FlipOtherBit(ByteOf(s, a.byteOf), a.mask, b.mask);
  }

  /** Flipping a single bit flips its nonzero test. */
  lemma FlipOwnBit(x: bv8, m: bv8)
    requires SingleBit(m)
    ensures BitSet(x ^ m, m) == !BitSet(x, m)
  {
  }

  /** Flipping bits outside a mask leaves the masked bits alone. */
  lemma FlipOtherBit(x: bv8, m: bv8, other: bv8)
    requires m & other == 0
    ensures BitSet(x ^ other, m) == BitSet(x, m)
  {
  }

  /** The state a button of type `t` moves to on input `s`. */
  function StepButton(st: ButtonState, s: InputState, t: ButtonType): ButtonState {
    match Probe(t)
    case None => st
    case Some(test) => Next(st, Reading(s, test))
  }

  /** The pressed flag of a button of type `t` after input `s`. */
  function PressedAfter(pressed: bool, s: InputState, t: ButtonType): bool {
    match Probe(t)
    case None => pressed
    case Some(test) => Reading(s, test)
  }

  /**
   * A button whose pressed flag says whether its state is held keeps that
   * agreement through a step, whether or not its type is probed.
   */
  lemma PressedTracksState(st: ButtonState, pressed: bool, s: InputState, t: ButtonType)
    requires pressed == IsHeld(st)
    ensures PressedAfter(pressed, s, t) == IsHeld(StepButton(st, s, t))
  {
  }

  /** The states of the registered buttons after input `s`, one step each. */
  function StepStates(states: seq<ButtonState>, s: InputState): (r: seq<ButtonState>)
    requires |states| == |Registrations|
    ensures |r| == |states|
  {
    seq(|states|, i requires 0 <= i < |states| => StepButton(states[i], s, Registrations[i].0))
  }

  /**
   * The buttons the constructor adds to `Buttons`, in insertion order: the
   * type and the engine key it reports under.
   */
  const Registrations: seq<(ButtonType, GamepadKey)> := [
    (Triangle, FaceButtonTop), (Cross, FaceButtonBottom), (Square, FaceButtonLeft), (Circle, FaceButtonRight),
    (DpadUp, DPadUp), (DpadDown, DPadDown), (DpadLeft, DPadLeft), (DpadRight, DPadRight),
    (BumperLeft, LeftShoulder), (BumperRight, RightShoulder),
    (TriggerLeft, LeftTriggerThreshold), (TriggerRight, RightTriggerThreshold),
    (LeftStickPush, LeftThumb), (RightStickPush, RightThumb),
    (Select, SpecialLeft), (Menu, SpecialRight), (PlaystationLogo, PS4Special)]

  /**
   * Seventeen buttons, each type and each key once; the touchpad, the mic
   * and MAX_COUNT are not registered, so they are never updated and never
   * dispatch.
   */
  lemma RegistrationsShape()
    ensures |Registrations| == 17
    ensures forall i, j :: 0 <= i < j < |Registrations| ==>
      Registrations[i].0 != Registrations[j].0 && Registrations[i].1 != Registrations[j].1
    ensures forall i :: 0 <= i < |Registrations| ==>
      Registrations[i].0 !in {Touchpad, Mic, MaxCount} && Registrations[i].1 != NoKey
  {
  }

  // ---------------------------------------------------------------------
  // Events
  // ---------------------------------------------------------------------

  /** A call on the engine's message handler. */
  datatype ButtonEvent =
    | ButtonPressed(key: GamepadKey, controllerId: int, isRepeat: bool)
    | ButtonReleased(key: GamepadKey, controllerId: int, isRepeat: bool)

  /** The event a button in state `st` dispatches, if any, always for controller 0. */
  function EventOf(key: GamepadKey, st: ButtonState): (r: Wrappers.Option<ButtonEvent>)
    ensures r.None? <==> st == None
    ensures r.Some? ==> r.value.key == key && r.value.controllerId == 0
    ensures r.Some? ==> (r.value.ButtonPressed? <==> IsHeld(st))
    ensures r.Some? ==> (r.value.isRepeat <==> st == Repeat)
  {
    match st
    case Press => Wrappers.Some(ButtonPressed(key, 0, false))
    case Repeat => Wrappers.Some(ButtonPressed(key, 0, true))
    case Release => Wrappers.Some(ButtonReleased(key, 0, false))
    case None => Wrappers.None
  }

  /**
   * What a button reports on a tick, in terms of its reading and whether it
   * was held on the tick before: pressed (not a repeat) on the rising edge,
   * pressed as a repeat while held, released on the falling edge, nothing
   * while idle.
   */
  lemma EventOnTick(key: GamepadKey, st: ButtonState, pressed: bool)
    ensures EventOf(key, Next(st, pressed)) ==
      if pressed then Wrappers.Some(ButtonPressed(key, 0, IsHeld(st)))
      else if IsHeld(st) then Wrappers.Some(ButtonReleased(key, 0, false))
      else Wrappers.None
  {
  }

  /** The events of one pass over the buttons, in map order. */
  function Dispatch(regs: seq<(ButtonType, GamepadKey)>, states: seq<ButtonState>): seq<ButtonEvent>
    requires |regs| == |states|
  {
    if regs == [] then []
    else
      var n := |regs| - 1;
      var before := Dispatch(regs[..n], states[..n]);
      match EventOf(regs[n].1, states[n])
      case None => before
      case Some(e) => before + [e]
  }

  /**
   * A pass dispatches no more events than there are buttons, every event is
   * for controller 0, and every event's key is a registered key.
   */
  lemma {:induction false} DispatchedEvents(regs: seq<(ButtonType, GamepadKey)>, states: seq<ButtonState>)
    requires |regs| == |states|
    ensures |Dispatch(regs, states)| <= |regs|
    ensures forall e :: e in Dispatch(regs, states) ==>
      e.controllerId == 0 && exists i :: 0 <= i < |regs| && regs[i].1 == e.key
  {
    if regs != [] {
      var n := |regs| - 1;
      DispatchedEvents(regs[..n], states[..n]);
      forall e | e in Dispatch(regs[..n], states[..n])
        ensures exists i :: 0 <= i < |regs| && regs[i].1 == e.key
      {
        var i :| 0 <= i < n && regs[..n][i].1 == e.key;
        assert regs[i].1 == e.key;
      }
    }
  }

  /** The keys the events `es` are for. */
  function EventKeys(es: seq<ButtonEvent>): set<GamepadKey> {
    set e | e in es :: e.key
  }

  /** Over buttons with distinct keys, a pass dispatches at most one event per key. */
  lemma {:induction false} DispatchOncePerKey(regs: seq<(ButtonType, GamepadKey)>, states: seq<ButtonState>)
    requires |regs| == |states|
    requires forall j, k :: 0 <= j < k < |regs| ==> regs[j].1 != regs[k].1
    ensures forall j, k :: 0 <= j < k < |Dispatch(regs, states)| ==>
      Dispatch(regs, states)[j].key != Dispatch(regs, states)[k].key
  {
    if regs != [] {
      var n := |regs| - 1;
      var pr, ps := regs[..n], states[..n];
      DispatchOncePerKey(pr, ps);
      DispatchedEvents(pr, ps);
      var before := Dispatch(pr, ps);
      match EventOf(regs[n].1, states[n]) {
        case None =>
        case Some(ev) =>
          var d := before + [ev];
          forall j, k | 0 <= j < k < |d|
            ensures d[j].key != d[k].key
          {
            if k == n {
              assert before[j] in before;
              var i :| 0 <= i < n && pr[i].1 == before[j].key;
            }
          }
      }
    }
  }

  /**
   * Over buttons with distinct keys, a button's key is among the keys of a
   * pass's events exactly when the button is not in NONE.
   */
  lemma {:induction false} DispatchReportsActive(regs: seq<(ButtonType, GamepadKey)>, states: seq<ButtonState>)
    requires |regs| == |states|
    requires forall j, k :: 0 <= j < k < |regs| ==> regs[j].1 != regs[k].1
    ensures forall i :: 0 <= i < |regs| ==> (states[i] != None <==> regs[i].1 in EventKeys(Dispatch(regs, states)))
  {
    if regs != [] {
      var n := |regs| - 1;
      var pr, ps := regs[..n], states[..n];
      DispatchReportsActive(pr, ps);
      DispatchedEvents(pr, ps);
      var before := Dispatch(pr, ps);
      forall e | e in before
        ensures e.key != regs[n].1
      {
        var i :| 0 <= i < n && pr[i].1 == e.key;
      }
      assert regs[n].1 !in EventKeys(before);
      var added: set<GamepadKey> := if states[n] == None then {} else {regs[n].1};
      assert EventKeys(Dispatch(regs, states)) == EventKeys(before) + added;
      forall i | 0 <= i < n
        ensures states[i] != None <==> regs[i].1 in EventKeys(before)
      {
        assert pr[i] == regs[i] && ps[i] == states[i];
      }
    }
  }

  /** A button in NONE dispatches nothing, so a pass over idle buttons is silent. */
  lemma {:induction false} IdleButtonsSilent(regs: seq<(ButtonType, GamepadKey)>, states: seq<ButtonState>)
    requires |regs| == |states|
    requires forall i :: 0 <= i < |states| ==> states[i] == None
    ensures Dispatch(regs, states) == []
  {
    if regs != [] {
      IdleButtonsSilent(regs[..|regs| - 1], states[..|states| - 1]);
    }
  }

  // ---------------------------------------------------------------------
  // Outputs
  // ---------------------------------------------------------------------

  /** The fields `UpdateOutputs` reads and writes. */
  datatype OutputRegs = OutputRegs(
    out: OutputState,
    leftType: TriggerEffectType,
    rightType: TriggerEffectType,
    leftRumble: u16,
    rightRumble: u16,
    btMul: int,
    intensitySpent: bool)

  /**
   * One `UpdateOutputs` on connection `conn` with input `input`: decay the
   * counters, send their high bytes, re-arm if the intensity is spent, then
   * the player-LED, trigger-type and mic-LED rules and the trigger effects.
   * Its full meaning, field by field, is `OutputStepByField`.
   */
  function OutputStep(r: OutputRegs, conn: DeviceConnection, input: InputState): (r': OutputRegs)
    ensures r'.btMul == BtMul(conn) && !r'.intensitySpent
    ensures r'.out.leftRumble <= HighByte(r.leftRumble) && r'.out.rightRumble <= HighByte(r.rightRumble)
    ensures r'.out.playerLeds.bitmask != 0 <==> r'.out.rightRumble != 0
    ensures PadsClear(r.out) ==> PadsClear(r'.out)
  {
    var mul := BtMul(conn);
    var left := Decay(r.leftRumble, LeftRumbleStep(mul));
    var right := Decay(r.rightRumble, RightRumbleStep(mul));
    RumbleByteNonIncreasing(r.leftRumble, LeftRumbleStep(mul));
    RumbleByteNonIncreasing(r.rightRumble, RightRumbleStep(mul));
    var leftType := TriggerTypeAfter(r.leftType, input.leftTrigger);
    var rightType := TriggerTypeAfter(r.rightType, input.rightTrigger);
    var out := r.out.(
      leftRumble := HighByte(left),
      rightRumble := HighByte(right),
      playerLeds := PlayerLedsAfter(r.out.playerLeds, HighByte(right)),
      microphoneLed := MicLedAfter(r.out.microphoneLed, input.buttonsB),
      leftTriggerEffect := LeftEffectAfter(r.out.leftTriggerEffect, leftType),
      rightTriggerEffect := RightEffectAfter(r.out.rightTriggerEffect, rightType));
    if r.intensitySpent then OutputRegs(out, leftType, rightType, 0xFF00, 0xFF00, mul, false)
    else OutputRegs(out, leftType, rightType, left, right, mul, false)
  }

  /**
   * `OutputStep` field by field: any registers that agree with each rule are
   * the step's result.
   */
  lemma OutputStepByField(r: OutputRegs, conn: DeviceConnection, input: InputState, r': OutputRegs)
    requires r'.btMul == BtMul(conn) && !r'.intensitySpent
    requires r'.out.leftRumble == HighByte(Decay(r.leftRumble, LeftRumbleStep(BtMul(conn))))
    requires r'.out.rightRumble == HighByte(Decay(r.rightRumble, RightRumbleStep(BtMul(conn))))
    requires r'.leftRumble == if r.intensitySpent then 0xFF00 else Decay(r.leftRumble, LeftRumbleStep(BtMul(conn)))
    requires r'.rightRumble == if r.intensitySpent then 0xFF00 else Decay(r.rightRumble, RightRumbleStep(BtMul(conn)))
    requires r'.out.playerLeds == PlayerLedsAfter(r.out.playerLeds, r'.out.rightRumble)
    requires r'.leftType == TriggerTypeAfter(r.leftType, input.leftTrigger)
    requires r'.rightType == TriggerTypeAfter(r.rightType, input.rightTrigger)
    requires r'.out.microphoneLed == MicLedAfter(r.out.microphoneLed, input.buttonsB)
    requires r'.out.leftTriggerEffect == LeftEffectAfter(r.out.leftTriggerEffect, r'.leftType)
    requires r'.out.rightTriggerEffect == RightEffectAfter(r.out.rightTriggerEffect, r'.rightType)
    requires r'.out.disableLeds == r.out.disableLeds && r'.out.lightbar == r.out.lightbar
    ensures r' == OutputStep(r, conn, input)
  {
  }

  /**
   * With the padding bytes clear, the trigger effects handed to the library
   * are exactly: left, the current left type over bytes [0x00, 0x60, 0, 0, 0, 0];
   * right, the current right type over bytes [0x00, 0xFF, 0, 0, 0, 0].
   */
  lemma TriggerEffectsWritten(r: OutputRegs, conn: DeviceConnection, input: InputState)
    requires PadsClear(r.out)
    ensures var r' := OutputStep(r, conn, input);
      r'.out.leftTriggerEffect == TriggerEffect(r'.leftType, [0x00, 0x60, 0, 0, 0, 0]) &&
      r'.out.rightTriggerEffect == TriggerEffect(r'.rightType, [0x00, 0xFF, 0, 0, 0, 0])
  {
    EffectsOverClearPads(r.out.leftTriggerEffect, TriggerTypeAfter(r.leftType, input.leftTrigger));
    EffectsOverClearPads(r.out.rightTriggerEffect, TriggerTypeAfter(r.rightType, input.rightTrigger));
  }

  /** `UpdateOutputs` over a sequence of inputs, one per tick, on a fixed connection. */
  function OutputRun(r: OutputRegs, conn: DeviceConnection, inputs: seq<InputState>): OutputRegs {
    if inputs == [] then r
    else OutputStep(OutputRun(r, conn, inputs[..|inputs| - 1]), conn, inputs[|inputs| - 1])
  }

  /** The left trigger readings of a sequence of inputs. */
  function LeftReadings(inputs: seq<InputState>): (rs: seq<u8>)
    ensures |rs| == |inputs| && forall i :: 0 <= i < |inputs| ==> rs[i] == inputs[i].leftTrigger
  {
    seq(|inputs|, i requires 0 <= i < |inputs| => inputs[i].leftTrigger)
  }

  /** The right trigger readings of a sequence of inputs. */
  function RightReadings(inputs: seq<InputState>): (rs: seq<u8>)
    ensures |rs| == |inputs| && forall i :: 0 <= i < |inputs| ==> rs[i] == inputs[i].rightTrigger
  {
    seq(|inputs|, i requires 0 <= i < |inputs| => inputs[i].rightTrigger)
  }

  /**
   * Each trigger's effect type follows the hysteresis on its own readings
   * only: the left type is the fold over the left trigger's readings, the
   * right type over the right trigger's.
   */
  lemma {:induction false} TriggerTypesIndependent(r: OutputRegs, conn: DeviceConnection, inputs: seq<InputState>)
    ensures OutputRun(r, conn, inputs).leftType == TriggerTypeRun(r.leftType, LeftReadings(inputs))
    ensures OutputRun(r, conn, inputs).rightType == TriggerTypeRun(r.rightType, RightReadings(inputs))
  {
    if inputs != [] {
      var n := |inputs| - 1;
      TriggerTypesIndependent(r, conn, inputs[..n]);
      assert LeftReadings(inputs)[..n] == LeftReadings(inputs[..n]);
      assert RightReadings(inputs)[..n] == RightReadings(inputs[..n]);
    }
  }

  /**
   * The rumble is inert: the counters start at 0 and nothing but the
   * (never taken) re-arm branch raises them, so from the initial registers
   * every tick sends 0 to both motors and clears the player LEDs.
   */
  lemma {:induction false} RumbleInert(r: OutputRegs, conn: DeviceConnection, inputs: seq<InputState>)
    requires r.leftRumble == 0 && r.rightRumble == 0 && !r.intensitySpent
    ensures var r' := OutputRun(r, conn, inputs);
      r'.leftRumble == 0 && r'.rightRumble == 0 && !r'.intensitySpent
    ensures inputs != [] ==> var r' := OutputRun(r, conn, inputs);
      r'.out.leftRumble == 0 && r'.out.rightRumble == 0 && r'.out.playerLeds.bitmask == 0
  {
    if inputs != [] {
      RumbleInert(r, conn, inputs[..|inputs| - 1]);
    }
  }

  /** Once the intensity is spent, the next tick re-arms both counters to 0xFF00. */
  lemma SpentIntensityRearms(r: OutputRegs, conn: DeviceConnection, input: InputState)
    requires r.intensitySpent
    ensures OutputStep(r, conn, input).leftRumble == 0xFF00 && OutputStep(r, conn, input).rightRumble == 0xFF00
    ensures OutputStep(r, conn, input).out.leftRumble <= HighByte(r.leftRumble)
  {
  }

  // ---------------------------------------------------------------------
  // The device
  // ---------------------------------------------------------------------

  /**
   * `bs` holds one distinct, idle button object per registration so far,
   * under the registration's key.
   */
  ghost predicate RegisteredPrefix(bs: seq<ButtonData>)
    reads bs
  {
    |bs| <= |Registrations|
    && (forall i, j :: 0 <= i < j < |bs| ==> bs[i] != bs[j])
    && forall i :: 0 <= i < |bs| ==>
      bs[i].key == Registrations[i].1 && bs[i].buttonState == None && !bs[i].isPressed
  }

  /** `Buttons.Add(t, FDualSenseButtonData(key))`: a new idle button under `key` joins the map. */
  method AddButton(bs: seq<ButtonData>, t: ButtonType, key: GamepadKey) returns (r: seq<ButtonData>)
    requires RegisteredPrefix(bs) && |bs| < |Registrations| && Registrations[|bs|] == (t, key)
    ensures RegisteredPrefix(r) && |r| == |bs| + 1 && r[..|bs|] == bs && fresh(r[|bs|])
  {
    var b := new ButtonData.WithKey(key);
    r := bs + [b];
  }

  /** The states of buttons `bs`, in order. */
  ghost function StatesOf(bs: seq<ButtonData>): (r: seq<ButtonState>)
    reads bs
    ensures |r| == |bs| && forall i :: 0 <= i < |bs| ==> r[i] == bs[i].buttonState
  {
    seq(|bs|, i reads bs requires 0 <= i < |bs| => bs[i].buttonState)
  }

  /**
   * The loop of `UpdateButtons` over distinct buttons `bs` registered as
   * `regs`: each button in turn steps on its reading of `s` and dispatches
   * the event of its new state.
   */
  method StepButtons(bs: seq<ButtonData>, regs: seq<(ButtonType, GamepadKey)>, s: InputState)
    returns (events: seq<ButtonEvent>)
    requires |bs| == |regs|
    requires forall j, k :: 0 <= j < k < |bs| ==> bs[j] != bs[k]
    requires forall j :: 0 <= j < |bs| ==> bs[j].key == regs[j].1
    modifies bs
    ensures forall j :: 0 <= j < |bs| ==>
      bs[j].key == regs[j].1 &&
      bs[j].buttonState == StepButton(old(bs[j].buttonState), s, regs[j].0) &&
      bs[j].isPressed == PressedAfter(old(bs[j].isPressed), s, regs[j].0)
    ensures events == Dispatch(regs, StatesOf(bs))
  {
    events := [];
    ghost var after: seq<ButtonState> := [];
    var i := 0;
    while i < |bs|
      invariant 0 <= i <= |bs| && |after| == i
      invariant forall j :: 0 <= j < |bs| ==> bs[j].key == regs[j].1
      invariant forall j :: 0 <= j < i ==>
        bs[j].buttonState == StepButton(old(bs[j].buttonState), s, regs[j].0) &&
        bs[j].isPressed == PressedAfter(old(bs[j].isPressed), s, regs[j].0) &&
        after[j] == bs[j].buttonState
      invariant forall j :: i <= j < |bs| ==>
        bs[j].buttonState == old(bs[j].buttonState) && bs[j].isPressed == old(bs[j].isPressed)
      invariant events == Dispatch(regs[..i], after)
    {
      var b := bs[i];
      var e := UpdateButton(b, regs[i].0, s);
      if e.Some? {
        events := events + [e.value];
      }
      assert regs[..i + 1][..i] == regs[..i];
      assert (after + [b.buttonState])[..i] == after;
      after := after + [b.buttonState];
      i := i + 1;
    }
    assert regs[..i] == regs;
    assert after == StatesOf(bs);
  }

  /**
   * One pass of the `UpdateButtons` loop: a button of type `t` reads its bit
   * of `s` and steps, then yields the event of its new state.
   */
  method UpdateButton(b: ButtonData, t: ButtonType, s: InputState) returns (e: Wrappers.Option<ButtonEvent>)
    modifies b`buttonState, b`isPressed
    ensures b.buttonState == StepButton(old(b.buttonState), s, t)
    ensures b.isPressed == PressedAfter(old(b.isPressed), s, t)
    ensures e == EventOf(b.key, b.buttonState)
  {
    match Probe(t) {
      case Some(test) => b.UpdateButtonState(Reading(s, test));
      case None =>
    }
    e := EventOf(b.key, b.buttonState);
  }

  /** `FWinDualSenseDevice`. */
  class Device {
    /** The values of `Buttons`, in map order; `Registrations[i]` gives their types and keys. */
    const buttons: seq<ButtonData>
    var controllersCount: u32
    var controller: DeviceContext
    var inState: InputState
    var outState: OutputState
    var leftTriggerEffectType: TriggerEffectType
    var rightTriggerEffectType: TriggerEffectType
    /** Stands for `Intensity_LED <= 0.0f`. */
    var intensitySpent: bool
    var leftRumble: u16
    var rightRumble: u16
    var btMul: int

    /**
     * One distinct button object per registration, under its key, each
     * pressed exactly when its state is held, and the padding bytes clear.
     */
    ghost predicate Valid()
      reads this`outState, buttons
    {
      Registered() && PressedAgrees() && PadsClear(outState)
    }

    /** Every button's `isPressed` says whether its state is a held one. */
    ghost predicate PressedAgrees()
      reads buttons
    {
      forall i :: 0 <= i < |buttons| ==> buttons[i].isPressed == IsHeld(buttons[i].buttonState)
    }

    /** One distinct button object per registration, under its key. */
    ghost predicate Registered()
      reads buttons
    {
      |buttons| == |Registrations|
      && (forall i, j :: 0 <= i < j < |buttons| ==> buttons[i] != buttons[j])
      && (forall i :: 0 <= i < |buttons| ==> buttons[i].key == Registrations[i].1)
    }

    /** The registers of `UpdateOutputs`. */
    function Regs(): OutputRegs
      reads this`outState, this`leftTriggerEffectType, this`rightTriggerEffectType,
            this`leftRumble, this`rightRumble, this`btMul, this`intensitySpent
    {
      OutputRegs(outState, leftTriggerEffectType, rightTriggerEffectType, leftRumble, rightRumble, btMul, intensitySpent)
    }

    /** The states of all buttons, in map order. */
    ghost function States(): (r: seq<ButtonState>)
      reads buttons
      ensures |r| == |buttons| && forall i :: 0 <= i < |buttons| ==> r[i] == buttons[i].buttonState
    {
      StatesOf(buttons)
    }

    /**
     * Registers the seventeen buttons, zeroes both states and leaves the
     * other fields at their initialisers. The device context is never
     * initialised here.
     */
    constructor ()
      ensures Valid()
      ensures forall i :: 0 <= i < |buttons| ==> buttons[i].buttonState == None && !buttons[i].isPressed
      ensures inState == ZeroInputState() && outState == ZeroOutputState()
      ensures leftTriggerEffectType == NoResitance && rightTriggerEffectType == NoResitance
      ensures leftRumble == 0 && rightRumble == 0 && btMul == 0 && !intensitySpent && controllersCount == 0
    {
      var bs: seq<ButtonData> := [];
      for i := 0 to |Registrations|
        invariant |bs| == i && RegisteredPrefix(bs)
      {
        bs := AddButton(bs, Registrations[i].0, Registrations[i].1);
      }
      buttons := bs;
      controllersCount := 0;
      controller := *;
      leftTriggerEffectType := NoResitance;
      rightTriggerEffectType := NoResitance;
      intensitySpent := false;
      leftRumble := 0;
      rightRumble := 0;
      btMul := 0;
      inState := ZeroInputState();
      outState := ZeroOutputState();
    }

    /**
     * `UpdateButtons`: every button reads its bit of `inState` and steps,
     * then dispatches the event of its new state; the events come out in
     * map order.
     */
    method UpdateButtons() returns (events: seq<ButtonEvent>)
      requires Registered() && PressedAgrees()
      modifies buttons
      ensures Registered() && PressedAgrees()
      ensures forall i :: 0 <= i < |buttons| ==>
        buttons[i].buttonState == StepButton(old(buttons[i].buttonState), inState, Registrations[i].0) &&
        buttons[i].isPressed == PressedAfter(old(buttons[i].isPressed), inState, Registrations[i].0)
      ensures States() == StepStates(old(States()), inState)
      ensures events == Dispatch(Registrations, States())
      ensures unchanged(this)
    {
      ghost var before := States();
      events := StepButtons(buttons, Registrations, inState);
      assert States() == StepStates(before, inState);
      forall i | 0 <= i < |buttons|
        ensures buttons[i].isPressed == IsHeld(buttons[i].buttonState)
      {
        PressedTracksState(old(buttons[i].buttonState), old(buttons[i].isPressed), inState, Registrations[i].0);
      }
    }

    /**
     * `UpdateOutputs`: the registers move by `OutputStep` on the current
     * connection and input, and the new output state is written.
     */
    method UpdateOutputs() returns (call: LibraryCall)
      modifies this`btMul, this`leftRumble, this`rightRumble, this`intensitySpent,
               this`leftTriggerEffectType, this`rightTriggerEffectType, this`outState
      ensures Regs() == OutputStep(old(Regs()), controller.connection, inState)
      ensures call == SetDeviceOutputState(outState)
      ensures unchanged(buttons)
    {
      ghost var before := Regs();
      DecayRumble();
      UpdateIndicators();
      OutputStepByField(before, controller.connection, inState, Regs());
      call := SetDeviceOutputState(outState);
    }

    /**
     * The first half of `UpdateOutputs`: the transport multiplier, the decay
     * of both counters and the bytes sent to the motors, then the re-arm of
     * a spent intensity.
     */
    method DecayRumble()
      modifies this`btMul, this`leftRumble, this`rightRumble, this`intensitySpent, this`outState
      ensures btMul == BtMul(controller.connection) && !intensitySpent
      ensures outState == old(outState).(
        leftRumble := HighByte(Decay(old(leftRumble), LeftRumbleStep(btMul))),
        rightRumble := HighByte(Decay(old(rightRumble), RightRumbleStep(btMul))))
      ensures leftRumble == if old(intensitySpent) then 0xFF00 else Decay(old(leftRumble), LeftRumbleStep(btMul))
      ensures rightRumble == if old(intensitySpent) then 0xFF00 else Decay(old(rightRumble), RightRumbleStep(btMul))
    {
      btMul := BtMul(controller.connection);

      leftRumble := Decay(leftRumble, LeftRumbleStep(btMul));
      rightRumble := Decay(rightRumble, RightRumbleStep(btMul));

      outState := outState.(leftRumble := HighByte(leftRumble), rightRumble := HighByte(rightRumble));

      if intensitySpent {
        intensitySpent := false;
        leftRumble := 0xFF00;
        rightRumble := 0xFF00;
      }
    }

    /**
     * The second half of `UpdateOutputs`: the player LEDs, both trigger
     * types, the mic LED and the two trigger effects.
     */
    method UpdateIndicators()
      modifies this`leftTriggerEffectType, this`rightTriggerEffectType, this`outState
      ensures leftTriggerEffectType == TriggerTypeAfter(old(leftTriggerEffectType), inState.leftTrigger)
      ensures rightTriggerEffectType == TriggerTypeAfter(old(rightTriggerEffectType), inState.rightTrigger)
      ensures outState == old(outState).(
        playerLeds := PlayerLedsAfter(old(outState.playerLeds), old(outState.rightRumble)),
        microphoneLed := MicLedAfter(old(outState.microphoneLed), inState.buttonsB),
        leftTriggerEffect := LeftEffectAfter(old(outState.leftTriggerEffect), leftTriggerEffectType),
        rightTriggerEffect := RightEffectAfter(old(outState.rightTriggerEffect), rightTriggerEffectType))
    {
      outState := outState.(playerLeds := PlayerLedsAfter(outState.playerLeds, outState.rightRumble));

      leftTriggerEffectType := TriggerTypeAfter(leftTriggerEffectType, inState.leftTrigger);
      rightTriggerEffectType := TriggerTypeAfter(rightTriggerEffectType, inState.rightTrigger);

      outState := outState.(microphoneLed := MicLedAfter(outState.microphoneLed, inState.buttonsB));

      outState := outState.(leftTriggerEffect := LeftEffectAfter(outState.leftTriggerEffect, leftTriggerEffectType));
      outState := outState.(rightTriggerEffect := RightEffectAfter(outState.rightTriggerEffect, rightTriggerEffectType));
    }

    /**
     * `SendControllerEvents`. The library's replies are parameters: `rv` is
     * what `getDeviceInputState` returns and `polled` what it leaves in
     * `inState`; on failure `found` is the count `enumDevices` reports and
     * `ctxAfter` the context after `initDeviceContext` and `reconnectDevice`.
     * A successful read updates the buttons and the outputs and writes the
     * output state; a failed one touches nothing but the count and the context.
     */
    method SendControllerEvents(rv: ReturnValue, polled: InputState, found: u32, ctxAfter: DeviceContext)
      returns (calls: seq<LibraryCall>, events: seq<ButtonEvent>)
      requires Valid()
      modifies this, buttons
      ensures Valid()
      ensures inState == polled
      ensures Succeeded(rv) ==>
        calls == [GetDeviceInputState, SetDeviceOutputState(outState)] &&
        Regs() == OutputStep(old(Regs()), controller.connection, polled) &&
        States() == StepStates(old(States()), polled) &&
        events == Dispatch(Registrations, States()) &&
        controller == old(controller) && controllersCount == old(controllersCount)
      ensures Failed(rv) ==>
        calls == [GetDeviceInputState, EnumDevices(16), InitDeviceContext(0), ReconnectDevice] &&
        events == [] && Regs() == old(Regs()) && unchanged(buttons) &&
        controller == ctxAfter && controllersCount == found
    {
      ghost var states, regs := States(), Regs();
      inState := polled;
      assert States() == states && Regs() == regs;
      if Succeeded(rv) {
        var write;
        events, write := Update();
        calls := [GetDeviceInputState, write];
      } else {
        var reconnect := Reconnect(found, ctxAfter);
        calls := [GetDeviceInputState] + reconnect;
        events := [];
      }
    }

    /**
     * The success path of `SendControllerEvents`: `UpdateButtons`, then
     * `UpdateOutputs` and its write.
     */
    method Update() returns (events: seq<ButtonEvent>, write: LibraryCall)
      requires Valid()
      modifies buttons, this`btMul, this`leftRumble, this`rightRumble, this`intensitySpent,
               this`leftTriggerEffectType, this`rightTriggerEffectType, this`outState
      ensures Valid()
      ensures controller == old(controller) && controllersCount == old(controllersCount) && inState == old(inState)
      ensures write == SetDeviceOutputState(outState)
      ensures Regs() == OutputStep(old(Regs()), controller.connection, inState)
      ensures States() == StepStates(old(States()), inState)
      ensures events == Dispatch(Registrations, States())
    {
      events := UpdateButtons();
      ghost var states := States();
      write := UpdateOutputs();
      assert States() == states;
    }

    /**
     * The failure path of `SendControllerEvents`: enumerate again into the
     * 16-entry buffer, re-initialise the context from entry 0 and reconnect.
     * The library's replies are the count `found` and the context `ctxAfter`.
     */
    method Reconnect(found: u32, ctxAfter: DeviceContext) returns (calls: seq<LibraryCall>)
      modifies this`controllersCount, this`controller
      ensures calls == [EnumDevices(16), InitDeviceContext(0), ReconnectDevice]
      ensures controller == ctxAfter && controllersCount == found
    {
      controllersCount := found;
      controller := ctxAfter;
      calls := [EnumDevices(16), InitDeviceContext(0), ReconnectDevice];
    }
  }

  /**
   * A device left as the constructor leaves it has clear padding, and every
   * run of ticks from there sends 0 to both motors and clears the player LEDs.
   */
  lemma FreshDeviceInert(r: OutputRegs, conn: DeviceConnection, inputs: seq<InputState>)
    requires r.out == ZeroOutputState() && r.leftRumble == 0 && r.rightRumble == 0 && !r.intensitySpent
    ensures PadsClear(r.out)
    ensures inputs != [] ==> var r' := OutputRun(r, conn, inputs);
      r'.out.leftRumble == 0 && r'.out.rightRumble == 0 && r'.out.playerLeds.bitmask == 0
  {
    RumbleInert(r, conn, inputs);
  }
}
