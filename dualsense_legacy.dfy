/**
 * `FWinDualSense`, the older engine adapter: it enumerates the controllers
 * and opens the first one when it is constructed, and on every tick either
 * applies the rumble, LED and trigger rules and writes the output state, or
 * asks the library to reconnect. It dispatches no button events.
 */
module DualSenseLegacy {
  import opened Ds5w
  import opened AdapterPolicy
  import DualSenseDevice

  // ---------------------------------------------------------------------
  // Enumeration at construction
  // ---------------------------------------------------------------------

  /** The number of entries of the enumeration buffer `infos`. */
  const Capacity: nat := 16

  /**
   * The buffer indices the constructor's announce loop reads, as written: one
   * per controller the library reports, whatever the buffer's size.
   */
  function AnnouncedIndicesAsWritten(count: u32): (r: seq<nat>)
    ensures |r| == count
    ensures forall k :: 0 <= k < |r| ==> r[k] == k
  {
    seq(count, k => k)
  }

  /**
   * With more controllers attached than the buffer holds, the loop as
   * written reads `infos[16]`, one entry past the end of the buffer.
   */
  lemma AnnounceOverrunsBuffer(count: u32)
    requires count > Capacity
    ensures Capacity in AnnouncedIndicesAsWritten(count)
    ensures exists k :: 0 <= k < |AnnouncedIndicesAsWritten(count)| && AnnouncedIndicesAsWritten(count)[k] >= Capacity
  {
    assert AnnouncedIndicesAsWritten(count)[Capacity] == Capacity;
  }

  /** The indices the announce loop reads once its bound is capped at the buffer's size. */
  function AnnouncedIndices(count: u32): (r: seq<nat>)
    ensures |r| == if count < Capacity then count else Capacity
  {
    seq(if count < Capacity then count else Capacity, k => k)
  }

  /**
   * The capped loop reads only entries of the buffer, and reads them in the
   * order the loop as written does: its indices are a prefix of those, and
   * all of them when the controllers fit in the buffer.
   */
  lemma AnnouncedIndicesInBounds(count: u32)
    ensures forall i :: i in AnnouncedIndices(count) ==> i < Capacity
    ensures AnnouncedIndices(count) <= AnnouncedIndicesAsWritten(count)
    ensures count <= Capacity ==> AnnouncedIndices(count) == AnnouncedIndicesAsWritten(count)
  {
    var r, w := AnnouncedIndices(count), AnnouncedIndicesAsWritten(count);
    assert forall k :: 0 <= k < |r| ==> r[k] == k < Capacity;
    assert r == w[..|r|];
  }

  /**
   * The announce loop with its bound capped at the buffer's size: the
   * transport of each announced controller, in buffer order (the source only
   * logs them).
   */
  method Announce(infos: array<DeviceEnumInfo>, count: u32) returns (transports: seq<DeviceConnection>)
    requires infos.Length == Capacity
    ensures |transports| == |AnnouncedIndices(count)|
    ensures forall k :: 0 <= k < |transports| ==> transports[k] == infos[AnnouncedIndices(count)[k]].connection
  {
    var bound := if count < Capacity then count else Capacity;
    transports := [];
    var i := 0;
    while i < bound
      invariant 0 <= i <= bound && |transports| == i
      invariant forall k :: 0 <= k < i ==> transports[k] == infos[k].connection
    {
      if infos[i].connection == Bt {
        transports := transports + [Bt];
      } else {
        transports := transports + [Usb];
      }
      i := i + 1;
    }
  }

  // ---------------------------------------------------------------------
  // The per-tick step
  // ---------------------------------------------------------------------

  /** The fields the success branch of `SendControllerEvents` reads and writes. */
  datatype LegacyRegs = LegacyRegs(
    out: OutputState,
    rType: TriggerEffectType,
    lrmbl: u16,
    rrmbl: u16,
    intensitySpent: bool)

  /**
   * One successful tick on connection `conn` with input `input`: decay the
   * counters, send their high bytes, re-arm if the intensity is spent, then
   * the player-LED, right-trigger type and mic-LED rules, a fixed Section
   * effect on the left trigger and the right effect of type `rType`.
   * Its full meaning, field by field, is `LegacyStepByField`.
   */
  function LegacyStep(r: LegacyRegs, conn: DeviceConnection, input: InputState): (r': LegacyRegs)
    ensures !r'.intensitySpent
    ensures r'.out.leftRumble <= HighByte(r.lrmbl) && r'.out.rightRumble <= HighByte(r.rrmbl)
    ensures r'.out.playerLeds.bitmask != 0 <==> r'.out.rightRumble != 0
    ensures r'.out.leftTriggerEffect.effectType == SectionResitance
    ensures r'.out.rightTriggerEffect.effectType == r'.rType
    ensures PadsClear(r.out) ==> PadsClear(r'.out)
  {
    var mul := BtMul(conn);
    var left := Decay(r.lrmbl, LeftRumbleStep(mul));
    var right := Decay(r.rrmbl, RightRumbleStep(mul));
    RumbleByteNonIncreasing(r.lrmbl, LeftRumbleStep(mul));
    RumbleByteNonIncreasing(r.rrmbl, RightRumbleStep(mul));
    var rType := TriggerTypeAfter(r.rType, input.rightTrigger);
    var out := r.out.(
      leftRumble := HighByte(left),
      rightRumble := HighByte(right),
      playerLeds := PlayerLedsAfter(r.out.playerLeds, HighByte(right)),
      microphoneLed := MicLedAfter(r.out.microphoneLed, input.buttonsB),
      leftTriggerEffect := LeftEffectAfter(r.out.leftTriggerEffect, SectionResitance),
      rightTriggerEffect := RightEffectAfter(r.out.rightTriggerEffect, rType));
    if r.intensitySpent then LegacyRegs(out, rType, 0xFF00, 0xFF00, false)
    else LegacyRegs(out, rType, left, right, false)
  }

  /**
   * `LegacyStep` field by field: any registers that agree with each rule are
   * the step's result.
   */
  lemma LegacyStepByField(r: LegacyRegs, conn: DeviceConnection, input: InputState, r': LegacyRegs)
    requires !r'.intensitySpent
    requires r'.out.leftRumble == HighByte(Decay(r.lrmbl, LeftRumbleStep(BtMul(conn))))
    requires r'.out.rightRumble == HighByte(Decay(r.rrmbl, RightRumbleStep(BtMul(conn))))
    requires r'.lrmbl == if r.intensitySpent then 0xFF00 else Decay(r.lrmbl, LeftRumbleStep(BtMul(conn)))
    requires r'.rrmbl == if r.intensitySpent then 0xFF00 else Decay(r.rrmbl, RightRumbleStep(BtMul(conn)))
    requires r'.out.playerLeds == PlayerLedsAfter(r.out.playerLeds, r'.out.rightRumble)
    requires r'.rType == TriggerTypeAfter(r.rType, input.rightTrigger)
    requires r'.out.microphoneLed == MicLedAfter(r.out.microphoneLed, input.buttonsB)
    requires r'.out.leftTriggerEffect == LeftEffectAfter(r.out.leftTriggerEffect, SectionResitance)
    requires r'.out.rightTriggerEffect == RightEffectAfter(r.out.rightTriggerEffect, r'.rType)
    requires r'.out.disableLeds == r.out.disableLeds && r'.out.lightbar == r.out.lightbar
    ensures r' == LegacyStep(r, conn, input)
  {
  }

  /**
   * With the padding clear, the effects handed to the library are exactly:
   * left, a Section over bytes [0x00, 0x60, 0, 0, 0, 0]; right, type `rType`
   * over [0x00, 0xFF, 0, 0, 0, 0].
   */
  lemma LegacyEffectsWritten(r: LegacyRegs, conn: DeviceConnection, input: InputState)
    requires PadsClear(r.out)
    ensures var r' := LegacyStep(r, conn, input);
      r'.out.leftTriggerEffect == TriggerEffect(SectionResitance, [0x00, 0x60, 0, 0, 0, 0]) &&
      r'.out.rightTriggerEffect == TriggerEffect(r'.rType, [0x00, 0xFF, 0, 0, 0, 0])
  {
    EffectsOverClearPads(r.out.leftTriggerEffect, SectionResitance);
    EffectsOverClearPads(r.out.rightTriggerEffect, TriggerTypeAfter(r.rType, input.rightTrigger));
  }

  /**
   * Whatever the input, the left trigger gets the same effect, which read
   * through the union is a Section from 0x00 to 0x60.
   */
  lemma LeftEffectIgnoresInput(r: LegacyRegs, conn: DeviceConnection, input: InputState, other: InputState)
    ensures LegacyStep(r, conn, input).out.leftTriggerEffect == LegacyStep(r, conn, other).out.leftTriggerEffect
    ensures Active(LegacyStep(r, conn, input).out.leftTriggerEffect) == SectionParams(0x00, 0x60)
  {
    LeftEffectAsRead(r.out.leftTriggerEffect);
  }

  /** Successful ticks over a sequence of inputs, one per tick, on a fixed connection. */
  function LegacyRun(r: LegacyRegs, conn: DeviceConnection, inputs: seq<InputState>): LegacyRegs {
    if inputs == [] then r
    else LegacyStep(LegacyRun(r, conn, inputs[..|inputs| - 1]), conn, inputs[|inputs| - 1])
  }

  /** `rType` follows the hysteresis on the right trigger's readings alone. */
  lemma {:induction false} RTypeFollowsRightTrigger(r: LegacyRegs, conn: DeviceConnection, inputs: seq<InputState>)
    ensures LegacyRun(r, conn, inputs).rType == TriggerTypeRun(r.rType, DualSenseDevice.RightReadings(inputs))
  {
    if inputs != [] {
      var n := |inputs| - 1;
      RTypeFollowsRightTrigger(r, conn, inputs[..n]);
      assert DualSenseDevice.RightReadings(inputs)[..n] == DualSenseDevice.RightReadings(inputs[..n]);
    }
  }

  /**
   * As in the newer adapter, the rumble is inert: from zeroed counters and an
   * unspent intensity both motors are sent 0 on every tick and the player
   * LEDs stay clear.
   */
  lemma {:induction false} LegacyRumbleInert(r: LegacyRegs, conn: DeviceConnection, inputs: seq<InputState>)
    requires r.lrmbl == 0 && r.rrmbl == 0 && !r.intensitySpent
    ensures var r' := LegacyRun(r, conn, inputs);
      r'.lrmbl == 0 && r'.rrmbl == 0 && !r'.intensitySpent
    ensures inputs != [] ==> var r' := LegacyRun(r, conn, inputs);
      r'.out.leftRumble == 0 && r'.out.rightRumble == 0 && r'.out.playerLeds.bitmask == 0
  {
    if inputs != [] {
      LegacyRumbleInert(r, conn, inputs[..|inputs| - 1]);
    }
  }

  /** The legacy registers inside the newer adapter's: `rType` is its right trigger's type. */
  function ToLegacy(r: DualSenseDevice.OutputRegs): LegacyRegs {
    LegacyRegs(r.out, r.rightType, r.leftRumble, r.rightRumble, r.intensitySpent)
  }

  /**
   * The two adapters apply the same rules: from corresponding registers they
   * produce the same rumble, LEDs, right-trigger type and right effect, and
   * the same left parameter bytes; only the left effect's type tag differs,
   * fixed at Section here and following the left trigger there.
   */
  lemma LegacyMatchesDevice(r: DualSenseDevice.OutputRegs, conn: DeviceConnection, input: InputState)
    ensures var l, d := LegacyStep(ToLegacy(r), conn, input), DualSenseDevice.OutputStep(r, conn, input);
      l == ToLegacy(d).(out := d.out.(leftTriggerEffect := l.out.leftTriggerEffect)) &&
      l.out.leftTriggerEffect == d.out.leftTriggerEffect.(effectType := SectionResitance)
  {
  }

  // ---------------------------------------------------------------------
  // The device
  // ---------------------------------------------------------------------

  /** `FWinDualSense`. */
  class WinDualSense {
    var controller: DeviceContext
    var inState: InputState
    var outState: OutputState
    var rType: TriggerEffectType
    /** Stands for `intensity <= 0.0f`. */
    var intensitySpent: bool
    var lrmbl: u16
    var rrmbl: u16
    /** The library calls the constructor made. */
    ghost var initCalls: seq<LibraryCall>
    /** The transports the constructor announced, one per controller, in buffer order. */
    ghost var announced: seq<DeviceConnection>

    /** The registers of the success branch of `SendControllerEvents`. */
    function Regs(): LegacyRegs
      reads this`outState, this`rType, this`lrmbl, this`rrmbl, this`intensitySpent
    {
      LegacyRegs(outState, rType, lrmbl, rrmbl, intensitySpent)
    }

    /**
     * The constructor. The library's replies are parameters: `enumerated` is
     * the 16-entry buffer and `count` the controller count `enumDevices`
     * leaves, `initRv` what `initDeviceContext` returns and `ctx` the context
     * it leaves. With no controller nothing is initialised; otherwise the
     * controllers are announced and entry 0 is opened, and a successful open
     * zeroes both states. The states are otherwise left uninitialised.
     */
    constructor (enumerated: seq<DeviceEnumInfo>, count: u32, initRv: ReturnValue, ctx: DeviceContext)
      requires |enumerated| == Capacity
      ensures rType == NoResitance && !intensitySpent && lrmbl == 0 && rrmbl == 0
      ensures count == 0 ==> initCalls == [EnumDevices(Capacity)] && announced == []
      ensures count != 0 ==> initCalls == [EnumDevices(Capacity), InitDeviceContext(0)] && controller == ctx
      ensures |announced| == |AnnouncedIndices(count)|
      ensures forall k :: 0 <= k < |announced| ==> announced[k] == enumerated[k].connection
      ensures count != 0 && Succeeded(initRv) ==> inState == ZeroInputState() && outState == ZeroOutputState()
    {
      rType := NoResitance;
      intensitySpent := false;
      lrmbl := 0;
      rrmbl := 0;
      controller := *;
      inState := *;
      outState := *;
      if count == 0 {
        initCalls := [EnumDevices(Capacity)];
        announced := [];
      } else {
        var infos := new DeviceEnumInfo[Capacity](i requires 0 <= i < Capacity => enumerated[i]);
        var transports := Announce(infos, count);
        announced := transports;
        initCalls := [EnumDevices(Capacity), InitDeviceContext(0)];
        controller := ctx;
        if Succeeded(initRv) {
          inState := ZeroInputState();
          outState := ZeroOutputState();
          rType := NoResitance;
        }
      }
    }

    /**
     * `SendControllerEvents`. The library's replies are parameters: `rv` is
     * what `getDeviceInputState` returns and `polled` what it leaves in
     * `inState`; on failure `ctxAfter` is the context after
     * `reconnectDevice`. A successful read moves the registers by
     * `LegacyStep` and writes the output state; a failed one calls only
     * `reconnectDevice` and leaves the registers as they were.
     */
    method SendControllerEvents(rv: ReturnValue, polled: InputState, ctxAfter: DeviceContext)
      returns (calls: seq<LibraryCall>)
      modifies this`inState, this`controller, this`outState, this`rType,
               this`lrmbl, this`rrmbl, this`intensitySpent
      ensures inState == polled
      ensures Succeeded(rv) ==>
        calls == [GetDeviceInputState, SetDeviceOutputState(outState)] &&
        Regs() == LegacyStep(old(Regs()), controller.connection, polled) &&
        controller == old(controller)
      ensures Failed(rv) ==>
        calls == [GetDeviceInputState, ReconnectDevice] &&
        Regs() == old(Regs()) && controller == ctxAfter
    {
      inState := polled;
      if Succeeded(rv) {
        ghost var before := Regs();
        DecayRumble();
        UpdateIndicators();
        LegacyStepByField(before, controller.connection, inState, Regs());
        calls := [GetDeviceInputState, SetDeviceOutputState(outState)];
      } else {
        controller := ctxAfter;
        calls := [GetDeviceInputState, ReconnectDevice];
      }
    }

    /**
     * The first half of the success branch: the decay of both counters by
     * the transport's steps, the bytes sent to the motors, then the re-arm of
     * a spent intensity.
     */
    method DecayRumble()
      modifies this`lrmbl, this`rrmbl, this`intensitySpent, this`outState
      ensures !intensitySpent
      ensures outState == old(outState).(
        leftRumble := HighByte(Decay(old(lrmbl), LeftRumbleStep(BtMul(controller.connection)))),
        rightRumble := HighByte(Decay(old(rrmbl), RightRumbleStep(BtMul(controller.connection)))))
      ensures lrmbl == if old(intensitySpent) then 0xFF00 else Decay(old(lrmbl), LeftRumbleStep(BtMul(controller.connection)))
      ensures rrmbl == if old(intensitySpent) then 0xFF00 else Decay(old(rrmbl), RightRumbleStep(BtMul(controller.connection)))
    {
      var btMul := BtMul(controller.connection);

      lrmbl := Decay(lrmbl, LeftRumbleStep(btMul));
      rrmbl := Decay(rrmbl, RightRumbleStep(btMul));

      outState := outState.(leftRumble := HighByte(lrmbl), rightRumble := HighByte(rrmbl));

      if intensitySpent {
        intensitySpent := false;
        lrmbl := 0xFF00;
        rrmbl := 0xFF00;
      }
    }

    /**
     * The second half of the success branch: the player LEDs, `rType`, the
     * mic LED and the two trigger effects.
     */
    method UpdateIndicators()
      modifies this`rType, this`outState
      ensures rType == TriggerTypeAfter(old(rType), inState.rightTrigger)
      ensures outState == old(outState).(
        playerLeds := PlayerLedsAfter(old(outState.playerLeds), old(outState.rightRumble)),
        microphoneLed := MicLedAfter(old(outState.microphoneLed), inState.buttonsB),
        leftTriggerEffect := LeftEffectAfter(old(outState.leftTriggerEffect), SectionResitance),
        rightTriggerEffect := RightEffectAfter(old(outState.rightTriggerEffect), rType))
    {
      outState := outState.(playerLeds := PlayerLedsAfter(outState.playerLeds, outState.rightRumble));

      rType := TriggerTypeAfter(rType, inState.rightTrigger);

      outState := outState.(microphoneLed := MicLedAfter(outState.microphoneLed, inState.buttonsB));

      outState := outState.(leftTriggerEffect := LeftEffectAfter(outState.leftTriggerEffect, SectionResitance));
      outState := outState.(rightTriggerEffect := RightEffectAfter(outState.rightTriggerEffect, rType));
    }
  }
}
