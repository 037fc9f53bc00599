/**
 * The data model of the DualSense library header: return codes, the input
 * and output bit masks, the enumerations and the records exchanged with the
 * library, including the trigger-effect union whose payload structs share one
 * six-byte parameter block.
 */
module Ds5w {
  import Wrappers

  /** An `unsigned char`. */
  type u8 = x: int | 0 <= x < 0x100
  /** A `signed char`. */
  type i8 = x: int | -0x80 <= x < 0x80
  /** A `short`. */
  type i16 = x: int | -0x8000 <= x < 0x8000
  /** A `uint16_t`. */
  type u16 = x: int | 0 <= x < 0x1_0000
  /** An `unsigned int`. */
  type u32 = x: int | 0 <= x < 0x1_0000_0000

  // ---------------------------------------------------------------------
  // Return values
  // ---------------------------------------------------------------------

  /** `_DS5W_ReturnValue`, shared by every library call. */
  datatype ReturnValue =
    | Ok
    | EUnknown
    | EInsufficientBuffer
    | EExternalWinapi
    | EStackOverflow
    | EInvalidArgs
    | ECurrentlyNotSupported
    | EDeviceRemoved
    | EBtCom
  {
    /** The enumerator's numeric value. */
    function Code(): nat {
      match this
      case Ok => 0
      case EUnknown => 1
      case EInsufficientBuffer => 2
      case EExternalWinapi => 3
      case EStackOverflow => 4
      case EInvalidArgs => 5
      case ECurrentlyNotSupported => 6
      case EDeviceRemoved => 7
      case EBtCom => 8
    }
  }

  /** The return value whose numeric value is `code`, if there is one. */
  function ReturnValueOf(code: nat): (r: Wrappers.Option<ReturnValue>)
    ensures r.Some? <==> code <= 8
    ensures r.Some? ==> r.value.Code() == code
  {
    match code
    case 0 => Wrappers.Some(Ok)
    case 1 => Wrappers.Some(EUnknown)
    case 2 => Wrappers.Some(EInsufficientBuffer)
    case 3 => Wrappers.Some(EExternalWinapi)
    case 4 => Wrappers.Some(EStackOverflow)
    case 5 => Wrappers.Some(EInvalidArgs)
    case 6 => Wrappers.Some(ECurrentlyNotSupported)
    case 7 => Wrappers.Some(EDeviceRemoved)
    case 8 => Wrappers.Some(EBtCom)
    case _ => Wrappers.None
  }

  /** `DS5W_SUCCESS(expr)`. */
  predicate Succeeded(rv: ReturnValue) {
    rv == Ok
  }

  /** `DS5W_FAILED(expr)`. */
  predicate Failed(rv: ReturnValue) {
    rv != Ok
  }

  /** Success means numeric value 0, and failure is exactly its negation. */
  lemma SuccessIsCodeZero(rv: ReturnValue)
    ensures Succeeded(rv) <==> rv.Code() == 0
    ensures Failed(rv) <==> !Succeeded(rv)
    ensures ReturnValueOf(rv.Code()) == Wrappers.Some(rv)
  {
  }

  // ---------------------------------------------------------------------
  // Input-state button masks and output-state player-LED masks
  // ---------------------------------------------------------------------

  // Masks on `buttonsAndDpad`.
  const ISTATE_BTX_SQUARE: bv8 := 0x10
  const ISTATE_BTX_CROSS: bv8 := 0x20
  const ISTATE_BTX_CIRCLE: bv8 := 0x40
  const ISTATE_BTX_TRIANGLE: bv8 := 0x80
  const ISTATE_DPAD_LEFT: bv8 := 0x01
  const ISTATE_DPAD_DOWN: bv8 := 0x02
  const ISTATE_DPAD_RIGHT: bv8 := 0x04
  const ISTATE_DPAD_UP: bv8 := 0x08

  // Masks on `buttonsA`.
  const ISTATE_BTN_A_LEFT_BUMPER: bv8 := 0x01
  const ISTATE_BTN_A_RIGHT_BUMPER: bv8 := 0x02
  const ISTATE_BTN_A_LEFT_TRIGGER: bv8 := 0x04
  const ISTATE_BTN_A_RIGHT_TRIGGER: bv8 := 0x08
  const ISTATE_BTN_A_SELECT: bv8 := 0x10
  const ISTATE_BTN_A_MENU: bv8 := 0x20
  const ISTATE_BTN_A_LEFT_STICK: bv8 := 0x40
  const ISTATE_BTN_A_RIGHT_STICK: bv8 := 0x80

  // Masks on `buttonsB`.
  const ISTATE_BTN_B_PLAYSTATION_LOGO: bv8 := 0x01
  const ISTATE_BTN_B_PAD_BUTTON: bv8 := 0x02
  const ISTATE_BTN_B_MIC_BUTTON: bv8 := 0x04

  // Masks on `playerLeds.bitmask`.
  const OSTATE_PLAYER_LED_LEFT: bv8 := 0x01
  const OSTATE_PLAYER_LED_MIDDLE_LEFT: bv8 := 0x02
  const OSTATE_PLAYER_LED_MIDDLE: bv8 := 0x04
  const OSTATE_PLAYER_LED_MIDDLE_RIGHT: bv8 := 0x08
  const OSTATE_PLAYER_LED_RIGHT: bv8 := 0x10

  /** The D-pad masks on `buttonsAndDpad`, in the order the header lists them. */
  const DpadMasks: seq<bv8> :=
    [ISTATE_DPAD_LEFT, ISTATE_DPAD_DOWN, ISTATE_DPAD_RIGHT, ISTATE_DPAD_UP]
  /** The face-button masks on `buttonsAndDpad`. */
  const FaceMasks: seq<bv8> :=
    [ISTATE_BTX_SQUARE, ISTATE_BTX_CROSS, ISTATE_BTX_CIRCLE, ISTATE_BTX_TRIANGLE]
  /** All eight masks on `buttonsAndDpad`. */
  const ButtonsAndDpadMasks: seq<bv8> := DpadMasks + FaceMasks
  /** All eight masks on `buttonsA`. */
  const ButtonsAMasks: seq<bv8> :=
    [ISTATE_BTN_A_LEFT_BUMPER, ISTATE_BTN_A_RIGHT_BUMPER, ISTATE_BTN_A_LEFT_TRIGGER,
     ISTATE_BTN_A_RIGHT_TRIGGER, ISTATE_BTN_A_SELECT, ISTATE_BTN_A_MENU,
     ISTATE_BTN_A_LEFT_STICK, ISTATE_BTN_A_RIGHT_STICK]
  /** The three masks on `buttonsB`. */
  const ButtonsBMasks: seq<bv8> :=
    [ISTATE_BTN_B_PLAYSTATION_LOGO, ISTATE_BTN_B_PAD_BUTTON, ISTATE_BTN_B_MIC_BUTTON]
  /** The five player-LED masks. */
  const PlayerLedMasks: seq<bv8> :=
    [OSTATE_PLAYER_LED_LEFT, OSTATE_PLAYER_LED_MIDDLE_LEFT, OSTATE_PLAYER_LED_MIDDLE,
     OSTATE_PLAYER_LED_MIDDLE_RIGHT, OSTATE_PLAYER_LED_RIGHT]

  /** `m` has exactly one bit set. */
  predicate SingleBit(m: bv8) {
    m != 0 && m & (m - 1) == 0
  }

  /** Every mask is a single bit and no two masks share a bit. */
  predicate DistinctBits(masks: seq<bv8>) {
    && (forall i :: 0 <= i < |masks| ==> SingleBit(masks[i]))
    && (forall i, j :: 0 <= i < j < |masks| ==> masks[i] & masks[j] == 0)
  }

  /** The answer of `b & m` for each mask `m`, as the adapters test it. */
  function Flags(b: bv8, masks: seq<bv8>): (f: seq<bool>)
    ensures |f| == |masks|
    ensures forall i :: 0 <= i < |masks| ==> f[i] == (b & masks[i] != 0)
  {
    seq(|masks|, i requires 0 <= i < |masks| => b & masks[i] != 0)
  }

  /** The byte whose eight `buttonsAndDpad` bit tests answer `flags`. */
  function PackButtonsAndDpad(flags: seq<bool>): bv8
    requires |flags| == 8
  {
    (if flags[0] then ISTATE_DPAD_LEFT else 0) | (if flags[1] then ISTATE_DPAD_DOWN else 0) |
    (if flags[2] then ISTATE_DPAD_RIGHT else 0) | (if flags[3] then ISTATE_DPAD_UP else 0) |
    (if flags[4] then ISTATE_BTX_SQUARE else 0) | (if flags[5] then ISTATE_BTX_CROSS else 0) |
    (if flags[6] then ISTATE_BTX_CIRCLE else 0) | (if flags[7] then ISTATE_BTX_TRIANGLE else 0)
  }

  /**
   * The eight `buttonsAndDpad` masks are distinct single bits: the D-pad fills
   * the low nibble, the face buttons the high nibble, together the whole byte.
   */
  lemma ButtonsAndDpadLayout()
    ensures DistinctBits(ButtonsAndDpadMasks)
    ensures ISTATE_DPAD_LEFT | ISTATE_DPAD_DOWN | ISTATE_DPAD_RIGHT | ISTATE_DPAD_UP == 0x0F
    ensures ISTATE_BTX_SQUARE | ISTATE_BTX_CROSS | ISTATE_BTX_CIRCLE | ISTATE_BTX_TRIANGLE == 0xF0
  {
  }

  /** The eight `buttonsA` masks are distinct single bits filling the byte. */
  lemma ButtonsALayout()
    ensures DistinctBits(ButtonsAMasks)
    ensures ISTATE_BTN_A_LEFT_BUMPER | ISTATE_BTN_A_RIGHT_BUMPER | ISTATE_BTN_A_LEFT_TRIGGER |
            ISTATE_BTN_A_RIGHT_TRIGGER | ISTATE_BTN_A_SELECT | ISTATE_BTN_A_MENU |
            ISTATE_BTN_A_LEFT_STICK | ISTATE_BTN_A_RIGHT_STICK == 0xFF
  {
  }

  /** The three `buttonsB` masks are the distinct bits 0x01, 0x02 and 0x04. */
  lemma ButtonsBLayout()
    ensures DistinctBits(ButtonsBMasks)
    ensures ISTATE_BTN_B_PLAYSTATION_LOGO | ISTATE_BTN_B_PAD_BUTTON | ISTATE_BTN_B_MIC_BUTTON == 0x07
  {
  }

  /** The five player-LED masks are the distinct bits 0x01 to 0x10. */
  lemma PlayerLedLayout()
    ensures DistinctBits(PlayerLedMasks)
    ensures OSTATE_PLAYER_LED_LEFT | OSTATE_PLAYER_LED_MIDDLE_LEFT | OSTATE_PLAYER_LED_MIDDLE |
            OSTATE_PLAYER_LED_MIDDLE_RIGHT | OSTATE_PLAYER_LED_RIGHT == 0x1F
  {
  }

  /**
   * Because the eight masks cover `buttonsAndDpad`, their eight bit tests
   * decide the whole byte.
   */
  lemma ButtonsAndDpadFlagsDecideByte(b: bv8)
    ensures PackButtonsAndDpad(Flags(b, ButtonsAndDpadMasks)) == b
  {
    ButtonsAndDpadFlagsListed(b);
    BitsRebuildByte(b);
  }

  /** The eight `buttonsAndDpad` bit tests, bit 0 first. */
  lemma ButtonsAndDpadFlagsListed(b: bv8)
    ensures var f := Flags(b, ButtonsAndDpadMasks);
      && f[0] == (b & 0x01 != 0) && f[1] == (b & 0x02 != 0) && f[2] == (b & 0x04 != 0) && f[3] == (b & 0x08 != 0)
      && f[4] == (b & 0x10 != 0) && f[5] == (b & 0x20 != 0) && f[6] == (b & 0x40 != 0) && f[7] == (b & 0x80 != 0)
  {
    ButtonsAndDpadMasksListed();
  }

  /** The `buttonsAndDpad` masks are the eight bits, bit 0 first. */
  lemma ButtonsAndDpadMasksListed()
    ensures ButtonsAndDpadMasks == [0x01, 0x02, 0x04, 0x08, 0x10, 0x20, 0x40, 0x80]
  {
  }

  /** A byte is the OR of its set bits. */
  lemma BitsRebuildByte(b: bv8)
    ensures
      (if b & 0x01 != 0 then 0x01 else 0) | (if b & 0x02 != 0 then 0x02 else 0) |
      (if b & 0x04 != 0 then 0x04 else 0) | (if b & 0x08 != 0 then 0x08 else 0) |
      (if b & 0x10 != 0 then 0x10 else 0) | (if b & 0x20 != 0 then 0x20 else 0) |
      (if b & 0x40 != 0 then 0x40 else 0) | (if b & 0x80 != 0 then 0x80 else 0) == b
  {
  }

  /**
   * Because the eight masks are distinct single bits, every combination of
   * answers to the bit tests is the answer of the packed byte.
   */
  lemma ButtonsAndDpadFlagsIndependent(flags: seq<bool>)
    requires |flags| == 8
    ensures Flags(PackButtonsAndDpad(flags), ButtonsAndDpadMasks) == flags
  {
    var p := PackButtonsAndDpad(flags);
    PackedBits(flags[0], flags[1], flags[2], flags[3], flags[4], flags[5], flags[6], flags[7]);
    ButtonsAndDpadFlagsListed(p);
    var g := Flags(p, ButtonsAndDpadMasks);
    assert g[0] == flags[0] && g[1] == flags[1] && g[2] == flags[2] && g[3] == flags[3];
    assert g[4] == flags[4] && g[5] == flags[5] && g[6] == flags[6] && g[7] == flags[7];
  }

  /** Bit `i` of an OR of distinct single bits is set exactly when term `i` is. */
  lemma PackedBits(f0: bool, f1: bool, f2: bool, f3: bool, f4: bool, f5: bool, f6: bool, f7: bool)
    ensures var p: bv8 :=
      (if f0 then 0x01 else 0) | (if f1 then 0x02 else 0) | (if f2 then 0x04 else 0) |
      (if f3 then 0x08 else 0) | (if f4 then 0x10 else 0) | (if f5 then 0x20 else 0) |
      (if f6 then 0x40 else 0) | (if f7 then 0x80 else 0);
      && (p & 0x01 != 0) == f0 && (p & 0x02 != 0) == f1 && (p & 0x04 != 0) == f2
      && (p & 0x08 != 0) == f3 && (p & 0x10 != 0) == f4 && (p & 0x20 != 0) == f5
      && (p & 0x40 != 0) == f6 && (p & 0x80 != 0) == f7
  {
  }

  /**
   * The three `buttonsB` bit tests decide exactly the low three bits of the
   * byte: two bytes answer alike precisely when they agree on bits 0 to 2.
   */
  lemma {:induction false} ButtonsBFlagsDecideLowBits(b1: bv8, b2: bv8)
    ensures Flags(b1, ButtonsBMasks) == Flags(b2, ButtonsBMasks) <==> b1 & 0x07 == b2 & 0x07
  {
    var f1, f2 := Flags(b1, ButtonsBMasks), Flags(b2, ButtonsBMasks);
    assert f1 == [b1 & 0x01 != 0, b1 & 0x02 != 0, b1 & 0x04 != 0];
    assert f2 == [b2 & 0x01 != 0, b2 & 0x02 != 0, b2 & 0x04 != 0];
  }

  // ---------------------------------------------------------------------
  // Enumerations
  // ---------------------------------------------------------------------

  /** `DeviceConnection`. */
  datatype DeviceConnection = Usb | Bt {
    function Code(): u8 {
      match this
      case Usb => 0
      case Bt => 1
    }
  }

  /** `MicLed`. */
  datatype MicLed = Off | On | Pulse {
    function Code(): u8 {
      match this
      case Off => 0x00
      case On => 0x01
      case Pulse => 0x02
    }
  }

  /** `LedBrightness`; note that HIGH is the zero value. */
  datatype LedBrightness = Low | Medium | High {
    function Code(): u8 {
      match this
      case Low => 0x02
      case Medium => 0x01
      case High => 0x00
    }
  }

  /** `TriggerEffectType` (the header's own spelling of "resistance" is kept). */
  datatype TriggerEffectType =
    | NoResitance
    | ContinuousResitance
    | SectionResitance
    | EffectEx
    | Calibrate
  {
    /** The type byte that tags the effect. */
    function Code(): u8 {
      match this
      case NoResitance => 0x00
      case ContinuousResitance => 0x01
      case SectionResitance => 0x02
      case EffectEx => 0x26
      case Calibrate => 0xFC
    }
  }

  /** The effect type tagged by byte `b`, if any. */
  function TriggerEffectTypeOf(b: u8): (r: Wrappers.Option<TriggerEffectType>)
    ensures r.Some? <==> b in {0x00, 0x01, 0x02, 0x26, 0xFC}
    ensures r.Some? ==> r.value.Code() == b
  {
    if b == 0x00 then Wrappers.Some(NoResitance)
    else if b == 0x01 then Wrappers.Some(ContinuousResitance)
    else if b == 0x02 then Wrappers.Some(SectionResitance)
    else if b == 0x26 then Wrappers.Some(EffectEx)
    else if b == 0xFC then Wrappers.Some(Calibrate)
    else Wrappers.None
  }

  /** The five type codes are distinct: each tag byte names one effect type. */
  lemma TriggerEffectTypeCodesDistinct(t1: TriggerEffectType, t2: TriggerEffectType)
    ensures t1.Code() == t2.Code() <==> t1 == t2
    ensures TriggerEffectTypeOf(t1.Code()) == Wrappers.Some(t1)
  {
  }

  // ---------------------------------------------------------------------
  // The trigger-effect union
  // ---------------------------------------------------------------------

  /** The six bytes `_u1_raw` that every payload struct of the union overlays. */
  type ParamBlock = s: seq<u8> | |s| == 6 witness [0, 0, 0, 0, 0, 0]

  /** `TriggerEffect`: the type tag and the union's parameter block. */
  datatype TriggerEffect = TriggerEffect(effectType: TriggerEffectType, params: ParamBlock)

  /** The byte-sized members of the union's payload structs. */
  datatype PayloadField =
    | ContinuousStartPosition | ContinuousForce
    | SectionStartPosition | SectionEndPosition
    | ExStartPosition | ExKeepEffect | ExBeginForce | ExMiddleForce | ExEndForce | ExFrequency

  /** Where a payload member sits in the parameter block. */
  function Offset(f: PayloadField): (o: nat)
    ensures o < 6
  {
    match f
    case ContinuousStartPosition => 0
    case ContinuousForce => 1
    case SectionStartPosition => 0
    case SectionEndPosition => 1
    case ExStartPosition => 0
    case ExKeepEffect => 1
    case ExBeginForce => 2
    case ExMiddleForce => 3
    case ExEndForce => 4
    case ExFrequency => 5
  }

  /** Reading a payload member through the union. */
  function Get(e: TriggerEffect, f: PayloadField): u8 {
    e.params[Offset(f)]
  }

  /** Writing a payload member through the union; the tag is not touched. */
  function Set(e: TriggerEffect, f: PayloadField, v: u8): (r: TriggerEffect)
    ensures r.effectType == e.effectType
    ensures Get(r, f) == v
    ensures forall i :: 0 <= i < 6 && i != Offset(f) ==> r.params[i] == e.params[i]
  {
    e.(params := e.params[Offset(f) := v])
  }

  /**
   * Union aliasing: a member written through any payload struct is read back
   * through every member at the same offset, and no member at another offset
   * changes.
   */
  lemma SetThenGet(e: TriggerEffect, f: PayloadField, v: u8, g: PayloadField)
    ensures Get(Set(e, f, v), g) == if Offset(g) == Offset(f) then v else Get(e, g)
  {
  }

  /**
   * `startPosition` is byte 0 in all three payload structs, `Continuous.force`
   * aliases `Section.endPosition` (and `EffectEx.keepEffect`) at byte 1, and the
   * six `EffectEx` members occupy the six bytes of the block one each.
   */
  lemma PayloadLayout()
    ensures Offset(ContinuousStartPosition) == Offset(SectionStartPosition) == Offset(ExStartPosition) == 0
    ensures Offset(ContinuousForce) == Offset(SectionEndPosition) == Offset(ExKeepEffect) == 1
    ensures [Offset(ExStartPosition), Offset(ExKeepEffect), Offset(ExBeginForce),
             Offset(ExMiddleForce), Offset(ExEndForce), Offset(ExFrequency)] == [0, 1, 2, 3, 4, 5]
  {
  }

  /** The header's documented rule for a Section effect: end >= start. */
  predicate SectionOrdered(e: TriggerEffect) {
    e.effectType == SectionResitance ==> Get(e, SectionEndPosition) >= Get(e, SectionStartPosition)
  }

  /** What the active member of the union says, by the effect's tag. */
  datatype EffectParams =
    | NoResistanceParams
    | ContinuousParams(startPosition: u8, force: u8)
    | SectionParams(startPosition: u8, endPosition: u8)
    | ExParams(startPosition: u8, keepEffect: bool, beginForce: u8, middleForce: u8, endForce: u8, frequency: u8)
    | CalibrateParams

  /** The parameters the tag selects, read through that tag's payload struct. */
  function Active(e: TriggerEffect): EffectParams {
    match e.effectType
    case NoResitance => NoResistanceParams
    case ContinuousResitance => ContinuousParams(Get(e, ContinuousStartPosition), Get(e, ContinuousForce))
    case SectionResitance => SectionParams(Get(e, SectionStartPosition), Get(e, SectionEndPosition))
    case EffectEx =>
      ExParams(Get(e, ExStartPosition), Get(e, ExKeepEffect) != 0, Get(e, ExBeginForce),
               Get(e, ExMiddleForce), Get(e, ExEndForce), Get(e, ExFrequency))
    case Calibrate => CalibrateParams
  }

  // ---------------------------------------------------------------------
  // Records
  // ---------------------------------------------------------------------

  /** `AnalogStick` (0 is the centre). */
  datatype AnalogStick = AnalogStick(x: i8, y: i8)
  /** `Vec3`. */
  datatype Vec3 = Vec3(x: i16, y: i16, z: i16)
  /** `Color`. */
  datatype Color = Color(r: u8, g: u8, b: u8)
  /** `Touch`. */
  datatype Touch = Touch(x: u32, y: u32)
  /** `Battery`. */
  datatype Battery = Battery(chargin: bool, fullyCharged: bool, level: u8)
  /** `PlayerLeds`. */
  datatype PlayerLeds = PlayerLeds(bitmask: bv8, playerLedFade: bool, brightness: LedBrightness)

  /** `DS5InputState`. */
  datatype InputState = InputState(
    leftStick: AnalogStick,
    rightStick: AnalogStick,
    leftTrigger: u8,
    rightTrigger: u8,
    buttonsAndDpad: bv8,
    buttonsA: bv8,
    buttonsB: bv8,
    accelerometer: Vec3,
    gyroscope: Vec3,
    touchPoint1: Touch,
    touchPoint2: Touch,
    battery: Battery,
    headPhoneConnected: bool,
    leftTriggerFeedback: u8,
    rightTriggerFeedback: u8)

  /** `DS5OutputState`. */
  datatype OutputState = OutputState(
    leftRumble: u8,
    rightRumble: u8,
    microphoneLed: MicLed,
    disableLeds: bool,
    playerLeds: PlayerLeds,
    lightbar: Color,
    leftTriggerEffect: TriggerEffect,
    rightTriggerEffect: TriggerEffect)

  /** `DeviceEnumInfo` (the path is the OS device path). */
  datatype DeviceEnumInfo = DeviceEnumInfo(path: string, connection: DeviceConnection)

  /**
   * The part of `DeviceContext` the adapters can see: its path, transport and
   * connection flag. The OS handle and the HID buffer belong to the library.
   */
  datatype DeviceContext = DeviceContext(devicePath: string, connection: DeviceConnection, connected: bool)

  /** An all-zero parameter block. */
  const ZeroBlock: ParamBlock := [0, 0, 0, 0, 0, 0]

  /** `ZeroMemory` over a `DS5InputState`: every byte is 0. */
  function ZeroInputState(): (s: InputState)
    ensures s.buttonsAndDpad == 0 && s.buttonsA == 0 && s.buttonsB == 0
    ensures s.leftTrigger == 0 && s.rightTrigger == 0
  {
    InputState(AnalogStick(0, 0), AnalogStick(0, 0), 0, 0, 0, 0, 0,
               Vec3(0, 0, 0), Vec3(0, 0, 0), Touch(0, 0), Touch(0, 0),
               Battery(false, false, 0), false, 0, 0)
  }

  /**
   * `ZeroMemory` over a `DS5OutputState`: every byte is 0, so every
   * enumeration field holds the enumerator whose value is 0.
   */
  function ZeroOutputState(): (s: OutputState)
    ensures s.leftRumble == 0 && s.rightRumble == 0 && !s.disableLeds
    ensures s.microphoneLed.Code() == 0
    ensures s.playerLeds.bitmask == 0 && !s.playerLeds.playerLedFade && s.playerLeds.brightness.Code() == 0
    ensures s.lightbar == Color(0, 0, 0)
    ensures s.leftTriggerEffect.effectType.Code() == 0 && s.leftTriggerEffect.params == ZeroBlock
    ensures s.rightTriggerEffect.effectType.Code() == 0 && s.rightTriggerEffect.params == ZeroBlock
  {
    OutputState(0, 0, Off, false, PlayerLeds(0, false, High), Color(0, 0, 0),
                TriggerEffect(NoResitance, ZeroBlock), TriggerEffect(NoResitance, ZeroBlock))
  }

  // ---------------------------------------------------------------------
  // Library calls
  // ---------------------------------------------------------------------

  /**
   * A call an adapter makes into the library. The library itself is not
   * modelled: what a call returns is handed to the adapter as a parameter.
   */
  datatype LibraryCall =
    | EnumDevices(capacity: nat)
    | InitDeviceContext(infoIndex: nat)
    | ReconnectDevice
    | GetDeviceInputState
    | SetDeviceOutputState(state: OutputState)
}
