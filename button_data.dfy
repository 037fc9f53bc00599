/**
 * The per-button state machine of the engine adapter: once per tick a button
 * is told whether it is held, and it moves between "no input", "pressed this
 * tick", "still held" and "released this tick".
 */
module DualSenseStruct {

  /** `EDualSenseButtonState`. */
  datatype ButtonState = None | Press | Repeat | Release

  /** The engine key a button reports its events under (`FKey`). */
  datatype GamepadKey =
    | NoKey  // a default-constructed key
    | FaceButtonTop | FaceButtonBottom | FaceButtonLeft | FaceButtonRight
    | DPadUp | DPadDown | DPadLeft | DPadRight
    | LeftShoulder | RightShoulder
    | LeftTriggerThreshold | RightTriggerThreshold
    | LeftThumb | RightThumb
    | SpecialLeft | SpecialRight
    | PS4Special

  /** The button was held during the tick that produced state `s`. */
  predicate IsHeld(s: ButtonState) {
    s == Press || s == Repeat
  }

  /**
   * The state after a tick in which the button reads `pressed`, from state
   * `s`. The state is an edge detector: it remembers whether the button is
   * held now, and whether that differs from the previous tick.
   */
  function Next(s: ButtonState, pressed: bool): (r: ButtonState)
    ensures IsHeld(r) == pressed
    ensures (r == Press || r == Release) == (pressed != IsHeld(s))
  {
    match (IsHeld(s), pressed)
    case (false, true) => Press
    case (true, true) => Repeat
    case (true, false) => Release
    case (false, false) => None
  }

  /** The transition table of `UpdateButtonState`, case by case. */
  lemma TransitionTable()
    ensures Next(None, true) == Press && Next(Release, true) == Press
    ensures Next(Press, true) == Repeat && Next(Repeat, true) == Repeat
    ensures Next(Press, false) == Release && Next(Repeat, false) == Release
    ensures Next(Release, false) == None && Next(None, false) == None
  {
  }

  /** `FDualSenseButtonData`. */
  class ButtonData {
    var key: GamepadKey
    var buttonState: ButtonState
    var isPressed: bool

    /** The default constructor: no key, no input. */
    constructor ()
      ensures key == NoKey && buttonState == None && !isPressed
    {
      key := NoKey;
      buttonState := None;
      isPressed := false;
    }

    /** The constructor taking the engine key. */
    constructor WithKey(k: GamepadKey)
      ensures key == k && buttonState == None && !isPressed
    {
      key := k;
      buttonState := None;
      isPressed := false;
    }

    /**
     * `UpdateButtonState`: record the reading and step the state machine. Only
     * the state and the flag may change; the key never does.
     */
    method UpdateButtonState(pressed: bool)
      modifies this`buttonState, this`isPressed
      ensures isPressed == pressed
      ensures buttonState == Next(old(buttonState), pressed)
      ensures key == old(key)
    {
      isPressed := pressed;
      if isPressed {
        match buttonState
        case None | Release =>
          buttonState := Press;
        case Press =>
          buttonState := Repeat;
        case Repeat =>
      } else {
        match buttonState
        case Press | Repeat =>
          buttonState := Release;
        case Release =>
          buttonState := None;
        case None =>
      }
    }
  }

  // ---------------------------------------------------------------------
  // Traces
  // ---------------------------------------------------------------------

  /** The states visited, tick by tick, when the readings `inputs` arrive in state `s`. */
  function Run(s: ButtonState, inputs: seq<bool>): (visited: seq<ButtonState>)
    ensures |visited| == |inputs|
    decreases |inputs|
  {
    if inputs == [] then [] else var t := Next(s, inputs[0]); [t] + Run(t, inputs[1..])
  }

  /** The state after the readings `inputs`. */
  function Final(s: ButtonState, inputs: seq<bool>): ButtonState {
    if inputs == [] then s else Run(s, inputs)[|inputs| - 1]
  }

  /** `n` copies of `x`. */
  function Copies<T>(x: T, n: nat): (r: seq<T>)
    ensures |r| == n
    ensures forall i :: 0 <= i < n ==> r[i] == x
  {
    seq(n, _ => x)
  }

  /** Each visited state is the step from the state before it. */
  lemma {:induction false} RunStep(s: ButtonState, inputs: seq<bool>, i: nat)
    requires i < |inputs|
    ensures Run(s, inputs)[i] == Next(if i == 0 then s else Run(s, inputs)[i - 1], inputs[i])
    decreases |inputs|
  {
    if i > 0 {
      var t := Next(s, inputs[0]);
      RunStep(t, inputs[1..], i - 1);
      if i > 1 {
        assert Run(s, inputs)[i - 1] == Run(t, inputs[1..])[i - 2];
      }
    }
  }

  /** Feeding `a` then `b` visits the states of `a`, then those of `b` from where `a` ended. */
  lemma {:induction false} RunAppend(s: ButtonState, a: seq<bool>, b: seq<bool>)
    ensures Run(s, a + b) == Run(s, a) + Run(Final(s, a), b)
    decreases |a|
  {
    if a == [] {
      assert a + b == b;
    } else {
      var t := Next(s, a[0]);
      assert (a + b)[1..] == a[1..] + b;
      RunAppend(t, a[1..], b);
      assert Final(s, a) == Final(t, a[1..]);
    }
  }

  /** Whatever the history, a button is held exactly on the ticks it reads pressed. */
  lemma {:induction false} RunTracksInput(s: ButtonState, inputs: seq<bool>, i: nat)
    requires i < |inputs|
    ensures IsHeld(Run(s, inputs)[i]) == inputs[i]
  {
    RunStep(s, inputs, i);
  }

  /** RELEASE is only ever entered from PRESS or REPEAT. */
  lemma {:induction false} ReleaseFollowsHeld(s: ButtonState, inputs: seq<bool>, i: nat)
    requires i < |inputs|
    requires Run(s, inputs)[i] == Release
    ensures IsHeld(if i == 0 then s else Run(s, inputs)[i - 1])
  {
    RunStep(s, inputs, i);
  }

  /** Holding the button for `n` ticks from a held state visits REPEAT each tick. */
  lemma {:induction false} HoldRepeats(s: ButtonState, n: nat)
    requires IsHeld(s)
    ensures Run(s, Copies(true, n)) == Copies(Repeat, n)
    decreases n
  {
    if n > 0 {
      assert Copies(true, n)[1..] == Copies(true, n - 1);
      HoldRepeats(Repeat, n - 1);
    }
  }

  /** Leaving the button up for `n` ticks from NONE stays in NONE. */
  lemma {:induction false} IdleStays(n: nat)
    ensures Run(None, Copies(false, n)) == Copies(None, n)
    decreases n
  {
    if n > 0 {
      assert Copies(false, n)[1..] == Copies(false, n - 1);
      IdleStays(n - 1);
    }
  }

  /**
   * A press held for `n` ticks and then released for `m` ticks, starting from
   * NONE, visits PRESS once, REPEAT `n - 1` times, RELEASE once and then NONE.
   */
  lemma {:induction false} PressHoldRelease(n: nat, m: nat)
    requires n >= 1 && m >= 1
    ensures Run(None, Copies(true, n) + Copies(false, m)) ==
            [Press] + Copies(Repeat, n - 1) + [Release] + Copies(None, m - 1)
  {
    var ups, downs := Copies(true, n), Copies(false, m);
    RunAppend(None, ups, downs);
    assert ups[1..] == Copies(true, n - 1);
    HoldRepeats(Press, n - 1);
    assert Run(None, ups) == [Press] + Copies(Repeat, n - 1);
    var held := Final(None, ups);
    assert IsHeld(held);
    assert downs[1..] == Copies(false, m - 1);
    IdleStays(m - 1);
    assert Run(held, downs) == [Release] + Copies(None, m - 1);
  }
}
