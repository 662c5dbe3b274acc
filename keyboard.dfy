/** The key-state tracker `Keyboarder`: a map from key code to "held",
    written by key-down and key-up events, last event winning. */
module Keyboard {

  /** `Keyboarder.KEYS`. */
  const KeyLeft: int := 37
  const KeyRight: int := 39
  const KeyUp: int := 38
  const KeyDown: int := 40
  const KeyS: int := 83
  const KeySpace: int := 32

  datatype Option<T> = None | Some(value: T)

  /** A host keyboard event: `keydown` or `keyup` with its key code. */
  datatype KeyEvent = Pressed(code: int) | Released(code: int)

  /** `isDown`: `keyState[code] === true`; a code never seen is undefined, hence not down. */
  predicate Held(keyState: map<int, bool>, code: int) {
    code in keyState && keyState[code]
  }

  /** The effect of one event listener on the key state. */
  function Apply(keyState: map<int, bool>, e: KeyEvent): map<int, bool> {
    match e
    case Pressed(c) => keyState[c := true]
    case Released(c) => keyState[c := false]
  }

  /** The key state after a run of events, oldest first. */
  function Replay(keyState: map<int, bool>, events: seq<KeyEvent>): map<int, bool>
    decreases |events|
  {
    if events == [] then keyState
    else Apply(Replay(keyState, events[..|events| - 1]), events[|events| - 1])
  }

  /** The last event about `code` in `events`, if any: `Some(true)` for a press. */
  function LastFor(events: seq<KeyEvent>, code: int): (r: Option<bool>)
    ensures r.None? <==> forall i :: 0 <= i < |events| ==> events[i].code != code
    decreases |events|
  {
    if events == [] then None
    else if events[|events| - 1].code == code then Some(events[|events| - 1].Pressed?)
    else LastFor(events[..|events| - 1], code)
  }

  /** Last writer wins: a key is down after a run of events exactly when the
      last event about it was a press, or there was none and it was down before. */
  lemma {:induction false} LastEventWins(keyState: map<int, bool>, events: seq<KeyEvent>, code: int)
    ensures Held(Replay(keyState, events), code) <==>
      match LastFor(events, code)
      case None => Held(keyState, code)
      case Some(down) => down
    decreases |events|
  {
    if events != [] {
      LastEventWins(keyState, events[..|events| - 1], code);
    }
  }

  class Keyboarder {
    var keyState: map<int, bool>

    /** Starts with no key known, so no key is down. */
    constructor ()
      ensures keyState == map[]
      ensures forall code :: !IsDown(code)
    {
      keyState := map[];
    }

    /** The `keydown` listener. */
    method OnKeyDown(code: int)
      modifies this
      ensures keyState == Apply(old(keyState), Pressed(code))
      ensures IsDown(code)
      ensures forall c :: c != code ==> IsDown(c) == old(IsDown(c))
    {
      keyState := keyState[code := true];
    }

    /** The `keyup` listener. */
    method OnKeyUp(code: int)
      modifies this
      ensures keyState == Apply(old(keyState), Released(code))
      ensures !IsDown(code)
      ensures forall c :: c != code ==> IsDown(c) == old(IsDown(c))
    {
      keyState := keyState[code := false];
    }

    predicate IsDown(code: int)
      reads this
    {
      Held(keyState, code)
    }
  }
}
