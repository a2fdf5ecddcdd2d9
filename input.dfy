/** The key-state table of input.js: which keyboard key codes are currently held.
    The source keeps a dictionary whose only stored value is `true`; a key is
    down exactly when its code is a key of that dictionary, so the table is
    modelled as the set of those codes. */
module Input {

  /** Key codes of the eight controls (input.js:4-11). */
  const LEFT: int := 37
  const UP: int := 38
  const RIGHT: int := 39
  const DOWN: int := 40
  const W: int := 87
  const A: int := 65
  const S: int := 83
  const D: int := 68

  /** The browser key event; only its key code is read. */
  datatype KeyEvent = KeyEvent(keyCode: int)

  /** The eight control codes are pairwise distinct, so no key drives two controls. */
  lemma ControlCodesDistinct()
    ensures |{LEFT, UP, RIGHT, DOWN, W, A, S, D}| == 8
  {
  }

  class Key {
    /** The codes of the keys whose key-down has not yet been followed by a key-up. */
    var pressed: set<int>

    constructor ()
      ensures forall code :: !IsDown(code)
    {
      pressed := {};
    }

    /** An absent entry reads as `undefined` in the source, which is "not down". */
    function IsDown(keyCode: int): bool
      reads this
    {
      keyCode in pressed
    }

    method OnKeydown(event: KeyEvent)
      modifies this
      ensures IsDown(event.keyCode)
      ensures forall code :: code != event.keyCode ==> IsDown(code) == old(IsDown(code))
      ensures old(IsDown(event.keyCode)) ==> pressed == old(pressed)
    {
      pressed := pressed + {event.keyCode};
    }

    method OnKeyup(event: KeyEvent)
      modifies this
      ensures !IsDown(event.keyCode)
      ensures forall code :: code != event.keyCode ==> IsDown(code) == old(IsDown(code))
      ensures !old(IsDown(event.keyCode)) ==> pressed == old(pressed)
    {
      pressed := pressed - {event.keyCode};
    }
  }
}
