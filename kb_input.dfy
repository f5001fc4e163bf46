/**
 * The GLFW key and mouse-button callbacks: each event updates a handful of
 * global boolean flags that the render loop polls. The key flags live in a
 * `KeyboardState` object and the mouse flags in a `MouseState` object;
 * `KeyTransition` and `MouseTransition` say what one event does to them,
 * flag by flag.
 */
module KbInput {

  /** GLFW action codes. */
  const RELEASE: int := 0
  const PRESS: int := 1
  const REPEAT: int := 2

  /** GLFW key codes the callback reacts to. */
  const KEY_W: int := 87
  const KEY_E: int := 69
  const KEY_Q: int := 81
  const KEY_ESCAPE: int := 256
  const KEY_S: int := 83
  const KEY_D: int := 68
  const KEY_A: int := 65
  const KEY_LEFT_SHIFT: int := 340
  const KEY_LEFT_SUPER: int := 343
  const KEY_ENTER: int := 257

  /** GLFW mouse button codes. */
  const MOUSE_BUTTON_LEFT: int := 0
  const MOUSE_BUTTON_RIGHT: int := 1
  const MOUSE_BUTTON_MIDDLE: int := 2

  /** The keys whose flag simply follows the key: set on press, cleared on release. */
  predicate IsHeldKey(k: int)
  {
    k == KEY_W || k == KEY_E || k == KEY_Q || k == KEY_ESCAPE || k == KEY_S
    || k == KEY_D || k == KEY_A || k == KEY_LEFT_SHIFT || k == KEY_LEFT_SUPER
  }

  /** The keyboard flags: `UP_PRESS`, `E_KEY`, `Q_KEY`, `ESC`, `DOWN`, `RIGHT`, `LEFT`, `SHIFT`, `COM`, `ENTER`, `ENTER_FLAG`. */
  datatype KeyFlags = KeyFlags(
    upPress: bool, eKey: bool, qKey: bool, esc: bool, down: bool,
    right: bool, left: bool, shift: bool, com: bool,
    enter: bool, enterFlag: bool)

  /** The mouse flags: `MPRESS_L`, `MRELEASE_L`, `MCLICK_L`, `MPRESS_R`, `MFLAG_R`, `MPRESS_M`, `MFLAG_M`. */
  datatype MouseFlags = MouseFlags(
    pressL: bool, releaseL: bool, clickL: bool,
    pressR: bool, flagR: bool,
    pressM: bool, flagM: bool)

  /** The flag a held key drives (false for any other key). */
  function HeldFlag(flags: KeyFlags, key: int): bool
  {
    if key == KEY_W then flags.upPress
    else if key == KEY_E then flags.eKey
    else if key == KEY_Q then flags.qKey
    else if key == KEY_ESCAPE then flags.esc
    else if key == KEY_S then flags.down
    else if key == KEY_D then flags.right
    else if key == KEY_A then flags.left
    else if key == KEY_LEFT_SHIFT then flags.shift
    else if key == KEY_LEFT_SUPER then flags.com
    else false
  }

  /** One `if (key == k && action == PRESS) ... else if (key == k && action == RELEASE) ...` pair. */
  function Follow(flag: bool, key: int, action: int, k: int): bool
  {
    (key == k && action == PRESS) || (flag && !(key == k && action == RELEASE))
  }

  /** The flags after one `key_callback` event. */
  function KeyTransition(flags: KeyFlags, key: int, action: int): (r: KeyFlags)
    ensures key == KEY_ENTER && action == PRESS ==> r.enter && r.enterFlag == flags.enterFlag
    ensures key == KEY_ENTER && action == RELEASE ==> !r.enter && r.enterFlag
    ensures key != KEY_ENTER ==> r.enter == flags.enter && r.enterFlag == flags.enterFlag
    ensures flags.enterFlag ==> r.enterFlag
  {
    KeyFlags(
      Follow(flags.upPress, key, action, KEY_W),
      Follow(flags.eKey, key, action, KEY_E),
      Follow(flags.qKey, key, action, KEY_Q),
      Follow(flags.esc, key, action, KEY_ESCAPE),
      Follow(flags.down, key, action, KEY_S),
      Follow(flags.right, key, action, KEY_D),
      Follow(flags.left, key, action, KEY_A),
      Follow(flags.shift, key, action, KEY_LEFT_SHIFT),
      Follow(flags.com, key, action, KEY_LEFT_SUPER),
      if key == KEY_ENTER && action == PRESS then true
      else if key == KEY_ENTER && action == RELEASE then false
      else flags.enter,
      flags.enterFlag || (key == KEY_ENTER && action == RELEASE))
  }

  /** The flags after one `mouse_callback` event. */
  function MouseTransition(flags: MouseFlags, button: int, action: int): (r: MouseFlags)
    ensures button == MOUSE_BUTTON_LEFT && action == PRESS ==> r.pressL && r.clickL
    ensures button == MOUSE_BUTTON_LEFT && action == RELEASE ==> r.releaseL && !r.pressL && !r.clickL
    ensures !(button == MOUSE_BUTTON_LEFT && action == PRESS) ==> !r.pressL && !r.clickL
    ensures !(button == MOUSE_BUTTON_LEFT && action == RELEASE) ==> r.releaseL == flags.releaseL
    ensures flags.releaseL ==> r.releaseL
    ensures r.pressR <==> button == MOUSE_BUTTON_RIGHT && action == PRESS
    ensures r.pressM <==> button == MOUSE_BUTTON_MIDDLE && action == PRESS
    ensures button == MOUSE_BUTTON_RIGHT && action == RELEASE ==> r.flagR
    ensures !(button == MOUSE_BUTTON_RIGHT && action == RELEASE) ==> r.flagR == flags.flagR
    ensures button == MOUSE_BUTTON_MIDDLE && action == RELEASE ==> r.flagM
    ensures !(button == MOUSE_BUTTON_MIDDLE && action == RELEASE) ==> r.flagM == flags.flagM
  {
    var leftPress := button == MOUSE_BUTTON_LEFT && action == PRESS;
    var leftRelease := button == MOUSE_BUTTON_LEFT && action == RELEASE;
    MouseFlags(
      leftPress,
      flags.releaseL || leftRelease,
      leftPress,
      button == MOUSE_BUTTON_RIGHT && action == PRESS,
      flags.flagR || (button == MOUSE_BUTTON_RIGHT && action == RELEASE),
      button == MOUSE_BUTTON_MIDDLE && action == PRESS,
      flags.flagM || (button == MOUSE_BUTTON_MIDDLE && action == RELEASE))
  }

  /** Each held key's flag follows that key's own press/release rule, whatever the event. */
  lemma HeldKeyFollows(flags: KeyFlags, key: int, action: int, k: int)
    requires IsHeldKey(k)
    ensures HeldFlag(KeyTransition(flags, key, action), k) == Follow(HeldFlag(flags, k), key, action, k)
  {
    assert k == KEY_W || k == KEY_E || k == KEY_Q || k == KEY_ESCAPE || k == KEY_S
      || k == KEY_D || k == KEY_A || k == KEY_LEFT_SHIFT || k == KEY_LEFT_SUPER;
    var r := KeyTransition(flags, key, action);
    if k == KEY_W {
      assert HeldFlag(r, k) == r.upPress;
    } else if k == KEY_E {
      assert HeldFlag(r, k) == r.eKey;
    } else if k == KEY_Q {
      assert HeldFlag(r, k) == r.qKey;
    } else if k == KEY_ESCAPE {
      assert HeldFlag(r, k) == r.esc;
    } else if k == KEY_S {
      assert HeldFlag(r, k) == r.down;
    } else if k == KEY_D {
      assert HeldFlag(r, k) == r.right;
    } else if k == KEY_A {
      assert HeldFlag(r, k) == r.left;
    } else if k == KEY_LEFT_SHIFT {
      assert HeldFlag(r, k) == r.shift;
    } else if k == KEY_LEFT_SUPER {
      assert HeldFlag(r, k) == r.com;
    }
  }

  /**
   * A held key's flag is set by its press and cleared by its release, and
   * events for any other key leave it alone.
   */
  lemma HeldKeyFlag(flags: KeyFlags, key: int, action: int, k: int)
    requires IsHeldKey(k)
    ensures key == k && action == PRESS ==> HeldFlag(KeyTransition(flags, key, action), k)
    ensures key == k && action == RELEASE ==> !HeldFlag(KeyTransition(flags, key, action), k)
    ensures key != k ==> HeldFlag(KeyTransition(flags, key, action), k) == HeldFlag(flags, k)
  {
    HeldKeyFollows(flags, key, action, k);
  }

  /** A state whose every flag follows its own rule is the transition's result. */
  lemma KeyTransitionByFlag(before: KeyFlags, after: KeyFlags, key: int, action: int)
    requires after.upPress == Follow(before.upPress, key, action, KEY_W)
    requires after.eKey == Follow(before.eKey, key, action, KEY_E)
    requires after.qKey == Follow(before.qKey, key, action, KEY_Q)
    requires after.esc == Follow(before.esc, key, action, KEY_ESCAPE)
    requires after.down == Follow(before.down, key, action, KEY_S)
    requires after.right == Follow(before.right, key, action, KEY_D)
    requires after.left == Follow(before.left, key, action, KEY_A)
    requires after.shift == Follow(before.shift, key, action, KEY_LEFT_SHIFT)
    requires after.com == Follow(before.com, key, action, KEY_LEFT_SUPER)
    requires after.enter == (if key == KEY_ENTER && action == PRESS then true
                             else if key == KEY_ENTER && action == RELEASE then false
                             else before.enter)
    requires after.enterFlag == (before.enterFlag || (key == KEY_ENTER && action == RELEASE))
    ensures after == KeyTransition(before, key, action)
  {
  }

  /** The held-key flags of `r` and `flags` agree. */
  predicate SameHeldFlags(r: KeyFlags, flags: KeyFlags)
  {
    r.upPress == flags.upPress && r.eKey == flags.eKey && r.qKey == flags.qKey && r.esc == flags.esc
    && r.down == flags.down && r.right == flags.right && r.left == flags.left
    && r.shift == flags.shift && r.com == flags.com
  }

  /** A key event that is neither a press nor a release (a repeat, say) changes no flag. */
  lemma OtherActionChangesNothing(flags: KeyFlags, key: int, action: int)
    requires action != PRESS && action != RELEASE
    ensures KeyTransition(flags, key, action) == flags
  {
    var r := KeyTransition(flags, key, action);
    assert SameHeldFlags(r, flags);
    assert r.enter == flags.enter && r.enterFlag == flags.enterFlag;
  }

  /** An event for a key the callback does not watch changes no flag. */
  lemma OtherKeyChangesNothing(flags: KeyFlags, key: int, action: int)
    requires !IsHeldKey(key) && key != KEY_ENTER
    ensures KeyTransition(flags, key, action) == flags
  {
    var r := KeyTransition(flags, key, action);
    assert SameHeldFlags(r, flags);
    assert r.enter == flags.enter && r.enterFlag == flags.enterFlag;
  }

  /** A key event as GLFW delivers it. */
  datatype KeyEvent = KeyEvent(key: int, action: int)

  /** A mouse-button event as GLFW delivers it. */
  datatype MouseEvent = MouseEvent(button: int, action: int)

  /** The keyboard flags after a run of key events. */
  function KeyRun(flags: KeyFlags, events: seq<KeyEvent>): KeyFlags
    decreases |events|
  {
    if |events| == 0 then flags
    else KeyRun(KeyTransition(flags, events[0].key, events[0].action), events[1..])
  }

  /** The mouse flags after a run of mouse events. */
  function MouseRun(flags: MouseFlags, events: seq<MouseEvent>): MouseFlags
    decreases |events|
  {
    if |events| == 0 then flags
    else MouseRun(MouseTransition(flags, events[0].button, events[0].action), events[1..])
  }

  /** Once raised, `ENTER_FLAG` stays raised whatever keys follow. */
  lemma {:induction false} EnterFlagStaysRaised(flags: KeyFlags, events: seq<KeyEvent>)
    requires flags.enterFlag
    ensures KeyRun(flags, events).enterFlag
    decreases |events|
  {
    if |events| > 0 {
      EnterFlagStaysRaised(KeyTransition(flags, events[0].key, events[0].action), events[1..]);
    }
  }

  /** Once raised, `MRELEASE_L`, `MFLAG_R` and `MFLAG_M` stay raised whatever mouse events follow. */
  lemma {:induction false} MouseFlagsStayRaised(flags: MouseFlags, events: seq<MouseEvent>)
    ensures flags.releaseL ==> MouseRun(flags, events).releaseL
    ensures flags.flagR ==> MouseRun(flags, events).flagR
    ensures flags.flagM ==> MouseRun(flags, events).flagM
    decreases |events|
  {
    if |events| > 0 {
      MouseFlagsStayRaised(MouseTransition(flags, events[0].button, events[0].action), events[1..]);
    }
  }

  /** Repeating a key event changes nothing more. */
  lemma KeyTransitionIdempotent(flags: KeyFlags, key: int, action: int)
    ensures KeyTransition(KeyTransition(flags, key, action), key, action) == KeyTransition(flags, key, action)
  {
  }

  /** Events for two different keys can be applied in either order. */
  lemma KeyTransitionsCommute(flags: KeyFlags, key1: int, action1: int, key2: int, action2: int)
    requires key1 != key2
    ensures KeyTransition(KeyTransition(flags, key1, action1), key2, action2)
      == KeyTransition(KeyTransition(flags, key2, action2), key1, action1)
  {
  }

  /** The keyboard flags of the input callbacks (globals of the source). */
  class KeyboardState {
    var upPress: bool
    var eKey: bool
    var qKey: bool
    var down: bool
    var right: bool
    var left: bool
    var shift: bool
    var com: bool
    var enter: bool
    var enterFlag: bool
    var esc: bool

    /** The flags as a value. */
    function Keys(): KeyFlags
      reads this
    {
      KeyFlags(upPress, eKey, qKey, esc, down, right, left, shift, com, enter, enterFlag)
    }

    /** The static initialisers. */
    constructor ()
      ensures Keys() == KeyFlags(false, false, false, false, false, false, false, false, false, false, true)
    {
      upPress, eKey, qKey, down, right, left, shift, com := false, false, false, false, false, false, false, false;
      enter, enterFlag, esc := false, true, false;
    }

    /** The W, E, Q and Escape pairs of `key_callback`. */
    method FollowFirstKeys(key: int, action: int)
      modifies this`upPress, this`eKey, this`qKey, this`esc
      ensures upPress == Follow(old(upPress), key, action, KEY_W)
      ensures eKey == Follow(old(eKey), key, action, KEY_E)
      ensures qKey == Follow(old(qKey), key, action, KEY_Q)
      ensures esc == Follow(old(esc), key, action, KEY_ESCAPE)
    {
      if key == KEY_W && action == PRESS {
        upPress := true;
      } else if key == KEY_W && action == RELEASE {
        upPress := false;
      }
      if key == KEY_E && action == PRESS {
        eKey := true;
      } else if key == KEY_E && action == RELEASE {
        eKey := false;
      }
      if key == KEY_Q && action == PRESS {
        qKey := true;
      } else if key == KEY_Q && action == RELEASE {
        qKey := false;
      }
      if key == KEY_ESCAPE && action == PRESS {
        esc := true;
      } else if key == KEY_ESCAPE && action == RELEASE {
        esc := false;
      }
    }

    /** The S, D, A, left Shift and left Super pairs of `key_callback`. */
    method FollowLastKeys(key: int, action: int)
      modifies this`down, this`right, this`left, this`shift, this`com
      ensures down == Follow(old(down), key, action, KEY_S)
      ensures right == Follow(old(right), key, action, KEY_D)
      ensures left == Follow(old(left), key, action, KEY_A)
      ensures shift == Follow(old(shift), key, action, KEY_LEFT_SHIFT)
      ensures com == Follow(old(com), key, action, KEY_LEFT_SUPER)
    {
      if key == KEY_S && action == PRESS {
        down := true;
      } else if key == KEY_S && action == RELEASE {
        down := false;
      }
      if key == KEY_D && action == PRESS {
        right := true;
      } else if key == KEY_D && action == RELEASE {
        right := false;
      }
      if key == KEY_A && action == PRESS {
        left := true;
      } else if key == KEY_A && action == RELEASE {
        left := false;
      }
      if key == KEY_LEFT_SHIFT && action == PRESS {
        shift := true;
      } else if key == KEY_LEFT_SHIFT && action == RELEASE {
        shift := false;
      }
      if key == KEY_LEFT_SUPER && action == PRESS {
        com := true;
      } else if key == KEY_LEFT_SUPER && action == RELEASE {
        com := false;
      }
    }

    /** The two Enter tests of `key_callback`. */
    method EnterKey(key: int, action: int)
      modifies this`enter, this`enterFlag
      ensures enter == (if key == KEY_ENTER && action == PRESS then true
                        else if key == KEY_ENTER && action == RELEASE then false
                        else old(enter))
      ensures enterFlag == (old(enterFlag) || (key == KEY_ENTER && action == RELEASE))
    {
      if key == KEY_ENTER && action == PRESS {
        enter := true;
      }
      if key == KEY_ENTER && action == RELEASE {
        enter := false;
        enterFlag := true;
      }
    }

    /**
     * `key_callback`: the scan code and modifiers are ignored. Its tests run
     * in the source's order, split over three helpers that touch disjoint
     * flags.
     */
    method KeyCallback(key: int, scancode: int, action: int, mods: int)
      modifies this
      ensures Keys() == KeyTransition(old(Keys()), key, action)
    {
      ghost var before := Keys();
      FollowFirstKeys(key, action);
      FollowLastKeys(key, action);
      EnterKey(key, action);
      KeyTransitionByFlag(before, Keys(), key, action);
    }
  }

  /** The mouse-button flags of the input callbacks (globals of the source). */
  class MouseState {
    var pressR: bool
    var flagR: bool
    var pressL: bool
    var releaseL: bool
    var clickL: bool
    var pressM: bool
    var flagM: bool

    /** The flags as a value. */
    function Mouse(): MouseFlags
      reads this
    {
      MouseFlags(pressL, releaseL, clickL, pressR, flagR, pressM, flagM)
    }

    /** The static initialisers. */
    constructor ()
      ensures Mouse() == MouseFlags(false, false, false, false, true, false, true)
    {
      pressR, flagR, pressL, releaseL, clickL, pressM, flagM := false, true, false, false, false, false, true;
    }

    /** `mouse_callback`: the modifiers are ignored. */
    method MouseCallback(button: int, action: int, mods: int)
      modifies this
      ensures Mouse() == MouseTransition(old(Mouse()), button, action)
    {
      if button == MOUSE_BUTTON_LEFT && action == PRESS {
        pressL := true;
        clickL := true;
      } else if button == MOUSE_BUTTON_LEFT && action == RELEASE {
        releaseL := true;
        pressL := false;
        clickL := false;
      } else {
        pressL := false;
        clickL := false;
      }
      if button == MOUSE_BUTTON_RIGHT && action == PRESS {
        pressR := true;
      } else {
        pressR := false;
      }
      if button == MOUSE_BUTTON_RIGHT && action == RELEASE {
        flagR := true;
      }
      if button == MOUSE_BUTTON_MIDDLE && action == PRESS {
        pressM := true;
      } else {
        pressM := false;
      }
      if button == MOUSE_BUTTON_MIDDLE && action == RELEASE {
        flagM := true;
      }
    }
  }
}
