// Key-state tracker of the Win32 low-level keyboard device: a map from key to
// its current state, a snapshot of that map taken on every tick, and the
// message dispatch of the keyboard hook that feeds the current map.

module Keyboard {
  import opened Wrappers
  import opened Lists

  /** A virtual-key code; the hook casts the raw code to the key enumeration. */
  type Key = int

  const KeyUpMessage: int := 0x0101
  const SysKeyUpMessage: int := 0x0105
  const KeyDownMessage: int := 0x0100
  const SysKeyDownMessage: int := 0x0104

  /** A key counts as down when the map has an entry for it and that entry is true. */
  predicate Down(state: map<Key, bool>, key: Key)
  {
    key in state && state[key]
  }

  /** The state a hook message assigns to its key, or None when the hook
      leaves the map alone (a negative hook code or an unrelated message). */
  function Transition(code: int, message: int): (r: Option<bool>)
    ensures r == Some(false) <==> code >= 0 && (message == KeyUpMessage || message == SysKeyUpMessage)
    ensures r == Some(true) <==> code >= 0 && (message == KeyDownMessage || message == SysKeyDownMessage)
    ensures r.None? <==> code < 0 || message !in {KeyUpMessage, SysKeyUpMessage, KeyDownMessage, SysKeyDownMessage}
  {
    if code < 0 then None
    else if message == KeyDownMessage || message == SysKeyDownMessage then Some(true)
    else if message == KeyUpMessage || message == SysKeyUpMessage then Some(false)
    else None
  }

  /** The key-state dictionary: its entries, and its keys in enumeration
      (insertion) order, which the tick's foreach walks. */
  class Win32Keyboard {
    var isEnabled: bool
    var keystate: map<Key, bool>
    var keys: seq<Key>
    var lastKeystate: map<Key, bool>

    /** The enumeration order lists every key of the dictionary exactly once. */
    ghost predicate Valid()
      reads this
    {
      NoDuplicates(keys) && (forall k :: k in keystate <==> k in keys)
    }

    /** Both maps start empty; the enabled flag keeps its default, false. */
    constructor()
      ensures Valid()
      ensures keystate == map[] && lastKeystate == map[] && !isEnabled
    {
      isEnabled := false;
      keystate := map[];
      keys := [];
      lastKeystate := map[];
    }

    predicate IsKeyDown(key: Key)
      reads this
    {
      Down(keystate, key)
    }

    /** Key-up is the exact negation of key-down, for every key. */
    predicate IsKeyUp(key: Key)
      reads this
      ensures IsKeyUp(key) <==> !IsKeyDown(key)
    {
      key !in keystate || !keystate[key]
    }

    /** Pressed means down now and not down at the last tick. */
    predicate IsKeyPressed(key: Key)
      reads this
      ensures IsKeyPressed(key) <==> IsKeyDown(key) && !Down(lastKeystate, key)
    {
      (key !in lastKeystate || !lastKeystate[key]) && key in keystate && keystate[key]
    }

    /** Records the state of one key; every other key keeps its entry. */
    method SetKeyState(key: Key, state: bool)
      requires Valid()
      modifies this
      ensures Valid()
      ensures keystate == old(keystate)[key := state]
      ensures lastKeystate == old(lastKeystate) && isEnabled == old(isEnabled)
      ensures IsKeyDown(key) == state
      ensures forall k :: k != key ==> (k in keystate <==> k in old(keystate))
      ensures forall k :: k != key && k in keystate ==> keystate[k] == old(keystate)[k]
    {
      if key !in keystate {
        keystate := keystate[key := state];
        keys := keys + [key];
      }
      keystate := keystate[key := state];
    }

    /** When enabled, the snapshot is cleared and refilled entry by entry
        from the current map, so afterwards no key is pressed; when
        disabled, nothing changes. */
    method Tick()
      requires Valid()
      modifies this
      ensures Valid()
      ensures keystate == old(keystate) && isEnabled == old(isEnabled)
      ensures isEnabled ==> lastKeystate == keystate
      ensures isEnabled ==> forall k :: !IsKeyPressed(k)
      ensures !isEnabled ==> lastKeystate == old(lastKeystate)
    {
      if isEnabled {
        lastKeystate := map[];
        var i := 0;
        while i < |keys|
          invariant 0 <= i <= |keys|
          invariant Valid() && keystate == old(keystate) && keys == old(keys) && isEnabled
          invariant lastKeystate == map k | k in keys[..i] :: keystate[k]
        {
          // Dictionary.Add would throw on a repeated key; the order has none.
          var key := keys[i];
          assert key in keys;
          assert key in keystate;
          assert key !in lastKeystate;
          lastKeystate := lastKeystate[key := keystate[key]];
          i := i + 1;
        }
        assert keys[..i] == keys;
        assert lastKeystate == map k | k in keys :: keystate[k];
        assert forall k :: k in lastKeystate <==> k in keystate;
      }
    }

    /** The hook's dispatch: a non-negative code with a key-up message
        releases the key, one with a key-down message presses it, and
        anything else leaves the map as it was. */
    method HookCallback(code: int, message: int, vkcode: Key)
      requires Valid()
      modifies this
      ensures Valid()
      ensures lastKeystate == old(lastKeystate) && isEnabled == old(isEnabled)
      ensures Transition(code, message).Some? ==> keystate == old(keystate)[vkcode := Transition(code, message).value]
      ensures Transition(code, message).None? ==> keystate == old(keystate)
    {
      if code < 0 {
        return;
      }
      if message == KeyUpMessage || message == SysKeyUpMessage {
        SetKeyState(vkcode, false);
      }
      if message == KeyDownMessage || message == SysKeyDownMessage {
        SetKeyState(vkcode, true);
      }
    }
  }
}
