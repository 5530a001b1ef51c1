/**
 * The keyboard side of the movement loop in src/App.jsx: the set of held keys
 * that key-down and key-up events update, and the per-frame axis signal
 * derived from it.
 */
module Input {

  /** `toLowerCase` on one character (ASCII letters only; see README). */
  function LowerChar(c: char): char {
    if 'A' <= c <= 'Z' then (c as int + 32) as char else c
  }

  predicate IsUpper(c: char) {
    'A' <= c <= 'Z'
  }

  /** `key.toLowerCase()`: the same characters with every capital letter replaced by its small letter. */
  function Lower(s: string): (r: string)
    ensures |r| == |s|
    ensures forall i :: 0 <= i < |s| ==> r[i] == LowerChar(s[i])
    ensures forall i :: 0 <= i < |r| ==> !IsUpper(r[i])
  {
    seq(|s|, i requires 0 <= i < |s| => LowerChar(s[i]))
  }

  /** Lower-casing twice is lower-casing once. */
  lemma LowerIdempotent(s: string)
    ensures Lower(Lower(s)) == Lower(s)
  {
  }

  /** A key name with no capital letters is already its own lower-case form. */
  lemma LowerOfLowerCase(s: string)
    requires forall i :: 0 <= i < |s| ==> !IsUpper(s[i])
    ensures Lower(s) == s
  {
  }

  /** Lower-casing is fixed character by character; a helper for concrete key names. */
  lemma LowerIs(s: string, t: string)
    requires |s| == |t| && forall i :: 0 <= i < |s| ==> LowerChar(s[i]) == t[i]
    ensures Lower(s) == t
  {
  }

  /** The browser's key names for the movement keys fold onto the names the loop looks up. */
  lemma MovementKeyNamesFold()
    ensures Lower("W") == "w" && Lower("S") == "s" && Lower("A") == "a" && Lower("D") == "d"
    ensures Lower("ArrowUp") == "arrowup" && Lower("ArrowDown") == "arrowdown"
    ensures Lower("ArrowLeft") == "arrowleft" && Lower("ArrowRight") == "arrowright"
  {
    LowerIs("ArrowUp", "arrowup");
    LowerIs("ArrowDown", "arrowdown");
    LowerIs("ArrowLeft", "arrowleft");
    LowerIs("ArrowRight", "arrowright");
  }

  /** The set after `keys.add(key.toLowerCase())`: the lower-cased key is held, no other key changes. */
  function Press(held: set<string>, key: string): (r: set<string>)
    ensures Lower(key) in r
    ensures forall k :: k != Lower(key) ==> (k in r <==> k in held)
  {
    held + {Lower(key)}
  }

  /** The set after `keys.delete(key.toLowerCase())`: the lower-cased key is released, no other key changes. */
  function Release(held: set<string>, key: string): (r: set<string>)
    ensures Lower(key) !in r
    ensures forall k :: k != Lower(key) ==> (k in r <==> k in held)
  {
    held - {Lower(key)}
  }

  /** Auto-repeated key-down events leave the set as the first one did. */
  lemma PressIdempotent(held: set<string>, key: string)
    ensures Press(Press(held, key), key) == Press(held, key)
  {
  }

  /** Letter case does not matter: `W` and `w` press the same key, and a key-up in either case releases it. */
  lemma PressReleaseCaseInsensitive(held: set<string>, down: string, up: string)
    requires Lower(down) == Lower(up)
    ensures Press(held, down) == Press(held, up)
    ensures Release(Press(held, down), up) == held - {Lower(down)}
  {
  }

  /** The held-key set that the key-down and key-up listeners mutate in place. */
  class KeySet {
    var held: set<string>

    constructor ()
      ensures held == {}
    {
      held := {};
    }

    method KeyDown(key: string)
      modifies this
      ensures held == Press(old(held), key)
    {
      held := held + {Lower(key)};
    }

    method KeyUp(key: string)
      modifies this
      ensures held == Release(old(held), key)
    {
      held := held - {Lower(key)};
    }
  }

  predicate UpHeld(keys: set<string>) { "w" in keys || "arrowup" in keys }
  predicate DownHeld(keys: set<string>) { "s" in keys || "arrowdown" in keys }
  predicate LeftHeld(keys: set<string>) { "a" in keys || "arrowleft" in keys }
  predicate RightHeld(keys: set<string>) { "d" in keys || "arrowright" in keys }

  /** The signal on one axis: +1 towards the positive key, -1 towards the negative one, 0 for neither or both. */
  function Net(negative: bool, positive: bool): (r: int)
    ensures -1 <= r <= 1
    ensures r == 0 <==> negative == positive
    ensures r == 1 <==> positive && !negative
    ensures r == -1 <==> negative && !positive
  {
    (if positive then 1 else 0) - (if negative then 1 else 0)
  }

  /** The axis signal `(dx, dy)` of a held-key set; y grows downwards, as on the canvas. */
  function Signal(keys: set<string>): (s: (int, int))
    ensures -1 <= s.0 <= 1 && -1 <= s.1 <= 1
    ensures s == (0, 0) <==> LeftHeld(keys) == RightHeld(keys) && UpHeld(keys) == DownHeld(keys)
  {
    (Net(LeftHeld(keys), RightHeld(keys)), Net(UpHeld(keys), DownHeld(keys)))
  }

  /** The four conditional updates of `dx` and `dy` at the start of each frame. */
  method AxisSignal(keys: set<string>) returns (dx: int, dy: int)
    ensures (dx, dy) == Signal(keys)
    ensures -1 <= dx <= 1 && -1 <= dy <= 1
  {
    dx := 0;
    dy := 0;
    if "w" in keys || "arrowup" in keys { dy := dy - 1; }
    if "s" in keys || "arrowdown" in keys { dy := dy + 1; }
    if "a" in keys || "arrowleft" in keys { dx := dx - 1; }
    if "d" in keys || "arrowright" in keys { dx := dx + 1; }
  }

  /** Holding both keys of an axis cancels on that axis. */
  lemma OpposingKeysCancel(keys: set<string>)
    ensures LeftHeld(keys) && RightHeld(keys) ==> Signal(keys).0 == 0
    ensures UpHeld(keys) && DownHeld(keys) ==> Signal(keys).1 == 0
  {
  }

  /** Adding a key that only duplicates a held direction leaves the signal unchanged. */
  lemma SameDirectionsSameSignal(keys: set<string>, k: string)
    requires LeftHeld(keys + {k}) == LeftHeld(keys) && RightHeld(keys + {k}) == RightHeld(keys)
    requires UpHeld(keys + {k}) == UpHeld(keys) && DownHeld(keys + {k}) == DownHeld(keys)
    ensures Signal(keys + {k}) == Signal(keys)
  {
  }

  lemma UpAliasCountsOnce(keys: set<string>)
    ensures "w" in keys ==> Signal(keys + {"arrowup"}) == Signal(keys)
    ensures "arrowup" in keys ==> Signal(keys + {"w"}) == Signal(keys)
  {
    if "w" in keys {
      SameDirectionsSameSignal(keys, "arrowup");
    }
    if "arrowup" in keys {
      SameDirectionsSameSignal(keys, "w");
    }
  }

  lemma DownAliasCountsOnce(keys: set<string>)
    ensures "s" in keys ==> Signal(keys + {"arrowdown"}) == Signal(keys)
    ensures "arrowdown" in keys ==> Signal(keys + {"s"}) == Signal(keys)
  {
    if "s" in keys {
      SameDirectionsSameSignal(keys, "arrowdown");
    }
    if "arrowdown" in keys {
      SameDirectionsSameSignal(keys, "s");
    }
  }

  lemma LeftAliasCountsOnce(keys: set<string>)
    ensures "a" in keys ==> Signal(keys + {"arrowleft"}) == Signal(keys)
    ensures "arrowleft" in keys ==> Signal(keys + {"a"}) == Signal(keys)
  {
    if "a" in keys {
      SameDirectionsSameSignal(keys, "arrowleft");
    }
    if "arrowleft" in keys {
      SameDirectionsSameSignal(keys, "a");
    }
  }

  lemma RightAliasCountsOnce(keys: set<string>)
    ensures "d" in keys ==> Signal(keys + {"arrowright"}) == Signal(keys)
    ensures "arrowright" in keys ==> Signal(keys + {"d"}) == Signal(keys)
  {
    if "d" in keys {
      SameDirectionsSameSignal(keys, "arrowright");
    }
    if "arrowright" in keys {
      SameDirectionsSameSignal(keys, "d");
    }
  }

  /**
   * A letter key and its arrow key on the same direction count once: with one
   * of them held, pressing the other as well changes nothing, on every one of
   * the four directions. For example `w` with `arrowup` and no down key gives
   * dy = -1.
   */
  lemma AliasedKeysCountOnce(keys: set<string>)
    ensures "w" in keys ==> Signal(keys + {"arrowup"}) == Signal(keys)
    ensures "arrowup" in keys ==> Signal(keys + {"w"}) == Signal(keys)
    ensures "s" in keys ==> Signal(keys + {"arrowdown"}) == Signal(keys)
    ensures "arrowdown" in keys ==> Signal(keys + {"s"}) == Signal(keys)
    ensures "a" in keys ==> Signal(keys + {"arrowleft"}) == Signal(keys)
    ensures "arrowleft" in keys ==> Signal(keys + {"a"}) == Signal(keys)
    ensures "d" in keys ==> Signal(keys + {"arrowright"}) == Signal(keys)
    ensures "arrowright" in keys ==> Signal(keys + {"d"}) == Signal(keys)
    ensures "w" in keys && "arrowup" in keys && !DownHeld(keys) ==>
      Signal(keys).1 == -1 && Signal(keys) == Signal(keys - {"arrowup"}) == Signal(keys - {"w"})
  {
    UpAliasCountsOnce(keys);
    DownAliasCountsOnce(keys);
    LeftAliasCountsOnce(keys);
    RightAliasCountsOnce(keys);
  }

  /** Keys other than the eight movement keys do not change the signal. */
  lemma OtherKeysIgnored(keys: set<string>, k: string)
    requires k !in {"w", "s", "a", "d", "arrowup", "arrowdown", "arrowleft", "arrowright"}
    ensures Signal(keys + {k}) == Signal(keys)
  {
  }
}
