/// The two lighting controls of the input step: the light intensity, moved
/// by Q and E within a clamp, and the shadow flag, toggled by the space key
/// through a latch so that one press gives one toggle. Intensity is in
/// thousandths: 0.7 is 700 and a step of 0.005 is 5.
module Lighting {
  import opened Geometry

  const LightStart: int := 700
  const LightStepSize: int := 5
  const LightMax: int := 900
  const LightMin: int := 100

  /** One frame of the intensity controls. Q (raise) adds a step to all three
      channels when the first channel is below 0.9; then E (lower) takes a
      step off when the first channel is above 0.1. So the intensity moves
      by at most one step, up only with Q and down only with E, and on the
      0.005 grid the first channel never crosses 0.9 upwards or 0.1
      downwards. */
  function LightStep(l: Vec3, raise: bool, lower: bool): (m: Vec3)
    ensures m == l || m == Add(l, Fill(LightStepSize)) || m == Add(l, Fill(-LightStepSize))
    ensures m.x > l.x ==> raise
    ensures m.x < l.x ==> lower
    ensures !raise && !lower ==> m == l
    ensures l.x % LightStepSize == 0 && l.x <= LightMax ==> m.x <= LightMax
    ensures l.x % LightStepSize == 0 && l.x >= LightMin ==> m.x >= LightMin
  {
    var raised := if raise && l.x < LightMax then Add(l, Fill(LightStepSize)) else l;
    if lower && raised.x > LightMin then Add(raised, Fill(-LightStepSize)) else raised
  }

  /** The intensity the program can reach from 0.7: a grey between 0.1 and
      0.9 on the 0.005 grid. */
  predicate LightOk(l: Vec3) {
    l == Fill(l.x) && LightMin <= l.x <= LightMax && l.x % LightStepSize == 0
  }

  /** Light controls over successive frames; the first pair is the first frame. */
  function LightRun(l: Vec3, frames: seq<(bool, bool)>): Vec3
    decreases |frames|
  {
    if |frames| == 0 then l else LightRun(LightStep(l, frames[0].0, frames[0].1), frames[1..])
  }

  /** k frames with only Q held, and with only E held. */
  function Raising(k: nat): seq<(bool, bool)> {
    seq(k, _ => (true, false))
  }

  function Lowering(k: nat): seq<(bool, bool)> {
    seq(k, _ => (false, true))
  }

  function Min(a: int, b: int): int {
    if a <= b then a else b
  }

  function Max(a: int, b: int): int {
    if a <= b then b else a
  }

  /** Every frame keeps the channels equal, on the grid and within [0.1, 0.9]. */
  lemma LightStepKeepsRange(l: Vec3, raise: bool, lower: bool)
    requires LightOk(l)
    ensures LightOk(LightStep(l, raise, lower))
  {
  }

  /** From 0.7, whatever keys are held over whatever frames, the intensity
      stays a grey within [0.1, 0.9]. */
  lemma {:induction false} LightRunInRange(l: Vec3, frames: seq<(bool, bool)>)
    requires LightOk(l)
    ensures LightOk(LightRun(l, frames))
    decreases |frames|
  {
    if |frames| > 0 {
      LightStepKeepsRange(l, frames[0].0, frames[0].1);
      LightRunInRange(LightStep(l, frames[0].0, frames[0].1), frames[1..]);
    }
  }

  /** Holding Q for k frames raises the intensity by 0.005 a frame until it
      reaches 0.9, where it stays. */
  lemma {:induction false} RaiseHeldClampsAtMax(v: int, k: nat)
    requires LightOk(Fill(v))
    ensures LightRun(Fill(v), Raising(k)) == Fill(Min(v + LightStepSize * k, LightMax))
    decreases k
  {
    if k > 0 {
      assert Raising(k)[1..] == Raising(k - 1);
      var next := LightStep(Fill(v), true, false);
      if v < LightMax {
        assert next == Fill(v + LightStepSize);
        RaiseHeldClampsAtMax(v + LightStepSize, k - 1);
      } else {
        assert next == Fill(v);
        RaiseHeldClampsAtMax(v, k - 1);
      }
    }
  }

  /** Holding E for k frames lowers the intensity by 0.005 a frame until it
      reaches 0.1, where it stays. */
  lemma {:induction false} LowerHeldClampsAtMin(v: int, k: nat)
    requires LightOk(Fill(v))
    ensures LightRun(Fill(v), Lowering(k)) == Fill(Max(v - LightStepSize * k, LightMin))
    decreases k
  {
    if k > 0 {
      assert Lowering(k)[1..] == Lowering(k - 1);
      var next := LightStep(Fill(v), false, true);
      if v > LightMin {
        assert next == Fill(v - LightStepSize);
        LowerHeldClampsAtMin(v - LightStepSize, k - 1);
      } else {
        assert next == Fill(v);
        LowerHeldClampsAtMin(v, k - 1);
      }
    }
  }

  /** Q and E held together cancel, except at the top of the range where Q is
      refused and E still takes its step. */
  lemma BothKeysCancelBelowMax(l: Vec3)
    requires LightOk(l)
    ensures l.x < LightMax ==> LightStep(l, true, true) == l
    ensures l.x == LightMax ==> LightStep(l, true, true) == Fill(LightMax - LightStepSize)
  {
  }

  // ---------------------------------------------------------------------
  // Shadow toggle

  /** The shadow flag and the latch that debounces its key. */
  datatype ShadowToggle = ShadowToggle(shadows: bool, latch: bool)

  /** One frame of the space key: a press while the latch is clear flips the
      flag and sets the latch; a released key clears the latch. So after any
      frame the latch equals that frame's key state, and the flag changes
      exactly when the key is down while the latch is clear. */
  function Debounce(s: ShadowToggle, space: bool): (t: ShadowToggle)
    ensures t.latch == space
    ensures t.shadows != s.shadows <==> space && !s.latch
  {
    var pressed := if space && !s.latch then ShadowToggle(!s.shadows, true) else s;
    if !space then pressed.(latch := false) else pressed
  }

  /** The toggle after successive frames of the space key. */
  function ToggleRun(s: ShadowToggle, keys: seq<bool>): ShadowToggle
    decreases |keys|
  {
    if |keys| == 0 then s else ToggleRun(Debounce(s, keys[0]), keys[1..])
  }

  /** The number of frames on which the shadow flag changed. */
  function Flips(s: ShadowToggle, keys: seq<bool>): nat
    decreases |keys|
  {
    if |keys| == 0 then 0
    else
      var next := Debounce(s, keys[0]);
      (if next.shadows != s.shadows then 1 else 0) + Flips(next, keys[1..])
  }

  /** An edge detector: the number of frames on which the key is down and was
      up on the frame before (`before` is the state before the first frame). */
  function PressEdges(before: bool, keys: seq<bool>): nat
    decreases |keys|
  {
    if |keys| == 0 then 0
    else (if keys[0] && !before then 1 else 0) + PressEdges(keys[0], keys[1..])
  }

  /** The flag flips exactly once per press edge, and its final value is the
      initial one flipped once per edge. */
  lemma {:induction false} FlipsArePressEdges(s: ShadowToggle, keys: seq<bool>)
    ensures Flips(s, keys) == PressEdges(s.latch, keys)
    ensures ToggleRun(s, keys).shadows == (s.shadows != (PressEdges(s.latch, keys) % 2 == 1))
    ensures ToggleRun(s, keys).latch == (if |keys| == 0 then s.latch else keys[|keys| - 1])
    decreases |keys|
  {
    if |keys| > 0 {
      FlipsArePressEdges(Debounce(s, keys[0]), keys[1..]);
      if |keys| > 1 {
        assert keys[1..][|keys[1..]| - 1] == keys[|keys| - 1];
      }
    }
  }

  /** Edges of a run split at any point, the second part seeing the last key
      state of the first. */
  lemma {:induction false} PressEdgesAppend(before: bool, a: seq<bool>, b: seq<bool>)
    ensures PressEdges(before, a + b) == PressEdges(before, a) + PressEdges(if |a| == 0 then before else a[|a| - 1], b)
    decreases |a|
  {
    if |a| > 0 {
      assert (a + b)[1..] == a[1..] + b;
      PressEdgesAppend(a[0], a[1..], b);
      if |a| > 1 {
        assert a[1..][|a[1..]| - 1] == a[|a| - 1];
      }
    } else {
      assert a + b == b;
    }
  }

  function Held(k: nat): seq<bool> {
    seq(k, _ => true)
  }

  function Released(k: nat): seq<bool> {
    seq(k, _ => false)
  }

  /** A key held down, or left up, has at most its first frame as an edge. */
  lemma {:induction false} SteadyKeyHasOneEdge(before: bool, k: nat, down: bool)
    requires k > 0
    ensures PressEdges(before, if down then Held(k) else Released(k)) == (if down && !before then 1 else 0)
    decreases k
  {
    var keys := if down then Held(k) else Released(k);
    if k > 1 {
      assert keys[1..] == (if down then Held(k - 1) else Released(k - 1));
      SteadyKeyHasOneEdge(down, k - 1, down);
    } else {
      assert keys[1..] == [];
    }
  }

  /** Holding the space key for any k >= 1 frames after it was released flips
      the flag exactly once. */
  lemma HoldFlipsOnce(s: ShadowToggle, k: nat)
    requires !s.latch && k > 0
    ensures Flips(s, Held(k)) == 1
    ensures ToggleRun(s, Held(k)).shadows == !s.shadows
  {
    FlipsArePressEdges(s, Held(k));
    SteadyKeyHasOneEdge(false, k, true);
  }

  /** Press, hold for a frames, release for b frames, press and hold for c
      frames: the flag flips exactly twice and ends where it started. */
  lemma PressReleasePressFlipsTwice(s: ShadowToggle, a: nat, b: nat, c: nat)
    requires !s.latch && a > 0 && b > 0 && c > 0
    ensures Flips(s, Held(a) + Released(b) + Held(c)) == 2
    ensures ToggleRun(s, Held(a) + Released(b) + Held(c)).shadows == s.shadows
  {
    var keys := Held(a) + Released(b) + Held(c);
    FlipsArePressEdges(s, keys);
    PressEdgesAppend(false, Held(a) + Released(b), Held(c));
    PressEdgesAppend(false, Held(a), Released(b));
    SteadyKeyHasOneEdge(false, a, true);
    SteadyKeyHasOneEdge(true, b, false);
    SteadyKeyHasOneEdge(false, c, true);
    assert (Held(a) + Released(b))[a + b - 1] == false;
    assert Held(a)[a - 1];
  }
}
