/// The program's simulation globals gathered into one object, and the input
/// step that updates them in place once per frame.
module Frame {
  import opened Geometry
  import opened Animation
  import opened Lighting
  import opened InputStep
  import Scene

  class FrameState {
    var f1GenericGoX: int
    var f1GenericGoY: int
    var f1GenericGoZ: int
    var renaultGoX: int
    var renaultGoY: int
    var renaultGoZ: int
    var mercGoX: int
    var mercGoY: int
    var mercGoZ: int
    var icar1: int
    var icar2: int
    var icar3: int
    /** Per-frame rates in thousandths: carN is IcarN / 1000 in world units. */
    var car1: int
    var car2: int
    var car3: int
    var lightStrength: Vec3
    var shadows: bool
    var shadowsKeyPressed: bool

    /** The globals as one value. */
    function Snapshot(): Globals
      reads this
    {
      Globals(Vec3(f1GenericGoX, f1GenericGoY, f1GenericGoZ),
              Vec3(renaultGoX, renaultGoY, renaultGoZ),
              Vec3(mercGoX, mercGoY, mercGoZ),
              icar1, icar2, icar3, Rates(car1, car2, car3),
              lightStrength, ShadowToggle(shadows, shadowsKeyPressed))
    }

    ghost predicate Valid()
      reads this
    {
      Consistent(Snapshot())
    }

    /** What the scene reads: the three car offsets and the light intensity. */
    function Placement(): Scene.Placement
      reads this
    {
      Scene.Placement(Vec3(f1GenericGoX, f1GenericGoY, f1GenericGoZ),
                      Vec3(renaultGoX, renaultGoY, renaultGoZ),
                      Vec3(mercGoX, mercGoY, mercGoZ),
                      lightStrength)
    }

    /** The initialisers of the globals, given the three rand() values drawn
        before the program starts. */
    constructor (first: nat, second: nat, third: nat)
      ensures Snapshot() == Launch(first, second, third)
      ensures Valid()
    {
      f1GenericGoX, f1GenericGoY, f1GenericGoZ := -1300, 0, F1StartZ;
      renaultGoX, renaultGoY, renaultGoZ := 1400, 400, RenaultStartZ;
      mercGoX, mercGoY, mercGoZ := -1400, 400, MercStartZ;
      var draw1 := first % 70 + 30;
      icar1 := draw1;
      icar2 := second % 70 + 30;
      icar3 := third % draw1 + 30;
      car1, car2, car3 := draw1, icar2, icar3;
      lightStrength := Fill(LightStart);
      shadows, shadowsKeyPressed := true, false;
    }

    /** One call of the input step with the given keys and, for a reset, the
        given rand() values. It returns true when the reset's retry loop has
        used up its draws without accepting one (the frame never ends). */
    method Step(keys: Keys, draws: ResetDraws) returns (stalled: bool)
      requires Valid()
      modifies this
      ensures Snapshot() == FrameStep(old(Snapshot()), keys, draws).globals
      ensures stalled == FrameStep(old(Snapshot()), keys, draws).Stalled?
      ensures !stalled ==> Valid()
    {
      ghost var g := Snapshot();
      stalled := false;
      AdvanceCars(keys.up);
      if keys.reset {
        stalled := ResetCars(draws);
        if stalled {
          return;
        }
      }
      StepControls(keys);
      FrameStepKeepsConsistent(g, keys, draws);
    }

    /** Race start: while the advance key is held, every car moves by its
        rate unless the F1 car or the Renault has reached the track limit. */
    method AdvanceCars(up: bool)
      modifies this
      ensures Snapshot() == AdvanceStep(old(Snapshot()), up)
    {
      if up {
        if f1GenericGoZ < TrackLimit && renaultGoZ < TrackLimit {
          f1GenericGoZ := f1GenericGoZ + car1;
          renaultGoZ := renaultGoZ + car2;
          mercGoZ := mercGoZ + car3;
        }
      }
    }

    /** Reset: redraw the rates, retrying Icar3 until it is at most Icar1,
        then put the cars back on the grid. */
    method ResetCars(draws: ResetDraws) returns (stalled: bool)
      modifies this
      ensures Snapshot() == ResetStep(old(Snapshot()), draws).globals
      ensures stalled == ResetStep(old(Snapshot()), draws).Stalled?
    {
      ghost var o := ResetStep(Snapshot(), draws);
      ghost var k := FirstFit(DrawRate(draws.first), draws.thirds);
      icar1 := draws.first % 70 + 30;
      icar2 := draws.second % 70 + 30;
      var accepted := RetryThird(draws.thirds);
      stalled := !accepted;
      if accepted {
        assert k < |draws.thirds| && o.Completed?;
        RestartRace();
      } else {
        assert k == |draws.thirds| && o.Stalled?;
      }
    }

    /** The retry loop of a reset: draw Icar3, and draw again while it exceeds
        Icar1, as long as draws remain. */
    method RetryThird(thirds: seq<nat>) returns (accepted: bool)
      requires icar1 > 0
      modifies this`icar3
      ensures accepted == (FirstFit(icar1, thirds) < |thirds|)
      ensures accepted ==> icar3 == DrawThird(thirds[FirstFit(icar1, thirds)], icar1)
      ensures !accepted ==> icar3 == if |thirds| == 0 then old(icar3) else DrawThird(thirds[|thirds| - 1], icar1)
    {
      if |thirds| == 0 {
        return false;
      }
      icar3 := thirds[0] % icar1 + 30;
      var next := 1;
      while icar3 > icar1 && next < |thirds|
        invariant 1 <= next <= |thirds|
        invariant icar3 == DrawThird(thirds[next - 1], icar1)
        invariant forall j :: 0 <= j < next - 1 ==> DrawThird(thirds[j], icar1) > icar1
        decreases |thirds| - next
      {
        icar3 := thirds[next] % icar1 + 30;
        next := next + 1;
      }
      accepted := icar3 <= icar1;
      if accepted {
        FirstFitIsFirstAccepted(icar1, thirds, next - 1);
      } else {
        FirstFitIsFirstAccepted(icar1, thirds, next);
      }
    }

    /** The end of a reset: the new rates take effect and the cars go back
        to their grid slots. */
    method RestartRace()
      modifies this
      ensures Snapshot() == old(Snapshot()).(
                f1 := old(Snapshot()).f1.(z := F1StartZ),
                renault := old(Snapshot()).renault.(z := RenaultStartZ),
                merc := old(Snapshot()).merc.(z := MercStartZ),
                rates := Rates(old(icar1), old(icar2), old(icar3)))
    {
      car1, car2, car3 := icar1, icar2, icar3;
      f1GenericGoZ := F1StartZ;
      renaultGoZ := RenaultStartZ;
      mercGoZ := MercStartZ;
    }

    /** The intensity keys and the debounced shadow toggle. */
    method StepControls(keys: Keys)
      modifies this
      ensures Snapshot() == ControlsStep(old(Snapshot()), keys)
    {
      if keys.raise {
        if lightStrength.x < LightMax {
          lightStrength := Add(lightStrength, Fill(LightStepSize));
        }
      }
      if keys.lower {
        if lightStrength.x > LightMin {
          lightStrength := Add(lightStrength, Fill(-LightStepSize));
        }
      }
      if keys.space && !shadowsKeyPressed {
        shadows := !shadows;
        shadowsKeyPressed := true;
      }
      if !keys.space {
        shadowsKeyPressed := false;
      }
    }
  }
}
