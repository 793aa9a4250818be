/// One call of the input step, as a function of the program's simulation
/// globals: advance, then reset, then the two intensity keys, then the
/// shadow toggle, in the order the program runs them.
module InputStep {
  import opened Geometry
  import opened Animation
  import opened Lighting

  /** The keys the input step reads; each is either pressed or released for
      the whole frame. up advances, reset is R, raise is Q, lower is E. */
  datatype Keys = Keys(up: bool, reset: bool, raise: bool, lower: bool, space: bool)

  /** The simulation globals: the three car offsets (X, Y, Z), the integer
      rate draws Icar1..Icar3, the rates car1..car3, the light intensity and
      the shadow flag with its latch. */
  datatype Globals = Globals(
    f1: Vec3, renault: Vec3, merc: Vec3,
    icar1: int, icar2: int, icar3: int,
    rates: Rates,
    light: Vec3,
    toggle: ShadowToggle)

  /** A frame either runs to its end or stays inside the retry loop of a
      reset, which only happens when every Icar3 draw it is given is refused;
      Stalled holds the globals as they are at that point. */
  datatype StepOutcome = Completed(globals: Globals) | Stalled(globals: Globals)

  function TrackOf(g: Globals): Track {
    Track(g.f1.z, g.renault.z, g.merc.z)
  }

  function WithTrack(g: Globals, t: Track): Globals {
    g.(f1 := g.f1.(z := t.f1), renault := g.renault.(z := t.renault), merc := g.merc.(z := t.merc))
  }

  /** The launch state: the initialisers of the globals. */
  function Launch(first: nat, second: nat, third: nat): (g: Globals)
    ensures Consistent(g)
    ensures TrackOf(g) == StartTrack() && g.light == Fill(LightStart)
    ensures g.toggle == ShadowToggle(true, false)
  {
    var r := LaunchRates(first, second, third);
    Globals(Vec3(-1300, 0, F1StartZ), Vec3(1400, 400, RenaultStartZ), Vec3(-1400, 400, MercStartZ),
            r.car1, r.car2, r.car3, r, Fill(LightStart), ShadowToggle(true, false))
  }

  /** What holds of the globals between frames: the rates are the integer
      draws in thousandths and in range, the guarded cars are short of the
      limit by less than one step past it, no car is behind its grid slot,
      and the intensity is a grey in [0.1, 0.9]. */
  predicate Consistent(g: Globals) {
    && RateBase <= g.icar1 < RateBase + RateSpread
    && RateBase <= g.icar2 < RateBase + RateSpread
    && RateBase <= g.icar3 < g.icar1 + RateBase
    && g.rates == Rates(g.icar1, g.icar2, g.icar3)
    && F1StartZ <= g.f1.z < TrackLimit + g.icar1
    && RenaultStartZ <= g.renault.z < TrackLimit + g.icar2
    && MercStartZ <= g.merc.z
    && LightOk(g.light)
  }

  /** The advance key: the Z offsets take the guarded advance; everything
      else, the X and Y offsets included, stays as it was. */
  function AdvanceStep(g: Globals, up: bool): (h: Globals)
    ensures TrackOf(h) == if up then Advance(TrackOf(g), g.rates) else TrackOf(g)
    ensures h.f1.x == g.f1.x && h.f1.y == g.f1.y
    ensures h.renault.x == g.renault.x && h.renault.y == g.renault.y
    ensures h.merc.x == g.merc.x && h.merc.y == g.merc.y
    ensures h.(f1 := g.f1, renault := g.renault, merc := g.merc) == g
  {
    if up then WithTrack(g, Advance(TrackOf(g), g.rates)) else g
  }

  /** A reset with the given draws. It stalls exactly when the retry loop
      finds no accepted Icar3 draw among those given. Otherwise the cars are back on the grid with
      their X and Y offsets kept, the new rates are the draws, with Icar1 and
      Icar2 in [30, 99] and 30 <= Icar3 <= Icar1, and the light and toggle
      are untouched. A stalled reset has drawn Icar1 and Icar2 but has not
      moved a car or changed a rate. */
  function ResetStep(g: Globals, d: ResetDraws): (o: StepOutcome)
    ensures o.Stalled? <==> FirstFit(DrawRate(d.first), d.thirds) == |d.thirds|
    ensures o.Completed? ==>
              && TrackOf(o.globals) == StartTrack()
              && RateBase <= o.globals.icar1 < RateBase + RateSpread
              && RateBase <= o.globals.icar2 < RateBase + RateSpread
              && RateBase <= o.globals.icar3 <= o.globals.icar1
              && o.globals.rates == Rates(o.globals.icar1, o.globals.icar2, o.globals.icar3)
              && o.globals.f1.x == g.f1.x && o.globals.f1.y == g.f1.y
              && o.globals.renault.x == g.renault.x && o.globals.renault.y == g.renault.y
              && o.globals.merc.x == g.merc.x && o.globals.merc.y == g.merc.y
    ensures o.Stalled? ==> TrackOf(o.globals) == TrackOf(g) && o.globals.rates == g.rates
    ensures o.globals.light == g.light && o.globals.toggle == g.toggle
  {
    var i1 := DrawRate(d.first);
    var i2 := DrawRate(d.second);
    var k := FirstFit(i1, d.thirds);
    if k < |d.thirds| then
      var i3 := DrawThird(d.thirds[k], i1);
      Completed(Globals(Vec3(g.f1.x, g.f1.y, F1StartZ), Vec3(g.renault.x, g.renault.y, RenaultStartZ),
                        Vec3(g.merc.x, g.merc.y, MercStartZ), i1, i2, i3, Rates(i1, i2, i3), g.light, g.toggle))
    else
      var last := if |d.thirds| == 0 then g.icar3 else DrawThird(d.thirds[|d.thirds| - 1], i1);
      Stalled(Globals(g.f1, g.renault, g.merc, i1, i2, last, g.rates, g.light, g.toggle))
  }

  /** The intensity keys, then the shadow toggle. Nothing else changes, an
      intensity in range stays in range, and the latch ends equal to the
      space key. */
  function ControlsStep(g: Globals, keys: Keys): (h: Globals)
    ensures h.(light := g.light, toggle := g.toggle) == g
    ensures LightOk(g.light) ==> LightOk(h.light)
    ensures h.toggle.latch == keys.space
  {
    g.(light := LightStep(g.light, keys.raise, keys.lower), toggle := Debounce(g.toggle, keys.space))
  }

  /** The whole input step for one frame. Only a reset can stall; the X and
      Y offsets never change; a completed reset frame ends on the grid, and
      the light and toggle take their own steps in every completed frame. */
  function FrameStep(g: Globals, keys: Keys, d: ResetDraws): (o: StepOutcome)
    ensures o.Stalled? ==> keys.reset
    ensures o.globals.f1.x == g.f1.x && o.globals.f1.y == g.f1.y
    ensures o.globals.renault.x == g.renault.x && o.globals.renault.y == g.renault.y
    ensures o.globals.merc.x == g.merc.x && o.globals.merc.y == g.merc.y
    ensures keys.reset && o.Completed? ==> TrackOf(o.globals) == StartTrack()
    ensures o.Completed? ==> o.globals.light == LightStep(g.light, keys.raise, keys.lower)
    ensures o.Completed? ==> o.globals.toggle == Debounce(g.toggle, keys.space)
  {
    var moved := AdvanceStep(g, keys.up);
    var afterReset := if keys.reset then ResetStep(moved, d) else Completed(moved);
    match afterReset
    case Stalled(_) => afterReset
    case Completed(h) => Completed(ControlsStep(h, keys))
  }

  /** A completed frame keeps the globals consistent, from launch on. */
  lemma FrameStepKeepsConsistent(g: Globals, keys: Keys, d: ResetDraws)
    requires Consistent(g)
    ensures FrameStep(g, keys, d).Completed? ==> Consistent(FrameStep(g, keys, d).globals)
  {
    var moved := AdvanceStep(g, keys.up);
    LightStepKeepsRange(moved.light, keys.raise, keys.lower);
  }

  /** A frame stalls exactly when R is pressed and every Icar3 draw it is
      given is refused by the retry loop. */
  lemma StallsOnlyWhenEveryDrawIsRefused(g: Globals, keys: Keys, d: ResetDraws)
    ensures FrameStep(g, keys, d).Stalled? <==>
              keys.reset && forall j :: 0 <= j < |d.thirds| ==> DrawThird(d.thirds[j], DrawRate(d.first)) > DrawRate(d.first)
  {
    var i1 := DrawRate(d.first);
    var k := FirstFit(i1, d.thirds);
    assert k < |d.thirds| ==> DrawThird(d.thirds[k], i1) <= i1;
  }

  /** A completed reset, whatever the prior state and whether or not the
      advance key is held too: both rates drawn with `% 70 + 30` are in
      [30, 99], 30 <= Icar3 <= Icar1, the rates are the draws in thousandths,
      the Z offsets are exactly 0, -5 and -10.2, and the X and Y offsets, the
      light and the toggle are what the other steps make of them. */
  lemma ResetFrameRestartsTheRace(g: Globals, keys: Keys, d: ResetDraws)
    requires keys.reset && FrameStep(g, keys, d).Completed?
    ensures var h := FrameStep(g, keys, d).globals;
      && RateBase <= h.icar1 < RateBase + RateSpread
      && RateBase <= h.icar2 < RateBase + RateSpread
      && RateBase <= h.icar3 <= h.icar1
      && h.rates == Rates(h.icar1, h.icar2, h.icar3)
      && TrackOf(h) == StartTrack()
      && h.f1.x == g.f1.x && h.f1.y == g.f1.y
      && h.renault.x == g.renault.x && h.renault.y == g.renault.y
      && h.merc.x == g.merc.x && h.merc.y == g.merc.y
      && h.light == LightStep(g.light, keys.raise, keys.lower)
      && h.toggle == Debounce(g.toggle, keys.space)
  {
    var i1 := DrawRate(d.first);
    var k := FirstFit(i1, d.thirds);
    assert k < |d.thirds|;
  }

  /** Two reset frames in a row both put the cars on the grid and both leave
      the rates ordered. */
  lemma ResetTwiceGivesTheSameTrack(g: Globals, keys: Keys, d1: ResetDraws, d2: ResetDraws)
    requires keys.reset && FrameStep(g, keys, d1).Completed?
    requires FrameStep(FrameStep(g, keys, d1).globals, keys, d2).Completed?
    ensures var h1 := FrameStep(g, keys, d1).globals;
            var h2 := FrameStep(h1, keys, d2).globals;
      TrackOf(h1) == TrackOf(h2) == StartTrack() && h1.icar3 <= h1.icar1 && h2.icar3 <= h2.icar1
  {
    ResetFrameRestartsTheRace(g, keys, d1);
    ResetFrameRestartsTheRace(FrameStep(g, keys, d1).globals, keys, d2);
  }

  /** Without R, a frame with the advance key held moves the cars by their
      rates when the guard allows and otherwise leaves them; no car moves
      backwards; nothing but the Z offsets, the light and the toggle changes. */
  lemma AdvanceFrameNeverMovesBack(g: Globals, keys: Keys, d: ResetDraws)
    requires Consistent(g) && !keys.reset
    ensures FrameStep(g, keys, d).Completed?
    ensures var h := FrameStep(g, keys, d).globals;
      && h == WithTrack(g, if keys.up then Advance(TrackOf(g), g.rates) else TrackOf(g)).(
                light := LightStep(g.light, keys.raise, keys.lower), toggle := Debounce(g.toggle, keys.space))
      && g.f1.z <= h.f1.z && g.renault.z <= h.renault.z && g.merc.z <= h.merc.z
  {
  }
}
