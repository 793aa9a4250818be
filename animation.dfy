/// The scripted race start: three cars move along the track (Z) axis by
/// per-reset rates while the advance key is held, and a reset redraws the
/// rates from the random source and puts the cars back on the grid.
/// Positions and rates are in thousandths of a world unit, so the rate
/// Icar/1000 of the program is the integer Icar here.
module Animation {

  /** No car advances once the F1 car or the Renault has reached 34.5. */
  const TrackLimit: int := 34500
  const F1StartZ: int := 0
  const RenaultStartZ: int := -5000
  const MercStartZ: int := -10200

  /** Rates are drawn as `rand() % RateSpread + RateBase`. */
  const RateBase: int := 30
  const RateSpread: int := 70

  /** Z offsets of the F1 car, the Renault and the Merc. */
  datatype Track = Track(f1: int, renault: int, merc: int)

  /** Per-frame advance of each car: car1, car2, car3. */
  datatype Rates = Rates(car1: int, car2: int, car3: int)

  function StartTrack(): Track {
    Track(F1StartZ, RenaultStartZ, MercStartZ)
  }

  /** The track-limit guard; the Merc's offset takes no part in it. */
  predicate CanAdvance(t: Track) {
    t.f1 < TrackLimit && t.renault < TrackLimit
  }

  /** One frame with the advance key held: every car moves once by its own
      rate while the guard holds, and no car moves once it fails. */
  function Advance(t: Track, r: Rates): (u: Track)
    ensures CanAdvance(t) ==> u == Shift(t, r, 1)
    ensures !CanAdvance(t) ==> u == t
  {
    if CanAdvance(t) then Track(t.f1 + r.car1, t.renault + r.car2, t.merc + r.car3) else t
  }

  /** The track after n frames with the advance key held. */
  function AdvanceHeld(t: Track, r: Rates, n: nat): Track {
    if n == 0 then t else Advance(AdvanceHeld(t, r, n - 1), r)
  }

  /** Every car moved k times by its own rate. */
  function Shift(t: Track, r: Rates, k: nat): Track {
    Track(t.f1 + k * r.car1, t.renault + k * r.car2, t.merc + k * r.car3)
  }

  lemma ShiftOnce(t: Track, r: Rates, k: nat)
    ensures Shift(t, r, k + 1) == Track(Shift(t, r, k).f1 + r.car1, Shift(t, r, k).renault + r.car2, Shift(t, r, k).merc + r.car3)
  {
    assert (k + 1) * r.car1 == k * r.car1 + r.car1;
    assert (k + 1) * r.car2 == k * r.car2 + r.car2;
    assert (k + 1) * r.car3 == k * r.car3 + r.car3;
  }

  /** Holding the advance key for n frames moves every car k times by its
      own rate, for some k <= n: the guard held before each of those k
      moves, and if the cars moved fewer than n times they have stopped. */
  lemma {:induction false} AdvanceHeldMovesThenStops(t: Track, r: Rates, n: nat)
    ensures exists k ::
              && 0 <= k <= n
              && AdvanceHeld(t, r, n) == Shift(t, r, k)
              && (forall m :: 0 <= m < k ==> CanAdvance(Shift(t, r, m)))
              && (k < n ==> !CanAdvance(Shift(t, r, k)))
  {
    if n == 0 {
      assert AdvanceHeld(t, r, 0) == Shift(t, r, 0);
    } else {
      AdvanceHeldMovesThenStops(t, r, n - 1);
      var k :| 0 <= k <= n - 1 && AdvanceHeld(t, r, n - 1) == Shift(t, r, k)
        && (forall m :: 0 <= m < k ==> CanAdvance(Shift(t, r, m)))
        && (k < n - 1 ==> !CanAdvance(Shift(t, r, k)));
      if CanAdvance(Shift(t, r, k)) {
        ShiftOnce(t, r, k);
        assert AdvanceHeld(t, r, n) == Shift(t, r, k + 1);
        assert forall m :: 0 <= m < k + 1 ==> CanAdvance(Shift(t, r, m));
      } else {
        assert AdvanceHeld(t, r, n) == Shift(t, r, k);
      }
    }
  }

  /** Once the guard fails, holding the advance key changes nothing. */
  lemma {:induction false} StoppedCarsStayPut(t: Track, r: Rates, n: nat)
    requires !CanAdvance(t)
    ensures AdvanceHeld(t, r, n) == t
  {
    if n > 0 {
      StoppedCarsStayPut(t, r, n - 1);
    }
  }

  /** With rates as a reset or the launch draws them, holding the advance key
      never moves a car backwards, and the two guarded cars overshoot the
      track limit by less than their own rate, hence by less than 0.1. */
  lemma {:induction false} HeldAdvanceOvershootsLessThanATenth(t: Track, r: Rates, n: nat)
    requires RateBase <= r.car1 < RateBase + RateSpread
    requires RateBase <= r.car2 < RateBase + RateSpread
    requires RateBase <= r.car3
    requires t.f1 < TrackLimit + r.car1 && t.renault < TrackLimit + r.car2
    ensures t.f1 <= AdvanceHeld(t, r, n).f1 < TrackLimit + r.car1
    ensures t.renault <= AdvanceHeld(t, r, n).renault < TrackLimit + r.car2
    ensures t.merc <= AdvanceHeld(t, r, n).merc
    ensures AdvanceHeld(t, r, n).f1 < TrackLimit + 100 && AdvanceHeld(t, r, n).renault < TrackLimit + 100
  {
    if n > 0 {
      HeldAdvanceOvershootsLessThanATenth(t, r, n - 1);
    }
  }

  // ---------------------------------------------------------------------
  // Drawing the rates

  /** `rand() % 70 + 30`: a rate between 0.030 and 0.099. */
  function DrawRate(draw: nat): (rate: int)
    ensures RateBase <= rate < RateBase + RateSpread
  {
    draw % RateSpread + RateBase
  }

  /** `rand() % Icar1 + 30`: the Merc's rate before the ordering check. */
  function DrawThird(draw: nat, icar1: int): (rate: int)
    requires icar1 > 0
    ensures RateBase <= rate < icar1 + RateBase
  {
    draw % icar1 + RateBase
  }

  /** The values rand() returns during one reset, in order: Icar1's draw,
      Icar2's draw, then the successive draws for Icar3 (the first one and
      every retry). A finite list of retries stands in for the endless
      random source. */
  datatype ResetDraws = ResetDraws(first: nat, second: nat, thirds: seq<nat>)

  /** The index of the first Icar3 draw that the retry loop accepts, or
      |thirds| when none of them is accepted. */
  function FirstFit(icar1: int, thirds: seq<nat>): (k: nat)
    requires icar1 > 0
    ensures k <= |thirds|
    ensures forall j :: 0 <= j < k ==> DrawThird(thirds[j], icar1) > icar1
    ensures k < |thirds| ==> DrawThird(thirds[k], icar1) <= icar1
  {
    if |thirds| == 0 then 0
    else if DrawThird(thirds[0], icar1) <= icar1 then 0
    else 1 + FirstFit(icar1, thirds[1..])
  }

  /** FirstFit is pinned down by its contract: an index k whose draws before
      it are all refused, and whose own draw (if any) is accepted, is it. */
  lemma FirstFitIsFirstAccepted(icar1: int, thirds: seq<nat>, k: nat)
    requires icar1 > 0 && k <= |thirds|
    requires forall j :: 0 <= j < k ==> DrawThird(thirds[j], icar1) > icar1
    requires k < |thirds| ==> DrawThird(thirds[k], icar1) <= icar1
    ensures FirstFit(icar1, thirds) == k
  {
  }

  /** The launch rates: the same draws as a reset but without the retry
      loop, so the Merc's rate may exceed the F1 car's. */
  function LaunchRates(first: nat, second: nat, third: nat): (r: Rates)
    ensures RateBase <= r.car1 < RateBase + RateSpread
    ensures RateBase <= r.car2 < RateBase + RateSpread
    ensures RateBase <= r.car3 < r.car1 + RateBase
  {
    var icar1 := DrawRate(first);
    Rates(icar1, DrawRate(second), DrawThird(third, icar1))
  }

  /** The ordering car3 <= car1 that every reset enforces does not hold of
      the launch draws: rand() values 0, 0, 29 give Icar1 = 30 and Icar3 = 59. */
  lemma LaunchMayBreakOrdering()
    ensures LaunchRates(0, 0, 29).car3 > LaunchRates(0, 0, 29).car1
  {
  }
}
