/**
 * The One-Euro low-pass filter nested in the hands manager
 * (NRHandsManager.OneEuroFilter): three active coefficients, three target
 * coefficients that the active ones are pulled towards, and the history of
 * the last filtered sample.
 */
module OneEuro {
  import opened Geometry

  /** Mathf.PI, the single-precision value of pi. */
  const Pi: real := 3.1415927

  /** Elapsed times below this (1e-5 seconds) do not advance the filter. */
  const MinElapsed: real := 0.00001

  /** The last filtered sample: timestamp, value and smoothed derivative. */
  datatype Sample = Sample(t: real, x: Vec3, dx: Vec3)

  const InitialSample: Sample := Sample(0.0, Zero, Zero)

  /** One triple of filter coefficients (either the active or the target one). */
  datatype Coeffs = Coeffs(minCutoff: real, dCutoff: real, beta: real)

  predicate NonNegative(c: Coeffs)
  {
    c.minCutoff >= 0.0 && c.dCutoff >= 0.0 && c.beta >= 0.0
  }

  /** The whole state of a filter, as a value. */
  datatype FilterState = FilterState(active: Coeffs, target: Coeffs, prev: Sample)

  /** The smoothing factor of a low-pass step with cutoff `cutoff` over an
      interval `te`: r / (r + 1) with r = 2 * pi * cutoff * te. */
  function Alpha(te: real, cutoff: real): (a: real)
    requires te > 0.0 && cutoff >= 0.0
    ensures 0.0 <= a < 1.0
    ensures a == 0.0 <==> cutoff == 0.0
  {
    var r := 2.0 * Pi * cutoff * te;
    PositiveProduct(2.0 * Pi * cutoff, te);
    r / (r + 1.0)
  }

  lemma PositiveProduct(a: real, b: real)
    requires a >= 0.0 && b > 0.0
    ensures a * b >= 0.0
    ensures a * b == 0.0 <==> a == 0.0
  {
  }

  lemma NonNegativeProduct(a: real, b: real)
    requires a >= 0.0 && b >= 0.0
    ensures a * b >= 0.0
  {
  }

  /** A higher cutoff smooths less: Alpha grows with the cutoff. */
  lemma AlphaMonotonic(te: real, c1: real, c2: real)
    requires te > 0.0 && 0.0 <= c1 <= c2
    ensures Alpha(te, c1) <= Alpha(te, c2)
  {
    var k := 2.0 * Pi * te;
    var r1 := 2.0 * Pi * c1 * te;
    var r2 := 2.0 * Pi * c2 * te;
    assert r1 == k * c1 && r2 == k * c2;
    assert k * c1 <= k * c2;
    PositiveProduct(2.0 * Pi * c1, te);
    FractionMonotonic(r1, r2);
  }

  lemma FractionMonotonic(r1: real, r2: real)
    requires 0.0 <= r1 <= r2
    ensures r1 / (r1 + 1.0) <= r2 / (r2 + 1.0)
  {
    assert r1 / (r1 + 1.0) == 1.0 - 1.0 / (r1 + 1.0);
    assert r2 / (r2 + 1.0) == 1.0 - 1.0 / (r2 + 1.0);
    assert 1.0 / (r2 + 1.0) <= 1.0 / (r1 + 1.0);
  }

  /** The arithmetic of Step: the history after one filter step at time
      `t` with sample `x`, for an interval long enough to advance the
      filter.  The filtered value never
      leaves the segment between the previous output and the sample, so a
      constant input is approached without overshoot; with zero cutoffs the
      output and the derivative are held and only the timestamp moves. */
  function Advance(prev: Sample, minCutoff: real, dCutoff: real, beta: real,
                   t: real, x: Vec3, mag: Vec3 -> real): (s: Sample)
    requires t - prev.t >= MinElapsed
    requires minCutoff >= 0.0 && dCutoff >= 0.0 && beta >= 0.0
    requires forall v :: mag(v) >= 0.0
    ensures s.t == t
    ensures BetweenVec(prev.x, x, s.x)
    ensures BetweenVec(prev.dx, Div(Sub(x, prev.x), t - prev.t), s.dx)
    ensures minCutoff == 0.0 && beta == 0.0 ==> s.x == prev.x
    ensures dCutoff == 0.0 ==> s.dx == prev.dx
  {
    var te := t - prev.t;
    var dx := Div(Sub(x, prev.x), te);
    var dxRes := LerpVec(prev.dx, dx, Alpha(te, dCutoff));
    LerpVecStaysBetween(prev.dx, dx, Alpha(te, dCutoff));
    var cutoff := minCutoff + beta * mag(dxRes);
    NonNegativeProduct(beta, mag(dxRes));
    var xRes := LerpVec(prev.x, x, Alpha(te, cutoff));
    LerpVecStaysBetween(prev.x, x, Alpha(te, cutoff));
    Sample(t, xRes, dxRes)
  }

  /** The history after a call to Step: unchanged for an interval below
      MinElapsed, advanced otherwise.  Step returns the `x` of this sample. */
  function StepSample(prev: Sample, c: Coeffs, t: real, x: Vec3, mag: Vec3 -> real): (s: Sample)
    requires NonNegative(c)
    requires forall v :: mag(v) >= 0.0
    ensures t - prev.t < MinElapsed ==> s == prev
    ensures t - prev.t >= MinElapsed ==> s.t == t && BetweenVec(prev.x, x, s.x)
    ensures c.minCutoff == 0.0 && c.beta == 0.0 ==> s.x == prev.x
  {
    if t - prev.t < MinElapsed then prev
    else Advance(prev, c.minCutoff, c.dCutoff, c.beta, t, x, mag)
  }

  /** The active coefficients after SyncParam(deltaTime). */
  function Synced(active: Coeffs, target: Coeffs, deltaTime: real): (c: Coeffs)
    ensures Between(active.minCutoff, target.minCutoff, c.minCutoff)
    ensures Between(active.dCutoff, target.dCutoff, c.dCutoff)
    ensures Between(active.beta, target.beta, c.beta)
    ensures NonNegative(active) && NonNegative(target) ==> NonNegative(c)
    ensures deltaTime >= 1.0 ==> c == target
    ensures active == target ==> c == target
  {
    LerpStaysBetween(active.minCutoff, target.minCutoff, deltaTime);
    LerpStaysBetween(active.dCutoff, target.dCutoff, deltaTime);
    LerpStaysBetween(active.beta, target.beta, deltaTime);
    Coeffs(Lerp(active.minCutoff, target.minCutoff, deltaTime),
           Lerp(active.dCutoff, target.dCutoff, deltaTime),
           Lerp(active.beta, target.beta, deltaTime))
  }

  /** One call SetEuroParam(to.minCutoff, to.dCutoff, to.beta, lerp). */
  datatype Retune = Retune(to: Coeffs, lerp: bool)

  /** The filter state after one SetEuroParam call: the targets always take
      the new values, the active coefficients only for an instant retune. */
  function ApplyRetune(f: FilterState, r: Retune): (g: FilterState)
    ensures g.target == r.to && g.prev == f.prev
    ensures g.active == (if r.lerp then f.active else r.to)
  {
    f.(target := r.to, active := if r.lerp then f.active else r.to)
  }

  /** The filter state after a series of SetEuroParam calls, in order. */
  function Retuned(f: FilterState, rs: seq<Retune>): (g: FilterState)
    ensures g.prev == f.prev
    ensures rs == [] ==> g == f
    ensures rs != [] ==> g.target == rs[|rs| - 1].to
    ensures (forall k :: 0 <= k < |rs| ==> rs[k].lerp) ==> g.active == f.active
    ensures NonNegative(f.active) && NonNegative(f.target) &&
            (forall k :: 0 <= k < |rs| ==> NonNegative(rs[k].to)) ==>
              NonNegative(g.active) && NonNegative(g.target)
    decreases |rs|
  {
    if rs == [] then f else Retuned(ApplyRetune(f, rs[0]), rs[1..])
  }

  /** Retuning in two batches is retuning with their concatenation. */
  lemma {:induction false} RetunedConcat(f: FilterState, p: seq<Retune>, q: seq<Retune>)
    ensures Retuned(f, p + q) == Retuned(Retuned(f, p), q)
    decreases |p|
  {
    if p == [] {
      assert p + q == q;
    } else {
      assert (p + q)[1..] == p[1..] + q;
      RetunedConcat(ApplyRetune(f, p[0]), p[1..], q);
    }
  }

  /** The filter state after Step(t, x): only the history can change. */
  function Stepped(f: FilterState, t: real, x: Vec3, mag: Vec3 -> real): (g: FilterState)
    requires NonNegative(f.active)
    requires forall v :: mag(v) >= 0.0
    ensures g.active == f.active && g.target == f.target
    ensures g.prev == StepSample(f.prev, f.active, t, x, mag)
  {
    f.(prev := StepSample(f.prev, f.active, t, x, mag))
  }

  /** The filter state after a series of retunes, SyncParam(deltaTime) and
      Step(t, x), which is how the hands manager drives it every frame. */
  function FilterTick(f: FilterState, rs: seq<Retune>, deltaTime: real, t: real, x: Vec3,
                      mag: Vec3 -> real): (g: FilterState)
    requires NonNegative(f.active) && NonNegative(f.target)
    requires forall k :: 0 <= k < |rs| ==> NonNegative(rs[k].to)
    requires forall v :: mag(v) >= 0.0
    ensures NonNegative(g.active) && NonNegative(g.target)
    ensures g.target == Retuned(f, rs).target
    ensures Between(Retuned(f, rs).active.minCutoff, g.target.minCutoff, g.active.minCutoff)
    ensures Between(Retuned(f, rs).active.dCutoff, g.target.dCutoff, g.active.dCutoff)
    ensures Between(Retuned(f, rs).active.beta, g.target.beta, g.active.beta)
    ensures g.prev == StepSample(f.prev, g.active, t, x, mag)
  {
    var r := Retuned(f, rs);
    Stepped(r.(active := Synced(r.active, r.target, deltaTime)), t, x, mag)
  }

  class OneEuroFilter {
    var beta: real
    var minCutoff: real
    var dCutoff: real
    var betaTarget: real
    var minCutoffTarget: real
    var dCutoffTarget: real
    var prev: Sample

    /** Every coefficient the filter can reach is non-negative: the call
        sites only ever pass non-negative presets. */
    ghost predicate Valid()
      reads this
    {
      beta >= 0.0 && minCutoff >= 0.0 && dCutoff >= 0.0 &&
      betaTarget >= 0.0 && minCutoffTarget >= 0.0 && dCutoffTarget >= 0.0
    }

    function Active(): Coeffs
      reads this
    {
      Coeffs(minCutoff, dCutoff, beta)
    }

    function Target(): Coeffs
      reads this
    {
      Coeffs(minCutoffTarget, dCutoffTarget, betaTarget)
    }

    function State(): FilterState
      reads this
    {
      FilterState(Active(), Target(), prev)
    }

    constructor ()
      ensures Valid()
      ensures beta == 10.0 && minCutoff == 1.0 && dCutoff == 1.0
      ensures betaTarget == 10.0 && minCutoffTarget == 1.0 && dCutoffTarget == 1.0
      ensures prev == InitialSample
    {
      beta, minCutoff, dCutoff := 10.0, 1.0, 1.0;
      betaTarget, minCutoffTarget, dCutoffTarget := 10.0, 1.0, 1.0;
      prev := InitialSample;
    }

    /** Retunes the filter: the targets always take the new values; the
        active coefficients do so too only when `lerp` is false. */
    method SetEuroParam(miniCutoff: real, cutOff: real, newBeta: real, lerp: bool)
      requires Valid()
      requires miniCutoff >= 0.0 && cutOff >= 0.0 && newBeta >= 0.0
      modifies this
      ensures Valid()
      ensures betaTarget == newBeta && minCutoffTarget == miniCutoff && dCutoffTarget == cutOff
      ensures lerp ==> beta == old(beta) && minCutoff == old(minCutoff) && dCutoff == old(dCutoff)
      ensures !lerp ==> beta == newBeta && minCutoff == miniCutoff && dCutoff == cutOff
      ensures prev == old(prev)
      ensures State() == ApplyRetune(old(State()), Retune(Coeffs(miniCutoff, cutOff, newBeta), lerp))
    {
      betaTarget := newBeta;
      minCutoffTarget := miniCutoff;
      dCutoffTarget := cutOff;
      if !lerp {
        beta := newBeta;
        minCutoff := miniCutoff;
        dCutoff := cutOff;
      }
    }

    /** Pulls each active coefficient towards its target by a clamped
        interpolation; none of them moves past its target. */
    method SyncParam(deltaTime: real)
      requires Valid()
      modifies this
      ensures Valid()
      ensures Active() == Synced(old(Active()), Target(), deltaTime)
      ensures State() == old(State()).(active := Synced(old(Active()), Target(), deltaTime))
    {
      LerpStaysBetween(beta, betaTarget, deltaTime);
      LerpStaysBetween(minCutoff, minCutoffTarget, deltaTime);
      LerpStaysBetween(dCutoff, dCutoffTarget, deltaTime);
      beta := Lerp(beta, betaTarget, deltaTime);
      minCutoff := Lerp(minCutoff, minCutoffTarget, deltaTime);
      dCutoff := Lerp(dCutoff, dCutoffTarget, deltaTime);
    }

    /** Filters sample `x` taken at time `t`.  An interval shorter than
        MinElapsed (including a negative one) returns the previous output
        and leaves the history alone. */
    method Step(t: real, x: Vec3, mag: Vec3 -> real) returns (r: Vec3)
      requires Valid()
      requires forall v :: mag(v) >= 0.0
      modifies this
      ensures Valid()
      ensures State() == Stepped(old(State()), t, x, mag) && r == prev.x
    {
      var te := t - prev.t;
      if te < MinElapsed {
        return prev.x;
      }
      prev := Advance(prev, minCutoff, dCutoff, beta, t, x, mag);
      r := prev.x;
    }
  }
}
