/**
 * The ambient particle background of the home page (particles.js).
 *
 * A field of faint dots is sized to the viewport, seeded with random radii,
 * opacities, positions and velocities, and advanced once per display frame:
 * the elapsed time is capped, each velocity is nudged by a slow oscillation,
 * each position moves and wraps around a band 30 units wider than the
 * viewport. A run/pause machine keeps at most one frame callback pending.
 *
 * Host services are parameters: `Math.random` is a sequence of draws in
 * [0, 1), `Math.sin`/`Math.cos` are functions `real -> real`, `Math.sqrt` of
 * the viewport diagonal is `hypot`, clocks are `real` arguments, and the
 * frame scheduler is the pair `scheduled` / `nextHandle` of class `Field`.
 */
module Particles {
  import opened Wrappers

  // Configuration block and the literal constants of the script.
  const BaseCount: int := 60
  const MinCount: int := 18
  const MaxCount: int := 160
  const ReferenceArea: int := 1920 * 1080
  const MinRadius: real := 0.8
  const MaxRadius: real := 2.6
  const BaseSpeed: real := 6.0
  const MinAlpha: real := 0.035
  const MaxAlpha: real := 0.12
  const DriftStrength: real := 0.25
  const MinExtent: nat := 300
  const SpawnBuffer: real := 20.0
  const Margin: real := 30.0
  const FrameCapMs: real := 60.0
  const SeedRange: real := 1000.0

  /** Velocity change per frame is the oscillation times this gain. */
  const DriftGain: real := DriftStrength * 0.02

  /** One dot: position, velocity (units per frame at 60 Hz), radius, opacity and phase seed. */
  datatype Particle = Particle(x: real, y: real, vx: real, vy: real, r: real, alpha: real, seed: real)

  // ---------------------------------------------------------------------
  // Sizing
  // ---------------------------------------------------------------------

  /** `Math.round`: the nearest integer, halves rounded up. */
  function Round(x: real): (n: int)
    ensures x - 0.5 < n as real <= x + 0.5
  {
    (x + 0.5).Floor
  }

  /** `parseFloat(--particles-scale) || 1`: NaN (None) and 0 are falsy and fall back to 1. */
  function ScaleFactor(parsed: Option<real>): (s: real)
    ensures s != 0.0
    ensures parsed.Some? && parsed.value != 0.0 ==> s == parsed.value
    ensures !(parsed.Some? && parsed.value != 0.0) ==> s == 1.0
  {
    if parsed.Some? && parsed.value != 0.0 then parsed.value else 1.0
  }

  /** Viewport area relative to 1920 x 1080. */
  function AreaRatio(w: int, h: int): real
  {
    (w * h) as real / ReferenceArea as real
  }

  /** The count before clamping: area ratio floored at 0.5, times base count and CSS scale, rounded. */
  function RawCount(w: int, h: int, parsed: Option<real>): int
  {
    ScaledCount(AreaRatio(w, h), ScaleFactor(parsed))
  }

  function ScaledCount(ratio: real, scale: real): int
  {
    Round(BaseCount as real * Max(0.5, ratio) * scale)
  }

  /** computeCount: the raw count clamped into [18, 160], whatever the dimensions and scale. */
  function ComputeCount(w: int, h: int, parsed: Option<real>): (n: int)
    ensures MinCount <= n <= MaxCount
    ensures MinCount <= RawCount(w, h, parsed) <= MaxCount ==> n == RawCount(w, h, parsed)
    ensures RawCount(w, h, parsed) < MinCount ==> n == MinCount
    ensures RawCount(w, h, parsed) > MaxCount ==> n == MaxCount
  {
    var count := RawCount(w, h, parsed);
    var atLeast := if count >= MinCount then count else MinCount;
    if atLeast <= MaxCount then atLeast else MaxCount
  }

  /** A full-HD viewport with the default scale gets exactly the base count. */
  lemma ReferenceViewportCount()
    ensures ComputeCount(1920, 1080, None) == BaseCount
    ensures ComputeCount(1920, 1080, Some(1.0)) == BaseCount
  {
    assert AreaRatio(1920, 1080) == 1.0;
  }

  /** Any viewport of at most half the reference area counts as exactly half of it. */
  lemma SmallViewportCount(w: int, h: int, parsed: Option<real>)
    requires 2 * (w * h) <= ReferenceArea
    ensures RawCount(w, h, parsed) == Round(BaseCount as real * 0.5 * ScaleFactor(parsed))
    ensures ScaleFactor(parsed) == 1.0 ==> ComputeCount(w, h, parsed) == 30
  {
    assert AreaRatio(w, h) <= 0.5;
  }

  /** With a positive scale, a larger viewport never gets fewer particles. */
  lemma CountMonotone(w: int, h: int, w': int, h': int, parsed: Option<real>)
    requires w * h <= w' * h'
    requires ScaleFactor(parsed) > 0.0
    ensures ComputeCount(w, h, parsed) <= ComputeCount(w', h', parsed)
  {
    RawCountMonotone(w, h, w', h', parsed);
  }

  lemma RawCountMonotone(w: int, h: int, w': int, h': int, parsed: Option<real>)
    requires w * h <= w' * h'
    requires ScaleFactor(parsed) > 0.0
    ensures RawCount(w, h, parsed) <= RawCount(w', h', parsed)
  {
    var area, area' := w * h, w' * h';
    RatioMonotone(area, area');
    var ratio, ratio' := AreaRatio(w, h), AreaRatio(w', h');
    assert ratio <= ratio';
    RawMonotone(ratio, ratio', ScaleFactor(parsed));
  }

  lemma RatioMonotone(area: int, area': int)
    requires area <= area'
    ensures area as real / ReferenceArea as real <= area' as real / ReferenceArea as real
  {
    DivideMonotone(area as real, area' as real, ReferenceArea as real);
  }

  lemma RawMonotone(ratio: real, ratio': real, s: real)
    requires ratio <= ratio' && s > 0.0
    ensures ScaledCount(ratio, s) <= ScaledCount(ratio', s)
  {
    var a, a' := Max(0.5, ratio), Max(0.5, ratio');
    ScaleMonotone(a, a', BaseCount as real * s);
    assert BaseCount as real * a * s == a * (BaseCount as real * s);
    assert BaseCount as real * a' * s == a' * (BaseCount as real * s);
    RoundMonotone(BaseCount as real * a * s, BaseCount as real * a' * s);
  }

  lemma DivideMonotone(x: real, x': real, d: real)
    requires x <= x' && d > 0.0
    ensures x / d <= x' / d
  {
    assert x' / d - x / d == (x' - x) / d;
  }

  lemma ScaleMonotone(x: real, x': real, k: real)
    requires x <= x' && k > 0.0
    ensures x * k <= x' * k
  {
    MulNonneg(x' - x, k);
    assert x' * k - x * k == (x' - x) * k;
  }

  lemma RoundMonotone(x: real, x': real)
    requires x <= x'
    ensures Round(x) <= Round(x')
  {
  }

  /** `Math.max(300, clientSize || innerSize)`: a zero client size falls back to the window size. */
  function ViewportExtent(client: int, inner: int): (d: nat)
    ensures d >= MinExtent
    ensures d >= (if client != 0 then client else inner)
    ensures d == MinExtent || d == (if client != 0 then client else inner)
  {
    var reported := if client != 0 then client else inner;
    if reported >= MinExtent then reported else MinExtent
  }

  // ---------------------------------------------------------------------
  // Seeding
  // ---------------------------------------------------------------------

  /** rand(min, max), where `u` is the value `Math.random` returned. */
  function Rand(u: real, lo: real, hi: real): (v: real)
    requires 0.0 <= u < 1.0
    ensures lo < hi ==> lo <= v < hi
    ensures lo == hi ==> v == lo
  {
    var span := hi - lo;
    if span > 0.0 then ScaleBelow(u, span); u * span + lo else u * span + lo
  }

  lemma ScaleBelow(u: real, d: real)
    requires 0.0 <= u < 1.0 && d > 0.0
    ensures 0.0 <= u * d < d
  {
    assert d - u * d == (1.0 - u) * d;
  }

  /** `Math.random` as a stream: `random(k)` is the k-th value drawn. */
  ghost predicate UnitRandom(random: nat -> real)
  {
    forall k :: 0.0 <= random(k) < 1.0
  }

  /** The seven `Math.random` values one particle consumes, in the order they are drawn. */
  datatype Draws = Draws(r: real, x: real, y: real, vx: real, vy: real, alpha: real, seed: real)

  predicate UnitDraws(d: Draws)
  {
    0.0 <= d.r < 1.0 && 0.0 <= d.x < 1.0 && 0.0 <= d.y < 1.0 && 0.0 <= d.vx < 1.0
    && 0.0 <= d.vy < 1.0 && 0.0 <= d.alpha < 1.0 && 0.0 <= d.seed < 1.0
  }

  /** The draws of the i-th particle created: values 7i .. 7i+6 of the stream. */
  function DrawsAt(random: nat -> real, i: nat): (d: Draws)
    requires UnitRandom(random)
    ensures UnitDraws(d)
  {
    Draws(random(7 * i), random(7 * i + 1), random(7 * i + 2), random(7 * i + 3),
          random(7 * i + 4), random(7 * i + 5), random(7 * i + 6))
  }

  /** speedFactor, given `diagonal` = Math.sqrt(w*w + h*h). */
  function SpeedFactor(diagonal: real): (f: real)
    ensures f == diagonal / 2000.0
    ensures 0.0 <= diagonal ==> 0.0 <= f
  {
    (diagonal / 1200.0) * (BaseSpeed / 10.0)
  }

  /** What a freshly created particle satisfies. */
  predicate Spawned(p: Particle, w: nat, h: nat)
  {
    MinRadius <= p.r < MaxRadius
    && MinAlpha <= p.alpha < MaxAlpha
    && -SpawnBuffer <= p.x < w as real + SpawnBuffer
    && -SpawnBuffer <= p.y < h as real + SpawnBuffer
    && 0.0 <= p.seed < SeedRange
  }

  /** The particle initParticles builds from one set of draws. */
  function Spawn(d: Draws, w: nat, h: nat, speed: real): (p: Particle)
    requires UnitDraws(d)
    ensures Spawned(p, w, h)
    ensures Abs(p.vx) <= 0.25 * Abs(speed) && Abs(p.vy) <= 0.25 * Abs(speed)
  {
    var r := Rand(d.r, MinRadius, MaxRadius);
    var x := Rand(d.x, -SpawnBuffer, w as real + SpawnBuffer);
    var y := Rand(d.y, -SpawnBuffer, h as real + SpawnBuffer);
    var ux := Rand(d.vx, -0.25, 0.25);
    var uy := Rand(d.vy, -0.25, 0.25);
    var alpha := Rand(d.alpha, MinAlpha, MaxAlpha);
    SpeedBound(ux, speed);
    SpeedBound(uy, speed);
    Particle(x, y, ux * speed, uy * speed, r, alpha, d.seed * SeedRange)
  }

  lemma SpeedBound(u: real, speed: real)
    requires -0.25 <= u <= 0.25
    ensures Abs(u * speed) <= 0.25 * Abs(speed)
  {
    var s := Abs(speed);
    MulNonneg(0.25 - u, s);
    MulNonneg(u + 0.25, s);
    assert (0.25 - u) * s == 0.25 * s - u * s;
    assert (u + 0.25) * s == u * s + 0.25 * s;
    assert u * speed == u * s || u * speed == -(u * s);
  }

  lemma MulNonneg(a: real, b: real)
    requires 0.0 <= a && 0.0 <= b
    ensures 0.0 <= a * b
  {
  }

  /** The array initParticles builds: `n` particles, the i-th from the i-th group of draws. */
  function Seeded(n: nat, w: nat, h: nat, speed: real, random: nat -> real): (ps: seq<Particle>)
    requires UnitRandom(random)
    ensures |ps| == n
    ensures forall i :: 0 <= i < n ==> Spawned(ps[i], w, h)
  {
    seq(n, i requires 0 <= i < n => Spawn(DrawsAt(random, i), w, h, speed))
  }

  // ---------------------------------------------------------------------
  // The per-frame step
  // ---------------------------------------------------------------------

  /** Elapsed seconds since the last frame, with the gap capped at 60 ms. */
  function FrameDt(now: real, last: real): (dt: real)
    ensures dt <= FrameCapMs / 1000.0
    ensures now - last <= FrameCapMs ==> dt == (now - last) / 1000.0
    ensures now - last >= FrameCapMs ==> dt == FrameCapMs / 1000.0
  {
    Min(FrameCapMs, now - last) / 1000.0
  }

  /** Toroidal wrap of one coordinate: leaving the band on one side re-enters on the other. */
  function Wrap(c: real, extent: nat): (v: real)
    ensures -Margin <= v <= extent as real + Margin
    ensures -Margin <= c <= extent as real + Margin ==> v == c
    ensures c < -Margin ==> v == extent as real + Margin
    ensures c > extent as real + Margin ==> v == -Margin
  {
    var c' := if c < -Margin then extent as real + Margin else c;
    if c' > extent as real + Margin then -Margin else c'
  }

  /** The wrap band: within 30 units of the viewport on every side. */
  predicate InBand(p: Particle, w: nat, h: nat)
  {
    -Margin <= p.x <= w as real + Margin && -Margin <= p.y <= h as real + Margin
  }

  /** One particle's update in a running frame at time `now` with elapsed `dt`. */
  function Step(p: Particle, w: nat, h: nat, now: real, dt: real,
                sin: real -> real, cos: real -> real): (q: Particle)
    ensures InBand(q, w, h)
    ensures q.r == p.r && q.alpha == p.alpha && q.seed == p.seed
  {
    var vx := p.vx + Nudge(sin, now, p.seed, 0.7);
    var vy := p.vy + Nudge(cos, now, p.seed, 0.6);
    p.(vx := vx, vy := vy, x := Wrap(Moved(p.x, vx, dt), w), y := Wrap(Moved(p.y, vy, dt), h))
  }

  /** The velocity change of one frame: a slow wave of the particle's own phase, scaled by 0.005. */
  function Nudge(wave: real -> real, now: real, seed: real, freq: real): real
  {
    wave((now * 0.0002 + seed) * freq) * DriftGain
  }

  /** A coordinate moved by velocity `v` over `dt` seconds: 60 frames a second, at a fifth of the speed. */
  function Moved(c: real, v: real, dt: real): real
  {
    c + v * dt * 60.0 * 0.2
  }

  /** The loop body of frame for one particle, written as the script mutates it. */
  method Advance(p0: Particle, w: nat, h: nat, now: real, dt: real,
                 sin: real -> real, cos: real -> real) returns (p: Particle)
    ensures p == Step(p0, w, h, now, dt, sin, cos)
  {
    var vx := p0.vx + Nudge(sin, now, p0.seed, 0.7);
    var vy := p0.vy + Nudge(cos, now, p0.seed, 0.6);
    var x := Moved(p0.x, vx, dt);
    if x < -Margin { x := w as real + Margin; }
    if x > w as real + Margin { x := -Margin; }
    assert x == Wrap(Moved(p0.x, vx, dt), w);
    var y := Moved(p0.y, vy, dt);
    if y < -Margin { y := h as real + Margin; }
    if y > h as real + Margin { y := -Margin; }
    assert y == Wrap(Moved(p0.y, vy, dt), h);
    p := p0.(x := x, y := y, vx := vx, vy := vy);
  }

  /** Every particle advanced by one frame, in order. */
  function StepAll(ps: seq<Particle>, w: nat, h: nat, now: real, dt: real,
                   sin: real -> real, cos: real -> real): (qs: seq<Particle>)
    ensures |qs| == |ps|
    ensures forall i :: 0 <= i < |qs| ==>
      InBand(qs[i], w, h) && qs[i].r == ps[i].r && qs[i].alpha == ps[i].alpha && qs[i].seed == ps[i].seed
  {
    seq(|ps|, i requires 0 <= i < |ps| => Step(ps[i], w, h, now, dt, sin, cos))
  }

  /** The particle loop of frame: every particle of the array updated in place, in order. */
  method StepInPlace(a: array<Particle>, w: nat, h: nat, now: real, dt: real,
                     sin: real -> real, cos: real -> real)
    modifies a
    ensures a[..] == StepAll(old(a[..]), w, h, now, dt, sin, cos)
  {
    var i := 0;
    while i < a.Length
      invariant 0 <= i <= a.Length
      invariant forall k :: 0 <= k < i ==> a[k] == Step(old(a[k]), w, h, now, dt, sin, cos)
      invariant forall k :: i <= k < a.Length ==> a[k] == old(a[k])
    {
      var p := Advance(a[i], w, h, now, dt, sin, cos);
      a[i] := p;
      i := i + 1;
    }
  }

  /** The invariant of the field: every particle in the wrap band with its fixed traits in range. */
  predicate FieldOk(ps: seq<Particle>, w: nat, h: nat)
  {
    forall i :: 0 <= i < |ps| ==>
      InBand(ps[i], w, h) && MinRadius <= ps[i].r < MaxRadius && MinAlpha <= ps[i].alpha < MaxAlpha
  }

  /** A freshly seeded field satisfies the field invariant. */
  lemma SeededFieldOk(n: nat, w: nat, h: nat, speed: real, random: nat -> real)
    requires UnitRandom(random)
    ensures FieldOk(Seeded(n, w, h, speed, random), w, h)
  {
  }

  /** A frame keeps the field invariant. */
  lemma StepAllFieldOk(ps: seq<Particle>, w: nat, h: nat, now: real, dt: real,
                       sin: real -> real, cos: real -> real)
    requires FieldOk(ps, w, h)
    ensures FieldOk(StepAll(ps, w, h, now, dt, sin, cos), w, h)
  {
  }

  ghost predicate UnitBounded(f: real -> real)
  {
    forall t :: -1.0 <= f(t) <= 1.0
  }

  /** With sine and cosine in [-1, 1], one frame changes each velocity component by at most 0.005. */
  lemma DriftPerFrame(p: Particle, w: nat, h: nat, now: real, dt: real,
                      sin: real -> real, cos: real -> real)
    requires UnitBounded(sin) && UnitBounded(cos)
    ensures Abs(Step(p, w, h, now, dt, sin, cos).vx - p.vx) <= DriftGain
    ensures Abs(Step(p, w, h, now, dt, sin, cos).vy - p.vy) <= DriftGain
  {
    var t := now * 0.0002 + p.seed;
    assert -1.0 <= sin(t * 0.7) <= 1.0 && -1.0 <= cos(t * 0.6) <= 1.0;
  }

  /** One frame's timing: the time stamp and the elapsed seconds used. */
  datatype Tick = Tick(now: real, dt: real)

  /** A particle after a run of frames. */
  function Drift(p: Particle, w: nat, h: nat, ticks: seq<Tick>,
                 sin: real -> real, cos: real -> real): Particle
    decreases |ticks|
  {
    if ticks == [] then p
    else Drift(Step(p, w, h, ticks[0].now, ticks[0].dt, sin, cos), w, h, ticks[1..], sin, cos)
  }

  /**
   * Velocity is never damped: after n frames it may have moved by up to n * 0.005 per
   * component. Radius, opacity and seed stay fixed.
   */
  lemma {:induction false} VelocityDriftBound(p: Particle, w: nat, h: nat, ticks: seq<Tick>,
                                              sin: real -> real, cos: real -> real)
    requires UnitBounded(sin) && UnitBounded(cos)
    ensures Abs(Drift(p, w, h, ticks, sin, cos).vx - p.vx) <= |ticks| as real * DriftGain
    ensures Abs(Drift(p, w, h, ticks, sin, cos).vy - p.vy) <= |ticks| as real * DriftGain
    ensures Drift(p, w, h, ticks, sin, cos).r == p.r
    ensures Drift(p, w, h, ticks, sin, cos).alpha == p.alpha
    ensures Drift(p, w, h, ticks, sin, cos).seed == p.seed
    decreases |ticks|
  {
    if ticks != [] {
      var p1 := Step(p, w, h, ticks[0].now, ticks[0].dt, sin, cos);
      DriftPerFrame(p, w, h, ticks[0].now, ticks[0].dt, sin, cos);
      VelocityDriftBound(p1, w, h, ticks[1..], sin, cos);
    }
  }

  /**
   * The bound is reached: with both waves stuck at 1 every frame adds exactly 0.005 to each
   * velocity component, so velocity grows without limit.
   */
  lemma {:induction false} VelocityDriftTight(p: Particle, w: nat, h: nat, ticks: seq<Tick>,
                                              sin: real -> real, cos: real -> real)
    requires forall t :: sin(t) == 1.0
    requires forall t :: cos(t) == 1.0
    ensures Drift(p, w, h, ticks, sin, cos).vx == p.vx + |ticks| as real * DriftGain
    ensures Drift(p, w, h, ticks, sin, cos).vy == p.vy + |ticks| as real * DriftGain
    decreases |ticks|
  {
    if ticks != [] {
      var p1 := Step(p, w, h, ticks[0].now, ticks[0].dt, sin, cos);
      assert p1.vx == p.vx + DriftGain && p1.vy == p.vy + DriftGain;
      VelocityDriftTight(p1, w, h, ticks[1..], sin, cos);
    }
  }

  // ---------------------------------------------------------------------
  // The run/pause machine
  // ---------------------------------------------------------------------

  /**
   * The loop's state: the `paused` flag, the handle in `animId`, the frame callbacks
   * the host holds pending, the next handle the host will hand out, and `last`.
   */
  datatype LoopState = LoopState(paused: bool, animId: Option<nat>, pending: set<nat>,
                                 nextHandle: nat, last: real)

  function Held(id: Option<nat>): set<nat>
  {
    if id.Some? then {id.value} else {}
  }

  /**
   * At most one frame is pending and it is the one `animId` names; a stopped loop has
   * nothing pending and no handle. Handles are positive, so `if (animId)` tests presence.
   */
  predicate OnePending(s: LoopState)
  {
    s.pending <= Held(s.animId)
    && (s.paused ==> s.animId.None? && s.pending == {})
    && 0 < s.nextHandle
    && (s.animId.Some? ==> 0 < s.animId.value)
  }

  /** `if (animId) cancelAnimationFrame(animId)`. */
  function Cancelled(s: LoopState): set<nat>
  {
    if s.animId.Some? then s.pending - {s.animId.value} else s.pending
  }

  /** start(): cancel the held frame, then request a new one and run. */
  function StartLoop(s: LoopState, clock: real): (r: LoopState)
    ensures !r.paused && r.animId == Some(s.nextHandle) && r.last == clock
    ensures OnePending(s) ==> OnePending(r) && r.pending == {s.nextHandle}
  {
    LoopState(false, Some(s.nextHandle), Cancelled(s) + {s.nextHandle}, s.nextHandle + 1, clock)
  }

  /** stop(): pause and cancel the held frame. */
  function StopLoop(s: LoopState): (r: LoopState)
    ensures r.paused && r.animId.None? && r.last == s.last
    ensures OnePending(s) ==> OnePending(r) && r.pending == {}
  {
    s.(paused := true, animId := None, pending := Cancelled(s))
  }

  /** frame(now) as seen by the loop: a paused loop returns at once. */
  function FrameLoop(s: LoopState, now: real): (r: LoopState)
    ensures s.paused ==> r == s
    ensures !s.paused ==> !r.paused && r.last == now && r.animId == Some(s.nextHandle)
                          && s.nextHandle in r.pending
    ensures !s.paused && s.pending == {} ==> r.pending == {s.nextHandle}
  {
    if s.paused then s
    else s.(last := now, animId := Some(s.nextHandle), pending := s.pending + {s.nextHandle},
            nextHandle := s.nextHandle + 1)
  }

  /** The host runs pending callback `handle`: it leaves the queue, then frame runs. */
  function FireLoop(s: LoopState, handle: nat, now: real): (r: LoopState)
    ensures OnePending(s) && s.animId == Some(handle) ==> OnePending(r) && r.pending == {s.nextHandle}
  {
    FrameLoop(s.(pending := s.pending - {handle}), now)
  }

  /** The visibilitychange handler. */
  function VisibilityLoop(s: LoopState, hidden: bool, clock: real): (r: LoopState)
    ensures hidden ==> r.paused && r.animId.None?
    ensures !hidden ==> !r.paused && r.animId.Some? && r.last == clock
    ensures OnePending(s) ==> OnePending(r)
  {
    if hidden then StopLoop(s) else StartLoop(s, clock)
  }

  lemma AtMostOnePending(s: LoopState)
    requires OnePending(s)
    ensures |s.pending| <= 1
  {
    if s.animId.Some? {
      assert s.pending == {} || s.pending == {s.animId.value};
    }
  }

  /** start cancels the old frame before requesting one: exactly the new frame is pending. */
  lemma StartSchedulesOne(s: LoopState, clock: real)
    requires OnePending(s)
    ensures OnePending(StartLoop(s, clock))
    ensures StartLoop(s, clock).pending == {s.nextHandle}
    ensures !StartLoop(s, clock).paused && StartLoop(s, clock).last == clock
  {
    assert Cancelled(s) == {};
  }

  /** stop leaves the loop paused with no handle and nothing pending. */
  lemma StopClears(s: LoopState)
    requires OnePending(s)
    ensures OnePending(StopLoop(s))
    ensures StopLoop(s).paused && StopLoop(s).animId == None && StopLoop(s).pending == {}
  {
    assert Cancelled(s) == {};
  }

  lemma StopIdempotent(s: LoopState)
    ensures StopLoop(StopLoop(s)) == StopLoop(s)
  {
  }

  /** Two starts in a row leave one pending frame, not two. */
  lemma StartTwice(s: LoopState, c1: real, c2: real)
    requires OnePending(s)
    ensures StartLoop(StartLoop(s, c1), c2).pending == {s.nextHandle + 1}
  {
    StartSchedulesOne(s, c1);
    StartSchedulesOne(StartLoop(s, c1), c2);
  }

  /** Running the pending frame schedules exactly its successor. */
  lemma FireSchedulesOne(s: LoopState, handle: nat, now: real)
    requires OnePending(s) && handle in s.pending
    ensures OnePending(FireLoop(s, handle, now))
    ensures FireLoop(s, handle, now).pending == {s.nextHandle}
    ensures FireLoop(s, handle, now).last == now
  {
    assert s.pending == {handle};
  }

  /** A frame that finds the loop paused changes nothing and schedules nothing. */
  lemma PausedFrameInert(s: LoopState, now: real)
    requires s.paused
    ensures FrameLoop(s, now) == s
  {
  }

  /** Hidden, visible, hidden in quick succession: stopped, with nothing pending. */
  lemma VisibilityFlicker(s: LoopState, c1: real, c2: real, c3: real)
    requires OnePending(s)
    ensures var t := VisibilityLoop(VisibilityLoop(VisibilityLoop(s, true, c1), false, c2), true, c3);
      t.paused && t.animId == None && t.pending == {}
  {
    StopClears(s);
    StartSchedulesOne(StopLoop(s), c2);
    StopClears(StartLoop(StopLoop(s), c2));
  }

  /** What can happen to the loop: the page's and the host's events. */
  datatype Event =
    | Started(clock: real)
    | Stopped
    | Fired(handle: nat, now: real)
    | VisibilityChanged(hidden: bool, clock: real)

  /** One event; the host fires only a callback it holds pending. */
  function Apply(s: LoopState, e: Event): LoopState
  {
    match e
    case Started(clock) => StartLoop(s, clock)
    case Stopped => StopLoop(s)
    case Fired(handle, now) => if handle in s.pending then FireLoop(s, handle, now) else s
    case VisibilityChanged(hidden, clock) => VisibilityLoop(s, hidden, clock)
  }

  function Run(s: LoopState, events: seq<Event>): LoopState
    decreases |events|
  {
    if events == [] then s else Run(Apply(s, events[0]), events[1..])
  }

  lemma ApplyKeepsOnePending(s: LoopState, e: Event)
    requires OnePending(s)
    ensures OnePending(Apply(s, e))
  {
    match e
    case Started(clock) => StartSchedulesOne(s, clock);
    case Stopped => StopClears(s);
    case Fired(handle, now) =>
      if handle in s.pending { FireSchedulesOne(s, handle, now); }
    case VisibilityChanged(hidden, clock) =>
      if hidden { StopClears(s); } else { StartSchedulesOne(s, clock); }
  }

  /** Whatever happens, at most one frame is ever pending. */
  lemma {:induction false} RunKeepsOnePending(s: LoopState, events: seq<Event>)
    requires OnePending(s)
    ensures OnePending(Run(s, events))
    ensures |Run(s, events).pending| <= 1
    decreases |events|
  {
    if events == [] {
      AtMostOnePending(s);
    } else {
      ApplyKeepsOnePending(s, events[0]);
      RunKeepsOnePending(Apply(s, events[0]), events[1..]);
    }
  }

  /** Events that do not start the loop. */
  predicate Quiet(e: Event)
  {
    e.Stopped? || e.Fired? || (e.VisibilityChanged? && e.hidden)
  }

  /** After stop, no frame runs and nothing changes until the loop is started again. */
  lemma {:induction false} StoppedStaysStopped(s: LoopState, events: seq<Event>)
    requires OnePending(s) && s.paused
    requires forall i :: 0 <= i < |events| ==> Quiet(events[i])
    ensures Run(s, events) == s
    decreases |events|
  {
    if events != [] {
      assert Quiet(events[0]);
      assert Apply(s, events[0]) == s;
      RunTail(s, events);
      StoppedStaysStopped(s, events[1..]);
    }
  }

  lemma RunTail(s: LoopState, events: seq<Event>)
    requires events != []
    requires forall i :: 0 <= i < |events| ==> Quiet(events[i])
    ensures forall i :: 0 <= i < |events[1..]| ==> Quiet(events[1..][i])
  {
    forall i | 0 <= i < |events[1..]| ensures Quiet(events[1..][i]) {
      assert events[1..][i] == events[i + 1];
    }
  }

  // ---------------------------------------------------------------------
  // The field: the script's module-level state
  // ---------------------------------------------------------------------

  class Field {
    var w: nat
    var h: nat
    var particles: array<Particle>
    var animId: Option<nat>
    var paused: bool
    var last: real
    // The host frame scheduler as this field sees it: callbacks requested and not yet
    // run or cancelled, and the handle requestAnimationFrame will return next.
    ghost var scheduled: set<nat>
    var nextHandle: nat

    ghost function Loop(): LoopState
      reads this
    {
      LoopState(paused, animId, scheduled, nextHandle, last)
    }

    /** The state between a resize and the next re-seed: dimensions floored, loop consistent. */
    ghost predicate Ready()
      reads this
    {
      MinExtent <= w && MinExtent <= h && OnePending(Loop())
    }

    ghost predicate Valid()
      reads this, particles
    {
      Ready() && FieldOk(particles[..], w, h)
    }

    /** The script's start-up: state declared, `last` read at load, then resize() and start(). */
    constructor (clientW: int, clientH: int, innerW: int, innerH: int, parsed: Option<real>,
                 random: nat -> real, hypot: (int, int) -> real, loadClock: real, startClock: real)
      requires UnitRandom(random)
      ensures Valid()
      ensures w == ViewportExtent(clientW, innerW) && h == ViewportExtent(clientH, innerH)
      ensures particles[..] == Seeded(ComputeCount(w, h, parsed), w, h, SpeedFactor(hypot(w, h)), random)
      ensures !paused && last == startClock && animId.Some? && scheduled == {animId.value}
      ensures fresh(particles)
    {
      w, h := 0, 0;
      particles := new Particle[0];
      animId := None;
      paused := false;
      last := loadClock;
      scheduled := {};
      nextHandle := 1;
      new;
      Resize(clientW, clientH, innerW, innerH, parsed, random, hypot);
      Start(startClock);
    }

    /** requestAnimationFrame: a new handle, now pending. */
    method RequestFrame() returns (handle: nat)
      modifies this`nextHandle, this`scheduled
      ensures handle == old(nextHandle) && nextHandle == old(nextHandle) + 1
      ensures scheduled == old(scheduled) + {handle}
    {
      handle := nextHandle;
      nextHandle := nextHandle + 1;
      scheduled := scheduled + {handle};
    }

    /** cancelAnimationFrame: the callback is no longer pending. */
    method CancelFrame(handle: nat)
      modifies this`scheduled
      ensures scheduled == old(scheduled) - {handle}
    {
      scheduled := scheduled - {handle};
    }

    /** resize: floor both dimensions at 300, then re-seed the whole field. */
    method Resize(clientW: int, clientH: int, innerW: int, innerH: int, parsed: Option<real>,
                  random: nat -> real, hypot: (int, int) -> real)
      requires OnePending(Loop()) && UnitRandom(random)
      modifies this
      ensures Valid()
      ensures w == ViewportExtent(clientW, innerW) && h == ViewportExtent(clientH, innerH)
      ensures fresh(particles) && particles.Length == ComputeCount(w, h, parsed)
      ensures particles[..] == Seeded(ComputeCount(w, h, parsed), w, h, SpeedFactor(hypot(w, h)), random)
      ensures Loop() == old(Loop())
    {
      w := ViewportExtent(clientW, innerW);
      h := ViewportExtent(clientH, innerH);
      InitParticles(parsed, random, hypot);
    }

    /** initParticles: a new array of computeCount() fresh particles replaces the old one. */
    method InitParticles(parsed: Option<real>, random: nat -> real, hypot: (int, int) -> real)
      requires Ready() && UnitRandom(random)
      modifies this
      ensures Valid()
      ensures fresh(particles) && particles.Length == ComputeCount(w, h, parsed)
      ensures particles[..] == Seeded(ComputeCount(w, h, parsed), w, h, SpeedFactor(hypot(w, h)), random)
      ensures w == old(w) && h == old(h) && Loop() == old(Loop())
    {
      var count := ComputeCount(w, h, parsed);
      var width, height := w, h;
      var speed := SpeedFactor(hypot(width, height));
      particles := new Particle[count](i requires 0 <= i < count =>
                                         Spawn(DrawsAt(random, i), width, height, speed));
      assert particles[..] == Seeded(count, width, height, speed, random);
      SeededFieldOk(count, width, height, speed, random);
    }

    /**
     * frame(now), run by the host after taking its callback off the queue. A paused loop
     * returns at once; otherwise `last` moves to `now`, every particle steps with the
     * capped elapsed time, and the next frame is requested.
     */
    method Frame(now: real, sin: real -> real, cos: real -> real)
      requires Valid() && scheduled == {}
      modifies this, particles
      ensures Valid()
      ensures particles == old(particles) && w == old(w) && h == old(h)
      ensures Loop() == FrameLoop(old(Loop()), now)
      ensures particles[..] == if old(paused) then old(particles[..])
                               else StepAll(old(particles[..]), w, h, now, FrameDt(now, old(last)), sin, cos)
    {
      if paused {
        return;
      }
      var dt := FrameDt(now, last);
      last := now;
      StepInPlace(particles, w, h, now, dt, sin, cos);
      StepAllFieldOk(old(particles[..]), w, h, now, dt, sin, cos);
      var id := RequestFrame();
      animId := Some(id);
    }

    /** The host runs the pending callback `handle`. */
    method Fire(handle: nat, now: real, sin: real -> real, cos: real -> real)
      requires Valid() && handle in scheduled
      modifies this, particles
      ensures Valid()
      ensures particles == old(particles) && w == old(w) && h == old(h)
      ensures Loop() == FireLoop(old(Loop()), handle, now)
      ensures particles[..] == StepAll(old(particles[..]), w, h, now, FrameDt(now, old(last)), sin, cos)
    {
      assert scheduled == {handle};
      scheduled := scheduled - {handle};
      Frame(now, sin, cos);
    }

    /** start: cancel any pending frame, unpause, reset `last`, request one frame. */
    method Start(clock: real)
      requires Valid()
      modifies this
      ensures Valid()
      ensures particles == old(particles) && w == old(w) && h == old(h)
      ensures Loop() == StartLoop(old(Loop()), clock)
    {
      if animId.Some? {
        CancelFrame(animId.value);
      }
      paused := false;
      last := clock;
      var id := RequestFrame();
      animId := Some(id);
    }

    /** stop: pause, cancel any pending frame, forget the handle. */
    method Stop()
      requires Valid()
      modifies this
      ensures Valid()
      ensures particles == old(particles) && w == old(w) && h == old(h)
      ensures Loop() == StopLoop(old(Loop()))
    {
      paused := true;
      if animId.Some? {
        CancelFrame(animId.value);
      }
      animId := None;
    }

    /** The visibilitychange listener: hidden stops the loop, anything else starts it. */
    method OnVisibilityChange(hidden: bool, clock: real)
      requires Valid()
      modifies this
      ensures Valid()
      ensures particles == old(particles) && w == old(w) && h == old(h)
      ensures Loop() == VisibilityLoop(old(Loop()), hidden, clock)
    {
      if hidden {
        Stop();
      } else {
        Start(clock);
      }
    }

    /** The exported restart: re-seed at the current size, then start. */
    method Restart(parsed: Option<real>, random: nat -> real, hypot: (int, int) -> real, clock: real)
      requires Valid() && UnitRandom(random)
      modifies this
      ensures Valid()
      ensures fresh(particles) && w == old(w) && h == old(h)
      ensures particles[..] == Seeded(ComputeCount(w, h, parsed), w, h, SpeedFactor(hypot(w, h)), random)
      ensures Loop() == StartLoop(old(Loop()), clock)
    {
      InitParticles(parsed, random, hypot);
      Start(clock);
    }
  }

  /** The script as a whole: without a canvas it does nothing at all. */
  method Boot(canvasPresent: bool, clientW: int, clientH: int, innerW: int, innerH: int,
              parsed: Option<real>, random: nat -> real, hypot: (int, int) -> real,
              loadClock: real, startClock: real) returns (field: Field?)
    requires UnitRandom(random)
    ensures field != null <==> canvasPresent
    ensures field != null ==> fresh(field) && fresh(field.particles) && field.Valid() && !field.paused
    ensures field != null ==> field.animId.Some? && field.scheduled == {field.animId.value}
    ensures field != null ==> field.w == ViewportExtent(clientW, innerW) && field.h == ViewportExtent(clientH, innerH)
    ensures field != null ==> field.particles[..] == Seeded(ComputeCount(field.w, field.h, parsed), field.w, field.h,
                                                            SpeedFactor(hypot(field.w, field.h)), random)
    ensures field != null ==> field.last == startClock
  {
    if !canvasPresent {
      return null;
    }
    field := new Field(clientW, clientH, innerW, innerH, parsed, random, hypot, loadClock, startClock);
  }
}
