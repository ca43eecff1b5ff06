/** The animation driver: one run interpolates a set of named numbers from
    `from` to `to` over `duration`, shaping time with an easing function.
    The wall clock is a parameter: a tick is a pure step from the time it
    runs at to the values it draws and whether it finishes the run. */
module Animation {

  /** A JavaScript number as the interpolation produces it: a key of `from`
      that `to` lacks converts to NaN. */
  datatype Num = Real(v: real) | NaN

  datatype Anim = Anim(
    start: real,
    duration: real,
    from: map<string, real>,
    to: map<string, real>,
    timing: real -> real)

  /** What one tick draws, and whether it calls the completion callback
      (otherwise it schedules another tick). */
  datatype Frame = Frame(values: map<string, Num>, done: bool)

  /** An easing function that keeps [0, 1] inside [0, 1]. */
  ghost predicate EasesInUnit(timing: real -> real) {
    forall t :: 0.0 <= t <= 1.0 ==> 0.0 <= timing(t) <= 1.0
  }

  predicate Between(x: real, a: real, b: real) {
    (a <= x <= b) || (b <= x <= a)
  }

  /** The elapsed share of the run, capped at 1 from above only. */
  function Fraction(elapsed: real, duration: real): (f: real)
    requires duration > 0.0
    ensures f <= 1.0
    ensures f == 1.0 <==> elapsed >= duration
    ensures elapsed < duration ==> f * duration == elapsed
    ensures 0.0 <= elapsed ==> 0.0 <= f
  {
    var frac := elapsed / duration;
    if frac > 1.0 then 1.0 else frac
  }

  /** Every key of `from` moved the eased share `t` of the way towards the
      same key of `to`. */
  function Progress(from: map<string, real>, to: map<string, real>, t: real): (r: map<string, Num>)
    ensures r.Keys == from.Keys
    ensures forall k :: k in from && k !in to ==> r[k] == NaN
    ensures forall k :: k in from && k in to ==> r[k].Real?
    ensures forall k :: k in from && k in to ==> r[k].v - from[k] == (to[k] - from[k]) * t
    ensures t == 0.0 ==> forall k :: k in from && k in to ==> r[k].v == from[k]
    ensures t == 1.0 ==> forall k :: k in from && k in to ==> r[k].v == to[k]
    ensures 0.0 <= t <= 1.0 ==>
      forall k :: k in from && k in to ==> Between(r[k].v, from[k], to[k])
  {
    var r := map k | k in from ::
      if k in to then Real(from[k] + (to[k] - from[k]) * t) else NaN;
    assert 0.0 <= t <= 1.0 ==>
      forall k :: k in from && k in to ==> Between(r[k].v, from[k], to[k]) by {
      forall k | k in from && k in to
        ensures 0.0 <= t <= 1.0 ==> Between(r[k].v, from[k], to[k])
      {
        LerpBetween(from[k], to[k], t);
      }
    }
    r
  }

  /** Linear interpolation by a share in [0, 1] stays between its ends. */
  lemma LerpBetween(s: real, e: real, t: real)
    ensures 0.0 <= t <= 1.0 ==> Between(s + (e - s) * t, s, e)
  {
  }

  /** One tick of the run at wall-clock time `now`. */
  function Tick(a: Anim, now: real): (fr: Frame)
    requires a.duration > 0.0
    ensures fr.values.Keys == a.from.Keys
    ensures fr.done <==> now - a.start >= a.duration
    ensures fr.values == Progress(a.from, a.to, a.timing(Fraction(now - a.start, a.duration)))
  {
    var frac := Fraction(now - a.start, a.duration);
    Frame(Progress(a.from, a.to, a.timing(frac)), frac == 1.0)
  }

  /** With an easing that stays in [0, 1] and a clock that has not gone
      backwards, every drawn value lies between its start and end. */
  lemma TickBetween(a: Anim, now: real, k: string)
    requires a.duration > 0.0
    requires EasesInUnit(a.timing)
    requires now >= a.start
    requires k in a.from && k in a.to
    ensures Tick(a, now).values[k].Real?
    ensures Between(Tick(a, now).values[k].v, a.from[k], a.to[k])
  {
  }

  /** Once the duration has elapsed, a run whose easing ends at 1 draws the
      `to` values exactly and finishes. */
  lemma TickAtEnd(a: Anim, now: real, k: string)
    requires a.duration > 0.0
    requires a.timing(1.0) == 1.0
    requires now - a.start >= a.duration
    requires k in a.from && k in a.to
    ensures Tick(a, now).done
    ensures Tick(a, now).values[k] == Real(a.to[k])
  {
  }

  /** The easing used for zooming: t * t * (3 - 2t). */
  function Smoothstep(t: real): (r: real)
    ensures t == 0.0 ==> r == 0.0
    ensures t == 1.0 ==> r == 1.0
    ensures 0.0 <= t <= 1.0 ==> 0.0 <= r <= 1.0
  {
    var r := t * t * (3.0 - 2.0 * t);
    SmoothstepInUnit(t);
    r
  }

  lemma SmoothstepInUnit(t: real)
    ensures 0.0 <= t <= 1.0 ==> 0.0 <= t * t * (3.0 - 2.0 * t) <= 1.0
  {
    if 0.0 <= t <= 1.0 {
      MulNonNegative(t, t);
      MulNonNegative(t * t, 3.0 - 2.0 * t);
      MulNonNegative(1.0 - t, 1.0 - t);
      MulNonNegative((1.0 - t) * (1.0 - t), 1.0 + 2.0 * t);
      assert 1.0 - t * t * (3.0 - 2.0 * t) == (1.0 - t) * (1.0 - t) * (1.0 + 2.0 * t);
    }
  }

  lemma MulNonNegative(x: real, y: real)
    requires x >= 0.0 && y >= 0.0
    ensures x * y >= 0.0
  {
  }

  /** The smoothstep easing never goes backwards in time. */
  lemma SmoothstepMonotone(a: real, b: real)
    requires 0.0 <= a <= b <= 1.0
    ensures Smoothstep(a) <= Smoothstep(b)
  {
    assert Smoothstep(b) - Smoothstep(a)
        == (b - a) * (3.0 * (a + b) - 2.0 * (a * a + a * b + b * b));
    MulNonNegative(a, 1.0 - a);
    MulNonNegative(b, 1.0 - b);
    MulNonNegative(a, 1.0 - b);
    assert a * a <= a && b * b <= b && a * b <= a;
    assert 3.0 * (a + b) - 2.0 * (a * a + a * b + b * b) >= 0.0;
    MulNonNegative(b - a, 3.0 * (a + b) - 2.0 * (a * a + a * b + b * b));
  }

  /** The tick loop of one run, fed the successive times at which the host
      runs it: it draws one frame per tick until a tick finishes the run, calls
      the completion callback on that tick only, and schedules nothing after. */
  method RunAnimation(a: Anim, times: seq<real>) returns (frames: seq<Frame>, doneCalls: nat)
    requires a.duration > 0.0
    ensures doneCalls <= 1
    ensures doneCalls == 1 <==> exists i :: 0 <= i < |times| && times[i] - a.start >= a.duration
    ensures |frames| <= |times|
    ensures forall i :: 0 <= i < |frames| ==> frames[i] == Tick(a, times[i])
    ensures forall i :: 0 <= i < |frames| - 1 ==> !frames[i].done
    ensures doneCalls == 1 ==> |frames| > 0 && frames[|frames| - 1].done
    ensures doneCalls == 0 ==> |frames| == |times|
  {
    frames := [];
    doneCalls := 0;
    var i := 0;
    while i < |times| && doneCalls == 0
      invariant 0 <= i <= |times|
      invariant |frames| == i
      invariant doneCalls <= 1
      invariant forall j :: 0 <= j < i ==> frames[j] == Tick(a, times[j])
      invariant forall j :: 0 <= j < i - 1 ==> !frames[j].done
      invariant doneCalls == 0 ==> forall j :: 0 <= j < i ==> times[j] - a.start < a.duration
      invariant doneCalls == 1 ==> i > 0 && frames[i - 1].done
    {
      var fr := Tick(a, times[i]);
      frames := frames + [fr];
      if fr.done {
        doneCalls := 1;
      }
      i := i + 1;
    }
  }

  /** A linear run of `zoom` from 0 to 4 over 500 reads 2 halfway through
      and exactly 4 at the end. */
  lemma LinearZoomExample()
    ensures var a := Anim(0.0, 500.0, map["zoom" := 0.0], map["zoom" := 4.0], t => t);
      && Tick(a, 250.0) == Frame(map["zoom" := Real(2.0)], false)
      && Tick(a, 500.0) == Frame(map["zoom" := Real(4.0)], true)
  {
  }
}
