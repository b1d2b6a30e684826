/** buildStages: the precomputed k6 schedule as an exact partition of the run. */
module Schedule {
  import opened Wrappers
  import opened LoadShape

  datatype Stage = Stage(target: int, duration: real)

  function Ceil(x: real): int {
    -(-x).Floor
  }

  /** Math.round: half goes up. */
  function Round(x: real): int {
    (x + 0.5).Floor
  }

  function TotalDuration(stages: seq<Stage>): real {
    if stages == [] then 0.0 else TotalDuration(stages[..|stages| - 1]) + stages[|stages| - 1].duration
  }

  /** The target of the stage sampled at `offset` seconds into the run. */
  function TargetAt(sampled: real, i: nat, unixSeconds: real, weight: real, minTarget: int,
                    modulate: Option<(real, nat, real) -> real>): int {
    var target := if modulate.Some? then modulate.value(sampled * weight, i, unixSeconds) else sampled * weight;
    if Round(target) >= minTarget then Round(target) else minTarget
  }

  lemma QuotientTimes(total: real, step: real)
    requires step > 0.0
    ensures total / step * step == total
  {
  }

  lemma CeilOf(q: real)
    ensures (Ceil(q) - 1) as real == Ceil(q) as real - 1.0
    ensures Ceil(q) as real - 1.0 < q <= Ceil(q) as real
  {
    var n := (-q).Floor;
    assert n as real <= -q < n as real + 1.0;
    assert Ceil(q) as real == -(n as real);
  }

  /** A quotient between r1 and r brackets the total between as many steps. */
  lemma ScaledBracket(total: real, q: real, r1: real, r: real, step: real)
    requires step > 0.0 && r1 < q <= r && q * step == total
    ensures r1 * step < total <= r * step
  {
    ScaleKeepsStrictOrder(r1, q, step);
    ScaleKeepsOrder(q, r, step);
  }

  lemma CeilBrackets(total: real, step: real)
    requires step > 0.0
    ensures var n := Ceil(total / step); (n - 1) as real * step < total <= n as real * step
  {
    var n := Ceil(total / step);
    CeilOf(total / step);
    QuotientTimes(total, step);
    ScaledBracket(total, total / step, (n - 1) as real, n as real, step);
  }

  lemma StepsStayInside(i: int, n: int, step: real)
    requires i <= n && step > 0.0
    ensures i as real * step <= n as real * step
  {
    if i < n {
      ScaleKeepsStrictOrder(i as real, n as real, step);
    }
  }

  /** The instant of step i, in seconds from the start. */
  function Mark(i: int, stepSeconds: real): real {
    i as real * stepSeconds
  }

  lemma Marks(i: int, j: int, step: real)
    requires step > 0.0
    ensures Mark(i, step) + step == Mark(i + 1, step)
    ensures i <= j ==> Mark(i, step) <= Mark(j, step)
    ensures Mark(0, step) == 0.0
  {
    if i <= j {
      StepsStayInside(i, j, step);
    }
  }

  /** The ceiling of total over step, and at least one. */
  function Steps(totalSeconds: real, stepSeconds: real): nat
    requires stepSeconds > 0.0
  {
    if Ceil(totalSeconds / stepSeconds) >= 1 then Ceil(totalSeconds / stepSeconds) else 1
  }

  lemma StepsBracketTheTotal(total: real, step: real)
    requires step > 0.0
    ensures total > 0.0 ==> Mark(Steps(total, step) - 1, step) < total <= Mark(Steps(total, step), step)
    ensures total <= 0.0 ==> Steps(total, step) == 1
  {
    var n := Ceil(total / step);
    CeilBrackets(total, step);
    Marks(n, 0, step);
    Marks(0, n - 1, step);
  }

  /** The offset at which stage i begins, and the total after the last. */
  function Offset(i: nat, totalSeconds: real, stepSeconds: real): real
    requires stepSeconds > 0.0
  {
    if i < Steps(totalSeconds, stepSeconds) then Mark(i, stepSeconds) else totalSeconds
  }

  function Duration(i: nat, totalSeconds: real, stepSeconds: real): real {
    var remaining := totalSeconds - Mark(i, stepSeconds);
    if stepSeconds <= remaining then stepSeconds else remaining
  }

  /** Each duration, computed as a minimum, is the distance to the next stage's offset. */
  lemma DurationReachesNextOffset(i: nat, total: real, step: real)
    requires step > 0.0 && i < Steps(total, step)
    ensures Offset(i, total, step) + Duration(i, total, step) == Offset(i + 1, total, step)
    ensures total > 0.0 ==> 0.0 < Duration(i, total, step) <= step
  {
    var n := Steps(total, step);
    StepsBracketTheTotal(total, step);
    Marks(i, n - 1, step);
    if i + 1 < n {
      Marks(i + 1, n - 1, step);
    }
  }

  /** One iteration: the stage sampled at step i. */
  method StageAt(rate: real -> real, ref: real, totalSeconds: real, stepSeconds: real,
                 weight: real, minTarget: int, modulate: Option<(real, nat, real) -> real>, i: nat)
    returns (stage: Stage)
    requires stepSeconds > 0.0 && i < Steps(totalSeconds, stepSeconds)
    ensures Offset(i, totalSeconds, stepSeconds) + stage.duration == Offset(i + 1, totalSeconds, stepSeconds)
    ensures totalSeconds > 0.0 ==> 0.0 < stage.duration <= stepSeconds
    ensures stage.target == SampledTarget(rate, ref, stepSeconds, weight, minTarget, modulate, i)
  {
    var unixSeconds := ref + Mark(i, stepSeconds);
    var target := rate(unixSeconds) * weight;
    if modulate.Some? {
      target := modulate.value(target, i, unixSeconds);
    }
    DurationReachesNextOffset(i, totalSeconds, stepSeconds);
    stage := Stage(if Round(target) >= minTarget then Round(target) else minTarget, Duration(i, totalSeconds, stepSeconds));
  }

  /** The target of stage i, from the rate at the instant where the stage begins. */
  function SampledTarget(rate: real -> real, ref: real, stepSeconds: real,
                         weight: real, minTarget: int, modulate: Option<(real, nat, real) -> real>, i: nat): (target: int)
    ensures target >= minTarget
  {
    var unixSeconds := ref + Mark(i, stepSeconds);
    TargetAt(rate(unixSeconds), i, unixSeconds, weight, minTarget, modulate)
  }

  /**
    A target at or above the minimum is within one half of the rate, taken where the stage begins, times
    the weight, or of what the modulation makes of that; a half goes up.
   */
  lemma TargetIsNearest(rate: real -> real, ref: real, stepSeconds: real,
                        weight: real, minTarget: int, modulate: Option<(real, nat, real) -> real>, i: nat)
    ensures var at := ref + Mark(i, stepSeconds);
            var x := if modulate.Some? then modulate.value(rate(at) * weight, i, at) else rate(at) * weight;
            var target := SampledTarget(rate, ref, stepSeconds, weight, minTarget, modulate, i);
            && (target > minTarget ==> x - 0.5 < target as real <= x + 0.5)
            && (target == minTarget ==> x - 0.5 < target as real)
  {
    var at := ref + Mark(i, stepSeconds);
    TargetAtIsNearest(rate(at), i, at, weight, minTarget, modulate);
  }

  lemma TargetAtIsNearest(sampled: real, i: nat, at: real, weight: real, minTarget: int,
                          modulate: Option<(real, nat, real) -> real>)
    ensures var x := if modulate.Some? then modulate.value(sampled * weight, i, at) else sampled * weight;
            var target := TargetAt(sampled, i, at, weight, minTarget, modulate);
            && target >= minTarget
            && (target > minTarget ==> x - 0.5 < target as real <= x + 0.5)
            && (target == minTarget ==> x - 0.5 < target as real)
  {
    NearestIs(if modulate.Some? then modulate.value(sampled * weight, i, at) else sampled * weight);
  }

  lemma NearestIs(x: real)
    ensures x - 0.5 < Round(x) as real <= x + 0.5
  {
  }

  /** Stages that begin at the offsets 0, step, 2 * step, .. and stay within a step each. */
  ghost predicate Contiguous(stages: seq<Stage>, totalSeconds: real, stepSeconds: real)
    requires stepSeconds > 0.0
  {
    && (forall k :: 0 <= k <= |stages| ==> TotalDuration(stages[..k]) == Offset(k, totalSeconds, stepSeconds))
    && (totalSeconds > 0.0 ==> forall k :: 0 <= k < |stages| ==> 0.0 < stages[k].duration <= stepSeconds)
  }

  lemma ContiguousSnoc(stages: seq<Stage>, stage: Stage, totalSeconds: real, stepSeconds: real)
    requires stepSeconds > 0.0 && Contiguous(stages, totalSeconds, stepSeconds)
    requires Offset(|stages|, totalSeconds, stepSeconds) + stage.duration == Offset(|stages| + 1, totalSeconds, stepSeconds)
    requires totalSeconds > 0.0 ==> 0.0 < stage.duration <= stepSeconds
    ensures Contiguous(stages + [stage], totalSeconds, stepSeconds)
  {
    var longer := stages + [stage];
    forall k | 0 <= k <= |longer|
      ensures TotalDuration(longer[..k]) == Offset(k, totalSeconds, stepSeconds)
    {
      if k <= |stages| {
        assert longer[..k] == stages[..k];
      } else {
        assert longer[..k] == longer && longer[..|longer| - 1] == stages == stages[..|stages|];
      }
    }
  }

  /**
    The stages cut totalSeconds exactly: their number is the ceiling of total over step (one when the
    total is not positive), stage i starts where it was sampled, every duration is positive for a
    positive total, and the durations add up to the total. `rate` stands for the shared load shape at a
    fixed profile, scale and reference; nothing is assumed of it, nor of `modulate`.
   */
  method BuildStages(rate: real -> real, ref: real, totalSeconds: real, stepSeconds: real,
                     weight: real, minTarget: int, modulate: Option<(real, nat, real) -> real>)
    returns (stages: seq<Stage>)
    requires stepSeconds > 0.0
    ensures |stages| == Steps(totalSeconds, stepSeconds)
    ensures totalSeconds > 0.0 ==> Mark(|stages| - 1, stepSeconds) < totalSeconds <= Mark(|stages|, stepSeconds)
    ensures TotalDuration(stages) == totalSeconds
    ensures forall i :: 0 <= i < |stages| ==> TotalDuration(stages[..i]) == Mark(i, stepSeconds)
    ensures totalSeconds > 0.0 ==> forall i :: 0 <= i < |stages| ==> 0.0 < stages[i].duration <= stepSeconds
    ensures forall i :: 0 <= i < |stages| ==>
              stages[i].target == SampledTarget(rate, ref, stepSeconds, weight, minTarget, modulate, i)
              && stages[i].target >= minTarget
  {
    var steps := Steps(totalSeconds, stepSeconds);
    StepsBracketTheTotal(totalSeconds, stepSeconds);
    stages := [];
    for i := 0 to steps
      invariant |stages| == i
      invariant Contiguous(stages, totalSeconds, stepSeconds)
      invariant forall k :: 0 <= k < i ==>
                  stages[k].target == SampledTarget(rate, ref, stepSeconds, weight, minTarget, modulate, k)
    {
      var stage := StageAt(rate, ref, totalSeconds, stepSeconds, weight, minTarget, modulate, i);
      ContiguousSnoc(stages, stage, totalSeconds, stepSeconds);
      stages := stages + [stage];
    }
    assert stages[..steps] == stages;
  }
}
