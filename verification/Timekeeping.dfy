/** The vault clock over any sequence of samples one owner takes: a high-water mark with a small tolerance for
    backward steps, a freeze that is permanent, and deadlines that never come back. */
module Timekeeping {
  import opened Types
  import opened Policy
  import opened Ledger

  /** The application after the samples, in order. */
  function Sampled(app: App, samples: seq<Time>): App
  {
    if samples == [] then app else Clock(Sampled(app, samples[..|samples| - 1]), samples[|samples| - 1]).app
  }

  /** What the caller of sample `i` is told. */
  function Answer(app: App, samples: seq<Time>, i: nat): Result<Time>
    requires i < |samples|
  {
    Clock(Sampled(app, samples[..i]), samples[i]).result
  }

  /** The largest of the starting time and the samples. */
  function HighWater(start: Option<Time>, samples: seq<Time>): Option<Time>
  {
    if samples == [] then start
    else
      var before := HighWater(start, samples[..|samples| - 1]);
      var now := samples[|samples| - 1];
      if before.Some? && before.value >= now then before else Some(now)
  }

  /** Sample `i` lies further behind the high-water mark than the tolerance. */
  predicate StepsBack(start: Option<Time>, samples: seq<Time>, i: nat)
    requires i < |samples|
  {
    HighWater(start, samples[..i]).Some? && HighWater(start, samples[..i]).value - samples[i] > CLOCK_SKEW_TOLERANCE
  }

  lemma PrefixOf(samples: seq<Time>, i: nat, j: nat)
    requires i <= j <= |samples|
    ensures samples[..j][..i] == samples[..i]
  {}

  /** The clock freezes exactly when some sample steps back too far, and otherwise stands at the high-water mark. */
  lemma {:induction false} FrozenExactly(app: App, samples: seq<Time>)
    requires !app.clockFrozen
    ensures Sampled(app, samples).clockFrozen <==> exists i :: 0 <= i < |samples| && StepsBack(app.lastTime, samples, i)
    ensures !Sampled(app, samples).clockFrozen ==> Sampled(app, samples).lastTime == HighWater(app.lastTime, samples)
  {
    if samples != [] {
      var n := |samples| - 1;
      var before := samples[..n];
      FrozenExactly(app, before);
      forall i | 0 <= i < n ensures StepsBack(app.lastTime, samples, i) == StepsBack(app.lastTime, before, i) {
        PrefixOf(samples, i, n);
      }
      if Sampled(app, before).clockFrozen {
        var i :| 0 <= i < n && StepsBack(app.lastTime, before, i);
        assert StepsBack(app.lastTime, samples, i);
      } else {
        LastSample(app, samples);
        assert Sampled(app, samples).clockFrozen ==> StepsBack(app.lastTime, samples, n);
      }
    }
  }

  lemma LastSample(app: App, samples: seq<Time>)
    requires samples != [] && !Sampled(app, samples[..|samples| - 1]).clockFrozen
    requires Sampled(app, samples[..|samples| - 1]).lastTime == HighWater(app.lastTime, samples[..|samples| - 1])
    ensures Sampled(app, samples).clockFrozen <==> StepsBack(app.lastTime, samples, |samples| - 1)
    ensures !Sampled(app, samples).clockFrozen ==> Sampled(app, samples).lastTime == HighWater(app.lastTime, samples)
  {}

  lemma {:induction false} HighWaterGrows(start: Option<Time>, samples: seq<Time>, i: nat)
    requires i <= |samples|
    ensures HighWater(start, samples[..i]).Some? ==>
      HighWater(start, samples).Some? && HighWater(start, samples[..i]).value <= HighWater(start, samples).value
    decreases |samples|
  {
    if i < |samples| {
      PrefixOf(samples, i, |samples| - 1);
      HighWaterGrows(start, samples[..|samples| - 1], i);
    } else {
      assert samples[..i] == samples;
    }
  }

  lemma {:induction false} HighWaterIsLargest(start: Option<Time>, samples: seq<Time>)
    ensures forall i | 0 <= i < |samples| :: HighWater(start, samples).Some? && samples[i] <= HighWater(start, samples).value
    ensures HighWater(start, samples).Some? ==> start == HighWater(start, samples) || HighWater(start, samples).value in samples
  {
    if samples != [] { HighWaterIsLargest(start, samples[..|samples| - 1]); }
  }

  /** An accepted sample is answered with the high-water mark including it. */
  lemma AcceptedIsHighWater(app: App, samples: seq<Time>, i: nat)
    requires i < |samples| && Answer(app, samples, i).Ok?
    ensures Some(Answer(app, samples, i).value) == HighWater(app.lastTime, samples[..i + 1])
    ensures Sampled(app, samples[..i + 1]).lastTime == Some(Answer(app, samples, i).value)
  {
    var b := Sampled(app, samples[..i]);
    assert samples[..i + 1][..i] == samples[..i];
    SampledFrozen(app, samples[..i]);
    FrozenExactly(app, samples[..i]);
  }

  lemma {:induction false} SampledFrozen(app: App, samples: seq<Time>)
    ensures app.clockFrozen ==> Sampled(app, samples).clockFrozen
  {
    if samples != [] { SampledFrozen(app, samples[..|samples| - 1]); }
  }

  /** Effective times never decrease, and after one refused sample every later one is refused. */
  lemma TimeOnlyMovesForward(app: App, samples: seq<Time>, i: nat, j: nat)
    requires i < j < |samples|
    ensures Answer(app, samples, i).Ok? && Answer(app, samples, j).Ok? ==> Answer(app, samples, i).value <= Answer(app, samples, j).value
    ensures Answer(app, samples, i).Err? ==> Answer(app, samples, j) == Err(ClockRecoveryRequired)
  {
    if Answer(app, samples, i).Ok? && Answer(app, samples, j).Ok? {
      AcceptedIsHighWater(app, samples, i);
      AcceptedIsHighWater(app, samples, j);
      PrefixOf(samples, i + 1, j + 1);
      HighWaterGrows(app.lastTime, samples[..j + 1], i + 1);
    } else if Answer(app, samples, i).Err? {
      assert samples[..i + 1][..i] == samples[..i];
      StaysFrozen(app, samples, i + 1, j);
    }
  }

  lemma {:induction false} StaysFrozen(app: App, samples: seq<Time>, i: nat, j: nat)
    requires i <= j <= |samples| && Sampled(app, samples[..i]).clockFrozen
    ensures Sampled(app, samples[..j]).clockFrozen
  {
    if i < j {
      StaysFrozen(app, samples, i, j - 1);
      assert samples[..j][..j - 1] == samples[..j - 1];
    }
  }

  /** Authority that has expired at one accepted sample is expired at every later one: a task is refused and its
      grants permit nothing, whatever the application's books say by then. */
  lemma ExpiryIsFinal(app: App, samples: seq<Time>, i: nat, j: nat, b: App, ctx: Context, id: Uuid, g: Grant, r: Record,
                      permission: Permission, fields: set<Field>, destination: Option<string>)
    requires i < j < |samples| && Answer(app, samples, i).Ok? && Answer(app, samples, j).Ok?
    ensures id in b.tasks && (b.tasks[id].expiresAt <= Answer(app, samples, i).value
                              || (ctx.sessionDeadline.Some? && ctx.sessionDeadline.value <= Answer(app, samples, i).value)) ==>
      TaskFor(b, ctx, id, Answer(app, samples, j).value).Err?
    ensures g.spec.expiresAt <= Answer(app, samples, i).value
            || (g.issuerTask in b.tasks && b.tasks[g.issuerTask].expiresAt <= Answer(app, samples, i).value) ==>
      !GrantPermits(b, g, ctx, r, permission, fields, destination, Answer(app, samples, j).value)
  {
    TimeOnlyMovesForward(app, samples, i, j);
  }
}
