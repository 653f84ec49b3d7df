/** The experiment log of src/logger.py: a record of targets, each with the
    runs made against it, and the aggregate metrics computed over them. */
module Logging {
  import opened Wrappers

  // ---------------------------------------------------------------------
  // The log record
  // ---------------------------------------------------------------------

  /** A value stored under a key of the log. Header values, targets and run
      payloads are taken to be scalars, a list of targets or a metrics record. */
  datatype Value =
    | Null
    | Flag(b: bool)
    | Num(x: real)
    | Text(s: string)
    | TargetList(targets: seq<Target>)
    | MetricsRecord(metrics: Metrics)

  /** One `run_obj` record. */
  datatype Run = Run(best: Value, bestFit: real, nGens: nat, earlyStopping: bool,
                     runtime: real, genStats: Value)

  /** One `{'target': …, 'runs': […]}` record, with the `metrics` key once
      `calculate_metrics(False)` has written it. */
  datatype Target = Target(target: Value, runs: seq<Run>, metrics: Option<Metrics>)

  datatype Metrics = Metrics(meanFitness: real, proportionOfEarlyStopping: real,
                             fitnessEvaluationsPerRun: real)

  /** The exceptions the logger's operations raise. `NotATargetList` stands for
      the TypeError, KeyError or IndexError Python raises when a header has
      replaced `log['targets']` by something that is not a list of targets. */
  datatype LogError =
    | AssertionError
    | KeyError(key: string)
    | TypeError
    | AttributeError
    | IndexError
    | ZeroDivisionError
    | NotATargetList

  /** Python's `len(v)`, None where it raises TypeError. */
  function PyLen(v: Value): Option<nat> {
    match v
    case Text(s) => Some(|s|)
    case TargetList(ts) => Some(|ts|)
    case MetricsRecord(_) => Some(3)
    case _ => None
  }

  /** `log['targets']` as a list of targets. */
  function TargetsOf(log: map<string, Value>): (r: Result<seq<Target>, LogError>)
    ensures r.Ok? <==> "targets" in log && log["targets"].TargetList?
    ensures r.Ok? ==> r.value == log["targets"].targets
    ensures "targets" !in log ==> r == Err(KeyError("targets"))
  {
    if "targets" !in log then Err(KeyError("targets"))
    else match log["targets"]
      case TargetList(ts) => Ok(ts)
      case _ => Err(NotATargetList)
  }

  // ---------------------------------------------------------------------
  // Metrics
  // ---------------------------------------------------------------------

  /** The per-run quantity a metric averages: `best_fit`, `early_stopping`
      counted as 1 or 0, or `n_gens`. */
  datatype Measure = BestFit | EarlyStopping | Generations

  function RunValue(r: Run, m: Measure): real {
    match m
    case BestFit => r.bestFit
    case EarlyStopping => if r.earlyStopping then 1.0 else 0.0
    case Generations => r.nGens as real
  }

  /** `[r[key] for r in runs]`. */
  function Values(rs: seq<Run>, m: Measure): (xs: seq<real>)
    ensures |xs| == |rs|
    ensures forall i :: 0 <= i < |rs| ==> xs[i] == RunValue(rs[i], m)
  {
    if rs == [] then [] else [RunValue(rs[0], m)] + Values(rs[1..], m)
  }

  function Sum(xs: seq<real>): real {
    if xs == [] then 0.0 else Sum(xs[..|xs| - 1]) + xs[|xs| - 1]
  }

  /** `np.mean(xs)`, and `np.sum(xs) / len(xs)`, over the reals. */
  function Mean(xs: seq<real>): real
    requires |xs| > 0
  {
    Sum(xs) / |xs| as real
  }

  /** Every target has at least one run. */
  predicate AllHaveRuns(ts: seq<Target>) {
    forall i :: 0 <= i < |ts| ==> |ts[i].runs| > 0
  }

  /** The mean of `m` over one target's runs. */
  function TargetMean(t: Target, m: Measure): real
    requires |t.runs| > 0
  {
    Mean(Values(t.runs, m))
  }

  /** The per-target means added up, the loop's accumulator. */
  function SumOfMeans(ts: seq<Target>, m: Measure): real
    requires AllHaveRuns(ts)
  {
    if ts == [] then 0.0 else SumOfMeans(ts[..|ts| - 1], m) + TargetMean(ts[|ts| - 1], m)
  }

  /** The targets a metric looks at: all of them, or `[targets[-1]]`. */
  function Considered(ts: seq<Target>, forAll: bool): seq<Target>
    requires forAll || |ts| > 0
  {
    if forAll then ts else [ts[|ts| - 1]]
  }

  /** Each target the metric would look at has a run, so no mean is NaN. */
  predicate RunsPresent(log: map<string, Value>, forAll: bool) {
    match TargetsOf(log)
    case Err(_) => true
    case Ok(ts) => (forAll ==> AllHaveRuns(ts)) && (!forAll && |ts| > 0 ==> |ts[|ts| - 1].runs| > 0)
  }

  /** What `_mean_fitness`, `_proportion_of_early_stopping` and the first part
      of `_evaluations_per_run` compute: the mean over the considered targets
      of each target's own mean of `m`. */
  function MeanOfMeans(log: map<string, Value>, forAll: bool, m: Measure): Result<real, LogError>
    requires RunsPresent(log, forAll)
  {
    match TargetsOf(log)
    case Err(e) => Err(e)
    case Ok(ts) =>
      if !forAll && |ts| == 0 then Err(IndexError)
      else if !forAll then Ok(SumOfMeans(Considered(ts, forAll), m))
      else if |ts| == 0 then Err(ZeroDivisionError)
      else Ok(SumOfMeans(ts, m) / |ts| as real)
  }

  /** `log['pop_size']` as a number (a bool counts as 0 or 1). */
  function PopSize(log: map<string, Value>): (r: Result<real, LogError>)
    ensures "pop_size" !in log ==> r == Err(KeyError("pop_size"))
    ensures r.Ok? <==> "pop_size" in log && (log["pop_size"].Num? || log["pop_size"].Flag?)
    ensures r.Ok? && log["pop_size"].Num? ==> r.value == log["pop_size"].x
    ensures r.Ok? && log["pop_size"].Flag? ==> r.value == if log["pop_size"].b then 1.0 else 0.0
    ensures "pop_size" in log && r.Err? ==> r == Err(TypeError)
  {
    if "pop_size" !in log then Err(KeyError("pop_size"))
    else match log["pop_size"]
      case Num(x) => Ok(x)
      case Flag(b) => Ok(if b then 1.0 else 0.0)
      case _ => Err(TypeError)
  }

  /** What `_evaluations_per_run` returns. */
  function EvaluationsPerRunOf(log: map<string, Value>, forAll: bool): Result<real, LogError>
    requires RunsPresent(log, forAll)
  {
    var gens := MeanOfMeans(log, forAll, Generations);
    if gens.Err? then Err(gens.error)
    else
      var pop := PopSize(log);
      if pop.Err? then Err(pop.error) else Ok(gens.value * pop.value)
  }

  /** The three metrics `calculate_metrics` assembles, or the first error raised. */
  function MetricsOf(log: map<string, Value>, forAll: bool): Result<Metrics, LogError>
    requires RunsPresent(log, forAll)
  {
    match MeanOfMeans(log, forAll, BestFit)
    case Err(e) => Err(e)
    case Ok(f) =>
      match MeanOfMeans(log, forAll, EarlyStopping)
      case Err(e) => Err(e)
      case Ok(p) =>
        match EvaluationsPerRunOf(log, forAll)
        case Err(e) => Err(e)
        case Ok(v) => Ok(Metrics(f, p, v))
  }

  /** The log once metrics `m` are stored: under `log['metrics']`, or under
      the last target's `metrics` key. */
  function WithMetrics(log: map<string, Value>, forAll: bool, m: Metrics): (r: map<string, Value>)
    requires !forAll ==> TargetsOf(log).Ok? && |TargetsOf(log).value| > 0
    ensures forAll ==> r.Keys == log.Keys + {"metrics"} && r["metrics"] == MetricsRecord(m)
    ensures forAll ==> forall k :: k in log && k != "metrics" ==> r[k] == log[k]
    ensures !forAll ==> r.Keys == log.Keys && forall k :: k in log && k != "targets" ==> r[k] == log[k]
    ensures !forAll ==>
              var ts := TargetsOf(log).value;
              && TargetsOf(r).Ok? && |TargetsOf(r).value| == |ts|
              && (forall j :: 0 <= j < |ts| - 1 ==> TargetsOf(r).value[j] == ts[j])
              && TargetsOf(r).value[|ts| - 1].target == ts[|ts| - 1].target
              && TargetsOf(r).value[|ts| - 1].runs == ts[|ts| - 1].runs
              && TargetsOf(r).value[|ts| - 1].metrics == Some(m)
  {
    if forAll then log["metrics" := MetricsRecord(m)]
    else
      var ts := log["targets"].targets;
      log["targets" := TargetList(ts[|ts| - 1 := ts[|ts| - 1].(metrics := Some(m))])]
  }

  // ---- properties of the metrics -----------------------------------------

  /** `c` added up `n` times, the product `n * c` built by repeated addition. */
  function Times(n: nat, c: real): real {
    if n == 0 then 0.0 else Times(n - 1, c) + c
  }

  lemma {:induction false} TimesIsProduct(n: nat, c: real)
    ensures Times(n, c) == c * n as real
  {
    if n > 0 {
      TimesIsProduct(n - 1, c);
      assert c * (n - 1) as real + c == c * n as real;
    }
  }

  predicate ValuesWithin(xs: seq<real>, lo: real, hi: real) {
    forall i :: 0 <= i < |xs| ==> lo <= xs[i] <= hi
  }

  /** Every run's value lies in [lo, hi]. */
  predicate RunsWithin(ts: seq<Target>, m: Measure, lo: real, hi: real) {
    forall i :: 0 <= i < |ts| ==> ValuesWithin(Values(ts[i].runs, m), lo, hi)
  }

  /** A sum of `n` values in [lo, hi] lies in [n * lo, n * hi]. */
  lemma {:induction false} SumBounds(xs: seq<real>, lo: real, hi: real)
    requires ValuesWithin(xs, lo, hi)
    ensures Times(|xs|, lo) <= Sum(xs) <= Times(|xs|, hi)
  {
    if xs != [] {
      SumBounds(xs[..|xs| - 1], lo, hi);
    }
  }

  /** Dividing a sum of `n` values in [lo, hi] by `n` lands in [lo, hi]. */
  lemma DivideBounds(s: real, n: nat, lo: real, hi: real)
    requires n > 0 && Times(n, lo) <= s <= Times(n, hi)
    ensures lo <= s / n as real <= hi
  {
    TimesIsProduct(n, lo);
    TimesIsProduct(n, hi);
    QuotientBelow(s, n as real, lo);
    QuotientAbove(s, n as real, hi);
  }

  lemma QuotientBelow(s: real, d: real, c: real)
    requires d > 0.0 && c * d <= s
    ensures c <= s / d
  {
    assert s / d - c == (s - c * d) / d;
  }

  lemma QuotientAbove(s: real, d: real, c: real)
    requires d > 0.0 && s <= c * d
    ensures s / d <= c
  {
    assert c - s / d == (c * d - s) / d;
  }

  /** A mean lies between the least and the greatest value it averages. */
  lemma MeanBounds(xs: seq<real>, lo: real, hi: real)
    requires |xs| > 0 && ValuesWithin(xs, lo, hi)
    ensures lo <= Mean(xs) <= hi
  {
    SumBounds(xs, lo, hi);
    DivideBounds(Sum(xs), |xs|, lo, hi);
  }

  /** The accumulated per-target means of `n` targets lie in [n * lo, n * hi]. */
  lemma {:induction false} SumOfMeansBounds(ts: seq<Target>, m: Measure, lo: real, hi: real)
    requires AllHaveRuns(ts) && RunsWithin(ts, m, lo, hi)
    ensures Times(|ts|, lo) <= SumOfMeans(ts, m) <= Times(|ts|, hi)
  {
    if ts != [] {
      var k := |ts| - 1;
      assert AllHaveRuns(ts[..k]) && RunsWithin(ts[..k], m, lo, hi) by {
        forall i | 0 <= i < k ensures ts[..k][i] == ts[i] {}
      }
      SumOfMeansBounds(ts[..k], m, lo, hi);
      MeanBounds(Values(ts[k].runs, m), lo, hi);
    }
  }

  /** Every metric is bounded by the least and greatest run value it averages. */
  lemma MeanOfMeansBounds(log: map<string, Value>, forAll: bool, m: Measure, lo: real, hi: real)
    requires RunsPresent(log, forAll)
    requires TargetsOf(log).Ok? && (forAll || |TargetsOf(log).value| > 0)
    requires RunsWithin(Considered(TargetsOf(log).value, forAll), m, lo, hi)
    requires MeanOfMeans(log, forAll, m).Ok?
    ensures lo <= MeanOfMeans(log, forAll, m).value <= hi
  {
    var ts := TargetsOf(log).value;
    if forAll {
      SumOfMeansBounds(ts, m, lo, hi);
      DivideBounds(SumOfMeans(ts, m), |ts|, lo, hi);
    } else {
      var last := ts[|ts| - 1];
      assert Considered(ts, false)[0] == last;
      assert ValuesWithin(Values(last.runs, m), lo, hi);
      MeanBounds(Values(last.runs, m), lo, hi);
      LastTargetMean(log, m);
    }
  }

  /** The proportion of early stopping lies in [0, 1]. */
  lemma ProportionInUnitInterval(log: map<string, Value>, forAll: bool)
    requires RunsPresent(log, forAll)
    requires MeanOfMeans(log, forAll, EarlyStopping).Ok?
    ensures 0.0 <= MeanOfMeans(log, forAll, EarlyStopping).value <= 1.0
  {
    MeanOfMeansBounds(log, forAll, EarlyStopping, 0.0, 1.0);
  }

  /** For the last target alone a metric is that target's own mean. */
  lemma LastTargetMean(log: map<string, Value>, m: Measure)
    requires RunsPresent(log, false)
    requires TargetsOf(log).Ok? && |TargetsOf(log).value| > 0
    ensures MeanOfMeans(log, false, m) == Ok(TargetMean(TargetsOf(log).value[|TargetsOf(log).value| - 1], m))
  {
    var ts := TargetsOf(log).value;
    var only := [ts[|ts| - 1]];
    assert only[..0] == [];
    assert SumOfMeans(only, m) == SumOfMeans([], m) + TargetMean(ts[|ts| - 1], m);
  }

  /** Mean fitness is a mean of per-target means, not of all runs pooled: one
      target with a run of fitness 1 and one with two runs of fitness 0 give
      1/2, where the pooled mean is 1/3. */
  lemma MeanFitnessIsNotPooled()
    ensures var one := Run(Null, 1.0, 0, false, 0.0, Null);
            var zero := Run(Null, 0.0, 0, false, 0.0, Null);
            var log := map["targets" := TargetList([Target(Null, [one], None), Target(Null, [zero, zero], None)])];
            && MeanOfMeans(log, true, BestFit) == Ok(0.5)
            && Mean(Values([one, zero, zero], BestFit)) == 1.0 / 3.0
  {
    var one := Run(Null, 1.0, 0, false, 0.0, Null);
    var zero := Run(Null, 0.0, 0, false, 0.0, Null);
    var ts := [Target(Null, [one], None), Target(Null, [zero, zero], None)];
    assert ts[..1][..0] == [];
    assert ts[..|ts| - 1] == ts[..1];
    assert Values([zero, zero], BestFit) == [0.0, 0.0];
    assert [0.0, 0.0][..1] == [0.0];
    assert Values([one], BestFit) == [1.0];
    assert [1.0][..0] == [];
    assert Sum([0.0, 0.0]) == 0.0;
    assert Sum([1.0]) == 1.0;
    assert TargetMean(ts[0], BestFit) == 1.0;
    assert TargetMean(ts[1], BestFit) == 0.0;
    assert SumOfMeans(ts[..1], BestFit) == 1.0;
    assert SumOfMeans(ts, BestFit) == 1.0;
    var pooled := Values([one, zero, zero], BestFit);
    assert pooled == [1.0, 0.0, 0.0];
    assert pooled[..2] == [1.0, 0.0];
    assert Sum([1.0, 0.0]) == 1.0;
    assert Sum(pooled) == 1.0;
  }

  // ---------------------------------------------------------------------
  // Logger
  // ---------------------------------------------------------------------

  class Logger {
    /** `self.log`. */
    var log: map<string, Value>
    /** `self._curr_target`: the index of the target runs go to. */
    var currTarget: Option<nat>

    /** The current target, if any, is the last one in the target list. */
    ghost predicate CurrentIsLast()
      reads this
    {
      currTarget.Some? ==> TargetsOf(log).Ok? && currTarget.value + 1 == |TargetsOf(log).value|
    }

    /** `Logger(path, description)` without the file system: the description,
        an empty target list and no current target. */
    constructor (description: string := "")
      ensures log == map["description" := Text(description), "targets" := TargetList([])]
      ensures currTarget == None && CurrentIsLast()
    {
      log := map["description" := Text(description), "targets" := TargetList([])];
      currTarget := None;
    }

    /** `set_header(h)`: copy every key of `h` into the log, overwriting. */
    method SetHeader(header: map<string, Value>)
      modifies this`log
      ensures log == old(log) + header
    {
      var keys := header.Keys;
      while keys != {}
        invariant keys <= header.Keys
        invariant log == old(log) + map k | k in header.Keys - keys :: header[k]
        decreases keys
      {
        var k :| k in keys;
        log := log[k := header[k]];
        keys := keys - {k};
      }
    }

    /** `set_target(t)`: append `{target: t, runs: []}` and make it current. */
    method SetTarget(target: Value) returns (err: Option<LogError>)
      modifies this
      ensures "targets" !in old(log) ==> err == Some(KeyError("targets")) && log == old(log) && currTarget == old(currTarget)
      ensures "targets" in old(log) && PyLen(old(log)["targets"]).None? ==>
                err == Some(TypeError) && log == old(log) && currTarget == old(currTarget)
      ensures "targets" in old(log) && PyLen(old(log)["targets"]).Some? ==>
                currTarget == PyLen(old(log)["targets"])
      ensures "targets" in old(log) && PyLen(old(log)["targets"]).Some? && !old(log)["targets"].TargetList? ==>
                err == Some(AttributeError) && log == old(log)
      ensures TargetsOf(old(log)).Ok? ==>
                && err.None?
                && log == old(log)["targets" := TargetList(TargetsOf(old(log)).value + [Target(target, [], None)])]
                && currTarget == Some(|TargetsOf(old(log)).value|)
                && CurrentIsLast()
    {
      if "targets" !in log {
        return Some(KeyError("targets"));
      }
      var n := PyLen(log["targets"]);
      if n.None? {
        return Some(TypeError);
      }
      currTarget := n;
      match log["targets"]
      case TargetList(ts) =>
        log := log["targets" := TargetList(ts + [Target(target, [], None)])];
        err := None;
      case _ =>
        err := Some(AttributeError);
    }

    /** `add_run(...)`: append one run to the current target and to no other. */
    method AddRun(best: Value, bestFit: real, nGens: nat, earlyStopping: bool, runtime: real, genStats: Value)
      returns (err: Option<LogError>)
      modifies this`log
      ensures currTarget.None? ==> err == Some(AssertionError)
      ensures err.Some? ==> log == old(log)
      ensures err.None? <==> currTarget.Some? && TargetsOf(old(log)).Ok? && currTarget.value < |TargetsOf(old(log)).value|
      ensures err.None? ==>
                var ts, c := TargetsOf(old(log)).value, currTarget.value;
                var run := Run(best, bestFit, nGens, earlyStopping, runtime, genStats);
                && log == old(log)["targets" := TargetList(ts[c := ts[c].(runs := ts[c].runs + [run])])]
                && TargetsOf(log).Ok? && |TargetsOf(log).value| == |ts|
                && TargetsOf(log).value[c].runs == ts[c].runs + [run]
                && (forall j :: 0 <= j < |ts| && j != c ==> TargetsOf(log).value[j] == ts[j])
      ensures old(CurrentIsLast()) ==> CurrentIsLast()
    {
      if currTarget.None? {
        return Some(AssertionError);
      }
      var run := Run(best, bestFit, nGens, earlyStopping, runtime, genStats);
      if "targets" !in log {
        return Some(KeyError("targets"));
      }
      match log["targets"]
      case TargetList(ts) =>
        var c := currTarget.value;
        if c < |ts| {
          log := log["targets" := TargetList(ts[c := ts[c].(runs := ts[c].runs + [run])])];
          err := None;
        } else {
          err := Some(IndexError);
        }
      case _ =>
        err := Some(NotATargetList);
    }

    /** `calculate_metrics(forAll)`: compute all three metrics, then store them
        under `log['metrics']` or under the last target; nothing is written
        when one of them raises. */
    method CalculateMetrics(forAll: bool) returns (err: Option<LogError>)
      requires RunsPresent(log, forAll)
      modifies this`log
      ensures MetricsOf(old(log), forAll).Err? ==> err == Some(MetricsOf(old(log), forAll).error) && log == old(log)
      ensures MetricsOf(old(log), forAll).Ok? ==> err.None? && log == WithMetrics(old(log), forAll, MetricsOf(old(log), forAll).value)
      ensures old(CurrentIsLast()) ==> CurrentIsLast()
    {
      var fitness := MeanFitness(forAll);
      if fitness.Err? {
        return Some(fitness.error);
      }
      // the metrics fail on the same target lists, so this one cannot raise now
      var proportion := ProportionOfEarlyStopping(forAll);
      var evaluations := EvaluationsPerRun(forAll);
      assert proportion.Ok?;
      if evaluations.Err? {
        return Some(evaluations.error);
      }
      var metrics := Metrics(fitness.value, proportion.value, evaluations.value);
      if forAll {
        log := log["metrics" := MetricsRecord(metrics)];
      } else {
        var ts := log["targets"].targets;
        log := log["targets" := TargetList(ts[|ts| - 1 := ts[|ts| - 1].(metrics := Some(metrics))])];
      }
      err := None;
    }

    /** `_mean_fitness(forAll)`. */
    method MeanFitness(forAll: bool) returns (r: Result<real, LogError>)
      requires RunsPresent(log, forAll)
      ensures r == MeanOfMeans(log, forAll, BestFit)
    {
      r := Accumulate(forAll, BestFit);
    }

    /** `_proportion_of_early_stopping(forAll)`. */
    method ProportionOfEarlyStopping(forAll: bool) returns (r: Result<real, LogError>)
      requires RunsPresent(log, forAll)
      ensures r == MeanOfMeans(log, forAll, EarlyStopping)
      ensures r.Ok? ==> 0.0 <= r.value <= 1.0
    {
      r := Accumulate(forAll, EarlyStopping);
      if r.Ok? {
        ProportionInUnitInterval(log, forAll);
      }
    }

    /** `_evaluations_per_run(forAll)`: the mean of generations per run times `pop_size`. */
    method EvaluationsPerRun(forAll: bool) returns (r: Result<real, LogError>)
      requires RunsPresent(log, forAll)
      ensures r == EvaluationsPerRunOf(log, forAll)
    {
      var meanGens := Accumulate(forAll, Generations);
      if meanGens.Err? {
        return meanGens;
      }
      if "pop_size" !in log {
        return Err(KeyError("pop_size"));
      }
      var popSize: real;
      match log["pop_size"] {
        case Num(x) => popSize := x;
        case Flag(b) => popSize := if b then 1.0 else 0.0;
        case _ => return Err(TypeError);
      }
      var evaluations := meanGens.value * popSize;
      assert PopSize(log) == Ok(popSize);
      assert EvaluationsPerRunOf(log, forAll).value == evaluations;
      r := Ok(evaluations);
    }

    /** The loop the three helpers share: add up the per-target means of `m`
        over the considered targets, then divide by the number of targets. */
    method Accumulate(forAll: bool, m: Measure) returns (r: Result<real, LogError>)
      requires RunsPresent(log, forAll)
      ensures r == MeanOfMeans(log, forAll, m)
    {
      if "targets" !in log {
        return Err(KeyError("targets"));
      }
      if !log["targets"].TargetList? {
        return Err(NotATargetList);
      }
      var ts := log["targets"].targets;
      if !forAll && |ts| == 0 {
        return Err(IndexError);
      }
      var iterable := Considered(ts, forAll);
      var total := 0.0;
      for i := 0 to |iterable|
        invariant AllHaveRuns(iterable[..i])
        invariant total == SumOfMeans(iterable[..i], m)
      {
        assert iterable[..i + 1][..i] == iterable[..i];
        total := total + Mean(Values(iterable[i].runs, m));
      }
      assert iterable[..|iterable|] == iterable;
      if forAll {
        if |ts| == 0 {
          return Err(ZeroDivisionError);
        }
        total := total / |ts| as real;
      }
      r := Ok(total);
    }
  }
}
