/** The health checker (core/healthchecker): probes added by the
    application, run in order, with one overall verdict and one result per
    probe name. */
module HealthCheckers {
  import opened Wrappers

  /** `HealthCheckerProbeResult`. */
  datatype ProbeResult = ProbeResult(success: bool, message: string)

  /** A probe: its name and the result its `Check` gives. */
  datatype Probe = Probe(name: string, result: ProbeResult)

  /** `HealthCheckerResult`. */
  datatype CheckerResult = CheckerResult(success: bool, probesResults: map<string, ProbeResult>)

  predicate AllSucceed(probes: seq<Probe>)
  {
    forall i | 0 <= i < |probes| :: probes[i].result.success
  }

  /** The results keyed by name, later probes overwriting earlier ones of
      the same name. */
  function ResultsOf(probes: seq<Probe>): map<string, ProbeResult>
  {
    if |probes| == 0 then map[]
    else ResultsOf(probes[..|probes| - 1])[probes[|probes| - 1].name := probes[|probes| - 1].result]
  }

  /** The names of the probes. */
  function Names(probes: seq<Probe>): set<string>
  {
    set i | 0 <= i < |probes| :: probes[i].name
  }

  /** Every probe name has an entry, and nothing else does. */
  lemma {:induction false} ResultsCoverNames(probes: seq<Probe>)
    ensures ResultsOf(probes).Keys == Names(probes)
  {
    if |probes| > 0 {
      var init := probes[..|probes| - 1];
      ResultsCoverNames(init);
      assert Names(probes) == Names(init) + {probes[|probes| - 1].name} by {
        forall k | k in Names(probes) ensures k in Names(init) + {probes[|probes| - 1].name} {
          var i :| 0 <= i < |probes| && probes[i].name == k;
          if i < |init| {
            assert init[i].name == k;
          }
        }
        forall k | k in Names(init) ensures k in Names(probes) {
          var i :| 0 <= i < |init| && init[i].name == k;
          assert probes[i].name == k;
        }
      }
    }
  }

  /** The entry of a name is the result of the last probe of that name. */
  lemma {:induction false} LastOfNameWins(probes: seq<Probe>, i: nat)
    requires i < |probes|
    requires forall j | i < j < |probes| :: probes[j].name != probes[i].name
    ensures probes[i].name in ResultsOf(probes)
    ensures ResultsOf(probes)[probes[i].name] == probes[i].result
  {
    if i < |probes| - 1 {
      var init := probes[..|probes| - 1];
      assert init[i] == probes[i];
      forall j | i < j < |init| ensures init[j].name != init[i].name {
        assert init[j] == probes[j];
      }
      LastOfNameWins(init, i);
    }
  }

  /** A `HealthChecker`. */
  class HealthChecker {
    var probes: seq<Probe>

    /** `NewHealthChecker`: no probes. */
    constructor ()
      ensures probes == []
    {
      probes := [];
    }

    /** `AddProbe`: appends, and returns the same checker. */
    method AddProbe(p: Probe) returns (self: HealthChecker)
      modifies this
      ensures probes == old(probes) + [p]
      ensures self == this
    {
      probes := probes + [p];
      return this;
    }

    /** `Run`: every probe is checked once, in insertion order; the verdict
        is true exactly when every probe succeeds (so with none), and the
        results are keyed by probe name. */
    method Run() returns (r: CheckerResult, checked: seq<Probe>)
      ensures checked == probes
      ensures r.success <==> AllSucceed(probes)
      ensures r.probesResults == ResultsOf(probes)
    {
      var success := true;
      var results: map<string, ProbeResult> := map[];
      checked := [];
      var i := 0;
      while i < |probes|
        invariant 0 <= i <= |probes|
        invariant checked == probes[..i]
        invariant success <==> AllSucceed(probes[..i])
        invariant results == ResultsOf(probes[..i])
      {
        var p := probes[i];
        var pr := p.result;
        checked := checked + [p];
        success := success && pr.success;
        results := results[p.name := pr];
        assert probes[..i + 1][..i] == probes[..i];
        i := i + 1;
      }
      assert probes[..i] == probes;
      return CheckerResult(success, results), checked;
    }
  }

  /** The factory's options. */
  datatype Options = Options(probes: seq<Probe>)

  const DefaultOptions: Options := Options([])

  /** The only option there is: `WithProbes` replaces the probe list. */
  datatype CheckerOption = WithProbes(probes: seq<Probe>)

  function Apply(o: CheckerOption, opts: Options): Options
  {
    match o
    case WithProbes(ps) => opts.(probes := ps)
  }

  /** The defaults with the options applied in order. */
  function ApplyAll(options: seq<CheckerOption>): Options
  {
    if |options| == 0 then DefaultOptions
    else Apply(options[|options| - 1], ApplyAll(options[..|options| - 1]))
  }

  /** The last `WithProbes` wins; with no option there are no probes. */
  lemma LastOptionWins(options: seq<CheckerOption>)
    ensures ApplyAll(options).probes == if |options| == 0 then [] else options[|options| - 1].probes
  {
  }

  /** `Create`: a new checker holding, in order, the probes of the applied
      options. It never fails. */
  method Create(options: seq<CheckerOption>) returns (checker: HealthChecker, err: Option<string>)
    ensures fresh(checker)
    ensures checker.probes == ApplyAll(options).probes
    ensures err.None?
  {
    var applied := DefaultOptions;
    var i := 0;
    while i < |options|
      invariant 0 <= i <= |options|
      invariant applied == ApplyAll(options[..i])
    {
      applied := Apply(options[i], applied);
      assert options[..i + 1][..i] == options[..i];
      i := i + 1;
    }
    assert options[..i] == options;
    checker := new HealthChecker();
    var j := 0;
    while j < |applied.probes|
      invariant 0 <= j <= |applied.probes|
      invariant checker.probes == applied.probes[..j]
    {
      var _ := checker.AddProbe(applied.probes[j]);
      assert applied.probes[..j + 1] == applied.probes[..j] + [applied.probes[j]];
      j := j + 1;
    }
    assert applied.probes[..j] == applied.probes;
    err := None;
  }
}
