/** Option defaults, the `als` alias, the data-layout flags derived from the
    learning method, the choice of learner and the `dim` option. */
module Options {
  import opened Common

  const MethodKey := "method"
  const InitStdevKey := "init_stdev"
  const DimKey := "dim"
  const DoSamplingKey := "do_sampling"
  const DoMultilevelKey := "do_multilevel"
  const TaskKey := "task"
  const RegularKey := "regular"
  const LearnRateKey := "learn_rate"

  /** The keys the defaulting step may add to a user's options. */
  predicate DefaultedKey(k: string) {
    k == MethodKey || k == InitStdevKey || k == DimKey || k == DoSamplingKey || k == DoMultilevelKey
  }

  /** `m` with `k` bound to `v` unless the user already gave `k`. */
  function SetDefault(m: map<string, string>, k: string, v: string): (r: map<string, string>)
    ensures k in r && r[k] == (if k in m then m[k] else v)
    ensures forall j :: j in m ==> j in r && r[j] == m[j]
    ensures forall j :: j in r ==> j in m || j == k
  {
    if k in m then m else m[k := v]
  }

  /** The options after the driver's defaulting: a missing method becomes
      `mcmc`, a missing `init_stdev` becomes `0.1`, a missing `dim` becomes
      `1,1,8`, and `als` is rewritten to `mcmc` with sampling and multilevel
      priors switched off unless the user set them. */
  function WithDefaults(m: map<string, string>): (r: map<string, string>)
    ensures MethodKey in r && InitStdevKey in r && DimKey in r
    ensures r[MethodKey] != "als"
    ensures r[MethodKey] == (if MethodKey !in m || m[MethodKey] == "als" then "mcmc" else m[MethodKey])
    ensures r[InitStdevKey] == (if InitStdevKey in m then m[InitStdevKey] else "0.1")
    ensures r[DimKey] == (if DimKey in m then m[DimKey] else "1,1,8")
    ensures MethodKey in m && m[MethodKey] == "als" ==>
      && DoSamplingKey in r && r[DoSamplingKey] == (if DoSamplingKey in m then m[DoSamplingKey] else "0")
      && DoMultilevelKey in r && r[DoMultilevelKey] == (if DoMultilevelKey in m then m[DoMultilevelKey] else "0")
    ensures !(MethodKey in m && m[MethodKey] == "als") ==>
      (DoSamplingKey in r <==> DoSamplingKey in m) && (DoMultilevelKey in r <==> DoMultilevelKey in m)
    // nothing the user gave is lost, and only the method is ever overwritten
    ensures forall k :: k in m ==> k in r
    ensures forall k :: k in m && k != MethodKey ==> r[k] == m[k]
    ensures forall k :: k in r && k !in m ==> DefaultedKey(k)
  {
    var m1 := SetDefault(m, MethodKey, "mcmc");
    var m2 := SetDefault(m1, InitStdevKey, "0.1");
    var m3 := SetDefault(m2, DimKey, "1,1,8");
    if m3[MethodKey] == "als" then
      var m4 := m3[MethodKey := "mcmc"];
      var m5 := SetDefault(m4, DoSamplingKey, "0");
      SetDefault(m5, DoMultilevelKey, "0")
    else
      m3
  }

  /** The defaulting step is idempotent: applying it to options it already
      produced changes nothing. */
  lemma WithDefaultsIdempotent(m: map<string, string>)
    ensures WithDefaults(WithDefaults(m)) == WithDefaults(m)
  {
    var r := WithDefaults(m);
    var rr := WithDefaults(r);
    assert rr.Keys == r.Keys;
    forall k | k in r ensures rr[k] == r[k] {
    }
  }

  /** The option store of the command line, reduced to the name/value pairs
      the driver reads and writes. */
  class CmdLine {
    var values: map<string, string>

    constructor (given: map<string, string>)
      ensures values == given
    {
      values := given;
    }

    function HasParameter(name: string): bool
      reads this
    {
      name in values
    }

    function GetValue(name: string): string
      reads this
      requires name in values
    {
      values[name]
    }

    method SetValue(name: string, value: string)
      modifies this
      ensures values == old(values)[name := value]
    {
      values := values[name := value];
    }

    /** The defaulting block at the top of the driver, one `setValue` at a time. */
    method ApplyDefaults()
      modifies this
      ensures values == WithDefaults(old(values))
    {
      if !HasParameter(MethodKey) { SetValue(MethodKey, "mcmc"); }
      if !HasParameter(InitStdevKey) { SetValue(InitStdevKey, "0.1"); }
      if !HasParameter(DimKey) { SetValue(DimKey, "1,1,8"); }
      if GetValue(MethodKey) == "als" {
        SetValue(MethodKey, "mcmc");
        if !HasParameter(DoSamplingKey) { SetValue(DoSamplingKey, "0"); }
        if !HasParameter(DoMultilevelKey) { SetValue(DoMultilevelKey, "0"); }
      }
    }
  }

  /** Which representations of the design matrix are built: the row-wise
      one (`hasX`) and the transposed, column-wise one (`hasXt`). */
  datatype DataLayout = DataLayout(hasX: bool, hasXt: bool)

  /** MCMC works on columns only, SGD and SGDA on rows only; any other
      method (including one that is refused later) gets both. */
  function LayoutFor(name: string): (f: DataLayout)
    ensures f.hasX || f.hasXt
    ensures !f.hasX <==> name == "mcmc"
    ensures !f.hasXt <==> name == "sgd" || name == "sgda"
  {
    DataLayout(!(name == "mcmc"), !(name == "sgd" || name == "sgda"))
  }

  /** After defaulting, the row-wise data is dropped exactly when the user
      asked for MCMC, for ALS or for no method at all. */
  lemma LayoutAfterDefaults(m: map<string, string>)
    ensures !LayoutFor(WithDefaults(m)[MethodKey]).hasX <==>
      (MethodKey !in m || m[MethodKey] == "mcmc" || m[MethodKey] == "als")
    ensures !LayoutFor(WithDefaults(m)[MethodKey]).hasXt <==>
      (MethodKey in m && (m[MethodKey] == "sgd" || m[MethodKey] == "sgda"))
  {
  }

  /** A validation file is read only when the method is SGDA; for any other
      method it is ignored with a warning. */
  function ValidationLoaded(name: string, hasValidationFile: bool): (b: bool)
    ensures b <==> hasValidationFile && name == "sgda"
  {
    hasValidationFile && name == "sgda"
  }

  /** The learner the driver builds. */
  datatype Learner =
    | Sgd
    | Sgda
    | Mcmc(doSample: bool, doMultilevel: bool)

  function LearnerName(l: Learner): string {
    match l
    case Sgd => "sgd"
    case Sgda => "sgda"
    case Mcmc(_, _) => "mcmc"
  }

  /** The value of a flag option that defaults to true: it is switched off
      only by the value `0`. */
  function FlagOption(opts: map<string, string>, key: string): (on: bool)
    ensures key !in opts ==> on
    ensures key in opts ==> (on <==> opts[key] != "0")
  {
    key !in opts || opts[key] != "0"
  }

  /** The learner for the (defaulted) options. SGDA needs the validation
      data, which is present exactly when a validation file was given; any
      name other than sgd, sgda and mcmc is refused. */
  function SelectLearner(opts: map<string, string>, hasValidationFile: bool): (r: Result<Learner>)
    requires MethodKey in opts
    ensures r.Ok? <==>
      opts[MethodKey] == "sgd" || opts[MethodKey] == "mcmc" || (opts[MethodKey] == "sgda" && hasValidationFile)
    ensures r.Ok? ==> LearnerName(r.value) == opts[MethodKey]
    ensures r.Err? ==>
      r.error == (if opts[MethodKey] == "sgda" then MissingValidation else UnknownMethod(opts[MethodKey]))
    ensures r.Ok? && r.value.Mcmc? ==>
      r.value.doSample == FlagOption(opts, DoSamplingKey) && r.value.doMultilevel == FlagOption(opts, DoMultilevelKey)
  {
    var name := opts[MethodKey];
    if name == "sgd" then
      Ok(Sgd)
    else if name == "sgda" then
      if ValidationLoaded(name, hasValidationFile) then Ok(Sgda) else Err(MissingValidation)
    else if name == "mcmc" then
      Ok(Mcmc(FlagOption(opts, DoSamplingKey), FlagOption(opts, DoMultilevelKey)))
    else
      Err(UnknownMethod(name))
  }

  /** `als` without explicit flags is MCMC with neither sampling nor
      multilevel priors, i.e. deterministic coordinate descent. */
  lemma AlsIsDeterministicMcmc(m: map<string, string>, hasValidationFile: bool)
    requires MethodKey in m && m[MethodKey] == "als"
    requires DoSamplingKey !in m && DoMultilevelKey !in m
    ensures SelectLearner(WithDefaults(m), hasValidationFile) == Ok(Mcmc(false, false))
  {
  }

  /** Without a method the driver runs MCMC, sampling with multilevel priors
      unless the flags say otherwise. */
  lemma DefaultIsSamplingMcmc(m: map<string, string>, hasValidationFile: bool)
    requires MethodKey !in m && DoSamplingKey !in m && DoMultilevelKey !in m
    ensures SelectLearner(WithDefaults(m), hasValidationFile) == Ok(Mcmc(true, true))
  {
  }

  /** The flags of the `dim` option: use a bias, use linear terms, and the
      number of factors of the pairwise interactions. */
  datatype Dims = Dims(k0: bool, k1: bool, numFactor: int)

  /** `dim` must hold exactly three integers. */
  function ParseDim(dim: seq<int>): (r: Result<Dims>)
    ensures r.Ok? <==> |dim| == 3
    ensures r.Err? ==> r.error == BadDimCount(|dim|)
    ensures r.Ok? ==>
      (r.value.k0 <==> dim[0] != 0) && (r.value.k1 <==> dim[1] != 0) && r.value.numFactor == dim[2]
  {
    if |dim| != 3 then Err(BadDimCount(|dim|))
    else Ok(Dims(dim[0] != 0, dim[1] != 0, dim[2]))
  }
}
