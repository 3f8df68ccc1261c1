/** Regularization values and learning rates taken from the `regular` and
    `learn_rate` options. MCMC (and so ALS) accepts per-group values; the
    SGD learners accept only the three scalars. */
module Regularization {
  import opened Common
  import opened Options

  /** The scalar regularization of the model: bias, linear and factor terms. */
  datatype RegScalars = RegScalars(reg0: real, regw: real, regv: real)

  /** The MCMC learner's regularization: the scalars, one `w` lambda per
      group and one `v` lambda per group and factor (`vLambda[g][f]`). */
  datatype GroupReg = GroupReg(scalars: RegScalars, wLambda: seq<real>, vLambda: seq<seq<real>>)

  /** MCMC accepts 0, 1 or 3 values, or one bias value followed by one `w`
      value and one `v` value per group. */
  predicate McmcCountOk(count: nat, numGroups: nat) {
    count == 0 || count == 1 || count == 3 || count == 1 + 2 * numGroups
  }

  /** All groups share the linear and the factor scalar. */
  function Uniform(s: RegScalars, numGroups: nat, numFactor: nat): (r: GroupReg)
    ensures r.scalars == s && |r.wLambda| == numGroups && |r.vLambda| == numGroups
    ensures forall g :: 0 <= g < numGroups ==> r.wLambda[g] == s.regw
    ensures forall g :: 0 <= g < numGroups ==> |r.vLambda[g]| == numFactor
    ensures forall g, f :: 0 <= g < numGroups && 0 <= f < numFactor ==> r.vLambda[g][f] == s.regv
  {
    GroupReg(s, seq(numGroups, _ => s.regw), seq(numGroups, _ => seq(numFactor, _ => s.regv)))
  }

  /** The MCMC branch of the driver. The branches are tried in the order
      0, 1, 3 values and only then per group, so with one group the value
      triple is read as the three scalars, and with no group the single
      value is broadcast. */
  function McmcRegularization(reg: seq<real>, numGroups: nat, numFactor: nat): (r: Result<GroupReg>)
    ensures r.Ok? <==> McmcCountOk(|reg|, numGroups)
    ensures r.Err? ==> r.error == BadRegularCount(|reg|)
    ensures r.Ok? ==> |r.value.wLambda| == numGroups && |r.value.vLambda| == numGroups
    ensures r.Ok? ==> forall g :: 0 <= g < numGroups ==> |r.value.vLambda[g]| == numFactor
    ensures r.Ok? && |reg| > 0 ==> r.value.scalars.reg0 == reg[0]
  {
    if !McmcCountOk(|reg|, numGroups) then
      Err(BadRegularCount(|reg|))
    else if |reg| == 0 then
      Ok(Uniform(RegScalars(0.0, 0.0, 0.0), numGroups, numFactor))
    else if |reg| == 1 then
      Ok(Uniform(RegScalars(reg[0], reg[0], reg[0]), numGroups, numFactor))
    else if |reg| == 3 then
      Ok(Uniform(RegScalars(reg[0], reg[1], reg[2]), numGroups, numFactor))
    else
      Ok(GroupReg(RegScalars(reg[0], 0.0, 0.0),
                  reg[1..1 + numGroups],
                  seq(numGroups, g requires 0 <= g < numGroups => seq(numFactor, _ => reg[1 + numGroups + g]))))
  }

  /** A full per-group vector (two or more groups): value 0 is the bias,
      value 1 + g the linear lambda of group g, and value 1 + G + g the
      factor lambda of group g for every factor; the scalars are zero. */
  lemma McmcPerGroup(reg: seq<real>, numGroups: nat, numFactor: nat)
    requires numGroups >= 2 && |reg| == 1 + 2 * numGroups
    ensures var r := McmcRegularization(reg, numGroups, numFactor);
      && r.Ok?
      && r.value.scalars == RegScalars(reg[0], 0.0, 0.0)
      && (forall g :: 0 <= g < numGroups ==> r.value.wLambda[g] == reg[1 + g])
      && (forall g, f :: 0 <= g < numGroups && 0 <= f < numFactor ==> r.value.vLambda[g][f] == reg[1 + numGroups + g])
  {
  }

  /** With 0, 1 or 3 values every group gets the linear scalar and every
      group and factor the factor scalar. */
  lemma McmcScalarsBroadcast(reg: seq<real>, numGroups: nat, numFactor: nat)
    requires |reg| == 0 || |reg| == 1 || |reg| == 3
    ensures var r := McmcRegularization(reg, numGroups, numFactor);
      && r.Ok?
      && (forall g :: 0 <= g < numGroups ==> r.value.wLambda[g] == r.value.scalars.regw)
      && (forall g, f :: 0 <= g < numGroups && 0 <= f < numFactor ==> r.value.vLambda[g][f] == r.value.scalars.regv)
  {
  }

  /** Branch order: with one group the three values are the scalars, not a
      per-group vector, and with no group a single value is broadcast. */
  lemma McmcBranchOrder(reg: seq<real>, numFactor: nat)
    ensures |reg| == 3 ==>
      McmcRegularization(reg, 1, numFactor) == Ok(Uniform(RegScalars(reg[0], reg[1], reg[2]), 1, numFactor))
    ensures |reg| == 1 ==>
      McmcRegularization(reg, 0, numFactor) == Ok(Uniform(RegScalars(reg[0], reg[0], reg[0]), 0, numFactor))
  {
  }

  /** The branch of the SGD learners: no group vectors, only 0, 1 or 3 values. */
  function FlatRegularization(reg: seq<real>): (r: Result<RegScalars>)
    ensures r.Ok? <==> |reg| == 0 || |reg| == 1 || |reg| == 3
    ensures r.Err? ==> r.error == BadRegularCount(|reg|)
    ensures r.Ok? && |reg| == 0 ==> r.value == RegScalars(0.0, 0.0, 0.0)
    ensures r.Ok? && |reg| == 1 ==> r.value == RegScalars(reg[0], reg[0], reg[0])
    ensures r.Ok? && |reg| == 3 ==> r.value == RegScalars(reg[0], reg[1], reg[2])
  {
    if !(|reg| == 0 || |reg| == 1 || |reg| == 3) then Err(BadRegularCount(|reg|))
    else if |reg| == 0 then Ok(RegScalars(0.0, 0.0, 0.0))
    else if |reg| == 1 then Ok(RegScalars(reg[0], reg[0], reg[0]))
    else Ok(RegScalars(reg[0], reg[1], reg[2]))
  }

  /** On the counts both accept, the two branches set the same scalars;
      a per-group vector of two or more groups is refused by SGD. */
  lemma FlatAgreesWithMcmc(reg: seq<real>, numGroups: nat, numFactor: nat)
    ensures FlatRegularization(reg).Ok? ==>
      McmcRegularization(reg, numGroups, numFactor).Ok? &&
      McmcRegularization(reg, numGroups, numFactor).value.scalars == FlatRegularization(reg).value
    ensures numGroups >= 2 && |reg| == 1 + 2 * numGroups ==>
      McmcRegularization(reg, numGroups, numFactor).Ok? && FlatRegularization(reg).Err?
  {
  }

  /** The regularization of the model and the learner, by learner. */
  datatype RegSetting = Flat(scalars: RegScalars) | Grouped(group: GroupReg)

  function RegularizationFor(l: Learner, reg: seq<real>, numGroups: nat, numFactor: nat): (r: Result<RegSetting>)
    ensures l.Mcmc? ==> (r.Ok? <==> McmcCountOk(|reg|, numGroups)) && (r.Ok? ==> r.value.Grouped?)
    ensures !l.Mcmc? ==> (r.Ok? <==> |reg| == 0 || |reg| == 1 || |reg| == 3) && (r.Ok? ==> r.value.Flat?)
    ensures r.Err? ==> r.error == BadRegularCount(|reg|)
    ensures l.Mcmc? && r.Ok? ==> r.value.group == McmcRegularization(reg, numGroups, numFactor).value
    ensures !l.Mcmc? && r.Ok? ==> r.value.scalars == FlatRegularization(reg).value
  {
    if l.Mcmc? then
      match McmcRegularization(reg, numGroups, numFactor)
      case Ok(gr) => Ok(Grouped(gr))
      case Err(e) => Err(e)
    else
      match FlatRegularization(reg)
      case Ok(s) => Ok(Flat(s))
      case Err(e) => Err(e)
  }

  /** The learning rate of the SGD learners and the three per-layer rates
      (bias, linear, factors). */
  datatype LearnRates = LearnRates(learnRate: real, learnRates: seq<real>)

  /** One value is used for the global rate and for every layer; three
      values set the layers one by one and the global rate to zero. */
  function LearnRateSetting(lr: seq<real>): (r: Result<LearnRates>)
    ensures r.Ok? <==> |lr| == 1 || |lr| == 3
    ensures r.Err? ==> r.error == BadLearnRateCount(|lr|)
    ensures r.Ok? ==> |r.value.learnRates| == 3
    ensures r.Ok? && |lr| == 1 ==> r.value.learnRate == lr[0] && forall i :: 0 <= i < 3 ==> r.value.learnRates[i] == lr[0]
    ensures r.Ok? && |lr| == 3 ==> r.value.learnRate == 0.0 && r.value.learnRates == lr
  {
    if |lr| == 1 then Ok(LearnRates(lr[0], [lr[0], lr[0], lr[0]]))
    else if |lr| == 3 then Ok(LearnRates(0.0, lr))
    else Err(BadLearnRateCount(|lr|))
  }

  /** Only the SGD learners read learning rates; for MCMC the option is
      ignored whatever it holds. */
  function LearnRateFor(l: Learner, lr: seq<real>): (r: Result<Option<LearnRates>>)
    ensures l.Mcmc? ==> r == Ok(None)
    ensures !l.Mcmc? ==> (r.Ok? <==> |lr| == 1 || |lr| == 3) && (r.Ok? ==> r.value.Some?)
    ensures !l.Mcmc? && r.Ok? ==> r.value.value == LearnRateSetting(lr).value
    ensures r.Err? ==> r.error == BadLearnRateCount(|lr|)
  {
    if l.Mcmc? then Ok(None)
    else
      match LearnRateSetting(lr)
      case Ok(s) => Ok(Some(s))
      case Err(e) => Err(e)
  }

  // ---------------------------------------------------------------------
  // The in-place writes

  /** Every entry of a vector set to one value. */
  method Fill(a: array<real>, x: real)
    modifies a
    ensures forall i :: 0 <= i < a.Length ==> a[i] == x
  {
    for i := 0 to a.Length
      invariant forall j :: 0 <= j < i ==> a[j] == x
    {
      a[i] := x;
    }
  }

  /** Every entry of a matrix set to one value. */
  method FillMatrix(m: array2<real>, x: real)
    modifies m
    ensures forall g, f :: 0 <= g < m.Length0 && 0 <= f < m.Length1 ==> m[g, f] == x
  {
    for g := 0 to m.Length0
      invariant forall h, f :: 0 <= h < g && 0 <= f < m.Length1 ==> m[h, f] == x
    {
      for f := 0 to m.Length1
        invariant forall h, f' :: 0 <= h < g && 0 <= f' < m.Length1 ==> m[h, f'] == x
        invariant forall f' :: 0 <= f' < f ==> m[g, f'] == x
      {
        m[g, f] := x;
      }
    }
  }

  /** The MCMC regularization step: the count is checked, then the scalars
      are chosen and the per-group lambdas are written, reading the values
      with a moving index in the per-group case. */
  method SetMcmcRegularization(reg: seq<real>, numGroups: nat, numFactor: nat,
                               wLambda: array<real>, vLambda: array2<real>)
    returns (r: Result<RegScalars>)
    requires wLambda.Length == numGroups && vLambda.Length0 == numGroups && vLambda.Length1 == numFactor
    modifies wLambda, vLambda
    ensures var spec := McmcRegularization(reg, numGroups, numFactor);
      && (r.Ok? <==> spec.Ok?)
      && (r.Err? ==> r.error == spec.error)
      && (r.Ok? ==> r.value == spec.value.scalars && wLambda[..] == spec.value.wLambda)
      && (r.Ok? ==> forall g, f :: 0 <= g < numGroups && 0 <= f < numFactor ==> vLambda[g, f] == spec.value.vLambda[g][f])
    ensures r.Err? ==> unchanged(wLambda) && unchanged(vLambda)
  {
    if !McmcCountOk(|reg|, numGroups) {
      return Err(BadRegularCount(|reg|));
    }
    var s: RegScalars;
    if |reg| == 0 {
      s := RegScalars(0.0, 0.0, 0.0);
    } else if |reg| == 1 {
      s := RegScalars(reg[0], reg[0], reg[0]);
    } else if |reg| == 3 {
      s := RegScalars(reg[0], reg[1], reg[2]);
    } else {
      r := Ok(RegScalars(reg[0], 0.0, 0.0));
      SetPerGroupLambdas(reg, numGroups, numFactor, wLambda, vLambda);
      return;
    }
    Fill(wLambda, s.regw);
    FillMatrix(vLambda, s.regv);
    r := Ok(s);
  }

  /** The per-group loops: `w_lambda(g)` from value 1 + g, then
      `v_lambda(g, f)` from value 1 + G + g for every factor f. */
  method SetPerGroupLambdas(reg: seq<real>, numGroups: nat, numFactor: nat,
                            wLambda: array<real>, vLambda: array2<real>)
    requires |reg| == 1 + 2 * numGroups
    requires wLambda.Length == numGroups && vLambda.Length0 == numGroups && vLambda.Length1 == numFactor
    modifies wLambda, vLambda
    ensures wLambda[..] == reg[1..1 + numGroups]
    ensures forall g, f :: 0 <= g < numGroups && 0 <= f < numFactor ==> vLambda[g, f] == reg[1 + numGroups + g]
  {
    var j := 1;
    for g := 0 to numGroups
      invariant j == 1 + g
      invariant forall h :: 0 <= h < g ==> wLambda[h] == reg[1 + h]
    {
      wLambda[g] := reg[j];
      j := j + 1;
    }
    for g := 0 to numGroups
      invariant j == 1 + numGroups + g
      invariant forall h, f :: 0 <= h < g && 0 <= f < numFactor ==> vLambda[h, f] == reg[1 + numGroups + h]
      modifies vLambda
    {
      for f := 0 to numFactor
        invariant forall h, f' :: 0 <= h < g && 0 <= f' < numFactor ==> vLambda[h, f'] == reg[1 + numGroups + h]
        invariant forall f' :: 0 <= f' < f ==> vLambda[g, f'] == reg[j]
      {
        vLambda[g, f] := reg[j];
      }
      j := j + 1;
    }
    assert wLambda[..] == reg[1..1 + numGroups];
  }

  /** The learning-rate step of the SGD learners. */
  method SetLearnRates(lr: seq<real>, learnRates: array<real>) returns (r: Result<real>)
    requires learnRates.Length == 3
    modifies learnRates
    ensures var spec := LearnRateSetting(lr);
      && (r.Ok? <==> spec.Ok?)
      && (r.Err? ==> r.error == spec.error)
      && (r.Ok? ==> r.value == spec.value.learnRate && learnRates[..] == spec.value.learnRates)
    ensures r.Err? ==> unchanged(learnRates)
  {
    if |lr| == 1 {
      Fill(learnRates, lr[0]);
      r := Ok(lr[0]);
      assert learnRates[..] == [lr[0], lr[0], lr[0]];
    } else if |lr| == 3 {
      learnRates[0] := lr[0];
      learnRates[1] := lr[1];
      learnRates[2] := lr[2];
      r := Ok(0.0);
      assert learnRates[..] == lr;
    } else {
      r := Err(BadLearnRateCount(|lr|));
    }
  }
}
