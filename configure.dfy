/** The whole configuration sequence of the driver, from the user's options
    and the loaded data to the setup handed to the learner, in the order the
    driver performs (and checks) it:
    defaults, data layout, validation data, attribute offsets and joined
    groups, `dim`, learner, task and target remap, regularization and
    learning rates. */
module Configure {
  import opened Common
  import opened Options
  import opened JoinedMeta
  import opened Targets
  import opened Regularization

  /** A loaded data set: its number of features and its targets. */
  datatype DataSet = DataSet(numFeature: nat, target: seq<real>)

  /** What the driver starts from. `validation` is the content of the
      validation file when one is named; `mainMeta` the groups of the main
      table; `dim`, `regular` and `learnRate` the numeric lists the
      command line yields for the values of those options (after
      defaulting, so an absent `dim` option yields the list of its default
      `1,1,8`). */
  datatype RunInput = RunInput(
    options: map<string, string>,
    train: DataSet,
    test: DataSet,
    validation: Option<DataSet>,
    mainMeta: MetaTable,
    relations: seq<RelationBlock>,
    dim: seq<int>,
    regular: seq<real>,
    learnRate: seq<real>)

  function MethodOf(input: RunInput): string {
    WithDefaults(input.options)[MethodKey]
  }

  /** The validation data the driver actually loads: only for SGDA. */
  function LoadedValidation(input: RunInput): (v: Option<DataSet>)
    ensures v.Some? <==> input.validation.Some? && MethodOf(input) == "sgda"
    ensures v.Some? ==> v == input.validation
  {
    if ValidationLoaded(MethodOf(input), input.validation.Some?) then input.validation else None
  }

  function BaseAttributeCount(input: RunInput): nat {
    MainAttributeCount(input.train.numFeature, input.test.numFeature,
      match LoadedValidation(input) case None => None case Some(v) => Some(v.numFeature))
  }

  /** What the loaders guarantee: the main group table covers the main
      attribute count, and every group id is in range. And what the command
      line yields for `dim` when the option was not given (its default),
      and for `regular` and `learn_rate` when they were not given (no
      values: neither option has a default). */
  predicate WellFormedInput(input: RunInput) {
    && WellFormedMain(input.mainMeta)
    && WellFormedBlocks(input.relations)
    && |input.mainMeta.attrGroup| == BaseAttributeCount(input)
    && (DimKey !in input.options ==> input.dim == [1, 1, 8])
    && (RegularKey !in input.options ==> input.regular == [])
    && (LearnRateKey !in input.options ==> input.learnRate == [])
  }

  /** What the learner is given. */
  datatype Setup = Setup(
    methodName: string,
    layout: DataLayout,
    learner: Learner,
    baseAttribute: nat,
    numAttribute: nat,
    attrOffset: seq<nat>,
    attrGroup: seq<nat>,
    numAttrGroups: nat,
    numAttrPerGroup: seq<nat>,
    dims: Dims,
    task: Task,
    trainTarget: seq<real>,
    testTarget: seq<real>,
    validationTarget: Option<seq<real>>,
    regularization: RegSetting,
    learnRates: Option<LearnRates>)

  /** A negative factor count runs the factor loops zero times. */
  function FactorLoopCount(numFactor: int): nat {
    if numFactor >= 0 then numFactor else 0
  }

  function Configure(input: RunInput): (r: Result<Setup>)
    requires WellFormedInput(input)
    ensures r.Ok? ==> r.value.methodName == MethodOf(input) && LearnerName(r.value.learner) == r.value.methodName
    ensures r.Ok? ==> r.value.layout == LayoutFor(r.value.methodName)
    ensures r.Ok? ==> |r.value.attrOffset| == |input.relations|
  {
    var opts := WithDefaults(input.options);
    var name := opts[MethodKey];
    var layout := LayoutFor(name);
    var validation := LoadedValidation(input);
    var rels := input.relations;
    var base := BaseAttributeCount(input);
    var offsets := seq(|rels|, r requires 0 <= r < |rels| => base + PrefixSum(FeatureCounts(rels), r));
    var numAll := base + PrefixSum(FeatureCounts(rels), |rels|);
    var groups := JoinedAttrGroups(input.mainMeta, rels);
    var numGroups := JoinedGroupCount(input.mainMeta, rels);
    var dims :- ParseDim(input.dim);
    var learner :- SelectLearner(opts, input.validation.Some?);
    var task :- if TaskKey in opts then ParseTask(opts[TaskKey]) else Err(MissingParameter(TaskKey));
    var reg :- RegularizationFor(learner, input.regular, numGroups, FactorLoopCount(dims.numFactor));
    var lr :- LearnRateFor(learner, input.learnRate);
    Ok(Setup(
      name, layout, learner, base, numAll, offsets,
      groups, numGroups, Histogram(groups, numGroups),
      dims, task,
      TargetsFor(task, input.train.target),
      TargetsFor(task, input.test.target),
      match validation case None => None case Some(v) => Some(TargetsFor(task, v.target)),
      reg, lr))
  }

  /** The configuration is refused exactly when one of the checks fails. */
  lemma ConfigureRefusal(input: RunInput)
    requires WellFormedInput(input)
    ensures var opts := WithDefaults(input.options);
      Configure(input).Err? <==>
        || |input.dim| != 3
        || SelectLearner(opts, input.validation.Some?).Err?
        || TaskKey !in opts
        || ParseTask(opts[TaskKey]).Err?
        || BadRegularFor(SelectLearner(opts, input.validation.Some?).value, |input.regular|, input)
        || (!SelectLearner(opts, input.validation.Some?).value.Mcmc? && |input.learnRate| != 1 && |input.learnRate| != 3)
  {
  }

  predicate BadRegularFor(l: Learner, count: nat, input: RunInput) {
    if l.Mcmc? then !McmcCountOk(count, JoinedGroupCount(input.mainMeta, input.relations))
    else !(count == 0 || count == 1 || count == 3)
  }

  /** The order of the checks: `dim` first, then the method, then the task,
      then the regularization, then the learning rate. */
  lemma ConfigureErrorOrder(input: RunInput)
    requires WellFormedInput(input)
    ensures |input.dim| != 3 ==> Configure(input) == Err(BadDimCount(|input.dim|))
    ensures var sel := SelectLearner(WithDefaults(input.options), input.validation.Some?);
      (|input.dim| == 3 && sel.Err?) ==> Configure(input) == Err(sel.error)
    ensures var sel := SelectLearner(WithDefaults(input.options), input.validation.Some?);
      (|input.dim| == 3 && sel.Ok? && TaskKey in input.options && ParseTask(input.options[TaskKey]).Err?) ==>
        Configure(input) == Err(UnknownTask(input.options[TaskKey]))
    ensures var sel := SelectLearner(WithDefaults(input.options), input.validation.Some?);
      (|input.dim| == 3 && sel.Ok? && TaskKey in input.options && ParseTask(input.options[TaskKey]).Ok? &&
       BadRegularFor(sel.value, |input.regular|, input)) ==>
        Configure(input) == Err(BadRegularCount(|input.regular|))
    ensures var sel := SelectLearner(WithDefaults(input.options), input.validation.Some?);
      (|input.dim| == 3 && sel.Ok? && TaskKey !in input.options) ==>
        Configure(input) == Err(MissingParameter(TaskKey))
    ensures var sel := SelectLearner(WithDefaults(input.options), input.validation.Some?);
      (|input.dim| == 3 && sel.Ok? && TaskKey in input.options && ParseTask(input.options[TaskKey]).Ok? &&
       !BadRegularFor(sel.value, |input.regular|, input) && !sel.value.Mcmc? &&
       |input.learnRate| != 1 && |input.learnRate| != 3) ==>
        Configure(input) == Err(BadLearnRateCount(|input.learnRate|))
  {
  }

  /** The fields of an accepted setup, one by one. */
  lemma AcceptedSetup(input: RunInput)
    requires WellFormedInput(input) && Configure(input).Ok?
    ensures var s := Configure(input).value;
      var sel := SelectLearner(WithDefaults(input.options), input.validation.Some?);
      && s.baseAttribute == BaseAttributeCount(input)
      && s.numAttribute == s.baseAttribute + PrefixSum(FeatureCounts(input.relations), |input.relations|)
      && (forall r :: 0 <= r < |input.relations| ==>
            s.attrOffset[r] == s.baseAttribute + PrefixSum(FeatureCounts(input.relations), r))
      && s.attrGroup == JoinedAttrGroups(input.mainMeta, input.relations)
      && s.numAttrGroups == JoinedGroupCount(input.mainMeta, input.relations)
      && s.numAttrPerGroup == Histogram(s.attrGroup, s.numAttrGroups)
      && sel.Ok? && s.learner == sel.value
      && (s.validationTarget.Some? <==> LoadedValidation(input).Some?)
      && RegularizationFor(s.learner, input.regular, s.numAttrGroups, FactorLoopCount(s.dims.numFactor)) == Ok(s.regularization)
      && LearnRateFor(s.learner, input.learnRate) == Ok(s.learnRates)
      && ParseDim(input.dim) == Ok(s.dims)
      && TaskKey in input.options && ParseTask(input.options[TaskKey]) == Ok(s.task)
      && s.trainTarget == TargetsFor(s.task, input.train.target)
      && s.testTarget == TargetsFor(s.task, input.test.target)
      && s.validationTarget == (match LoadedValidation(input)
                                case None => None
                                case Some(v) => Some(TargetsFor(s.task, v.target)))
  {
  }

  /** Without a `dim` option the model has a bias, one-way interactions and
      eight factors, and the dimension check never refuses the run. */
  lemma DefaultDims(input: RunInput)
    requires WellFormedInput(input) && DimKey !in input.options
    ensures Configure(input).Ok? ==> Configure(input).value.dims == Dims(true, true, 8)
    ensures Configure(input).Err? ==> !Configure(input).error.BadDimCount?
  {
  }

  /** In every accepted configuration the joined group table covers the flat
      attribute space, every group id is a valid group, the histogram counts
      every slot once, and every block's attribute range lies between the
      main table and the end. */
  lemma ConfigureTable(input: RunInput)
    requires WellFormedInput(input) && Configure(input).Ok?
    ensures var s := Configure(input).value;
      && |s.attrGroup| == s.numAttribute
      && GroupsBelow(s.attrGroup, s.numAttrGroups)
      && |s.numAttrPerGroup| == s.numAttrGroups
      && PrefixSum(s.numAttrPerGroup, s.numAttrGroups) == s.numAttribute
      && (forall r :: 0 <= r < |input.relations| ==>
            s.baseAttribute <= s.attrOffset[r] && s.attrOffset[r] + input.relations[r].numFeature <= s.numAttribute)
  {
    AcceptedSetup(input);
    var s := Configure(input).value;
    var main := input.mainMeta;
    var rels := input.relations;
    assert SlotCounts(rels) == FeatureCounts(rels);
    JoinedPrefixLength(main, rels, |rels|);
    JoinedGroupsBelow(main, rels);
    HistogramTotal(s.attrGroup, s.numAttrGroups);
    forall r | 0 <= r < |rels|
      ensures s.baseAttribute <= s.attrOffset[r] && s.attrOffset[r] + rels[r].numFeature <= s.numAttribute
    {
      OffsetRanges(s.baseAttribute, rels, r, |rels|);
    }
  }

  /** The main tables occupy the start of the flat attribute space: its
      base is the largest of the train and test feature counts and, only
      when the validation data is loaded (SGDA), the validation count. */
  lemma MainAttributeBase(input: RunInput)
    requires WellFormedInput(input) && Configure(input).Ok?
    ensures var s := Configure(input).value;
      && s.baseAttribute >= input.train.numFeature
      && s.baseAttribute >= input.test.numFeature
      && (s.learner.Sgda? ==> input.validation.Some? && s.baseAttribute >= input.validation.value.numFeature)
      && (|| s.baseAttribute == input.train.numFeature
          || s.baseAttribute == input.test.numFeature
          || (s.learner.Sgda? && s.baseAttribute == input.validation.value.numFeature))
  {
    AcceptedSetup(input);
    ConfigureDispatch(input);
  }

  /** In every accepted configuration exactly one data layout is built, the
      validation data reaches the learner exactly for SGDA, and per-group
      regularization and learning rates go with the learner. */
  lemma ConfigureDispatch(input: RunInput)
    requires WellFormedInput(input) && Configure(input).Ok?
    ensures var s := Configure(input).value;
      && (s.layout.hasX <==> !s.learner.Mcmc?) && (s.layout.hasXt <==> s.learner.Mcmc?)
      && (s.validationTarget.Some? <==> s.learner.Sgda?)
      && (s.regularization.Grouped? <==> s.learner.Mcmc?)
      && (s.learnRates.Some? <==> !s.learner.Mcmc?)
  {
    AcceptedSetup(input);
    var s := Configure(input).value;
    assert LearnerName(s.learner) == s.methodName;
  }

  /** For classification the learner sees the train, test and (for SGDA)
      validation targets each replaced by -1 where it was at or below zero
      and by +1 elsewhere. */
  lemma ClassificationTargets(input: RunInput)
    requires WellFormedInput(input) && Configure(input).Ok?
    requires Configure(input).value.task == Classification
    ensures var s := Configure(input).value;
      && s.trainTarget == Remapped(input.train.target)
      && s.testTarget == Remapped(input.test.target)
      && (s.validationTarget.Some? <==> LoadedValidation(input).Some?)
      && (s.validationTarget.Some? ==> s.validationTarget.value == Remapped(LoadedValidation(input).value.target))
      && (forall i :: 0 <= i < |s.trainTarget| ==> s.trainTarget[i] == -1.0 || s.trainTarget[i] == 1.0)
      && (forall i :: 0 <= i < |s.testTarget| ==> s.testTarget[i] == -1.0 || s.testTarget[i] == 1.0)
  {
    AcceptedSetup(input);
  }

  /** For regression the learner sees the loaded targets unchanged. */
  lemma RegressionTargets(input: RunInput)
    requires WellFormedInput(input) && Configure(input).Ok?
    requires Configure(input).value.task == Regression
    ensures var s := Configure(input).value;
      && s.trainTarget == input.train.target
      && s.testTarget == input.test.target
      && (s.validationTarget.Some? <==> LoadedValidation(input).Some?)
      && (s.validationTarget.Some? ==> s.validationTarget.value == LoadedValidation(input).value.target)
  {
    AcceptedSetup(input);
  }

  /** An MCMC run with a full per-group `regular` vector (two or more
      joined groups) hands the learner the bias value as `reg0`, zero
      linear and factor scalars, value 1 + g as the linear lambda of group
      g and value 1 + G + g as its factor lambda for every factor. */
  lemma McmcRunRegularization(input: RunInput)
    requires WellFormedInput(input) && Configure(input).Ok?
    requires Configure(input).value.learner.Mcmc?
    requires var G := Configure(input).value.numAttrGroups; G >= 2 && |input.regular| == 1 + 2 * G
    ensures var s := Configure(input).value; var G := s.numAttrGroups; var K := FactorLoopCount(s.dims.numFactor);
      && s.regularization.Grouped?
      && s.regularization.group.scalars == RegScalars(input.regular[0], 0.0, 0.0)
      && |s.regularization.group.wLambda| == G
      && (forall g :: 0 <= g < G ==> s.regularization.group.wLambda[g] == input.regular[1 + g])
      && (forall g, f :: 0 <= g < G && 0 <= f < K ==> s.regularization.group.vLambda[g][f] == input.regular[1 + G + g])
      && s.learnRates.None?
  {
    AcceptedSetup(input);
    var s := Configure(input).value;
    McmcPerGroup(input.regular, s.numAttrGroups, FactorLoopCount(s.dims.numFactor));
  }

  /** An SGD run with three `regular` values and one learning rate hands
      the learner the three scalars and that rate for every layer. */
  lemma SgdRunSettings(input: RunInput)
    requires WellFormedInput(input) && Configure(input).Ok?
    requires !Configure(input).value.learner.Mcmc?
    requires |input.regular| == 3 && |input.learnRate| == 1
    ensures var s := Configure(input).value;
      && s.regularization == Flat(RegScalars(input.regular[0], input.regular[1], input.regular[2]))
      && s.learnRates == Some(LearnRates(input.learnRate[0], [input.learnRate[0], input.learnRate[0], input.learnRate[0]]))
  {
    AcceptedSetup(input);
  }

  /** Without a `regular` option there is no regularization: the scalars
      are zero and, for MCMC, so is every per-group lambda. */
  lemma NoRegularOption(input: RunInput)
    requires WellFormedInput(input) && RegularKey !in input.options && Configure(input).Ok?
    ensures var s := Configure(input).value;
      && (s.regularization.Flat? ==> s.regularization.scalars == RegScalars(0.0, 0.0, 0.0))
      && (s.regularization.Grouped? ==>
            s.regularization.group == Uniform(RegScalars(0.0, 0.0, 0.0), s.numAttrGroups, FactorLoopCount(s.dims.numFactor)))
  {
    AcceptedSetup(input);
  }

  /** Without a `learn_rate` option only MCMC can be configured: an SGD or
      SGDA run that passes every earlier check is refused with a count of
      zero learning rates. */
  lemma NoLearnRateOption(input: RunInput)
    requires WellFormedInput(input) && LearnRateKey !in input.options
    ensures Configure(input).Ok? ==> Configure(input).value.learner.Mcmc?
    ensures var sel := SelectLearner(WithDefaults(input.options), input.validation.Some?);
      (|input.dim| == 3 && sel.Ok? && !sel.value.Mcmc? && TaskKey in input.options &&
       ParseTask(input.options[TaskKey]).Ok? && !BadRegularFor(sel.value, |input.regular|, input)) ==>
        Configure(input) == Err(BadLearnRateCount(0))
  {
    ConfigureErrorOrder(input);
    if Configure(input).Ok? {
      ConfigureDispatch(input);
    }
  }

  /** `als` without explicit flags ends up as deterministic MCMC working on
      the transposed data only. */
  lemma AlsConfiguration(input: RunInput)
    requires WellFormedInput(input) && Configure(input).Ok?
    requires MethodKey in input.options && input.options[MethodKey] == "als"
    requires DoSamplingKey !in input.options && DoMultilevelKey !in input.options
    ensures Configure(input).value.learner == Mcmc(false, false)
    ensures !Configure(input).value.layout.hasX && Configure(input).value.layout.hasXt
  {
    AlsIsDeterministicMcmc(input.options, input.validation.Some?);
  }
}
