/**
 * The gauge wrapper around the metrics client: its constructor checks the declared label
 * options, registers the metric name with the metrics agent and builds the client gauge;
 * `set` checks the labels it is given and forwards the value to the client gauge.
 *
 * The metrics agent and the client gauge are library objects; the model records what is
 * handed to them (`registeredMetrics`, `gaugeOptions`, `setCalls`) and nothing more.
 */
module PromGauge {
  import opened Common
  import opened MetricLabels

  /** A gauge's configuration: `collect` is a callback, of which only its presence matters here. */
  datatype GaugeConfig = GaugeConfig(name: string, help: string, labelOptions: Option<LabelOptions>, hasCollect: bool)

  /** The options the client gauge is constructed with. */
  datatype GaugeOptions = GaugeOptions(name: string, help: string, labelNames: Option<seq<string>>, hasCollect: bool)

  datatype ConfigError =
    | EmptyLabelOptions                 // labels are declared but none is named
    | EmptyLabelValues(name: string)    // a declared label has no allowed value

  datatype SetError =
    | LabelsRequired          // labels were declared but none were given
    | LabelsNotDeclared       // labels were given to a gauge that declares none
    | InvalidLabels           // the given labels are not one of the declared combinations

  /** A call forwarded to the client gauge's `set`. */
  datatype GaugeCall =
    | SetValue(value: real)
    | SetLabelled(labels: Labels, value: real)

  /** The name of the first declared label without any allowed value. */
  function FirstEmptyLabel(options: LabelOptions): (r: Option<string>)
    ensures r.None? <==> forall i :: 0 <= i < |options| ==> options[i].values != []
    ensures r.Some? ==> exists i :: 0 <= i < |options| && options[i].name == r.value && options[i].values == []
  {
    if options == [] then None
    else if options[0].values == [] then Some(options[0].name)
    else
      var rest := FirstEmptyLabel(options[1..]);
      assert forall i :: 1 <= i < |options| ==> options[i] == options[1..][i - 1];
      rest
  }

  /**
   * The constructor's check: declared label options must name at least one label and give
   * every label at least one value. The client gauge gets the label names in declaration
   * order, and no label names at all when none were declared.
   */
  function ValidateGaugeConfig(config: GaugeConfig): (r: Result<GaugeOptions, ConfigError>)
    ensures r.Err? <==> config.labelOptions.Some? &&
                          (config.labelOptions.value == [] ||
                           exists i :: 0 <= i < |config.labelOptions.value| && config.labelOptions.value[i].values == [])
    ensures config.labelOptions == Some([]) ==> r == Err(EmptyLabelOptions)
    ensures r.Ok? ==> r.value.name == config.name && r.value.help == config.help && r.value.hasCollect == config.hasCollect
    ensures r.Ok? && config.labelOptions.None? ==> r.value.labelNames.None?
    ensures r.Ok? && config.labelOptions.Some? ==> r.value.labelNames == Some(LabelNames(config.labelOptions.value))
  {
    match config.labelOptions
    case None => Ok(GaugeOptions(config.name, config.help, None, config.hasCollect))
    case Some(options) =>
      if options == [] then Err(EmptyLabelOptions)
      else match FirstEmptyLabel(options)
        case Some(name) => Err(EmptyLabelValues(name))
        case None => Ok(GaugeOptions(config.name, config.help, Some(LabelNames(options)), config.hasCollect))
  }

  /**
   * Whether `set` accepts `labels`: none when no labels were declared, otherwise one of the
   * declared combinations.
   */
  function SetAccepts(labelOptions: Option<LabelOptions>, labels: Option<Labels>): (accepted: bool)
    ensures accepted ==> (labelOptions.None? <==> labels.None?)
    ensures labelOptions.None? ==> (accepted <==> labels.None?)
    ensures labelOptions.Some? && labels.Some? ==> (accepted <==> IsValidLabelCombination(labelOptions.value, labels.value))
  {
    match labelOptions
    case None => labels.None?
    case Some(options) => labels.Some? && IsValidLabelCombination(options, labels.value)
  }

  /** Why `set` refuses `labels`, when it does. */
  function SetRejection(labelOptions: Option<LabelOptions>, labels: Option<Labels>): (err: Option<SetError>)
    ensures err.None? <==> SetAccepts(labelOptions, labels)
    ensures err == Some(LabelsRequired) <==> labelOptions.Some? && labels.None?
    ensures err == Some(LabelsNotDeclared) <==> labelOptions.None? && labels.Some?
  {
    if labelOptions.Some? && labels.None? then Some(LabelsRequired)
    else if labelOptions.None? && labels.Some? then Some(LabelsNotDeclared)
    else if labelOptions.Some? && !IsValidLabelCombination(labelOptions.value, labels.value) then Some(InvalidLabels)
    else None
  }

  /** The call `set` forwards: the bare value without labels, the labels first otherwise. */
  function Forwarded(value: real, labels: Option<Labels>): GaugeCall
  {
    if labels.None? then SetValue(value) else SetLabelled(labels.value, value)
  }

  /**
   * A gauge with declared labels (distinct, as object keys are) accepts exactly the label
   * maps among the generated combinations.
   */
  lemma DeclaredGaugeAcceptsGeneratedCombinations(options: LabelOptions, labels: Labels)
    requires DistinctNames(options)
    ensures SetAccepts(Some(options), Some(labels)) <==> labels in GenerateLabelCombinations(options)
  {
    ValidIffGenerated(options, labels);
  }

  /** The metrics agent: the names registered with it, in order. */
  class PromAgent {
    var registeredMetrics: seq<string>

    constructor ()
      ensures registeredMetrics == []
    {
      registeredMetrics := [];
    }

    method RegisterMetric(name: string)
      modifies this
      ensures registeredMetrics == old(registeredMetrics) + [name]
    {
      registeredMetrics := registeredMetrics + [name];
    }
  }

  class PromMetricGauge {
    const labelOptions: Option<LabelOptions>
    /** What the client gauge was constructed with. */
    const gaugeOptions: GaugeOptions
    /** The calls forwarded to the client gauge's `set`, in order. */
    var setCalls: seq<GaugeCall>

    /** The constructor past its check: register the name, then build the client gauge. */
    constructor (config: GaugeConfig, agent: PromAgent)
      requires ValidateGaugeConfig(config).Ok?
      modifies agent
      ensures agent.registeredMetrics == old(agent.registeredMetrics) + [config.name]
      ensures labelOptions == config.labelOptions
      ensures gaugeOptions == ValidateGaugeConfig(config).value
      ensures setCalls == []
    {
      agent.RegisterMetric(config.name);
      labelOptions := config.labelOptions;
      gaugeOptions := ValidateGaugeConfig(config).value;
      setCalls := [];
    }

    /**
     * `set`: refuse labels the declared options do not accept, leaving the client gauge
     * untouched; otherwise forward the value, with the labels when there are any.
     */
    method Set(value: real, labels: Option<Labels>) returns (err: Option<SetError>)
      modifies this
      ensures err == SetRejection(labelOptions, labels)
      ensures err.None? ==> setCalls == old(setCalls) + [Forwarded(value, labels)]
      ensures err.Some? ==> setCalls == old(setCalls)
    {
      err := SetRejection(labelOptions, labels);
      if err.None? {
        setCalls := setCalls + [Forwarded(value, labels)];
      }
    }
  }

  /**
   * `new PromMetricGauge(config)`: check the configuration and fail without registering
   * anything, or register the metric and build the gauge.
   */
  method NewPromMetricGauge(config: GaugeConfig, agent: PromAgent) returns (r: Result<PromMetricGauge, ConfigError>)
    modifies agent
    ensures r.Err? <==> ValidateGaugeConfig(config).Err?
    ensures r.Err? ==> r.error == ValidateGaugeConfig(config).error && agent.registeredMetrics == old(agent.registeredMetrics)
    ensures r.Ok? ==> && fresh(r.value)
                      && agent.registeredMetrics == old(agent.registeredMetrics) + [config.name]
                      && r.value.labelOptions == config.labelOptions
                      && r.value.gaugeOptions == ValidateGaugeConfig(config).value
                      && r.value.setCalls == []
  {
    var checked := ValidateGaugeConfig(config);
    if checked.Err? {
      return Err(checked.error);
    }
    var gauge := new PromMetricGauge(config, agent);
    r := Ok(gauge);
  }

  /** The configurations of the constructor's tests: with and without labels, and the two rejected ones. */
  lemma ConstructorExamples()
    ensures ValidateGaugeConfig(GaugeConfig("test_gauge1", "A test gauge.", None, false))
            == Ok(GaugeOptions("test_gauge1", "A test gauge.", None, false))
    ensures ValidateGaugeConfig(GaugeConfig("test_gauge2", "A test gauge.",
              Some([LabelOption("status", ["finished", "voided"]), LabelOption("colour", ["black", "white"])]), true))
            == Ok(GaugeOptions("test_gauge2", "A test gauge.", Some(["status", "colour"]), true))
    ensures ValidateGaugeConfig(GaugeConfig("test_gauge", "A test gauge.", Some([]), false)).Err?
    ensures ValidateGaugeConfig(GaugeConfig("test_gauge", "A test gauge.",
              Some([LabelOption("status", ["yes", "no"]), LabelOption("empty", [])]), false))
            == Err(EmptyLabelValues("empty"))
  {
    var labelled := [LabelOption("status", ["finished", "voided"]), LabelOption("colour", ["black", "white"])];
    assert LabelNames(labelled) == ["status", "colour"];
  }

  /** The `set` tests: a bare value, two valid label maps, and a bare value refused by a labelled gauge. */
  method SetExamples(agent: PromAgent)
    returns (plainCalls: seq<GaugeCall>, labelledCalls: seq<GaugeCall>, refused: Option<SetError>, strictCalls: seq<GaugeCall>)
    modifies agent
    ensures agent.registeredMetrics == old(agent.registeredMetrics) + ["test_gauge1", "test_gauge2", "test_gauge"]
    ensures plainCalls == [SetValue(2.0)]
    ensures labelledCalls == [SetLabelled(map["status" := "yes"], 2.0), SetLabelled(map["status" := "no"], 2.0)]
    ensures refused == Some(LabelsRequired) && strictCalls == []
  {
    var plain := new PromMetricGauge(GaugeConfig("test_gauge1", "A test gauge.", None, false), agent);
    var _ := plain.Set(2.0, None);
    plainCalls := plain.setCalls;

    var statusOptions := [LabelOption("status", ["yes", "no"])];
    assert ValidateGaugeConfig(GaugeConfig("test_gauge2", "A test gauge.", Some(statusOptions), false)).Ok?;
    var labelled := new PromMetricGauge(GaugeConfig("test_gauge2", "A test gauge.", Some(statusOptions), false), agent);
    assert NameSet(statusOptions) == {"status"};
    var _ := labelled.Set(2.0, Some(map["status" := "yes"]));
    var _ := labelled.Set(2.0, Some(map["status" := "no"]));
    labelledCalls := labelled.setCalls;

    var twoOptions := [LabelOption("status", ["yes", "no"]), LabelOption("color", ["red", "white"])];
    assert ValidateGaugeConfig(GaugeConfig("test_gauge", "A test gauge.", Some(twoOptions), false)).Ok?;
    var strict := new PromMetricGauge(GaugeConfig("test_gauge", "A test gauge.", Some(twoOptions), false), agent);
    refused := strict.Set(2.0, None);
    strictCalls := strict.setCalls;
  }
}
