/** The five-stage pipeline of app.py:146-296 (and its copy, langchain_hardwork.py:93-236):
    each `TransformChain` as a record of its declared input and output variables and its
    transform, a `SequentialChain` runner over a context of named variables, the
    `start_process` route and the `run_step` dispatch. The language model, the output
    parser and `json.dumps` are foreign calls, passed in as a `Backend`. */
module Pipeline {
  import opened Json
  import JsonText
  import Sanitize
  import AppExtract
  import HardworkExtract

  /** The two copies of the pipeline: app.py cleans both model replies and broadcasts
      paths; langchain_hardwork.py does neither. */
  datatype Variant = App | Hardwork

  /** The foreign calls a stage makes. Any failure inside one is a raised exception. */
  datatype Backend = Backend(
    proposeMapping: JSON -> Result<string>,  // the model's reply to the mapping prompt built from `json_input`
    renderOutput: JSON -> Result<string>,    // the model's reply to the output prompt built from `json_string`
    parseStructured: JSON -> Result<JSON>,   // `output_parser.parse(model_output)`
    dumps: JSON -> string)                   // `json.dumps(value, indent=4)`

  /** The variables passed between stages. Text values are held as JSON strings. */
  type Context = map<string, JSON>

  datatype Transform = GenerateMapping | ExtractFields | JsonToString | GenerateOutput | ParseOutput

  /** A `TransformChain`: its name, declared variables and transform. */
  datatype Stage = Stage(name: string, inputs: seq<string>, outputs: seq<string>, transform: Transform)

  const GenerateMappingStage := Stage("generate_mapping", ["json_input"], ["mapping"], GenerateMapping)
  const ExtractStage := Stage("extract_data", ["json_input", "mapping"], ["extracted_data"], ExtractFields)
  const JsonToStringStage := Stage("json_to_string", ["extracted_data"], ["json_string"], JsonToString)
  const GenerateOutputStage := Stage("generate_output", ["json_string"], ["model_output"], GenerateOutput)
  const ParseOutputStage := Stage("parse_output", ["model_output"], ["parsed_output"], ParseOutput)

  /** The `SequentialChain`'s stages, in order. */
  const Chain: seq<Stage> := [GenerateMappingStage, ExtractStage, JsonToStringStage, GenerateOutputStage, ParseOutputStage]
  const ChainInputs: set<string> := {"json_input"}
  const ChainOutput: string := "parsed_output"

  /** `inputs[name]`: KeyError when absent. */
  function Var(ctx: Context, name: string): (r: Result<JSON>)
    ensures r.Ok? <==> name in ctx
    ensures r.Ok? ==> r.value == ctx[name]
    ensures r.Crash? ==> r.error == KeyError
  {
    if name in ctx then Ok(ctx[name]) else Crash(KeyError)
  }

  /** `json.loads(text)`: a JSONDecodeError is a ValueError. */
  function LoadsOrRaise(text: string): (r: Result<JSON>)
    ensures r.Ok? <==> JsonText.Valid(text)
    ensures r.Ok? ==> JsonText.Loads(text) == Some(r.value)
    ensures r.Crash? ==> r.error == ValueError
  {
    match JsonText.Loads(text)
    case Some(v) => Ok(v)
    case None => Crash(ValueError)
  }

  /** The replies app.py passes through `clean_model_output` (app.py:193, 259). */
  function Cleaned(variant: Variant, reply: string): Result<string> {
    if variant == App then Sanitize.CleanModelOutput(reply) else Ok(reply)
  }

  function Extract(variant: Variant, data: JSON, mapping: JSON): Result<JSON> {
    if variant == App then AppExtract.Extract(data, mapping) else HardworkExtract.Extract(data, mapping)
  }

  /** The variable each transform produces. */
  function Produces(t: Transform): string {
    match t
    case GenerateMapping => "mapping"
    case ExtractFields => "extracted_data"
    case JsonToString => "json_string"
    case GenerateOutput => "model_output"
    case ParseOutput => "parsed_output"
  }

  /** The stage functions: `generate_mapping` (app.py:147-198, langchain_hardwork.py:94-144),
      `transform_extract_data`, `transform_json_to_string`, `generate_output` and
      `parse_output`. Each returns a fresh dict holding one variable. */
  function ApplyTransform(variant: Variant, backend: Backend, t: Transform, ctx: Context): (r: Result<Context>)
    ensures r.Ok? ==> r.value.Keys == {Produces(t)}
    // generate_mapping: the (cleaned) reply to the mapping prompt, read as JSON
    ensures t == GenerateMapping ==>
      (r.Ok? <==>
        ("json_input" in ctx && backend.proposeMapping(ctx["json_input"]).Ok? &&
         Cleaned(variant, backend.proposeMapping(ctx["json_input"]).value).Ok? &&
         JsonText.Valid(Cleaned(variant, backend.proposeMapping(ctx["json_input"]).value).value)))
    ensures t == GenerateMapping && r.Ok? ==>
      JsonText.Loads(Cleaned(variant, backend.proposeMapping(ctx["json_input"]).value).value) == Some(r.value["mapping"])
    // transform_extract_data: `extract_data(json_input, mapping)`
    ensures t == ExtractFields ==>
      (r.Ok? <==> "json_input" in ctx && "mapping" in ctx && Extract(variant, ctx["json_input"], ctx["mapping"]).Ok?)
    ensures t == ExtractFields && r.Ok? ==>
      Extract(variant, ctx["json_input"], ctx["mapping"]) == Ok(r.value["extracted_data"])
    // transform_json_to_string: `json.dumps(extracted_data)`
    ensures t == JsonToString ==> (r.Ok? <==> "extracted_data" in ctx)
    ensures t == JsonToString && r.Ok? ==> r.value["json_string"] == JStr(backend.dumps(ctx["extracted_data"]))
    // generate_output: the (cleaned) reply to the output prompt
    ensures t == GenerateOutput ==>
      (r.Ok? <==>
        ("json_string" in ctx && backend.renderOutput(ctx["json_string"]).Ok? &&
         Cleaned(variant, backend.renderOutput(ctx["json_string"]).value).Ok?))
    ensures t == GenerateOutput && r.Ok? ==>
      r.value["model_output"] == JStr(Cleaned(variant, backend.renderOutput(ctx["json_string"]).value).value)
    // parse_output: what the output parser makes of `model_output`
    ensures t == ParseOutput ==> (r.Ok? <==> "model_output" in ctx && backend.parseStructured(ctx["model_output"]).Ok?)
    ensures t == ParseOutput && r.Ok? ==> backend.parseStructured(ctx["model_output"]) == Ok(r.value["parsed_output"])
  {
    match t
    case GenerateMapping =>
      var input :- Var(ctx, "json_input");
      var reply :- backend.proposeMapping(input);
      var text :- Cleaned(variant, reply);
      var mapping :- LoadsOrRaise(text);
      Ok(map["mapping" := mapping])
    case ExtractFields =>
      var data :- Var(ctx, "json_input");
      var mapping :- Var(ctx, "mapping");
      var extracted :- Extract(variant, data, mapping);
      Ok(map["extracted_data" := extracted])
    case JsonToString =>
      var extracted :- Var(ctx, "extracted_data");
      Ok(map["json_string" := JStr(backend.dumps(extracted))])
    case GenerateOutput =>
      var jsonString :- Var(ctx, "json_string");
      var reply :- backend.renderOutput(jsonString);
      var text :- Cleaned(variant, reply);
      Ok(map["model_output" := JStr(text)])
    case ParseOutput =>
      var modelOutput :- Var(ctx, "model_output");
      var parsed :- backend.parseStructured(modelOutput);
      Ok(map["parsed_output" := parsed])
  }

  /** app.py's mapping stage only ever stores a dict: the reply is cleaned down to the
      span from `{` to `}` before it is read (app.py:193-196). */
  lemma AppMappingIsObject(backend: Backend, ctx: Context)
    requires ApplyTransform(App, backend, GenerateMapping, ctx).Ok?
    ensures "mapping" in ApplyTransform(App, backend, GenerateMapping, ctx).value
    ensures ApplyTransform(App, backend, GenerateMapping, ctx).value["mapping"].JObj?
  {
    var reply := backend.proposeMapping(ctx["json_input"]).value;
    Sanitize.CleanGivesObject(reply);
  }

  /** The copy in langchain_hardwork.py reads the reply as it is, so any JSON value can
      become the mapping, and a mapping that is not a dict makes the next stage raise
      AttributeError at `mapping.items()`. */
  lemma HardworkMappingAsReplied(backend: Backend, ctx: Context, reply: string)
    requires "json_input" in ctx && backend.proposeMapping(ctx["json_input"]) == Ok(reply)
    ensures ApplyTransform(Hardwork, backend, GenerateMapping, ctx).Ok? <==> JsonText.Valid(reply)
    ensures JsonText.Valid(reply) ==>
      ApplyTransform(Hardwork, backend, GenerateMapping, ctx).value == map["mapping" := JsonText.Loads(reply).value]
    ensures JsonText.Valid(reply) && !JsonText.Loads(reply).value.JObj? ==>
      ApplyTransform(Hardwork, backend, ExtractFields, ctx + map["mapping" := JsonText.Loads(reply).value]) == Crash(AttributeError)
  {
  }

  /** Why a stage did not produce its variables. */
  datatype StageError =
    | MissingInput(name: string)  // a declared input is not in the context: checked before the transform runs
    | Raised(error: PyError)      // the transform raised, or did not return a declared output

  datatype StageOutcome = Produced(out: Context) | Failed(error: StageError)

  /** The first declared variable not in `known`, if any. */
  function FirstMissing(names: seq<string>, known: set<string>): (r: Option<string>)
    ensures r.None? <==> forall x :: x in names ==> x in known
    ensures r.Some? ==> r.value in names && r.value !in known
  {
    if names == [] then None
    else if names[0] !in known then Some(names[0])
    else FirstMissing(names[1..], known)
  }

  /** Invoking one `TransformChain`: its inputs must all be present, then the transform
      runs, then every declared output must be in what it returned. */
  function RunStage(variant: Variant, backend: Backend, stage: Stage, ctx: Context): (r: StageOutcome)
    ensures r.Failed? && r.error.MissingInput? <==> FirstMissing(stage.inputs, ctx.Keys).Some?
    ensures r.Produced? ==> ApplyTransform(variant, backend, stage.transform, ctx) == Ok(r.out)
    ensures r.Produced? ==> r.out.Keys == {Produces(stage.transform)}
    ensures FirstMissing(stage.inputs, ctx.Keys).None? ==>
      var a := ApplyTransform(variant, backend, stage.transform, ctx);
      (a.Crash? ==> r == Failed(Raised(a.error))) &&
      (a.Ok? && (forall x :: x in stage.outputs ==> x in a.value) ==> r == Produced(a.value)) &&
      (a.Ok? && (exists x :: x in stage.outputs && x !in a.value) ==> r == Failed(Raised(ValueError)))
  {
    match FirstMissing(stage.inputs, ctx.Keys)
    case Some(name) => Failed(MissingInput(name))
    case None =>
      match ApplyTransform(variant, backend, stage.transform, ctx)
      case Crash(e) => Failed(Raised(e))
      case Ok(out) =>
        if FirstMissing(stage.outputs, out.Keys).Some? then Failed(Raised(ValueError))
        else Produced(out)
  }

  /** How one stage is invoked; the runner does not look inside. */
  type StageRunner = (Stage, Context) -> StageOutcome

  /** The pipeline's own stage invocation. */
  function Invoke(variant: Variant, backend: Backend): StageRunner {
    (stage, ctx) => RunStage(variant, backend, stage, ctx)
  }

  /** How a run of several stages ends: with the final context, or at the stage with
      index `failed`, with the context as it was before that stage. */
  datatype Outcome = Completed(ctx: Context) | Aborted(ctx: Context, failed: nat, error: StageError)

  /** The `SequentialChain` runner: stages in order, each stage's variables merged into
      the context, the first failure ending the run. */
  function Run(invoke: StageRunner, stages: seq<Stage>, ctx: Context): (r: Outcome)
    ensures r.Aborted? ==> r.failed < |stages|
    decreases |stages|
  {
    if stages == [] then Completed(ctx)
    else
      match invoke(stages[0], ctx)
      case Failed(e) => Aborted(ctx, 0, e)
      case Produced(out) =>
        match Run(invoke, stages[1..], ctx + out)
        case Completed(c) => Completed(c)
        case Aborted(c, k, e) => Aborted(c, k + 1, e)
  }

  /** A stage invocation that reports a missing input only when one is missing. */
  ghost predicate ChecksInputs(invoke: StageRunner) {
    forall stage, ctx :: invoke(stage, ctx).Failed? && invoke(stage, ctx).error.MissingInput? ==>
      FirstMissing(stage.inputs, ctx.Keys).Some?
  }

  /** A stage invocation that, for an honest stage, produces exactly the declared
      outputs. */
  ghost predicate KeepsDeclared(invoke: StageRunner) {
    forall stage, ctx :: Honest(stage) && invoke(stage, ctx).Produced? ==>
      invoke(stage, ctx).out.Keys == set x | x in stage.outputs
  }

  /** The pipeline's stage invocation has both properties. */
  lemma InvokeBehaves(variant: Variant, backend: Backend)
    ensures ChecksInputs(Invoke(variant, backend))
    ensures KeepsDeclared(Invoke(variant, backend))
  {
    var invoke := Invoke(variant, backend);
    forall stage, ctx | Honest(stage) && invoke(stage, ctx).Produced?
      ensures invoke(stage, ctx).out.Keys == set x | x in stage.outputs
    {
      assert (set x | x in stage.outputs) == {Produces(stage.transform)};
    }
  }

  // ---------------------------------------------------------------------------------
  // Well-formedness of the declared chain.

  /** Every stage's inputs are known when it runs, and no stage produces a variable
      already known (the chain's inputs or an earlier stage's output). */
  predicate WellFormed(stages: seq<Stage>, known: set<string>)
    decreases |stages|
  {
    stages == [] ||
    ((forall x :: x in stages[0].inputs ==> x in known) &&
     (forall x :: x in stages[0].outputs ==> x !in known) &&
     (forall i, j :: 0 <= i < j < |stages[0].outputs| ==> stages[0].outputs[i] != stages[0].outputs[j]) &&
     WellFormed(stages[1..], known + set x | x in stages[0].outputs))
  }

  /** A stage's declared output is what its transform returns. */
  predicate Honest(stage: Stage) {
    stage.outputs == [Produces(stage.transform)]
  }

  /** The declared pipeline (app.py:201-296, langchain_hardwork.py:147-236) is well
      formed: every stage's inputs are available and no output is produced twice. */
  lemma ChainWellFormed()
    ensures WellFormed(Chain, ChainInputs)
  {
    var k1 := ChainInputs + {"mapping"};
    ChainTailWellFormed(k1 + {"extracted_data"});
    OneOutputCons(ExtractStage, [JsonToStringStage, GenerateOutputStage, ParseOutputStage], k1, "extracted_data");
    assert Chain[1..] == [ExtractStage, JsonToStringStage, GenerateOutputStage, ParseOutputStage];
    OneOutputCons(GenerateMappingStage, Chain[1..], ChainInputs, "mapping");
    assert [GenerateMappingStage] + Chain[1..] == Chain;
  }

  /** Each stage of the declared pipeline returns exactly its declared variable, and
      `parsed_output` comes from the last stage and no other. */
  lemma ChainHonest()
    ensures forall i :: 0 <= i < |Chain| ==> Honest(Chain[i])
    ensures ChainOutput in Chain[|Chain| - 1].outputs
    ensures forall i :: 0 <= i < |Chain| - 1 ==> ChainOutput !in Chain[i].outputs
  {
  }

  /** The last three stages, after `mapping` and `extracted_data` are known. */
  lemma ChainTailWellFormed(k2: set<string>)
    requires k2 == {"json_input", "mapping", "extracted_data"}
    ensures WellFormed([JsonToStringStage, GenerateOutputStage, ParseOutputStage], k2)
  {
    var k3 := k2 + {"json_string"};
    var k4 := k3 + {"model_output"};
    OneOutputCons(ParseOutputStage, [], k4, "parsed_output");
    OneOutputCons(GenerateOutputStage, [ParseOutputStage], k3, "model_output");
    OneOutputCons(JsonToStringStage, [GenerateOutputStage, ParseOutputStage], k2, "json_string");
  }

  /** Adding, in front of a well-formed chain, a stage with one new output whose inputs
      are known. */
  lemma OneOutputCons(stage: Stage, rest: seq<Stage>, known: set<string>, out: string)
    requires stage.outputs == [out] && out !in known
    requires forall x :: x in stage.inputs ==> x in known
    requires WellFormed(rest, known + {out})
    ensures WellFormed([stage] + rest, known)
  {
    assert ([stage] + rest)[1..] == rest;
    assert (set x | x in stage.outputs) == {out};
  }

  /** The variables a run of honest stages adds. */
  function OutputsOf(stages: seq<Stage>): set<string>
    decreases |stages|
  {
    if stages == [] then {} else (set x | x in stages[0].outputs) + OutputsOf(stages[1..])
  }

  /** A completed run of honest stages ends with the starting variables and every
      stage's outputs, and nothing else. */
  lemma {:induction false} CompletedKeys(invoke: StageRunner, stages: seq<Stage>, ctx: Context)
    requires KeepsDeclared(invoke)
    requires forall i :: 0 <= i < |stages| ==> Honest(stages[i])
    requires Run(invoke, stages, ctx).Completed?
    ensures Run(invoke, stages, ctx).ctx.Keys == ctx.Keys + OutputsOf(stages)
    decreases |stages|
  {
    if stages != [] {
      var out := invoke(stages[0], ctx).out;
      CompletedKeys(invoke, stages[1..], ctx + out);
    }
  }

  /** In a well-formed chain no stage ever lacks an input: a run is only ever aborted
      by a stage's own failure. */
  lemma {:induction false} NoMissingInput(invoke: StageRunner, stages: seq<Stage>, ctx: Context)
    requires ChecksInputs(invoke) && KeepsDeclared(invoke)
    requires WellFormed(stages, ctx.Keys)
    requires forall i :: 0 <= i < |stages| ==> Honest(stages[i])
    ensures Run(invoke, stages, ctx).Aborted? ==> Run(invoke, stages, ctx).error.Raised?
    decreases |stages|
  {
    if stages != [] {
      assert FirstMissing(stages[0].inputs, ctx.Keys).None?;
      if invoke(stages[0], ctx).Produced? {
        var out := invoke(stages[0], ctx).out;
        assert (ctx + out).Keys == ctx.Keys + set x | x in stages[0].outputs;
        NoMissingInput(invoke, stages[1..], ctx + out);
      }
    }
  }

  /** The abort law: once a stage fails, no later stage is invoked (appending stages
      changes nothing), and the context returned is the one the stages before it
      completed with, without any output of the failing stage. */
  lemma {:induction false} AbortLaw(invoke: StageRunner, stages: seq<Stage>, more: seq<Stage>, ctx: Context)
    requires Run(invoke, stages, ctx).Aborted?
    ensures Run(invoke, stages + more, ctx) == Run(invoke, stages, ctx)
    ensures var r := Run(invoke, stages, ctx);
      Run(invoke, stages[..r.failed], ctx) == Completed(r.ctx) &&
      invoke(stages[r.failed], r.ctx) == Failed(r.error)
    decreases |stages|
  {
    assert (stages + more)[0] == stages[0];
    match invoke(stages[0], ctx)
    case Failed(e) =>
      assert stages[..0] == [];
    case Produced(out) =>
      assert (stages + more)[1..] == stages[1..] + more;
      AbortLaw(invoke, stages[1..], more, ctx + out);
      var r := Run(invoke, stages, ctx);
      assert stages[..r.failed][1..] == stages[1..][..r.failed - 1];
  }

  /** A run that completes visits the stages in order: running a prefix and then the
      rest is running all. */
  lemma {:induction false} RunConcat(invoke: StageRunner, stages: seq<Stage>, more: seq<Stage>, ctx: Context)
    requires Run(invoke, stages, ctx).Completed?
    ensures Run(invoke, stages + more, ctx) ==
      match Run(invoke, more, Run(invoke, stages, ctx).ctx)
      case Completed(c) => Completed(c)
      case Aborted(c, k, e) => Aborted(c, |stages| + k, e)
    decreases |stages|
  {
    if stages == [] {
      assert stages + more == more;
    } else {
      assert (stages + more)[0] == stages[0];
      assert (stages + more)[1..] == stages[1..] + more;
      var out := invoke(stages[0], ctx).out;
      RunConcat(invoke, stages[1..], more, ctx + out);
    }
  }

  /** Running one more stage after a run: nothing if the run was aborted, and otherwise
      that stage on the context the run completed with. */
  lemma RunSnoc(invoke: StageRunner, stages: seq<Stage>, last: Stage, ctx: Context)
    ensures Run(invoke, stages + [last], ctx) ==
      match Run(invoke, stages, ctx)
      case Aborted(c, k, e) => Aborted(c, k, e)
      case Completed(c) =>
        (match invoke(last, c)
         case Failed(e) => Aborted(c, |stages|, e)
         case Produced(out) => Completed(c + out))
  {
    if Run(invoke, stages, ctx).Aborted? {
      AbortLaw(invoke, stages, [last], ctx);
    } else {
      RunConcat(invoke, stages, [last], ctx);
      assert [last][1..] == [];
    }
  }

  // ---------------------------------------------------------------------------------
  // The two routes.

  /** What a route answers. */
  datatype Response<T> = Success(output: T) | Error(error: StageError) | InvalidStep

  /** The output parser's stage reads `model_output` and stores what the parser made of
      it. */
  lemma ParseOutputProduces(variant: Variant, backend: Backend, ctx: Context)
    requires RunStage(variant, backend, ParseOutputStage, ctx).Produced?
    ensures var out := RunStage(variant, backend, ParseOutputStage, ctx).out;
      "model_output" in ctx && out.Keys == {ChainOutput} &&
      backend.parseStructured(ctx["model_output"]) == Ok(out[ChainOutput])
  {
  }

  /** The first stage of a completed run produced, and the run goes on from there. */
  lemma RunCons(invoke: StageRunner, stages: seq<Stage>, ctx: Context)
    requires stages != [] && Run(invoke, stages, ctx).Completed?
    ensures invoke(stages[0], ctx).Produced?
    ensures Run(invoke, stages, ctx) == Run(invoke, stages[1..], ctx + invoke(stages[0], ctx).out)
  {
  }

  /** A stage that produced returned its one variable only. */
  lemma ProducedOne(variant: Variant, backend: Backend, stage: Stage, ctx: Context)
    requires RunStage(variant, backend, stage, ctx).Produced?
    ensures var out := RunStage(variant, backend, stage, ctx).out;
      var p := Produces(stage.transform);
      p in out && out == map[p := out[p]]
  {
    var out := RunStage(variant, backend, stage, ctx).out;
    var p := Produces(stage.transform);
    assert out.Keys == {p};
  }

  /** Merging a one-variable dict into a context stores that variable. */
  lemma MergeOne(ctx: Context, p: string, v: JSON)
    ensures ctx + map[p := v] == ctx[p := v]
  {
  }

  /** The first stage of a completed run of the pipeline's stages produced its one
      variable, and the run goes on from the context holding it. */
  lemma CompletedStep(variant: Variant, backend: Backend, stages: seq<Stage>, ctx: Context)
    requires stages != [] && Run(Invoke(variant, backend), stages, ctx).Completed?
    ensures var o := RunStage(variant, backend, stages[0], ctx);
      var p := Produces(stages[0].transform);
      o.Produced? && p in o.out &&
      Run(Invoke(variant, backend), stages, ctx) == Run(Invoke(variant, backend), stages[1..], ctx[p := o.out[p]])
  {
    RunCons(Invoke(variant, backend), stages, ctx);
    assert Invoke(variant, backend)(stages[0], ctx) == RunStage(variant, backend, stages[0], ctx);
    ProducedOne(variant, backend, stages[0], ctx);
    var p := Produces(stages[0].transform);
    MergeOne(ctx, p, RunStage(variant, backend, stages[0], ctx).out[p]);
  }

  // One lemma per stage: what a completed run stores at that stage.

  lemma MappingStep(variant: Variant, backend: Backend, stages: seq<Stage>, ctx: Context) returns (mapping: JSON)
    requires stages != [] && stages[0] == GenerateMappingStage
    requires Run(Invoke(variant, backend), stages, ctx).Completed?
    ensures "json_input" in ctx
    ensures var reply := backend.proposeMapping(ctx["json_input"]);
      reply.Ok? && Cleaned(variant, reply.value).Ok? &&
      JsonText.Loads(Cleaned(variant, reply.value).value) == Some(mapping)
    ensures Run(Invoke(variant, backend), stages, ctx) == Run(Invoke(variant, backend), stages[1..], ctx["mapping" := mapping])
  {
    CompletedStep(variant, backend, stages, ctx);
    mapping := RunStage(variant, backend, GenerateMappingStage, ctx).out["mapping"];
  }

  lemma ExtractStep(variant: Variant, backend: Backend, stages: seq<Stage>, ctx: Context) returns (extracted: JSON)
    requires stages != [] && stages[0] == ExtractStage
    requires Run(Invoke(variant, backend), stages, ctx).Completed?
    ensures "json_input" in ctx && "mapping" in ctx
    ensures Extract(variant, ctx["json_input"], ctx["mapping"]) == Ok(extracted)
    ensures Run(Invoke(variant, backend), stages, ctx) == Run(Invoke(variant, backend), stages[1..], ctx["extracted_data" := extracted])
  {
    CompletedStep(variant, backend, stages, ctx);
    extracted := RunStage(variant, backend, ExtractStage, ctx).out["extracted_data"];
  }

  lemma JsonToStringStep(variant: Variant, backend: Backend, stages: seq<Stage>, ctx: Context) returns (text: JSON)
    requires stages != [] && stages[0] == JsonToStringStage
    requires Run(Invoke(variant, backend), stages, ctx).Completed?
    ensures "extracted_data" in ctx
    ensures text == JStr(backend.dumps(ctx["extracted_data"]))
    ensures Run(Invoke(variant, backend), stages, ctx) == Run(Invoke(variant, backend), stages[1..], ctx["json_string" := text])
  {
    CompletedStep(variant, backend, stages, ctx);
    text := RunStage(variant, backend, JsonToStringStage, ctx).out["json_string"];
  }

  lemma GenerateOutputStep(variant: Variant, backend: Backend, stages: seq<Stage>, ctx: Context) returns (answer: JSON)
    requires stages != [] && stages[0] == GenerateOutputStage
    requires Run(Invoke(variant, backend), stages, ctx).Completed?
    ensures "json_string" in ctx
    ensures var reply := backend.renderOutput(ctx["json_string"]);
      reply.Ok? && Cleaned(variant, reply.value).Ok? && answer == JStr(Cleaned(variant, reply.value).value)
    ensures Run(Invoke(variant, backend), stages, ctx) == Run(Invoke(variant, backend), stages[1..], ctx["model_output" := answer])
  {
    CompletedStep(variant, backend, stages, ctx);
    answer := RunStage(variant, backend, GenerateOutputStage, ctx).out["model_output"];
  }

  lemma ParseOutputStep(variant: Variant, backend: Backend, stages: seq<Stage>, ctx: Context) returns (parsed: JSON)
    requires stages != [] && stages[0] == ParseOutputStage
    requires Run(Invoke(variant, backend), stages, ctx).Completed?
    ensures "model_output" in ctx
    ensures backend.parseStructured(ctx["model_output"]) == Ok(parsed)
    ensures Run(Invoke(variant, backend), stages, ctx) == Run(Invoke(variant, backend), stages[1..], ctx[ChainOutput := parsed])
  {
    CompletedStep(variant, backend, stages, ctx);
    parsed := RunStage(variant, backend, ParseOutputStage, ctx).out[ChainOutput];
  }

  /** The chain's six variables are six different names (their lengths differ). */
  lemma VariablesDistinct()
    ensures "json_input" != "mapping" && "json_input" != "extracted_data" && "json_input" != "json_string" && "json_input" != "model_output" && "json_input" != ChainOutput
    ensures "mapping" != "extracted_data" && "mapping" != "json_string" && "mapping" != "model_output" && "mapping" != ChainOutput
    ensures "extracted_data" != "json_string" && "extracted_data" != "model_output" && "extracted_data" != ChainOutput
    ensures "json_string" != "model_output" && "json_string" != ChainOutput
    ensures "model_output" != ChainOutput
  {
    assert |"json_input"| == 10 && |"mapping"| == 7 && |"extracted_data"| == 14;
    assert |"json_string"| == 11 && |"model_output"| == 12 && |ChainOutput| == 13;
  }

  /** A completed run of the chain ends holding `parsed_output`, which is what the
      output parser made of the `model_output` it also holds. */
  lemma ChainEnd(variant: Variant, backend: Backend, ctx: Context)
    requires Run(Invoke(variant, backend), Chain, ctx).Completed?
    ensures var c := Run(Invoke(variant, backend), Chain, ctx).ctx;
      ChainOutput in c && "model_output" in c &&
      backend.parseStructured(c["model_output"]) == Ok(c[ChainOutput])
  {
    var mapping, extracted, text, answer, parsed := ChainRun(variant, backend, ctx);
    ChainContext(ctx, mapping, extracted, text, answer, parsed);
  }

  /** The context a completed run of the chain ends with: the one it started from, with
      the five stage variables stored in turn. */
  function FinalContext(ctx: Context, mapping: JSON, extracted: JSON, text: JSON, answer: JSON, parsed: JSON): Context {
    ctx["mapping" := mapping]["extracted_data" := extracted]["json_string" := text]
       ["model_output" := answer][ChainOutput := parsed]
  }

  lemma ChainContext(ctx: Context, mapping: JSON, extracted: JSON, text: JSON, answer: JSON, parsed: JSON)
    ensures var c := FinalContext(ctx, mapping, extracted, text, answer, parsed);
      c.Keys == ctx.Keys + {"mapping", "extracted_data", "json_string", "model_output", ChainOutput} &&
      c["mapping"] == mapping && c["extracted_data"] == extracted && c["json_string"] == text &&
      c["model_output"] == answer && c[ChainOutput] == parsed &&
      ("json_input" in ctx ==> c["json_input"] == ctx["json_input"])
  {
    VariablesDistinct();
  }

  /** A completed run of the chain stores, in turn, the values the five stage lemmas name. */
  lemma ChainRun(variant: Variant, backend: Backend, ctx: Context)
    returns (mapping: JSON, extracted: JSON, text: JSON, answer: JSON, parsed: JSON)
    requires Run(Invoke(variant, backend), Chain, ctx).Completed?
    ensures "json_input" in ctx
    ensures var reply := backend.proposeMapping(ctx["json_input"]);
      reply.Ok? && Cleaned(variant, reply.value).Ok? &&
      JsonText.Loads(Cleaned(variant, reply.value).value) == Some(mapping)
    ensures Extract(variant, ctx["json_input"], mapping) == Ok(extracted)
    ensures text == JStr(backend.dumps(extracted))
    ensures var reply := backend.renderOutput(text);
      reply.Ok? && Cleaned(variant, reply.value).Ok? && answer == JStr(Cleaned(variant, reply.value).value)
    ensures backend.parseStructured(answer) == Ok(parsed)
    ensures Run(Invoke(variant, backend), Chain, ctx) ==
      Completed(FinalContext(ctx, mapping, extracted, text, answer, parsed))
  {
    VariablesDistinct();
    var s1 := [ExtractStage, JsonToStringStage, GenerateOutputStage, ParseOutputStage];
    var s2 := [JsonToStringStage, GenerateOutputStage, ParseOutputStage];
    var s3 := [GenerateOutputStage, ParseOutputStage];
    var s4 := [ParseOutputStage];
    assert Chain[1..] == s1 && s1[1..] == s2 && s2[1..] == s3 && s3[1..] == s4 && s4[1..] == [];
    mapping := MappingStep(variant, backend, Chain, ctx);
    var c1 := ctx["mapping" := mapping];
    extracted := ExtractStep(variant, backend, s1, c1);
    var c2 := c1["extracted_data" := extracted];
    text := JsonToStringStep(variant, backend, s2, c2);
    var c3 := c2["json_string" := text];
    answer := GenerateOutputStep(variant, backend, s3, c3);
    var c4 := c3["model_output" := answer];
    parsed := ParseOutputStep(variant, backend, s4, c4);
    var c5 := c4[ChainOutput := parsed];
    assert Run(Invoke(variant, backend), s4[1..], c5) == Completed(c5);
  }

  /** What a completed run of the chain on a document holds: the document, the mapping
      read from the model's (cleaned) reply, `extract_data` of the document and that
      mapping, its serialisation, the model's (cleaned) answer to it, and what the output
      parser made of that answer. */
  lemma ChainValues(variant: Variant, backend: Backend, document: JSON)
    requires Run(Invoke(variant, backend), Chain, map["json_input" := document]).Completed?
    ensures var c := Run(Invoke(variant, backend), Chain, map["json_input" := document]).ctx;
      c.Keys == {"json_input", "mapping", "extracted_data", "json_string", "model_output", ChainOutput} &&
      c["json_input"] == document
    ensures var c := Run(Invoke(variant, backend), Chain, map["json_input" := document]).ctx;
      var reply := backend.proposeMapping(document);
      reply.Ok? && Cleaned(variant, reply.value).Ok? &&
      JsonText.Loads(Cleaned(variant, reply.value).value) == Some(c["mapping"])
    ensures var c := Run(Invoke(variant, backend), Chain, map["json_input" := document]).ctx;
      Extract(variant, document, c["mapping"]) == Ok(c["extracted_data"]) &&
      c["json_string"] == JStr(backend.dumps(c["extracted_data"]))
    ensures var c := Run(Invoke(variant, backend), Chain, map["json_input" := document]).ctx;
      var answer := backend.renderOutput(c["json_string"]);
      answer.Ok? && Cleaned(variant, answer.value).Ok? &&
      c["model_output"] == JStr(Cleaned(variant, answer.value).value) &&
      backend.parseStructured(c["model_output"]) == Ok(c[ChainOutput])
  {
    var ctx := map["json_input" := document];
    var mapping, extracted, text, answer, parsed := ChainRun(variant, backend, ctx);
    ChainContext(ctx, mapping, extracted, text, answer, parsed);
  }

  /** `start_process` (app.py:305-317): run the whole chain on the sample document; any
      exception becomes an error answer. */
  function StartProcess(backend: Backend, document: JSON): (r: Response<JSON>)
    ensures r.Success? <==> Run(Invoke(App, backend), Chain, map["json_input" := document]).Completed?
    ensures r.Success? ==>
      var c := Run(Invoke(App, backend), Chain, map["json_input" := document]).ctx;
      "model_output" in c && backend.parseStructured(c["model_output"]) == Ok(r.output)
    ensures r.Error? ==> Run(Invoke(App, backend), Chain, map["json_input" := document]).error == r.error
    ensures !r.InvalidStep?
  {
    match Run(Invoke(App, backend), Chain, map["json_input" := document])
    case Completed(c) =>
      ChainEnd(App, backend, map["json_input" := document]);
      Success(c[ChainOutput])
    case Aborted(_, _, e) => Error(e)
  }

  /** `start_process` never reports a missing variable: an error answer always comes
      from an exception raised inside a stage. */
  lemma StartProcessNeverMissesInput(backend: Backend, document: JSON)
    ensures StartProcess(backend, document).Error? ==> StartProcess(backend, document).error.Raised?
  {
    var ctx := map["json_input" := document];
    ChainWellFormed();
    ChainHonest();
    InvokeBehaves(App, backend);
    assert ctx.Keys == ChainInputs;
    NoMissingInput(Invoke(App, backend), Chain, ctx);
  }

  /** `request.json.get("step")`; only a dict has `.get`. */
  function StepName(request: JSON): Result<JSON> {
    Get(request, JStr("step"), JNull)
  }

  /** `run_step` as written (app.py:320-342). `result` is assigned in the function,
      so it is a local that every call starts without: each branch other than
      `generate_mapping` reads it before assignment and raises UnboundLocalError, which
      the `except` turns into an error answer. Reading the step outside the `try`
      raises out of the route. */
  function RunStep(backend: Backend, document: JSON, request: JSON): (r: Result<Response<Context>>)
    ensures !request.JObj? ==> r == Crash(AttributeError)
  {
    var step :- StepName(request);
    if step == JStr("generate_mapping") then
      var ctx := map["json_input" := document];
      match RunStage(App, backend, GenerateMappingStage, ctx)
      case Produced(out) => Ok(Success(ctx + out))
      case Failed(e) => Ok(Error(e))
    else if step in [JStr("extract_data"), JStr("json_to_string"), JStr("generate_output"), JStr("parse_output")] then
      Ok(Error(Raised(UnboundLocalError)))
    else Ok(InvalidStep)
  }

  /** Only the first stage can ever be run on its own: every other stage name gives an
      error answer, whatever the backend does. */
  lemma RunStepOnlyFirstWorks(backend: Backend, document: JSON, request: JSON, name: string)
    requires request.JObj? && FindOr(request.entries, JStr("step"), JNull) == JStr(name)
    requires name in ["extract_data", "json_to_string", "generate_output", "parse_output"]
    ensures RunStep(backend, document, request) == Ok(Error(Raised(UnboundLocalError)))
  {
  }

  /** A request for the first stage is answered as the corrected route answers it for
      the sample document alone. */
  lemma RunStepFirstAgrees(backend: Backend, document: JSON, request: JSON)
    requires request.JObj? && FindOr(request.entries, JStr("step"), JNull) == JStr("generate_mapping")
    ensures RunStep(backend, document, request) == Ok(RunStepWith(Invoke(App, backend), "generate_mapping", map["json_input" := document]))
  {
  }

  /** Any other step value, including a missing one, is answered as an invalid step. */
  lemma RunStepUnknown(backend: Backend, document: JSON, request: JSON)
    requires request.JObj?
    requires var step := FindOr(request.entries, JStr("step"), JNull);
      forall s :: s in Chain ==> step != JStr(s.name)
    ensures RunStep(backend, document, request) == Ok(InvalidStep)
  {
    assert GenerateMappingStage in Chain && ExtractStage in Chain && JsonToStringStage in Chain;
    assert GenerateOutputStage in Chain && ParseOutputStage in Chain;
  }

  /** The stage of the chain with the given name. */
  function StageNamed(name: string): (r: Option<Stage>)
    ensures r.Some? ==> r.value in Chain && r.value.name == name && Honest(r.value)
    ensures r.None? ==> forall s :: s in Chain ==> s.name != name
  {
    if name == "generate_mapping" then Some(GenerateMappingStage)
    else if name == "extract_data" then Some(ExtractStage)
    else if name == "json_to_string" then Some(JsonToStringStage)
    else if name == "generate_output" then Some(GenerateOutputStage)
    else if name == "parse_output" then Some(ParseOutputStage)
    else None
  }

  /** `run_step` corrected: the caller supplies the context the stage runs against,
      and gets back that context with the stage's variables merged in. */
  function RunStepWith(invoke: StageRunner, name: string, ctx: Context): (r: Response<Context>)
    requires KeepsDeclared(invoke)
    ensures r.InvalidStep? <==> StageNamed(name).None?
    ensures r.Success? ==>
      var stage := StageNamed(name).value;
      r.output.Keys == ctx.Keys + {Produces(stage.transform)} &&
      (forall k :: k in ctx && k != Produces(stage.transform) ==> r.output[k] == ctx[k])
  {
    match StageNamed(name)
    case None => InvalidStep
    case Some(stage) =>
      match invoke(stage, ctx)
      case Produced(out) =>
        assert (set x | x in stage.outputs) == {Produces(stage.transform)};
        Success(ctx + out)
      case Failed(e) => Error(e)
  }

  /** A caller that runs the named stages one request at a time, passing each answer's
      context to the next request and stopping at the first error. */
  function RunByName(invoke: StageRunner, names: seq<string>, ctx: Context): Outcome
    requires KeepsDeclared(invoke)
    decreases |names|
  {
    if names == [] then Completed(ctx)
    else
      match RunStepWith(invoke, names[0], ctx)
      case Success(c) =>
        (match RunByName(invoke, names[1..], c)
         case Completed(c') => Completed(c')
         case Aborted(c', k, e) => Aborted(c', k + 1, e))
      case Error(e) => Aborted(ctx, 0, e)
      case InvalidStep => Aborted(ctx, 0, Raised(ValueError))
  }

  function StageNames(stages: seq<Stage>): (ns: seq<string>)
    ensures |ns| == |stages| && forall i :: 0 <= i < |stages| ==> ns[i] == stages[i].name
  {
    seq(|stages|, i requires 0 <= i < |stages| => stages[i].name)
  }

  /** With the context passed explicitly, running the stages one by one by name is
      running the whole chain. */
  lemma {:induction false} StepwiseIsRun(invoke: StageRunner, stages: seq<Stage>, ctx: Context)
    requires KeepsDeclared(invoke)
    requires forall s :: s in stages ==> StageNamed(s.name) == Some(s)
    ensures RunByName(invoke, StageNames(stages), ctx) == Run(invoke, stages, ctx)
    decreases |stages|
  {
    if stages != [] {
      assert stages[0] in stages;
      assert StageNames(stages)[1..] == StageNames(stages[1..]);
      assert forall s :: s in stages[1..] ==> s in stages;
      match invoke(stages[0], ctx)
      case Failed(e) =>
      case Produced(out) =>
        StepwiseIsRun(invoke, stages[1..], ctx + out);
    }
  }

  lemma StepwiseChain(variant: Variant, backend: Backend, ctx: Context)
    ensures KeepsDeclared(Invoke(variant, backend))
    ensures RunByName(Invoke(variant, backend), StageNames(Chain), ctx) == Run(Invoke(variant, backend), Chain, ctx)
  {
    InvokeBehaves(variant, backend);
    StepwiseIsRun(Invoke(variant, backend), Chain, ctx);
  }
}
