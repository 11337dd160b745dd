# langchain-studies: the JSON-reshaping core, modelled in Dafny

The repository turns a source JSON document into a target document. It runs a five-stage
LangChain pipeline:

1. a language model proposes a field **mapping**;
2. `extract_data` applies the mapping to the document;
3. the extracted document is serialised;
4. the model renders a final answer from it;
5. a structured output parser reads that answer.

This project models the parts of that pipeline that are logic of the repository's own:

- **`extract_data`**, the mapping interpreter, in both of its variants. Modules
  `AppExtract` and `HardworkExtract`, with their shared parts in `Rules`. Rules are read
  as follows:
  - A mapping is an ordered dict from output name to rule.
  - A dict rule is a scalar rule: a `path` and an optional `default`.
  - A list rule is a list-of-records rule: only its first element is read, and that
    element's non-`path` keys rename source keys.
  - Any other rule is skipped.
- **The broadcasting variant** (app.py). A path step taken from a list is applied to
  every element. A scalar rule then collapses a non-empty list to its first element.
- **The non-broadcasting variant** (langchain_hardwork.py). A step from a non-dict gives
  `None` in a scalar rule, and `[]` in a list rule.
  - structured_parser_langchain.py holds a textual copy of this function (lines 52-97
    against langchain_hardwork.py:45-90). The one module `HardworkExtract` models both.
- **`Compare`** states where the two variants agree, and names the two inputs on which
  they part.
- **`clean_model_output`** (module `Sanitize`). It keeps the span of a model's reply from
  the first `{` to the last `}`, and raises ValueError unless `json.loads` accepts that
  span.
- **`json.loads`** (module `JsonText`), as Python's scanner reads a `str`.
- **The pipeline** (module `Pipeline`):
  - each `TransformChain` as a record of its name, declared variables and transform;
  - the `SequentialChain` as a runner over a context of named variables;
  - the `start_process` route;
  - the `run_step` route, both as written and corrected.
- **JSON values and their Python operations** (module `Json`): values are dicts kept as
  ordered entry lists, so `dict.get`, assignment and iteration keep Python's semantics.
- **The sample scenario** (module `Scenario`): the fixed document and mapping of the
  scripts, with the output both variants give for them.

## How the Python semantics are modelled

- **Exceptions.** Every exception the source can raise is an outcome,
  `Result<T> = Ok(value) | Crash(error)`, with `error` one of AttributeError, TypeError,
  IndexError, KeyError, ValueError and UnboundLocalError. Examples:
  - `.get` on a non-dict raises AttributeError;
  - `.get` with an unhashable key raises TypeError, even on an empty dict;
  - `for item in None` raises TypeError;
  - `value[0]` on an empty rule list raises IndexError.
- **Iteration.** `for x in v` iterates a list's elements, a string's one-character
  strings and a dict's keys. Anything else raises TypeError.
- **Dict assignment.** It replaces the value of a present key in place, or appends a new
  entry, as a Python dict keeps insertion order.
- **The procedures as written.** The loops of `extract_data` are methods with `while`
  loops that reassign the current value and fill the output. Each is proved equal to the
  recursive function that specifies it. The properties are lemmas about those functions.
- **Foreign calls are parameters.** The language model's two replies, the structured
  output parser and `json.dumps` are the fields of a `Backend`. Each reply and the parser
  may fail.
- **Behaviour of the code that a reader may not expect, and that the model follows:**
  - A missing key on a path gives `{}`, not the rule's default. The default replaces only
    `None`, and in the non-broadcasting variant also a step from a non-dict.
  - Path absence is not always tolerated. The extractor raises in the cases listed under
    Exceptions above.
  - `clean_model_output` returns the trimmed text, not a parsed value. The caller parses
    it again.
  - `run_step` cannot carry one step's result to the next (see Findings).

## Model

| member | source | states |
|---|---|---|
| Json.Get | app.py:81 | `obj.get(key, dflt)` succeeds exactly on a dict with a hashable key. Otherwise it raises AttributeError for a non-dict, or TypeError for an unhashable key. On success it gives the value held under the key, or `dflt`. |
| Json.Put | app.py:92 | `output[key] = v` keeps the key order when the key is present and appends `(key, v)` when it is absent. Afterwards the key holds `v`, and every other key holds what it held before. |
| Json.PutUnique | app.py:119 | Assigning into a dict with distinct keys keeps the keys distinct. |
| Json.Iterate | app.py:114 | `for x in v`: a list gives its elements; a string gives its one-character strings, in order; a dict gives its keys, in order. Anything else raises TypeError. |
| Json.Lookup | app.py:81 | A key is found exactly when it is one of the dict's keys. The value found is stored under that key, and in a dict with distinct keys it is the value of the one entry with that key. |
| AppExtract.Extract | app.py:67 | A mapping that is not a dict raises AttributeError at `mapping.items()`. |
| AppExtract.RuleOutput | app.py:68-94 | A mapping value is acted on exactly when it is a dict or a list. |
| AppExtract.WalkPath | app.py:75-85 | The `for step in path` loop, with its list broadcast and its `break` on None, computes the walk `Walk`. |
| AppExtract.ApplyScalarRule | app.py:68-92 | The scalar-rule branch as written computes `ScalarRule`. |
| AppExtract.ApplyListRule | app.py:94-120 | The list-rule branch as written, with its record loops, computes `ListRule`. |
| AppExtract.ExtractData | app.py:61-122 | `extract_data` as written, filling `output` in mapping order, computes `Extract`. |
| AppExtract.BroadcastStep | app.py:76-78 | A step from a list succeeds exactly when every element is a dict (and, for a non-empty list, the key is hashable). It then gives a list of the same length whose element i is element i's value under the key, or `{}`. |
| AppExtract.DictStep | app.py:81 | A step from a dict gives the value under the key, or `{}` when the key is missing. |
| AppExtract.WalkConcat | app.py:75-85 | Walking `a + b` walks `b` from where `a` ended, unless `a` stopped on None; then the rest is skipped. |
| AppExtract.NullSkipsRest | app.py:84-85 | Once the walk gives None, no later step is taken, even one that would raise. |
| AppExtract.WalkResolved | app.py:75-85 | A walk along keys that are all present reaches the value they lead to. |
| AppExtract.ResolvedScalar | app.py:75-92 | On a path through present keys, a scalar rule stores the value reached. A non-empty list becomes its first element; an empty list stays `[]`; None becomes the default. |
| AppExtract.EmptyObjSticks | app.py:81 | From `{}`, every hashable step gives `{}` again. |
| AppExtract.MissingKeyWalk | app.py:75-85 | A walk whose path meets a missing key, at any position, ends on `{}` when the steps after that key are hashable. |
| AppExtract.MissingKeyGivesEmptyObject | app.py:81-92 | A path that meets a missing key, at any position, with hashable steps after it, stores `{}`, not the default. |
| AppExtract.NullGivesDefault | app.py:84-92 | A walk that reaches None stores the default, whatever steps remain. |
| AppExtract.EmptyPathSettlesData | app.py:70-92 | A rule with an empty or absent `path` stores the document itself, with the first-element collapse and the default applied. |
| AppExtract.ListRuleRecords | app.py:113-120 | A list rule whose walk ends on a list succeeds exactly when every element's record can be read. It then gives one record per element, in order, each holding the rule's non-`path` keys in declaration order bound to `item.get(source)` or null. |
| AppExtract.ListRuleMissingKey | app.py:106-114 | A list rule whose path meets a missing key, at any position, with hashable steps after it, stores `[]`. |
| AppExtract.ListRuleNullCrashes | app.py:114 | A list rule whose path leads to None raises TypeError. |
| AppExtract.FirstRuleOnly | app.py:96-116 | Only the first element of a rule list is read. |
| AppExtract.ExtractShape | app.py:65-122 | For a mapping with distinct keys, `extract_data` succeeds exactly when every dict or list rule succeeds. The output keys are then exactly the mapping keys whose rule is a dict or a list, in mapping order, each bound to its rule's result. |
| HardworkExtract.Extract | langchain_hardwork.py:55 | A mapping that is not a dict raises AttributeError. |
| HardworkExtract.RuleOutput | langchain_hardwork.py:56-71 | A mapping value is acted on exactly when it is a dict or a list. |
| HardworkExtract.WalkPath | langchain_hardwork.py:63-66 | The scalar rule's loop with its `break` computes `Walk`. |
| HardworkExtract.ListWalkPath | langchain_hardwork.py:77-78 | The list rule's loop, which has no `break`, computes `ListWalk`. |
| HardworkExtract.ApplyScalarRule | langchain_hardwork.py:56-69 | The scalar-rule branch as written computes `ScalarRule`. |
| HardworkExtract.ApplyListRule | langchain_hardwork.py:71-88 | The list-rule branch as written computes `ListRule`. |
| HardworkExtract.ExtractData | langchain_hardwork.py:45-90 | `extract_data` as written computes `Extract`. |
| HardworkExtract.WalkConcat | langchain_hardwork.py:63-66 | Walking `a + b` walks `b` from where `a` ended, unless `a` stopped on None. |
| HardworkExtract.ListWalkConcat | langchain_hardwork.py:77-78 | The list walk over `a + b` is the walk over `b` from where `a` ended. |
| HardworkExtract.WalkResolved | langchain_hardwork.py:63-66 | A scalar walk along present keys reaches the value they lead to. |
| HardworkExtract.ListWalkResolved | langchain_hardwork.py:77-78 | A list walk along present keys reaches the value they lead to. |
| HardworkExtract.EmptyListSticks | langchain_hardwork.py:78 | Once the list walk is at `[]`, it stays there whatever the remaining steps. |
| HardworkExtract.NonDictGivesDefault | langchain_hardwork.py:63-69 | A step from a list, scalar or null gives None, stops the walk, and stores the default. |
| HardworkExtract.ResolvedScalar | langchain_hardwork.py:63-69 | On a path through present keys, the value reached is stored as it is. A list is kept whole. Only None becomes the default. |
| HardworkExtract.EmptyObjSticks | langchain_hardwork.py:64 | From `{}`, every hashable step gives `{}` again. |
| HardworkExtract.MissingKeyGivesEmptyObject | langchain_hardwork.py:64-69 | A path that meets a missing key, at any position, with hashable steps after it, stores `{}`, not the default. |
| HardworkExtract.EmptyPathReturnsData | structured_parser_langchain.py:65-76 | A rule with an empty or absent `path` stores the whole document, or the default when the document is null. |
| HardworkExtract.WalkNeverFails | structured_parser_langchain.py:70-73 | A walk whose steps are all hashable never raises. |
| HardworkExtract.ScalarNeverFails | structured_parser_langchain.py:65-76 | A scalar rule whose path is a list of strings, a string or a dict never raises. |
| HardworkExtract.ListRuleMissingOrNonDict | langchain_hardwork.py:77-82 | A list rule whose path meets a missing key or a non-dict stores `[]`. |
| HardworkExtract.ListRuleNullCrashes | langchain_hardwork.py:82 | A list rule whose path leads to None raises TypeError. |
| HardworkExtract.ListRuleRecords | langchain_hardwork.py:81-88 | A list rule whose walk ends on a list gives one record per element, in order. Each record holds the rule's non-`path` keys in declaration order. It succeeds exactly when every record can be read. |
| HardworkExtract.FirstRuleOnly | structured_parser_langchain.py:80-91 | Only the first element of a rule list is read. |
| HardworkExtract.ExtractShape | langchain_hardwork.py:53-90 | For a mapping with distinct keys: it succeeds iff every acted-on rule does. The output keys are exactly the dict- or list-ruled mapping keys, in mapping order, each bound to its rule's result. |
| Rules.BuildRecord | app.py:115-119 | The loop building one record as written computes `RecordFrom`. |
| Rules.BuildRecords | app.py:113-120 | The loop appending the records as written computes `Records`. |
| Rules.RecordFromMeetsReference | app.py:115-119 | Building a record succeeds exactly when every renaming pair reads a dict item with a hashable key. It appends the reference record: one entry per pair, in order. |
| Rules.RecordsMeetReference | app.py:113-120 | Building the records succeeds exactly when every item's record does. It then yields the reference records, one per item, in order. |
| Rules.RecordsShape | app.py:113-120 | The records are one per item, in item order, each keyed by the rule's non-`path` keys in declaration order. |
| Rules.ExpectedRecord | app.py:116-119 | The reference record's keys are the rule's renaming keys. |
| Rules.AssembleSucceeds | app.py:67-120 | The loop over `mapping.items()` succeeds exactly when every rule it acts on succeeds. |
| Rules.AssembleMeetsReference | app.py:67-120 | With distinct keys not yet in the output, the loop yields the output built so far followed by one entry per acted-on rule. |
| Rules.AssembleShape | app.py:65-122 | The output is the reference output, and its keys are the acted-on mapping keys, in mapping order. |
| Rules.ExpectedOutputKeys | app.py:67-94 | The reference output has one entry per acted-on mapping entry, under the same key. |
| Rules.ActedOnFilter | app.py:67-94 | The entries acted on are exactly the mapping entries whose rule is recognised. |
| Rules.AssembleCongruence | app.py:67-120 | Two rule interpreters that agree on every rule of a mapping build the same output. |
| Compare.ScalarVariantsAgree | langchain_hardwork.py:56-69 | On a path through present keys that does not end on a non-empty list, both variants store the same value. |
| Compare.ListVariantsAgree | langchain_hardwork.py:71-88 | On a list rule whose path goes through present keys, both variants give the same records. |
| Compare.VariantsAgree | langchain_hardwork.py:45-90 | A mapping of such rules is extracted alike by both variants. |
| Compare.CollapseDiffers | app.py:88-89 | On a path ending on a non-empty list, app.py stores the first element and langchain_hardwork.py the whole list. |
| Compare.BroadcastDiffers | app.py:76-78 | On a path that continues past a list of dicts, app.py broadcasts the step; langchain_hardwork.py stores the default. |
| Compare.BroadcastTakesFirst | app.py:76-92 | On a path that continues past a non-empty list of dicts, app.py takes the step in every element and stores the first element's value. |
| JsonText.Loads | app.py:138 | An empty text is not JSON. |
| JsonText.ParseObject | app.py:196 | A text parsed from `{` is an object. |
| JsonText.BraceGivesObject | app.py:193-196 | A document starting with `{` is, if JSON at all, an object. |
| JsonText.BlankIsInvalid | app.py:137-143 | A text of whitespace only is not JSON. |
| JsonText.DigitStartsNumber | app.py:138 | A value that starts with a decimal digit is scanned as a number, never as a literal. |
| JsonText.NumberOfDigits | app.py:138 | On a text of digits the number scanner takes a leading zero on its own, and otherwise takes every digit and the integer they spell. |
| JsonText.LoadsValue | app.py:138 | On a text that starts with a value's first character, `json.loads` is that value when only whitespace follows it, and fails otherwise. |
| JsonText.LoadsWholeNumber | app.py:138 | A digit-led number that runs to the end of the text is the result of `json.loads`. |
| JsonText.LoadsLeadingZero | app.py:138 | A zero followed by another digit is refused. |
| JsonText.DigitsLoad | app.py:138 | A text of decimal digits is read as the integer it spells; a leading zero followed by more digits is refused. |
| Sanitize.StripPrefix | app.py:133 | The result is a suffix of the input holding no dropped `{`, and it is empty or begins with `{`. |
| Sanitize.StripSuffix | app.py:134 | The result is a prefix of the input holding no dropped `}`, and it is empty or ends with `}`. |
| Sanitize.CleanModelOutput | app.py:126-143 | It returns the trimmed text exactly when `json.loads` accepts it, and raises ValueError otherwise. |
| Sanitize.TrimSpan | app.py:133-134 | The trimmed text is the span from the first `{` to the last `}` after it, both included. |
| Sanitize.TrimEmptyIff | app.py:133-134 | The trimmed text is empty exactly when no `{` is followed by a `}`. |
| Sanitize.TrimIdempotent | app.py:133-134 | Trimming a trimmed text changes nothing. |
| Sanitize.NoBraceFails | app.py:133-143 | A reply with no `{` trims to nothing and raises ValueError. |
| Sanitize.CleanGivesObject | app.py:193-196 | A cleaned reply is JSON, and an object, so the caller's `json.loads` succeeds. |
| Sanitize.CleanIdempotent | app.py:126-143 | Cleaning a cleaned reply gives it back unchanged. |
| Sanitize.TrimSurrounded | app.py:133-134 | Commentary with no `{` before a braced document, and with no `}` after it, is cut off. |
| Sanitize.CleanExample | app.py:126-143 | A reply with chatter around `{"a":1}` is cleaned to that object's text. |
| Pipeline.Var | app.py:212 | `inputs[name]` gives the variable when present, and raises KeyError otherwise. |
| Pipeline.LoadsOrRaise | app.py:196 | `json.loads` succeeds exactly on valid JSON and raises ValueError otherwise. |
| Pipeline.ApplyTransform | app.py:147-283 | Each stage function returns a fresh dict whose only key is its declared output. For each stage it states exactly when the stage succeeds and what it stores. `mapping` is the cleaned mapping reply read as JSON. `extracted_data` is `extract_data(json_input, mapping)`. `json_string` is `json.dumps(extracted_data)`. `model_output` is the cleaned output reply. `parsed_output` is the parser's reading of `model_output`. |
| Pipeline.AppMappingIsObject | app.py:193-198 | app.py's mapping stage only ever stores a dict. |
| Pipeline.HardworkMappingAsReplied | langchain_hardwork.py:139-144 | The copy stores whatever JSON the reply holds. A mapping that is not a dict makes extraction raise AttributeError. |
| Pipeline.RunStage | app.py:201-205 | A stage fails on a missing input exactly when a declared input is absent. With every input present, a transform that raises fails the stage with that exception. A transform that returns every declared output produces what it returned. One that leaves a declared output out fails with ValueError. |
| Pipeline.FirstMissing | app.py:202 | The missing variable found is a declared input that is absent. None is found exactly when every input is present. |
| Pipeline.Run | app.py:286-296 | An aborted run names the index of a stage of the chain. |
| Pipeline.InvokeBehaves | app.py:201-283 | The pipeline's stage invocation reports a missing input only when one is missing, and produces exactly the declared outputs. |
| Pipeline.ChainWellFormed | app.py:286-296 | Every stage's inputs lie in `json_input` and the outputs of earlier stages, and no variable is produced twice. |
| Pipeline.ChainHonest | app.py:286-296 | Each stage declares exactly the variable its transform returns. `parsed_output` comes from the last stage and from no other. |
| Pipeline.CompletedKeys | app.py:286-296 | A completed run ends holding its starting variables and every stage's outputs, and nothing else. |
| Pipeline.NoMissingInput | app.py:286-296 | In a well-formed chain, a run is only ever aborted by a stage's own failure, never by a missing input. |
| Pipeline.AbortLaw | app.py:286-296 | Once a stage fails, no later stage runs. The context returned is the one the earlier stages completed with, without that stage's outputs. |
| Pipeline.RunConcat | app.py:286-296 | A completed run of a prefix, then the rest, is the run of the whole. |
| Pipeline.RunSnoc | app.py:286-296 | Running one more stage after a run does nothing after an abort, and otherwise runs that stage on the final context. |
| Pipeline.ParseOutputProduces | app.py:271-276 | The parse stage stores what the output parser made of `model_output`. |
| Pipeline.CompletedStep | app.py:286-296 | In a completed run, the first stage produced its one declared variable, and the run goes on from the context with that variable stored. |
| Pipeline.MappingStep | app.py:147-206 | In a completed run, the mapping stage found `json_input`, got a reply, cleaned it, read it as JSON, and stored that value as `mapping`. |
| Pipeline.ExtractStep | app.py:208-221 | In a completed run, the extraction stage stored `extract_data(json_input, mapping)` as `extracted_data`. |
| Pipeline.JsonToStringStep | app.py:223-236 | In a completed run, the serialisation stage stored `json.dumps(extracted_data)` as `json_string`. |
| Pipeline.GenerateOutputStep | app.py:246-269 | In a completed run, the output stage got a reply to `json_string`, cleaned it, and stored it as `model_output`. |
| Pipeline.ParseOutputStep | app.py:271-284 | In a completed run, the parse stage stored the parser's reading of `model_output` as `parsed_output`. |
| Pipeline.ChainEnd | app.py:286-296 | A completed run ends holding `parsed_output`, which is the parser's reading of the `model_output` it also holds. |
| Pipeline.ChainRun | app.py:201-296 | A completed run of the chain stores, in turn, the value each stage computes from the variables before it. It ends with the starting context plus those five variables. |
| Pipeline.ChainValues | app.py:201-317 | A completed run on a document holds exactly the six chain variables. The document is kept. The mapping is the cleaned model reply, read as JSON. `extracted_data` is `extract_data` of the document and that mapping. `json_string` is its serialisation. `model_output` is the cleaned reply to it. `parsed_output` is the parser's reading of that reply. |
| Pipeline.StartProcess | app.py:304-317 | The answer is a success exactly when the chain completes on the sample document. It then holds `parsed_output`; otherwise it holds the error that aborted the run. |
| Pipeline.StartProcessNeverMissesInput | app.py:304-317 | An error answer always comes from an exception inside a stage. |
| Pipeline.RunStep | app.py:320-342 | A request body that is not a dict raises AttributeError out of the route. |
| Pipeline.RunStepOnlyFirstWorks | app.py:328-342 | Every step name other than `generate_mapping` gives an UnboundLocalError answer, whatever the backend does. |
| Pipeline.RunStepFirstAgrees | app.py:326-339 | A `generate_mapping` request is answered as the corrected route answers it on the sample document. |
| Pipeline.RunStepUnknown | app.py:336-337 | Any other step value, a missing one included, is answered as an invalid step. |
| Pipeline.StageNamed | app.py:326-335 | A stage name is found exactly when it names a stage of the chain. |
| Pipeline.RunStepWith | app.py:320-342 | The corrected route: an invalid step exactly for an unknown name. A success holds the caller's context with the stage's one variable added, and every other variable unchanged. |
| Pipeline.StepwiseIsRun | app.py:320-342 | Running the stages one request at a time, passing each answer's context on, is running the chain. |
| Pipeline.StepwiseChain | app.py:286-342 | The corrected route, used stage by stage over the declared chain, is the `SequentialChain` run. |
| Scenario.HardExtractsSample | structured_parser_langchain.py:101-116 | The fixed mapping applied to the sample document gives the user's id, name and city and the two order records. |
| Scenario.AppExtractsSample | app.py:24-47 | The broadcasting variant gives the same output on the sample document and the example mapping of its prompt. |
| Scenario.HardExtractsShort | langchain_hardwork.py:8-31 | On a variant of this sample document made for the model (its location is cut to a city; the source has no such document), a mapping of two of the example rules gives the user's id and the two records. |
| Scenario.AppExtractsShort | app.py:24-47 | The broadcasting variant gives the same output on that made-up variant of the sample document. |
| Scenario.SampleRulesAgree | app.py:160-170 | Every rule of the example mapping is one on which the two variants agree. |

## Left out

- **The language model calls.** `llm.invoke` and `llm(...)`, the model's construction and
  prompt formatting are foreign. The two replies are the fallible `Backend` functions
  `proposeMapping` (of `json_input`) and `renderOutput` (of `json_string`).
- **`StructuredOutputParser`.** `parse` and `get_format_instructions` are library code.
  The parser is the fallible `Backend` function `parseStructured`.
- **LangChain's own chain machinery.** Only what the declared variables imply is modelled:
  - the input check before a stage;
  - the output check after it;
  - merging the outputs into the context;
  - stopping at the first failure.
  Callbacks, memory and key checks at construction time are not modelled;
  `ChainWellFormed` proves the declared chain would pass those checks.
- **`json.dumps(..., indent=4)`** is the `Backend` function `dumps`. Its layout is not
  modelled.
- **Flask, `jsonify`, `request.json` parsing, the index route, logging** and the
  `__main__` block are left out. A route's answer is a `Response`.
- Pipeline.RunStage: a missing input is reported as `MissingInput(name)`. LangChain raises
  a ValueError ("Missing some input keys") there. The message is not modelled, and
  `NoMissingInput` shows that the declared chain never reaches this case.
- Pipeline.StartProcess: an error answer carries the exception's kind, not the text of
  `str(e)`. The message strings are not modelled.
- Pipeline.RunStep: the same; the text of `str(e)` and the "Etapa inválida." message are
  not modelled.
- **Numbers.** A number with a fraction or an exponent, and Python's `NaN` and
  `Infinity`, is kept as its text (`JFloat`). The extractor never looks inside one.
  Python's limit on the digits of an integer and its recursion limit are not modelled.
- JsonText.ParseChars: a `\u` escape for a lone surrogate becomes U+FFFD, because a
  Dafny `char` cannot hold a surrogate.
- **In-place list building.** `output[key] = []` followed by `.append` (app.py:113-120,
  langchain_hardwork.py:81-88) is modelled as building the list and then assigning it
  once. A record that raises ends `extract_data`, so the partly filled list is never
  seen.
- **The other scripts.** poc_langchain.py (browser automation, files, images) and
  hello_langchain_openai.py (one prompt) have no logic of their own. The module-level
  script lines of langchain_hardwork.py:239-242 and structured_parser_langchain.py:119-134
  only call the model and print.

## Findings

| source | as written | input that shows it | evidently intended | confidence | as-written member | corrected member |
|---|---|---|---|---|---|---|
| app.py:320-342 | `result` is assigned inside `run_step`, so it is a local that every request starts without. The `extract_data`, `json_to_string`, `generate_output` and `parse_output` branches read `result[...]` before any assignment and raise UnboundLocalError. | a POST body `{"step": "extract_data"}` | each step runs against the variables of the previous steps, passed explicitly, and adds its own outputs | not executed | Pipeline.RunStepOnlyFirstWorks | Pipeline.StepwiseIsRun |
