# nils-utils: configuration binder and progress accumulator

This project models two parts of `nils_utils` and proves properties of them.

**The configuration binder** (`load_from_yaml`, module `ConfigGen`).
- The schema step reads a class declaration and partitions its annotated fields. A field is *required* when the class binds no value to it. Otherwise it is *defaulted*, and the class-level value is its default.
- `_parse` applies the registered parse function of a field, if there is one.
- `from_dict` turns an untyped record into an instance in two loops:
  - the first loop fills the required fields;
  - the second fills the defaulted fields.
- `from_multi_conf_yaml_file` works on the already decoded document. It binds `base`, then binds one fresh copy of `base` updated by each entry of `deltas`.

Values are the `Value` datatype (module `Values`), which has a `VNull` case for `None`. A record is `map<string, Value>`, and a bound instance is the record of its attributes.

Each operation that loops in the source is a method with loop invariants, proved against a specification function:
- `FromDict` (its two loops are `FillRequired` and `FillDefaults`) is proved against `IsBinding` and `Bind`;
- `BindDeltas` and `FromMultiConf` are proved against `Expand`.

**The progress accumulator** (module `ProgressBar`).
- `ProgressBarActor` is a class with `counter`, `delta` and a boolean `event`.
- Waiting on the event becomes the precondition that it is set.
- Two ghost histories record every report and every delta handed out. They let the invariant `counter == Σ reports == Σ handed-out deltas + delta` be stated and preserved.
- `ProgressBar.PrintUntilDone` is the consumer loop. The workers' reports arrive as a schedule of batches, one batch per wake-up of the consumer. Each batch is non-empty, except that the first may be empty when the event was already set on entry.

**The repository's tests** appear as concrete cases:
- `test_decorator` of `tests/test_experiment_tools.py`, with its decorated `Config` class, in module `ExperimentToolsTest`;
- `test_progress_bar` of `nils_utils/ray_tools/progress_bar.py`, with six unit reports to a progress bar of total 6, in module `ProgressBarTest`.

Two worked examples go beyond those tests; no repository test covers them:
- `ExperimentToolsTest` expands a base-plus-deltas document over the same `Config` class;
- `ProgressBarTest` has a run in which the only report happens before the consumer starts waiting.

## Model

| member | source | states |
|---|---|---|
| ConfigGen.Classify | nils_utils/experiment_tools/config_gen.py:39-45 | Fails exactly when the class `__dict__` has no `__annotations__` entry; an empty entry gives an empty schema. Otherwise it returns a schema over the annotated names in which `required` and `defaults` partition the fields. A name is required iff it is annotated and has no class value. It is defaulted iff it is annotated and has a class value, with that value as its default. |
| ConfigGen.Parse | nils_utils/experiment_tools/config_gen.py:47-51 | Applies the field's registered parser when there is one, and otherwise returns the raw value. |
| ConfigGen.DefaultedValue | nils_utils/experiment_tools/config_gen.py:63-69 | A defaulted field gets its default, unparsed, when the key is absent or holds `None`; any other value is parsed. |
| ConfigGen.ParseIsLocal | nils_utils/experiment_tools/config_gen.py:47-51 | A field's parsed value depends only on that field's own registered parser. With no parser registered, the raw value is returned unchanged. |
| ConfigGen.BindingUnique | nils_utils/experiment_tools/config_gen.py:53-73 | Under a valid schema, at most one instance satisfies the binding conditions for a record. |
| ConfigGen.BindFields | nils_utils/experiment_tools/config_gen.py:56-69 | The instance built over a list of field names has exactly those names as keys, and each holds the value its field takes in the binding. |
| ConfigGen.Bind | nils_utils/experiment_tools/config_gen.py:53-73 | The binding exists iff every required field is a key of the record. |
| ConfigGen.BindIsBinding | nils_utils/experiment_tools/config_gen.py:53-73 | Whenever the binding exists, it satisfies the binding conditions: exactly the schema's fields; each required field parsed from the record; each defaulted field as `DefaultedValue` says. |
| ConfigGen.FillRequired | nils_utils/experiment_tools/config_gen.py:56-59 | The first loop succeeds iff every required field is in the record, and then holds each of them parsed. Otherwise it fails with a required key that the record lacks. |
| ConfigGen.FillDefaults | nils_utils/experiment_tools/config_gen.py:63-69 | The second loop completes the required part into a full binding. An absent or `None` defaulted field gets its default, unparsed; any other value is parsed. |
| ConfigGen.FromDict | nils_utils/experiment_tools/config_gen.py:53-73 | Succeeds iff all required fields are present. The instance it returns satisfies the binding conditions and equals `Bind`. On failure the error names a required key that is missing from the record. |
| ConfigGen.UnknownKeysIgnored | nils_utils/experiment_tools/config_gen.py:53-73 | Record keys that are not fields have no effect: binding the record equals binding its restriction to the fields. |
| ConfigGen.BindRoundTrip | nils_utils/experiment_tools/config_gen.py:53-73 | With no parser on any field, binding the bound instance again gives back the same instance. |
| ConfigGen.Merge | nils_utils/experiment_tools/config_gen.py:103-104 | The copy of `base` updated with a delta has both key sets. Delta values win, and all other base values are kept. |
| ConfigGen.ExpandDeltas | nils_utils/experiment_tools/config_gen.py:101-105 | One instance per delta, in order. Instance `i` is the binding of `base` merged with delta `i`. |
| ConfigGen.Expand | nils_utils/experiment_tools/config_gen.py:95-107 | Exists iff `base` binds. Then it has one entry more than there are deltas, starts with the binding of `base`, and entry `i + 1` is the binding of `base` merged with delta `i`. |
| ConfigGen.ExpandDetermined | nils_utils/experiment_tools/config_gen.py:95-107 | Any list with the shape `Expand` promises is `Expand`'s result, so those properties characterise it completely. |
| ConfigGen.DeltasIndependent | nils_utils/experiment_tools/config_gen.py:102-105 | Entry `i + 1` of the expansion depends only on delta `i`. Two delta lists that agree at position `i` give the same entry there. |
| ConfigGen.DeltaOverridesBase | nils_utils/experiment_tools/config_gen.py:103-105 | A field that a delta sets to a non-`None` value takes the delta's value, parsed. |
| ConfigGen.BaseKeptWhereDeltaSilent | nils_utils/experiment_tools/config_gen.py:103-105 | A field that a delta does not mention takes the value it has in the binding of `base` alone. |
| ConfigGen.BaseOf | nils_utils/experiment_tools/config_gen.py:95 | `base` is taken iff the key is present and holds a mapping. A missing key is `MissingKey("base")`, and a non-mapping value is `NotAMapping("base")`. |
| ConfigGen.DeltasOf | nils_utils/experiment_tools/config_gen.py:98-102 | An absent `deltas` key gives no deltas, and a non-list value gives `NotAList("deltas")`. For a list, the records are returned in order iff every entry is a mapping; otherwise the result is `NotAMapping("deltas")`. |
| ConfigGen.DeltaRecords | nils_utils/experiment_tools/config_gen.py:101-104 | Returns the records of a `deltas` list iff every entry is a mapping, and then returns them in order. |
| ConfigGen.BindDeltas | nils_utils/experiment_tools/config_gen.py:101-105 | The delta loop succeeds iff every entry is a mapping. It then returns one instance per entry, each the binding of a fresh copy of `base` merged with that entry. |
| ConfigGen.DeltaListExpansion | nils_utils/experiment_tools/config_gen.py:98-107 | When `base` binds to a first instance and every delta entry is a mapping whose merge onto `base` binds, the merge loop's output (that first instance followed by the bound deltas, in order) is exactly `Expand` of `base` and the delta records. |
| ConfigGen.FromMultiConf | nils_utils/experiment_tools/config_gen.py:93-107 | Propagates a missing or non-mapping `base`. Fails with a missing required key when `base` does not bind, then propagates a malformed `deltas`. It succeeds iff none of these happen, and then returns exactly `Expand` of `base` and the deltas. An absent `deltas` gives `[from_dict(base)]`. |
| ProgressBar.SumOfPermutation | nils_utils/ray_tools/progress_bar.py:35-36 | Accumulation is order-independent: two report sequences that are permutations of each other have the same sum. |
| ProgressBar.ReportOrderIrrelevant | nils_utils/ray_tools/progress_bar.py:35-36 | Two actors that received the same reports in any order hold the same counter. |
| ProgressBar.ProgressBarActor.constructor | nils_utils/ray_tools/progress_bar.py:26-29 | A fresh actor has counter 0, delta 0, the event unset and empty histories, and is valid. |
| ProgressBar.ProgressBarActor.Update | nils_utils/ray_tools/progress_bar.py:31-37 | Counter and delta both grow by exactly `n` and the event is set. The report is appended to the history, nothing else changes, and the invariant is preserved. |
| ProgressBar.ProgressBarActor.WaitForUpdate | nils_utils/ray_tools/progress_bar.py:39-50 | Needs the event set. It returns the pre-call delta and counter, then leaves delta 0, the counter unchanged and the event cleared. The handed-out delta is recorded, and the invariant is preserved. |
| ProgressBar.ProgressBarActor.GetCounter | nils_utils/ray_tools/progress_bar.py:52-56 | Returns the counter, which is the sum of all reports, and changes nothing. |
| ProgressBar.DeltaBounded | nils_utils/ray_tools/progress_bar.py:35-36 | With non-negative reports, `0 <= delta <= counter` in every valid state. |
| ProgressBar.ReportAll | nils_utils/ray_tools/progress_bar.py:31-37 | A run of `update` calls adds its sum to counter and delta. It sets the event iff it is non-empty or the event was already set, and appends the reports to the history. |
| ProgressBar.AwaitUpdate | nils_utils/ray_tools/progress_bar.py:94 | One wake-up of the consumer after a batch of reports. The batch may be empty only when the event is already set. It returns the pooled delta plus the batch, and the counter plus the batch. It leaves delta 0 and the event cleared. |
| ProgressBar.Running | nils_utils/ray_tools/progress_bar.py:93-96 | The reference definition of the counters that successive waits return: one counter per batch of the schedule. |
| ProgressBar.RunningAt | nils_utils/ray_tools/progress_bar.py:93-96 | Each running counter is the previous one, or the start, plus its own batch. |
| ProgressBar.RunningMonotone | nils_utils/ray_tools/progress_bar.py:93-96 | With non-negative reports, the counters the consumer sees never decrease and never drop below the starting counter. |
| ProgressBar.StepCountsAreRunning | nils_utils/ray_tools/progress_bar.py:93-96 | The step-by-step description of the returned counters holds iff they are a prefix of `Running`. |
| ProgressBar.ProgressBar.PrintUntilDone | nils_utils/ray_tools/progress_bar.py:85-98 | The returned counters follow the schedule. Every wait but the last returned less than the total, and the loop stops iff the last one reached it. The display advanced by the counter's growth minus what is still pooled. A first wait with the event already set needs no new report. After at least one wait, the counter is the last value seen, nothing is pooled and the event is clear. |
| ProgressBar.ProgressBar.constructor | nils_utils/ray_tools/progress_bar.py:69-75 | Stores the total and the description, which defaults to `""`, with a fresh, valid actor at counter 0, delta 0 and the event unset. |
| ExperimentToolsTest.ConfigClassSchema | tests/test_experiment_tools.py:14-20 | The decorated `Config` class has `param1` and `param2` as required fields, and `param3 = 2.0` and `param4 = "oi"` as defaulted fields. |
| ExperimentToolsTest.ConfigBinds | tests/test_experiment_tools.py:14-20 | Any record holding `param1` and `param2` binds to its `param1`, its doubled `param2`, and `param3`/`param4` or their defaults. |
| ExperimentToolsTest.TestDecorator | tests/test_experiment_tools.py:7-30 | `{param1: 5, param2: 1, param3: 5.5}` binds to `(5, 2, 5.5, "oi")`. |
| ExperimentToolsTest.DocumentExpansion | nils_utils/experiment_tools/config_gen.py:95-107 | Worked example: a base with two deltas expands to the three expected instances, one of which keeps a base value the delta does not mention. |
| ExperimentToolsTest.TestMultiConf | nils_utils/experiment_tools/config_gen.py:93-107 | `FromMultiConf` on that document returns those three instances. |
| ProgressBarTest.TestProgressBar | nils_utils/ray_tools/progress_bar.py:101-124 | Six `update(1)` calls, one per wake-up, to a bar of total 6. The consumer stops after the sixth wait, has advanced its display by 6, and the counter is 6. |
| ProgressBarTest.TestReportedBeforeWait | nils_utils/ray_tools/progress_bar.py:93-98 | Worked example: a bar of total 1 whose only report precedes the first wait. The loop stops after one wait with the display at 1. |

## Left out

- `_load_yaml` and `from_yaml_file` (config_gen.py:12-17, 75-76): file opening and YAML decoding are I/O through a foreign library. `FromMultiConf` and `FromDict` take the decoded map instead.
- The reflection machinery (config_gen.py:34-41, 109-120):
  - `cls.__dict__` and `cls.__new__`;
  - `setattr` onto the class or instance;
  - the `inspect` dispatch.

  A class is the explicit `ClassDecl` value, and an instance is the map of its attributes.
- `ConfigGen.Classify`: a class whose `__dict__` has no `__annotations__` entry makes the source raise a `KeyError`; the model returns `NoAnnotations`. The entry is modelled as the sequence of its names, in declaration order.
- Exceptions raised by custom parse functions: parsers are total functions on `Value`.
- The Python `assert` in `from_dict` (config_gen.py:57) disappears under `python -O`. The model always treats a missing required key as the error `MissingKey(p)`. The source's message names only the key.
- `ConfigGen.FromDict`: which missing required key is reported depends on Python's set iteration order. The contract states only that it is some required key absent from the record.
- `ConfigGen.FromMultiConf`: the model rejects a `base` that is not a mapping with `NotAMapping("base")`. The source fails on it only when it is used:
  - `from_dict` reads the record only through the schema's fields (config_gen.py:56-69), so with a schema that has no fields any `base` binds;
  - such a `base` then gives `[instance]` when `deltas` is absent or empty (config_gen.py:96-101), and fails only when a delta is merged into its copy, which has no `update` method (config_gen.py:103-104);
  - with at least one field, `from_dict` fails on a non-mapping `base`, as the model does.
- `ConfigGen.FromMultiConf`: the source also accepts some inputs the model rejects with `NotAList` or `NotAMapping`:
  - a non-list `deltas` whose iteration yields no entry `dict.update` refuses, such as an empty mapping or the empty string. A non-empty string such as `"ab"` fails in `dict.update("a")` (config_gen.py:104), so the source rejects it as well;
  - delta entries given as lists of pairs, which `dict.update` accepts;
  - the empty string as a delta entry, which `dict.update` treats as no pairs, so that delta binds `base` again.
- `deepcopy` (config_gen.py:103) is a value copy. Dafny maps are values, so updating the copy cannot change `base`, and the input record is never modified.
- Float arithmetic and the values' Python types: `VFloat` is an opaque token, and `Double` doubles integers only, as in the test.
- The Ray actor plumbing (`ray.remote`, `ActorHandle`, `ray.get`) and the suspension of `asyncio.Event.wait`:
  - concurrency becomes a schedule of report batches, one per wake-up of the consumer;
  - the wait becomes the precondition `event`;
  - the `actor` property is the `const` field `actor`.
- `ProgressBar.ProgressBar.PrintUntilDone`: when the schedule runs out before the total is reached, the method returns with `done == false`. The source's `while True` would go on waiting forever.
- `tqdm` rendering (progress_bar.py:92, 95, 97): the display is the running sum `shown` of the deltas it has been advanced by.
- The rest of `test_progress_bar`: the `sleep` timing, `ray.init`, and the check on the tasks' return values.
- `setup.py`: packaging metadata only.
