# Correlation execution plan, modelled in Dafny

A model of `ExecutionPlan`, the plan descriptor of a streaming-correlation
service built on the Siddhi complex-event-processing engine. A plan has an
id, a list of input topics, a map from internal output stream name to output
topic, and a Siddhi rule text ("execution plan"). The model covers:

- `ExecutionPlan.FromMap`: reading a plan from a loosely typed configuration
  map (`Map<String, Object>`) under the keys `"id"`, `"input"`, `"output"`
  and `"executionPlan"`. Each value is first cast to its Java type, in that
  order: input, output, id, executionPlan. A value of the wrong type fails
  its cast (`ClassCast`). After all four casts, an absent or null field fails
  with the required-field error (`RequiredFieldNotFound`). So a mistyped
  field is reported even when another field is missing.
- `ExecutionPlan.ToMap`: writing a plan back as a map with exactly those four keys.
- `ExecutionPlan.FullPlan`: the rule text given to the engine. It is a fixed
  preamble followed by the plan's own text. The preamble declares the
  `raw_rb_flow` stream. It then copies into `rb_flow` only the events whose
  `namespace_uuid` is `'11111111'`.
- `PlanRuntime.Start`: compiling the full plan and registering one printing
  callback per output stream, over an abstract engine.

Files: `wrappers.dfy` (Option and Result), `config.dfy` (configuration values
and Java's `Map.get`), `execution_plan.dfy` (the descriptor),
`plan_runtime.dfy` (starting a plan).

Notes on the code:
- the rule text's key is `"executionPlan"`;
- a mistyped field fails its cast before any null check, with an exception
  other than the required-field error;
- nothing checks that fields are non-empty;
- `start` has no lifecycle guard. Calling it twice just compiles and starts a
  new runtime.

## Model

| member | source | states |
|---|---|---|
| ExecutionPlan.FirstBadCast | src/main/java/net/redborder/correlation/siddhi/ExecutionPlan.java:27-30 | The casts run in field order. The result is None exactly when every field casts (null casts to anything). Otherwise it names the first field whose value has the wrong Java type. |
| ExecutionPlan.FromMap | src/main/java/net/redborder/correlation/siddhi/ExecutionPlan.java:26-37 | Parsing succeeds exactly when all four fields are present with the right types. An absent or null field always makes it fail. The failure is the required-field error exactly when some field is missing and every field casts. A cast failure names the first mistyped field in cast order. On success, the plan's id, input topics, output topics and rule text are the map's values. |
| ExecutionPlan.ToMap | src/main/java/net/redborder/correlation/siddhi/ExecutionPlan.java:47-54 | The map has exactly the four recognised keys. Each key is bound to the stored field, with the type that parsing expects. |
| ExecutionPlan.ConfigRoundTrip | src/main/java/net/redborder/correlation/siddhi/ExecutionPlan.java:26-54 | If parsing a map succeeds, serialising the plan gives back the map restricted to the four recognised keys. Extra keys are dropped. |
| ExecutionPlan.PlanRoundTrip | src/main/java/net/redborder/correlation/siddhi/ExecutionPlan.java:26-54 | Parsing a serialised plan succeeds and gives back the same plan. |
| ExecutionPlan.FromMapIgnoresExtraKeys | src/main/java/net/redborder/correlation/siddhi/ExecutionPlan.java:26-37 | Parsing reads only the four recognised keys. |
| ExecutionPlan.FullPlan | src/main/java/net/redborder/correlation/siddhi/ExecutionPlan.java:72-77 | The full plan is the preamble followed by the plan's rule text, verbatim. Its length is the sum of the two lengths. |
| ExecutionPlan.FullPlanPrefixIndependent | src/main/java/net/redborder/correlation/siddhi/ExecutionPlan.java:73-74 | Any two plans' full texts agree on the preamble. |
| ExecutionPlan.FullPlanDeterminesRule | src/main/java/net/redborder/correlation/siddhi/ExecutionPlan.java:72-77 | Two plans have the same full text exactly when they have the same rule text. |
| ExecutionPlan.FullPlanDeclaresRawStream | src/main/java/net/redborder/correlation/siddhi/ExecutionPlan.java:73 | The full text opens with the declaration of `raw_rb_flow`. |
| ExecutionPlan.FullPlanFiltersNamespace | src/main/java/net/redborder/correlation/siddhi/ExecutionPlan.java:74 | Right after that declaration, inside the preamble, the text selects from `raw_rb_flow` only the events where `namespace_uuid == '11111111'`. |
| ExecutionPlan.FullPlanFeedsFilteredStream | src/main/java/net/redborder/correlation/siddhi/ExecutionPlan.java:74-75 | The preamble ends by inserting into `rb_flow`. The plan's own text comes right after. |
| PlanRuntime.RegisterCallbacks | src/main/java/net/redborder/correlation/siddhi/ExecutionPlan.java:82-87 | No stream gets two callbacks. Each callback carries the plan's id, an output stream name and that stream's attribute list. If every output stream is defined, the callbacks cover exactly the output streams. Otherwise it stops at an output stream the runtime does not define, which has no callback. |
| PlanRuntime.Start | src/main/java/net/redborder/correlation/siddhi/ExecutionPlan.java:79-91 | Start compiles exactly the full plan. It returns `CompileFailed` exactly when the compiler rejects the full plan. It starts the runtime exactly when every output stream is defined. Then the runtime is running, with one callback per output stream, as many callbacks as output topics. Otherwise it stops at an undefined output stream, leaving the runtime not started. |
| PlanRuntime.DistinctCallbackCount | src/main/java/net/redborder/correlation/siddhi/ExecutionPlan.java:82-87 | Callbacks on pairwise distinct streams are as many as the streams they watch. |
| PlanRuntime.StartedCallbackCount | src/main/java/net/redborder/correlation/siddhi/ExecutionPlan.java:82-87 | A runtime whose callbacks are on distinct streams, covering exactly the output topics, has one callback per output topic. |

## Left out

- Accessors (`getId`, `getPlan`, `getInputTopics`, `getOutputTopics`): the
  model's plan is an immutable value. Its fields are the accessors, and
  `Collections.unmodifiable*` views are the same values.
- Aliasing: the Java constructor keeps the caller's list and map by reference,
  so a caller can still change them. Values in the model cannot be shared that way.
- Nulls the model cannot express: the constructor accepts null arguments, and
  `toMap` would then write null values; `fromMap(null)` throws a
  NullPointerException at line 27; null list elements and null map keys or
  values pass the unchecked casts. The model's configuration map, plan fields,
  list elements and map entries are never null.
- Java's generic casts are unchecked. A list or map with non-string elements
  passes the cast. Such values are not representable in the model's `Value`.
- The Siddhi engine (`SiddhiManager.createExecutionPlanRuntime`,
  `ExecutionPlanRuntime.start`, `addCallback`, `getStreamDefinitionMap`) is
  foreign code. It is a compiler parameter plus a record of the runtime.
  What a callback does when events arrive is not modelled.
- PlanRuntime.Start: callbacks are registered in the iteration order of the
  configuration's `Map` (`entrySet()`, line 82), which the `Map` interface
  does not fix. It is an arbitrary choice, so for a
  missing stream the model names some missing stream, not a particular one.
- `stop` and `getInputHandler`: they pass straight through to the engine and
  have no checks of their own.
- Logging (slf4j) is output only.
- `KafkaManager`: consumer start-up and shutdown wiring, and `initTopics` is
  an empty stub. This is I/O plumbing with no behaviour to state.
- There is no plan registry, ingress routing, egress publishing, lifecycle
  state or concurrency control in `ExecutionPlan.java`.
