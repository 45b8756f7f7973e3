# Trace-context hand-off of a mock Kubeflow trainer client, in Dafny

The repository is a thin OpenTelemetry instrumentation of a mock Kubeflow
`TrainerClient`. Two pieces of logic are its own, and they are what this
project models:

- **Carrier-to-environment rename** (`sdk_mock/propagator.py`). The W3C
  carrier that `propagate.inject` fills is an input. `inject_context_to_env`
  copies its `traceparent` and `tracestate` entries, values unchanged, under
  the upper-case names `TRACEPARENT` and `TRACESTATE` that a Kubernetes Pod
  spec uses for environment variables, and drops everything else.
- **Job-submission span protocol** (`sdk_mock/trainer_client.py`).
  `MockTrainerClient.train` opens a `trainer.submit_job` span as the current
  span, writes five attributes (two taken from its arguments), captures the
  environment map while that span is current, records the job id, sets
  status OK, returns `"job-xyz-123"`, and on leaving the `with` block ends the
  span and makes the caller's span current again.

Files:

- `ascii.dfy` (`Ascii`): ASCII upper- and lower-casing of strings.
- `trace_context.dfy` (`TraceContext`): the shape of a version-00
  `traceparent` value (section 3.2 of W3C Trace Context). It is used only to
  state that the rename keeps a well-formed header well-formed; nothing here
  encodes or decodes trace context.
- `propagator.dfy` (`Propagator`): the rename. It has a reference definition,
  `EnvView`, which is a map comprehension over a two-entry rename table.
  `InjectContextToEnv` follows the source's two conditional insertions and is
  proved equal to `EnvView`. The lemmas about `EnvView` state the source's
  promises.
- `trainer_client.dfy` (`TrainerClient`): the OpenTelemetry API state that
  `train` relies on. `Span` holds an attribute map, a status in
  {Unset, Ok, Error} and an ended flag. `Telemetry` holds the active-context
  stack as an explicit sequence, the spans ended so far, and the configured
  propagator's `inject`. `inject` is a function from the current span to the
  carrier it writes, so trace/span ids and their encoding stay abstract.
  `MockTrainerClient.Train` is the method under study.
- `train_job_demo.dfy` (`TrainJobDemo`): the demo application's workflow
  span around one `train` call. It is the nesting scenario that shows the
  context stack is restored.

The repository contains no decoder. All W3C encoding and decoding happens
inside the `opentelemetry` library, so the model has neither a decoder nor a
round-trip property. In the source, `train` prints only the `TRACEPARENT` entry of the
environment map (sdk_mock/trainer_client.py:49) and does not return the map.
The model returns it as `podEnvVars`, so that the contract can say what was
captured.

## Model

| member | source | states |
|---|---|---|
| `Propagator.InjectContextToEnv` | sdk_mock/propagator.py:13-32 | The map built by the two conditional insertions is exactly the reference environment view of the carrier: one entry per canonical header present, under its environment name. |
| `Propagator.EnvViewEntries` | sdk_mock/propagator.py:26-32 | The only keys are `TRACEPARENT` and `TRACESTATE`. `TRACEPARENT` is present iff the carrier has `traceparent`, with the identical value; the same holds for `TRACESTATE` and `tracestate`. An empty carrier gives an empty map. A well-formed `traceparent` is still well-formed under `TRACEPARENT`. |
| `Propagator.RenameIsUpperCasing` | sdk_mock/propagator.py:24-30 | The rename table covers exactly the two W3C header names and maps them onto exactly the two environment names. Each environment name is the upper-cased header name, and lower-casing it gives the header name back. |
| `Propagator.RenameIsReversible` | sdk_mock/propagator.py:24-30 | No key of the environment map has a lower-case letter. Lower-casing its keys gives exactly the carrier restricted to `traceparent` and `tracestate`. |
| `Propagator.DropOne` | sdk_mock/propagator.py:27-30 | The two headers are handled independently. For every carrier, removing `traceparent` removes exactly `TRACEPARENT` and keeps `TRACESTATE` as it was, and vice versa. So either entry can appear without the other. |
| `Propagator.OtherEntriesAreDropped` | sdk_mock/propagator.py:26-31 | Adding any other carrier entry (baggage, for one) does not change the environment map. |
| `TraceContext.HeaderFields` | sdk_mock/propagator.py:19 | A header `00-<trace_id>-<span_id>-<flags>` built from fields of widths 32, 16 and 2 splits back into those same fields. It is well-formed iff the ids are lower-case hex and not all zero and the flags are lower-case hex. |
| `TraceContext.SampleTraceparentIsWellFormed` | sdk_mock/propagator.py:19 | The docstring's header shape, filled with the W3C example ids and flags `01`, is well-formed. |
| `TraceContext.ZeroIdsAreRejected` | sdk_mock/propagator.py:19 | For all fields of widths 32, 16 and 2: if the trace id is all zeros, or the parent id is all zeros, the header is not well-formed. |
| `TraceContext.NonLowerHexIsRejected` | sdk_mock/propagator.py:19 | For all fields of widths 32, 16 and 2: if any character of the trace id, the parent id or the flags is not a lower-case hex digit (an upper-case `A`-`F`, say), the header is not well-formed. |
| `TrainerClient.Span.constructor` | sdk_mock/trainer_client.py:36 | A new span has the given name and parent, no attributes, status Unset, and has not ended. |
| `TrainerClient.Span.SetAttribute` | sdk_mock/trainer_client.py:38-43 | On a live span and a non-empty key, the key is set to the value (the last write wins) and nothing else changes. A write under the empty key, or to an ended span, changes nothing. |
| `TrainerClient.Span.SetStatus` | sdk_mock/trainer_client.py:54 | On a live span whose status is not yet Ok, a request for Ok or Error sets the status to it. A request for Unset is ignored. Once the status is Ok it is final. An ended span is left as it was. Attributes never change. |
| `TrainerClient.Span.End` | sdk_mock/trainer_client.py:36 | The span is ended, and its attributes and status are kept. |
| `TrainerClient.Telemetry.constructor` | sdk_mock/trainer_client.py:15 | Starts with the given propagator, an empty context stack and no ended spans. |
| `TrainerClient.Telemetry.StartAsCurrentSpan` | sdk_mock/trainer_client.py:36 | Allocates a fresh live span with no attributes and status Unset. Its parent is the span that was current. It is pushed, and so becomes current. Ended spans are unchanged. |
| `TrainerClient.Telemetry.EndCurrentSpan` | sdk_mock/trainer_client.py:36 | Pops the current span and ends it, keeping its attributes and status. The span below it, which is the ended span's parent (none for a root span), becomes current again. The popped span is appended to the ended spans. |
| `TrainerClient.MockTrainerClient.constructor` | sdk_mock/trainer_client.py:18 | The client works against the given telemetry state, standing in for the module-level tracer. |
| `TrainerClient.MockTrainerClient.Train` | sdk_mock/trainer_client.py:29-56 | Returns `"job-xyz-123"` for any arguments (defaults `default_train_script` and `llama-3`). The fresh `trainer.submit_job` span is a child of the caller's current span. It ends with status Ok and exactly five attributes: `gen_ai.request.model` = model name, `gen_ai.system` = `kubeflow-training`, `kubeflow.job_type` = `PyTorchJob`, `kubeflow.trainer_func` = trainer func, and `kubeflow.job_id` = the returned id. The environment map is the rename of the carrier `inject` wrote for that span. The context stack is as before, the span is the one new ended span, and the caller's span is unchanged. |
| `TrainJobDemo.FineTuneWorkflow` | examples/train_job_demo.py:64-79 | Inside a `fine_tune_workflow` span, `train("my_lora_script.py", "qwen-7b")` returns the job id. The submit-job span is a child of the workflow span and carries `gen_ai.request.model` = `qwen-7b` and the returned job id. The workflow span and the job span are both new, distinct spans. The workflow span is current again after `train`. The attributes written through the workflow variable (`workflow.name` before `train`, the two token counts after it) are exactly the workflow span's attributes, and none of them reaches the job span, whose attributes are exactly the five `train` writes. Both spans end, the job span before the workflow span, and the stack ends as it began. |

## Left out

- W3C `traceparent`/`tracestate` serialisation, any decoding, trace and span id generation, and sampling: all of it happens inside `opentelemetry.propagate.inject` and the tracer, which are library code. The carrier a span produces is the parameter `Telemetry.inject`.
- Thread- and task-local isolation of the active context: this is library-owned concurrency. The model uses one explicit stack.
- The default no-op (non-recording) tracer, whose spans discard every write: `Train`'s attribute and status postconditions describe a recording span, as in the demo. The no-op propagator corresponds to an `inject` that returns the empty carrier.
- The exception path of `start_as_current_span` (recording the exception and setting status Error). The modelled body of `train` cannot fail.
- TrainerClient.Span.SetStatus: the status description string and its warning for non-Error codes are not modelled; only the code is kept.
- TrainerClient.Span.SetAttribute: the SDK's per-span attribute limits are not modelled: at most 128 attributes with the oldest evicted first, and value-length truncation when a length limit is configured. Attribute values of types outside `AttributeValue` (None, floats, sequences) are not modelled either. `train` writes five short attributes.
- Span start/end timestamps, span export, `add_event` (examples/train_job_demo.py:76-79), and floating-point attribute values.
- Console output (sdk_mock/trainer_client.py:48-49 and the demo's prints).
- Tracer-provider and exporter configuration in the demo, its OTLP/console fallback, and flush/shutdown: library configuration and I/O.
- `sdk_mock/__init__.py`: a re-export, with no logic.
