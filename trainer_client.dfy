/** `MockTrainerClient.train`: one job submission recorded as a span. The
    OpenTelemetry API it runs against is modelled by two classes: a `Span`
    whose attributes and status are set in place, and `Telemetry`, which keeps
    the active-context stack explicitly, records the spans that have ended,
    and holds the configured propagator's `inject` as a function from the
    current span to the W3C carrier it writes. */
module TrainerClient {
  import opened Propagator

  /** Attribute values as the API accepts them (floating point is not modelled). */
  datatype AttributeValue = Str(s: string) | Int(i: int) | Bool(b: bool)

  datatype StatusCode = Unset | Ok | Error

  const SubmitJobSpanName := "trainer.submit_job"

  const RequestModelKey := "gen_ai.request.model"
  const SystemKey := "gen_ai.system"
  const JobTypeKey := "kubeflow.job_type"
  const TrainerFuncKey := "kubeflow.trainer_func"
  const JobIdKey := "kubeflow.job_id"

  const GenAiSystem := "kubeflow-training"
  const JobType := "PyTorchJob"
  const SubmittedJobId := "job-xyz-123"

  const DefaultTrainerFunc := "default_train_script"
  const DefaultModelName := "llama-3"

  /** A span: attributes and status change until it ends; once ended, every
      further write is ignored. */
  class Span {
    const name: string
    /** The span that was current when this one started, if any. */
    const parent: Span?
    var attributes: map<string, AttributeValue>
    var status: StatusCode
    var ended: bool

    constructor (name: string, parent: Span?)
      ensures this.name == name && this.parent == parent
      ensures attributes == map[] && status == Unset && !ended
    {
      this.name := name;
      this.parent := parent;
      attributes := map[];
      status := Unset;
      ended := false;
    }

    /** Last write wins on a live span. A write under the empty key is
        dropped, and an ended span is left as it was. */
    method SetAttribute(key: string, value: AttributeValue)
      modifies this
      ensures attributes == if old(ended) || key == "" then old(attributes) else old(attributes)[key := value]
      ensures status == old(status) && ended == old(ended)
    {
      if !ended && key != "" {
        attributes := attributes[key := value];
      }
    }

    /** Sets the status of a live span. A status of Ok is final, a request to
        go back to Unset is ignored, and an ended span is left as it was. */
    method SetStatus(code: StatusCode)
      modifies this
      ensures status == if old(ended) || old(status) == Ok || code == Unset then old(status) else code
      ensures attributes == old(attributes) && ended == old(ended)
    {
      if !ended && status != Ok && code != Unset {
        status := code;
      }
    }

    method End()
      modifies this
      ensures ended
      ensures attributes == old(attributes) && status == old(status)
    {
      ended := true;
    }
  }

  /** The tracing state shared by every tracer of the process. */
  class Telemetry {
    /** The configured propagator: the carrier it writes for a current span. */
    const inject: Span -> Carrier
    /** The active-context stack; its last element is the current span. */
    var stack: seq<Span>
    /** The spans ended so far, in the order they ended. */
    var finished: seq<Span>

    /** The stack is a chain of nested spans: the bottom span is a root and
        every other span's parent is the span just below it. */
    ghost predicate Valid()
      reads this
    {
      && (|stack| > 0 ==> stack[0].parent == null)
      && (forall i :: 0 < i < |stack| ==> stack[i].parent == stack[i - 1])
    }

    constructor (inject: Span -> Carrier)
      ensures Valid()
      ensures this.inject == inject && stack == [] && finished == []
    {
      this.inject := inject;
      stack := [];
      finished := [];
    }

    /** The current span, or null when no span is active. */
    function Current(): (current: Span?)
      reads this
    {
      if stack == [] then null else stack[|stack| - 1]
    }

    /** Starts a span whose parent is the current span and makes it current. */
    method StartAsCurrentSpan(name: string) returns (span: Span)
      requires Valid()
      modifies this
      ensures Valid()
      ensures fresh(span)
      ensures span.name == name && span.parent == old(Current())
      ensures span.attributes == map[] && span.status == Unset && !span.ended
      ensures stack == old(stack) + [span] && finished == old(finished)
    {
      span := new Span(name, Current());
      stack := stack + [span];
    }

    /** Leaves the scope of the current span: the span ends and the span
        below it becomes current again. */
    method EndCurrentSpan()
      requires Valid() && stack != []
      modifies this, stack[|stack| - 1]
      ensures Valid()
      ensures stack == old(stack[..|stack| - 1])
      ensures finished == old(finished) + [old(Current())]
      ensures Current() == old(Current()).parent
      ensures old(Current()).ended
      ensures old(Current()).attributes == old(Current().attributes)
      ensures old(Current()).status == old(Current().status)
    {
      var top := stack[|stack| - 1];
      stack := stack[..|stack| - 1];
      top.End();
      finished := finished + [top];
    }
  }

  class MockTrainerClient {
    const telemetry: Telemetry

    constructor (telemetry: Telemetry)
      ensures this.telemetry == telemetry
    {
      this.telemetry := telemetry;
    }

    /** Submits a training job. The submit-job span carries exactly the five
        attributes below and status Ok when it ends; the environment map is
        captured while that span is current; the context stack is as before. */
    method Train(trainerFunc: string := DefaultTrainerFunc, modelName: string := DefaultModelName)
      returns (jobId: string, ghost span: Span, podEnvVars: Carrier)
      requires telemetry.Valid()
      modifies telemetry
      ensures telemetry.Valid()
      ensures jobId == SubmittedJobId
      ensures fresh(span) && span.name == SubmitJobSpanName
      ensures span.parent == old(telemetry.Current())
      ensures span.attributes == map[
        RequestModelKey := Str(modelName),
        SystemKey := Str(GenAiSystem),
        JobTypeKey := Str(JobType),
        TrainerFuncKey := Str(trainerFunc),
        JobIdKey := Str(jobId)]
      ensures span.status == Ok && span.ended
      ensures podEnvVars == EnvView(telemetry.inject(span))
      ensures telemetry.stack == old(telemetry.stack)
      ensures telemetry.finished == old(telemetry.finished) + [span]
      ensures old(telemetry.Current()) != null ==> unchanged(old(telemetry.Current()))
    {
      var submitSpan := telemetry.StartAsCurrentSpan(SubmitJobSpanName);
      span := submitSpan;
      submitSpan.SetAttribute(RequestModelKey, Str(modelName));
      submitSpan.SetAttribute(SystemKey, Str(GenAiSystem));
      submitSpan.SetAttribute(JobTypeKey, Str(JobType));
      submitSpan.SetAttribute(TrainerFuncKey, Str(trainerFunc));
      var current := telemetry.Current();
      podEnvVars := InjectContextToEnv(telemetry.inject(current));
      jobId := SubmittedJobId;
      submitSpan.SetAttribute(JobIdKey, Str(jobId));
      submitSpan.SetStatus(Ok);
      telemetry.EndCurrentSpan();
    }
  }
}
