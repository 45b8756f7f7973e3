/** The demo application's use of the client: a workflow span opened by the
    application around one `train` call. */
module TrainJobDemo {
  import opened TrainerClient

  const WorkflowSpanName := "fine_tune_workflow"
  const WorkflowNameKey := "workflow.name"
  const InputTokensKey := "gen_ai.usage.input_tokens"
  const OutputTokensKey := "gen_ai.usage.output_tokens"

  /** `run_demo`'s traced block. Both spans are new; the submit-job span is
      a child of the workflow span; the workflow span is current again once
      `train` returns; the attributes the demo writes through its workflow
      variable stay on the workflow span; and the two spans end child first. */
  method FineTuneWorkflow(client: MockTrainerClient)
    returns (jobId: string, ghost workflow: Span, ghost job: Span, ghost currentAfterTrain: Span?)
    requires client.telemetry.Valid()
    modifies client.telemetry
    ensures client.telemetry.Valid()
    ensures jobId == SubmittedJobId
    ensures fresh(workflow) && fresh(job) && workflow != job
    ensures workflow.name == WorkflowSpanName && job.name == SubmitJobSpanName
    ensures workflow.parent == old(client.telemetry.Current()) && job.parent == workflow
    ensures currentAfterTrain == workflow
    ensures workflow.attributes == map[
      WorkflowNameKey := Str("llm-fine-tuning"),
      InputTokensKey := Int(1024),
      OutputTokensKey := Int(256)]
    ensures job.attributes == map[
      RequestModelKey := Str("qwen-7b"),
      SystemKey := Str(GenAiSystem),
      JobTypeKey := Str(JobType),
      TrainerFuncKey := Str("my_lora_script.py"),
      JobIdKey := Str(jobId)]
    ensures job.status == Ok && workflow.status == Unset
    ensures job.ended && workflow.ended
    ensures client.telemetry.finished == old(client.telemetry.finished) + [job] + [workflow]
    ensures client.telemetry.stack == old(client.telemetry.stack)
  {
    var telemetry := client.telemetry;
    var workflowSpan := telemetry.StartAsCurrentSpan(WorkflowSpanName);
    workflow := workflowSpan;
    workflowSpan.SetAttribute(WorkflowNameKey, Str("llm-fine-tuning"));
    var podEnvVars;
    jobId, job, podEnvVars := client.Train(trainerFunc := "my_lora_script.py", modelName := "qwen-7b");
    currentAfterTrain := telemetry.Current();
    workflowSpan.SetAttribute(InputTokensKey, Int(1024));
    workflowSpan.SetAttribute(OutputTokensKey, Int(256));
    telemetry.EndCurrentSpan();
  }
}
