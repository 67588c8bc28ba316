/** The "add from document" dialog: it reads a transcript, asks the language
    model to analyse it, turns the reply into a feature request, saves it
    through the store, and shows the progress of three steps. */
module DocIngestion {
  import opened JsValues
  import opened ApiTypes
  import opened Normalize
  import Store

  datatype Status = Pending | Processing | Completed | Error

  /** `ProcessingStep`: a label and a description shown in the stepper,
      and the step's status. */
  datatype Step = Step(title: string, description: string, status: Status)

  /** The three steps as the dialog first shows them: file upload, analysis
      by the model, processing and saving. */
  const InitialSteps: seq<Step> := [
    Step("Загрузка файла", "Подготовка документа к анализу", Pending),
    Step("Анализ DeepSeek", "Анализ документа с помощью AI", Pending),
    Step("Обработка и сохранение", "Создание feature request", Pending)
  ]

  const GenericFailureMessage: string := "Ошибка при обработке файла. Попробуйте еще раз."
  const MalformedMessage: string := "Ошибка при обработке ответа от DeepSeek"
  const NoRecordMessage: string := "Не удалось создать feature request из анализа"
  const SuccessMessage: string := "Feature request успешно создан из документа!"

  /** What a failing call throws: an `Error` instance carries a message,
      anything else (such as the event `FileReader` rejects with) does
      not. */
  datatype Thrown = ErrorInstance(message: string) | OtherValue

  /** The selected file: none, one that `FileReader` reads as text, or one
      whose read fails. */
  datatype FileInput = NoFile | Readable(text: string) | Unreadable

  /** The model's reply content, or what the call threw. */
  type LlmReply = Result<string, Thrown>

  /** The message the outer `catch` shows for a thrown value. */
  function MessageOf(t: Thrown): (m: string)
    ensures t.ErrorInstance? ==> m == t.message
    ensures t.OtherValue? ==> m == GenericFailureMessage
  {
    match t
    case ErrorInstance(message) => message
    case OtherValue => GenericFailureMessage
  }

  /** The user message of the request sent to the model: the prompt, a
      blank line, then the transcript. */
  function RequestContent(prompt: string, text: string): (r: string)
    ensures |r| == |prompt| + 2 + |text|
    ensures r[..|prompt|] == prompt && r[|prompt|..|prompt| + 2] == "\n\n" && r[|prompt| + 2..] == text
  {
    prompt + "\n\n" + text
  }

  /** With the prompt fixed, the request determines the transcript. */
  lemma RequestContentDeterminesText(prompt: string, a: string, b: string)
    requires RequestContent(prompt, a) == RequestContent(prompt, b)
    ensures a == b
  {
    assert a == RequestContent(prompt, a)[|prompt| + 2..];
  }

  // ---------------------------------------------------------------------
  // Step statuses

  /** The statuses of the three steps, in order. */
  function StatusesOf(steps: seq<Step>): seq<Status>
    requires |steps| == 3
  {
    [steps[0].status, steps[1].status, steps[2].status]
  }

  /** `updateStep(stepIndex, status)` on the array of steps: only the status
      of step `stepIndex` changes; an index out of range changes nothing. */
  function WithStatus(steps: seq<Step>, stepIndex: int, status: Status): (r: seq<Step>)
    ensures |r| == |steps|
    ensures forall k | 0 <= k < |steps| ::
      && r[k].title == steps[k].title
      && r[k].description == steps[k].description
      && r[k].status == (if k == stepIndex then status else steps[k].status)
    ensures !(0 <= stepIndex < |steps|) ==> r == steps
  {
    seq(|steps|, k requires 0 <= k < |steps| =>
      if k == stepIndex then steps[k].(status := status) else steps[k])
  }

  /** Every step set back to pending, titles kept. */
  function AllPending(steps: seq<Step>): (r: seq<Step>)
    ensures |r| == |steps|
    ensures forall k | 0 <= k < |steps| ::
      r[k].title == steps[k].title && r[k].description == steps[k].description && r[k].status == Pending
  {
    seq(|steps|, k requires 0 <= k < |steps| => steps[k].(status := Pending))
  }

  /** The ordering the stepper relies on: after any step that is not
      completed, every step is still pending. So the completed steps form a
      prefix, at most one step is processing, and nothing starts after a
      step that failed. */
  predicate WellOrdered(st: seq<Status>) {
    && |st| == 3
    && (st[0] != Completed ==> st[1] == Pending && st[2] == Pending)
    && (st[1] != Completed ==> st[2] == Pending)
  }

  lemma WellOrderedMeaning(st: seq<Status>)
    requires WellOrdered(st)
    ensures forall j | 0 <= j < 3 && st[j] == Completed :: forall i | 0 <= i < j :: st[i] == Completed
    ensures forall i, j | 0 <= i < j < 3 :: !(st[i] == Processing && st[j] == Processing)
    ensures forall i, j | 0 <= i < j < 3 :: st[i] == Error ==> st[j] == Pending
  {
  }

  /** Two snapshots of the steps that differ in at most one step. */
  predicate OneStepApart(a: seq<Status>, b: seq<Status>) {
    && |a| == 3 && |b| == 3
    && ((a[0] == b[0] && a[1] == b[1]) || (a[0] == b[0] && a[2] == b[2]) || (a[1] == b[1] && a[2] == b[2]))
  }

  /** A sequence of snapshots each of which is well ordered and each of
      which differs from the one before it in at most one step. */
  predicate OrderlyTrace(observed: seq<seq<Status>>) {
    && (forall k | 0 <= k < |observed| :: WellOrdered(observed[k]))
    && (forall k | 0 < k < |observed| :: OneStepApart(observed[k - 1], observed[k]))
  }

  /** How the steps and messages stand when a run ends. */
  datatype RunOutcome = RunOutcome(
    statuses: seq<Status>,
    currentStep: nat,
    error: Option<string>,
    success: Option<string>,
    delivered: Option<CreateDto>)

  /** How step 3 ends, given what parsing the model's reply gave: the
      record is saved, or the inner `try` throws one of two errors. */
  function FinalizeOutcome(parsed: Result<CreateDto, ParseFailure>): (r: RunOutcome)
    ensures |r.statuses| == 3 && r.statuses[..2] == [Completed, Completed] && r.currentStep == 2
    ensures r.statuses[2] == Completed || r.statuses[2] == Error
    ensures parsed.Success? <==> r.statuses[2] == Completed
    ensures parsed.Success? ==> r.success == Some(SuccessMessage) && r.error == None
    ensures parsed.Failure? ==> r.success == None
    ensures r.delivered.Some? <==> parsed.Success?
    ensures r.delivered.Some? ==> r.delivered.value == parsed.value
    ensures parsed == Failure(Malformed) ==> r.error == Some(MalformedMessage)
    ensures parsed == Failure(NoRecord) ==> r.error == Some(NoRecordMessage)
  {
    match parsed
    case Failure(Malformed) =>
      RunOutcome([Completed, Completed, Error], 2, Some(MessageOf(ErrorInstance(MalformedMessage))), None, None)
    case Failure(NoRecord) =>
      RunOutcome([Completed, Completed, Error], 2, Some(MessageOf(ErrorInstance(NoRecordMessage))), None, None)
    case Success(record) =>
      RunOutcome([Completed, Completed, Completed], 2, None, Some(SuccessMessage), Some(record))
  }

  /** How steps 2 and 3 end once the transcript has been read, given the
      model's answer. A failing model call leaves step 2 processing: nothing
      marks it failed. */
  function AnalyzeOutcome(analysis: LlmReply, codec: JsonCodec): (r: RunOutcome)
    ensures |r.statuses| == 3 && r.statuses[0] == Completed && r.currentStep >= 1
    ensures analysis.Failure? ==>
      && r.statuses == [Completed, Processing, Pending]
      && r.currentStep == 1
      && r.error == Some(MessageOf(analysis.error))
      && r.success == None && r.delivered == None
    ensures analysis.Success? ==> r == FinalizeOutcome(ParseReply(analysis.value, codec))
  {
    match analysis
    case Failure(t) =>
      RunOutcome([Completed, Processing, Pending], 1, Some(MessageOf(t)), None, None)
    case Success(reply) =>
      FinalizeOutcome(ParseReply(reply, codec))
  }

  /** The result of one upload run, given what the file read, the model and
      `JSON.parse` do. The store's answers play no part: create and refresh
      swallow their own failures. */
  function Outcome(file: FileInput, prompt: string, llm: string -> LlmReply, codec: JsonCodec): (r: RunOutcome)
    requires !file.NoFile?
    ensures WellOrdered(r.statuses)
    ensures r.error.Some? <==> r.success.None?
    ensures r.statuses[2] == Completed <==> r.success.Some?
    ensures r.success.Some? <==> r.delivered.Some?
    ensures r.success.Some? ==> r.success == Some(SuccessMessage)
    ensures forall k | 0 <= k < 2 :: r.statuses[k] != Error
    ensures r.currentStep <= 2 && forall k | 0 <= k < r.currentStep :: r.statuses[k] == Completed
    ensures r.statuses[r.currentStep] != Pending
    ensures file.Unreadable? ==> r.statuses == [Processing, Pending, Pending] && r.error == Some(GenericFailureMessage)
    ensures file.Readable? ==> r == AnalyzeOutcome(llm(RequestContent(prompt, file.text)), codec)
    ensures r.delivered.Some? ==>
      file.Readable? && var reply := llm(RequestContent(prompt, file.text));
      reply.Success? && ParseReply(reply.value, codec) == Success(r.delivered.value)
  {
    match file
    case Unreadable =>
      RunOutcome([Processing, Pending, Pending], 0, Some(MessageOf(OtherValue)), None, None)
    case Readable(text) =>
      AnalyzeOutcome(llm(RequestContent(prompt, text)), codec)
  }

  // ---------------------------------------------------------------------
  // The step statuses each `updateStep` of a run leaves, one per call

  /** Step 3, after parsing: processing, then completed or failed. */
  function FinalizeSnapshots(parsed: Result<CreateDto, ParseFailure>): seq<seq<Status>> {
    [FinalizeOutcome(parsed).statuses]
  }

  /** Step 2 started; on an answer of the model, step 2 completed, step 3
      started, and step 3 as above. */
  function AnalyzeSnapshots(analysis: LlmReply, codec: JsonCodec): seq<seq<Status>> {
    match analysis
    case Failure(_) => [[Completed, Processing, Pending]]
    case Success(reply) =>
      [[Completed, Processing, Pending]]
      + ([[Completed, Completed, Pending], [Completed, Completed, Processing]]
         + FinalizeSnapshots(ParseReply(reply, codec)))
  }

  /** Step 1 started; once the file is read, step 1 completed and steps 2
      and 3 as above. */
  function AttemptSnapshots(file: FileInput, prompt: string, llm: string -> LlmReply, codec: JsonCodec): seq<seq<Status>>
    requires !file.NoFile?
  {
    match file
    case Unreadable => [[Processing, Pending, Pending]]
    case Readable(text) =>
      [[Processing, Pending, Pending]]
      + ([[Completed, Pending, Pending]] + AnalyzeSnapshots(llm(RequestContent(prompt, text)), codec))
  }

  /** The step statuses of one upload run after the reset and after each
      `updateStep`. */
  function Snapshots(file: FileInput, prompt: string, llm: string -> LlmReply, codec: JsonCodec): seq<seq<Status>>
    requires !file.NoFile?
  {
    [[Pending, Pending, Pending]] + AttemptSnapshots(file, prompt, llm, codec)
  }

  /** A trace stays orderly when the snapshot added is well ordered and one
      step away from the last one. */
  lemma OrderlyExtend(t: seq<seq<Status>>, x: seq<Status>)
    requires OrderlyTrace(t) && |t| > 0
    requires WellOrdered(x) && OneStepApart(t[|t| - 1], x)
    ensures OrderlyTrace(t + [x])
  {
    var u := t + [x];
    assert forall k | 0 <= k < |t| :: u[k] == t[k];
  }

  /** The states `updateStep` leaves start all pending and end at the
      outcome's statuses. */
  lemma SnapshotsEndAtOutcome(file: FileInput, prompt: string, llm: string -> LlmReply, codec: JsonCodec)
    requires !file.NoFile?
    ensures var t := Snapshots(file, prompt, llm, codec);
      && |t| >= 2
      && t[0] == [Pending, Pending, Pending]
      && t[|t| - 1] == Outcome(file, prompt, llm, codec).statuses
  {
    match file
    case Unreadable =>
    case Readable(text) =>
      match llm(RequestContent(prompt, text))
      case Failure(_) =>
      case Success(reply) =>
        var rest := FinalizeSnapshots(ParseReply(reply, codec));
        assert AttemptSnapshots(file, prompt, llm, codec)[|AttemptSnapshots(file, prompt, llm, codec)| - 1] == rest[0];
  }

  /** The trace of a run that reaches step 3 is orderly, whatever parsing
      the reply gave. */
  lemma ParsedRunOrderly(parsed: Result<CreateDto, ParseFailure>)
    ensures OrderlyTrace([[Pending, Pending, Pending], [Processing, Pending, Pending],
                          [Completed, Pending, Pending], [Completed, Processing, Pending],
                          [Completed, Completed, Pending], [Completed, Completed, Processing]]
                         + FinalizeSnapshots(parsed))
  {
    var t0 := [[Pending, Pending, Pending]];
    var t1 := t0 + [[Processing, Pending, Pending]];
    OrderlyExtend(t0, [Processing, Pending, Pending]);
    var t2 := t1 + [[Completed, Pending, Pending]];
    OrderlyExtend(t1, [Completed, Pending, Pending]);
    var t3 := t2 + [[Completed, Processing, Pending]];
    OrderlyExtend(t2, [Completed, Processing, Pending]);
    var t4 := t3 + [[Completed, Completed, Pending]];
    OrderlyExtend(t3, [Completed, Completed, Pending]);
    var t5 := t4 + [[Completed, Completed, Processing]];
    OrderlyExtend(t4, [Completed, Completed, Processing]);
    var last := FinalizeOutcome(parsed).statuses;
    assert last[..2] == [Completed, Completed];
    assert last[0] == Completed && last[1] == Completed;
    OrderlyExtend(t5, last);
  }

  /** The trace of a run whose file was read is orderly, whatever the
      model answered. */
  lemma AnalyzedRunOrderly(analysis: LlmReply, codec: JsonCodec)
    ensures OrderlyTrace([[Pending, Pending, Pending], [Processing, Pending, Pending],
                          [Completed, Pending, Pending]]
                         + AnalyzeSnapshots(analysis, codec))
  {
    var t0 := [[Pending, Pending, Pending]];
    var t1 := t0 + [[Processing, Pending, Pending]];
    OrderlyExtend(t0, [Processing, Pending, Pending]);
    var t2 := t1 + [[Completed, Pending, Pending]];
    OrderlyExtend(t1, [Completed, Pending, Pending]);
    assert t2 == [[Pending, Pending, Pending], [Processing, Pending, Pending], [Completed, Pending, Pending]];
    match analysis
    case Failure(_) =>
      OrderlyExtend(t2, [Completed, Processing, Pending]);
      assert AnalyzeSnapshots(analysis, codec) == [[Completed, Processing, Pending]];
    case Success(reply) =>
      var parsed := ParseReply(reply, codec);
      ParsedRunOrderly(parsed);
      assert AnalyzeSnapshots(analysis, codec)
          == [[Completed, Processing, Pending], [Completed, Completed, Pending], [Completed, Completed, Processing]]
             + FinalizeSnapshots(parsed);
      assert t2 + AnalyzeSnapshots(analysis, codec)
          == [[Pending, Pending, Pending], [Processing, Pending, Pending],
              [Completed, Pending, Pending], [Completed, Processing, Pending],
              [Completed, Completed, Pending], [Completed, Completed, Processing]]
             + FinalizeSnapshots(parsed);
  }

  /** Whatever the file, the model and the parser do, every state of the
      steps that `updateStep` leaves is well ordered and one step away from
      the one before. */
  lemma SnapshotsOrderly(file: FileInput, prompt: string, llm: string -> LlmReply, codec: JsonCodec)
    requires !file.NoFile?
    ensures OrderlyTrace(Snapshots(file, prompt, llm, codec))
  {
    var t0 := [[Pending, Pending, Pending]];
    OrderlyExtend(t0, [Processing, Pending, Pending]);
    match file
    case Unreadable =>
      assert Snapshots(file, prompt, llm, codec) == t0 + [[Processing, Pending, Pending]];
    case Readable(text) =>
      var analysis := llm(RequestContent(prompt, text));
      AnalyzedRunOrderly(analysis, codec);
      assert Snapshots(file, prompt, llm, codec)
          == [[Pending, Pending, Pending], [Processing, Pending, Pending],
              [Completed, Pending, Pending]]
             + AnalyzeSnapshots(analysis, codec);
  }

  /** The dialog's state. */
  class AddDocModal {
    var isProcessing: bool
    var error: Option<string>
    var success: Option<string>
    var currentStep: nat
    var steps: seq<Step>

    /** Three steps, with their labels and descriptions as first shown. */
    ghost predicate Valid()
      reads this
    {
      && |steps| == 3
      && forall k | 0 <= k < 3 ::
           steps[k].title == InitialSteps[k].title && steps[k].description == InitialSteps[k].description
    }

    constructor ()
      ensures Valid()
      ensures steps == InitialSteps && currentStep == 0
      ensures !isProcessing && error == None && success == None
    {
      isProcessing := false;
      error := None;
      success := None;
      currentStep := 0;
      steps := InitialSteps;
    }

    /** The effect run when the dialog opens: everything back to its first
        state. */
    method Open()
      modifies this
      ensures Valid()
      ensures steps == InitialSteps && currentStep == 0
      ensures !isProcessing && error == None && success == None
    {
      isProcessing := false;
      currentStep := 0;
      success := None;
      error := None;
      steps := InitialSteps;
    }

    /** `updateStep`: sets the status of one step and leaves everything else
        as it was. */
    method UpdateStep(stepIndex: int, status: Status)
      requires Valid()
      modifies this`steps
      ensures Valid()
      ensures steps == WithStatus(old(steps), stepIndex, status)
      ensures 0 <= stepIndex < 3 ==> StatusesOf(steps) == StatusesOf(old(steps))[stepIndex := status]
    {
      steps := WithStatus(steps, stepIndex, status);
    }

    /** `handleFileUpload`. Returns the record passed to `onSuccess`, if
        any, and (as a ghost) the step statuses after the reset and after
        each `updateStep`. */
    method HandleFileUpload(
      file: FileInput, prompt: string, llm: string -> LlmReply, codec: JsonCodec,
      store: Store.FeatureRequestStore,
      created: ApiResult<FeatureRequest>, listed: ApiResult<seq<FeatureRequest>>)
      returns (delivered: Option<CreateDto>, ghost observed: seq<seq<Status>>)
      requires Valid()
      modifies this, store
      ensures Valid()
      ensures file.NoFile? ==> unchanged(this) && unchanged(store) && delivered == None && observed == []
      ensures !file.NoFile? ==>
        && CurrentOutcome(delivered) == Outcome(file, prompt, llm, codec) && !isProcessing
        && observed == Snapshots(file, prompt, llm, codec)
      ensures delivered.Some? ==>
        store.featureRequests == Store.Refreshed(Store.Created(old(store.featureRequests), created), listed)
      ensures delivered.None? ==> store.featureRequests == old(store.featureRequests)
    {
      observed := [];
      delivered := None;
      if file.NoFile? {
        return;
      }

      isProcessing := true;
      error := None;
      success := None;
      currentStep := 0;
      steps := AllPending(steps);
      ghost var reset := StatusesOf(steps);
      assert reset == [Pending, Pending, Pending];

      var thrown: Option<Thrown>;
      ghost var shown: seq<seq<Status>>;
      delivered, thrown, shown := Attempt(file, prompt, llm, codec, store, created, listed);
      observed := [reset] + shown;
      // catch
      if thrown.Some? {
        error := Some(MessageOf(thrown.value));
      }
      // finally
      isProcessing := false;
    }

    /** The `try` block of `handleFileUpload`, from the reset state: the
        three steps in turn. A thrown value is returned for the caller's
        `catch`. */
    method Attempt(
      file: FileInput, prompt: string, llm: string -> LlmReply, codec: JsonCodec,
      store: Store.FeatureRequestStore,
      created: ApiResult<FeatureRequest>, listed: ApiResult<seq<FeatureRequest>>)
      returns (delivered: Option<CreateDto>, thrown: Option<Thrown>, ghost shown: seq<seq<Status>>)
      requires !file.NoFile?
      requires Valid() && StatusesOf(steps) == [Pending, Pending, Pending] && currentStep == 0
      requires error == None && success == None
      modifies this`steps, this`currentStep, this`success, store
      ensures Valid()
      ensures
        var r := Outcome(file, prompt, llm, codec);
        && StatusesOf(steps) == r.statuses && currentStep == r.currentStep && success == r.success
        && delivered == r.delivered
        && (thrown.None? <==> r.error.None?)
        && (thrown.Some? ==> r.error == Some(MessageOf(thrown.value)))
      ensures delivered.Some? ==>
        store.featureRequests == Store.Refreshed(Store.Created(old(store.featureRequests), created), listed)
      ensures delivered.None? ==> store.featureRequests == old(store.featureRequests)
      ensures shown == AttemptSnapshots(file, prompt, llm, codec)
    {
      // Step 1: read the file
      UpdateStep(0, Processing);
      ghost var reading := StatusesOf(steps);
      assert reading == [Processing, Pending, Pending];
      if file.Unreadable? {
        delivered, thrown := None, Some(OtherValue);
        shown := [reading];
        return;
      }
      UpdateStep(0, Completed);
      ghost var read := StatusesOf(steps);
      assert read == [Completed, Pending, Pending];
      currentStep := 1;
      ghost var rest: seq<seq<Status>>;
      delivered, thrown, rest := Analyze(file.text, prompt, llm, codec, store, created, listed);
      shown := [reading] + ([read] + rest);
    }

    /** The current step statuses, step and messages, with the record given
        to `onSuccess`. */
    function CurrentOutcome(delivered: Option<CreateDto>): RunOutcome
      requires |steps| == 3
      reads this
    {
      RunOutcome(StatusesOf(steps), currentStep, error, success, delivered)
    }

    /** Steps 2 and 3 of `handleFileUpload`, from a read transcript. A
        thrown error is returned for the caller's `catch`. */
    method Analyze(
      text: string, prompt: string, llm: string -> LlmReply, codec: JsonCodec,
      store: Store.FeatureRequestStore,
      created: ApiResult<FeatureRequest>, listed: ApiResult<seq<FeatureRequest>>)
      returns (delivered: Option<CreateDto>, thrown: Option<Thrown>, ghost shown: seq<seq<Status>>)
      requires Valid() && StatusesOf(steps) == [Completed, Pending, Pending] && currentStep == 1
      requires error == None && success == None
      modifies this`steps, this`currentStep, this`success, store
      ensures Valid()
      ensures
        var r := AnalyzeOutcome(llm(RequestContent(prompt, text)), codec);
        && StatusesOf(steps) == r.statuses && currentStep == r.currentStep && success == r.success
        && delivered == r.delivered
        && (thrown.None? <==> r.error.None?)
        && (thrown.Some? ==> r.error == Some(MessageOf(thrown.value)))
      ensures delivered.Some? ==>
        store.featureRequests == Store.Refreshed(Store.Created(old(store.featureRequests), created), listed)
      ensures delivered.None? ==> store.featureRequests == old(store.featureRequests)
      ensures shown == AnalyzeSnapshots(llm(RequestContent(prompt, text)), codec)
    {
      UpdateStep(1, Processing);
      ghost var analysing := StatusesOf(steps);
      assert analysing == [Completed, Processing, Pending];
      var analysis := llm(RequestContent(prompt, text));
      if analysis.Failure? {
        delivered, thrown := None, Some(analysis.error);
        shown := [analysing];
        return;
      }
      ghost var rest: seq<seq<Status>>;
      delivered, thrown, rest := Process(analysis.value, codec, store, created, listed);
      shown := [analysing] + rest;
    }

    /** From a reply of the model: step 2 completed, then step 3. */
    method Process(
      reply: string, codec: JsonCodec,
      store: Store.FeatureRequestStore,
      created: ApiResult<FeatureRequest>, listed: ApiResult<seq<FeatureRequest>>)
      returns (delivered: Option<CreateDto>, thrown: Option<Thrown>, ghost shown: seq<seq<Status>>)
      requires Valid() && StatusesOf(steps) == [Completed, Processing, Pending]
      requires success == None
      modifies this`steps, this`currentStep, this`success, store
      ensures Valid()
      ensures
        var r := FinalizeOutcome(ParseReply(reply, codec));
        && StatusesOf(steps) == r.statuses && currentStep == r.currentStep && success == r.success
        && delivered == r.delivered
        && (thrown.None? <==> r.error.None?)
        && (thrown.Some? ==> r.error == Some(MessageOf(thrown.value)))
      ensures delivered.Some? ==>
        store.featureRequests == Store.Refreshed(Store.Created(old(store.featureRequests), created), listed)
      ensures delivered.None? ==> store.featureRequests == old(store.featureRequests)
      ensures shown ==
        [[Completed, Completed, Pending], [Completed, Completed, Processing]]
        + FinalizeSnapshots(ParseReply(reply, codec))
    {
      ghost var started := EndAnalysis();
      var featureRequest := ParseReply(reply, codec);
      ghost var rest: seq<seq<Status>>;
      delivered, thrown, rest := Finalize(featureRequest, store, created, listed);
      shown := started + rest;
    }

    /** Step 2 completed, the current step advanced, step 3 started. */
    method EndAnalysis() returns (ghost shown: seq<seq<Status>>)
      requires Valid() && StatusesOf(steps) == [Completed, Processing, Pending]
      modifies this`steps, this`currentStep
      ensures Valid() && StatusesOf(steps) == [Completed, Completed, Processing] && currentStep == 2
      ensures shown == [[Completed, Completed, Pending], [Completed, Completed, Processing]]
    {
      UpdateStep(1, Completed);
      ghost var analysed := StatusesOf(steps);
      currentStep := 2;
      UpdateStep(2, Processing);
      shown := [analysed, StatusesOf(steps)];
    }

    /** Step 3 of `handleFileUpload`, given what parsing the reply gave:
        save and refresh, or throw. */
    method Finalize(
      featureRequest: Result<CreateDto, ParseFailure>,
      store: Store.FeatureRequestStore,
      created: ApiResult<FeatureRequest>, listed: ApiResult<seq<FeatureRequest>>)
      returns (delivered: Option<CreateDto>, thrown: Option<Thrown>, ghost shown: seq<seq<Status>>)
      requires Valid() && StatusesOf(steps) == [Completed, Completed, Processing] && currentStep == 2
      requires success == None
      modifies this`steps, this`success, store
      ensures Valid()
      ensures
        var r := FinalizeOutcome(featureRequest);
        && StatusesOf(steps) == r.statuses && success == r.success && delivered == r.delivered
        && (thrown.None? <==> r.error.None?)
        && (thrown.Some? ==> r.error == Some(MessageOf(thrown.value)))
      ensures delivered.Some? ==>
        store.featureRequests == Store.Refreshed(Store.Created(old(store.featureRequests), created), listed)
      ensures delivered.None? ==> store.featureRequests == old(store.featureRequests)
      ensures shown == FinalizeSnapshots(featureRequest)
    {
      if featureRequest.Failure? {
        UpdateStep(2, Error);
        shown := [StatusesOf(steps)];
        delivered := None;
        thrown := Some(ErrorInstance(if featureRequest.error == Malformed then MalformedMessage else NoRecordMessage));
        return;
      }
      store.CreateFeatureRequest(featureRequest.value, created);
      store.GetFeatureRequests(listed);
      UpdateStep(2, Completed);
      shown := [StatusesOf(steps)];
      success := Some(SuccessMessage);
      delivered, thrown := Some(featureRequest.value), None;
    }

    /** `handleClose`: ignored while a run is in progress; otherwise the
        dialog closes and its messages and current step are reset (the
        step statuses are kept). */
    method HandleClose() returns (closed: bool)
      requires Valid()
      modifies this
      ensures Valid()
      ensures closed == !old(isProcessing)
      ensures !closed ==> unchanged(this)
      ensures closed ==>
        && !isProcessing && currentStep == 0 && success == None && error == None
        && steps == old(steps)
    {
      closed := !isProcessing;
      if closed {
        isProcessing := false;
        currentStep := 0;
        success := None;
        error := None;
      }
    }
  }
}
