/**
 * The receipt-processor state machine, as the stack wires it:
 *
 *   Count Receipts -> Has Receipts? -> Process Receipts (Map) -> Generate Prompt -> Summarize Totals
 *                                   \-> No Receipts (Fail)
 *
 * and, for each element of `$.receipts`, the Map's item processor
 *
 *   Process Receipt -> Parallel Get Query Answers [Get receipt amount | date | concept]
 *
 * Each state is run by `Step` with the Amazon States Language's input and output processing
 * (Parameters, ResultSelector, ResultPath, OutputPath). The Lambda, EvaluateExpression and
 * Bedrock tasks, and the `States.StringToJson` parser, are parameters. Map iterations and
 * Parallel branches run one after the other in order, so when several fail the error of the
 * first one is reported.
 */
module ReceiptWorkflow {
  import opened Wrappers
  import opened Json
  import opened Types

  datatype StateName =
    | CountReceipts
    | HasReceipts
    | ProcessReceipts
    | NoReceipts
    | GeneratePrompt
    | SummarizeTotals
    | ProcessReceipt
    | ParallelGetQueryAnswers
    | GetReceiptAmount
    | GetReceiptDate
    | GetReceiptConcept

  /**
   * The height of a state in the graph: every transition, and every Map iteration or
   * Parallel branch a state starts, goes to a state of smaller rank. The graph has no cycle.
   */
  function Rank(st: StateName): nat
  {
    match st
    case CountReceipts => 5
    case HasReceipts => 4
    case ProcessReceipts => 3
    case ProcessReceipt => 2
    case ParallelGetQueryAnswers => 1
    case GeneratePrompt => 1
    case NoReceipts => 0
    case SummarizeTotals => 0
    case GetReceiptAmount => 0
    case GetReceiptDate => 0
    case GetReceiptConcept => 0
  }

  /** What a task integration reports: its payload, or an error name and cause. */
  datatype TaskResult = TaskSucceeded(payload: Json) | TaskFailed(error: string, cause: string)

  /** The services the tasks call, and the `States.StringToJson` intrinsic. */
  datatype Services = Services(
    processReceipt: Json -> TaskResult,      // the Receipt Processor Lambda's payload
    getQueryAnswer: Json -> TaskResult,      // the Get Query Answer Lambda's payload
    evaluateExpression: Json -> TaskResult,  // the prompt rendered from `$.processedReceipts`
    invokeModel: Json -> TaskResult,         // Bedrock InvokeModel, given the request body
    stringToJson: string -> Option<Json>)    // `None` when the text is not JSON

  /** Why a state failed; each carries the state that failed. */
  datatype StateError =
    | FailState(state: StateName)                               // a Fail state was reached
    | TaskError(state: StateName, error: string, cause: string) // a task reported an error
    | RuntimeError(state: StateName)                            // States.Runtime: a path or intrinsic failed
    | ResultPathMatchFailure(state: StateName)                  // States.ResultPathMatchFailure

  datatype Outcome = Succeeded(output: Json) | Failed(error: StateError)

  /** What running one state gives: the next state and its input, the end of the run, or a failure. */
  datatype StepResult =
    | Next(state: StateName, output: Json)
    | End(output: Json)
    | Fault(error: StateError)

  /** The array at `$.receipts`, which `States.ArrayLength` and the Map's itemsPath need. */
  function Receipts(input: Json): (r: Option<seq<Json>>)
    ensures r.Some? ==> input.Obj? && Get(input, [Field("receipts")]) == Some(Arr(r.value))
    ensures r.None? ==> forall items :: Get(input, [Field("receipts")]) != Some(Arr(items))
  {
    match Get(input, [Field("receipts")])
    case Some(Arr(items)) => Some(items)
    case _ => None
  }

  /** The payload of a Get-* task: the whole state input and the alias to look up. */
  function QueryPayload(input: Json, alias: Alias): Json
  {
    Obj(map["textractResponse" := input, "alias" := Str(AliasName(alias))])
  }

  /** The body of the Bedrock request. */
  function BedrockBody(prompt: Json): Json
  {
    Obj(map[
      "prompt" := prompt,
      "temperature" := Num(1),
      "max_tokens_to_sample" := Num(300),
      "top_p" := Num(1),
      "top_k" := Num(250),
      "stop_sequences" := Arr([Str("Human")])])
  }

  /** A Get-* task: call the Lambda and key its answer by the alias (`resultSelector: {alias: $}`). */
  function QueryTask(svc: Services, st: StateName, alias: Alias, input: Json): StepResult
  {
    match svc.getQueryAnswer(QueryPayload(input, alias))
    case TaskFailed(e, c) => Fault(TaskError(st, e, c))
    case TaskSucceeded(p) => End(Obj(map[AliasName(alias) := p]))
  }

  /** The Parallel state's resultSelector over the array of branch outputs. */
  function SelectAnswers(st: StateName, outs: Json): StepResult
  {
    match (Get(outs, [Index(0), Field(AliasName(Amount))]),
           Get(outs, [Index(1), Field(AliasName(Date))]),
           Get(outs, [Index(2), Field(AliasName(Concept))]))
    case (Some(a), Some(d), Some(c)) =>
      End(Obj(map[AliasName(Amount) := a, AliasName(Date) := d, AliasName(Concept) := c]))
    case _ => Fault(RuntimeError(st))
  }

  /**
   * Summarize Totals after the call: resultSelector `{completion: States.StringToJson($.Body.completion)}`,
   * then outputPath `$.completion`.
   */
  function Completion(svc: Services, st: StateName, response: Json): StepResult
  {
    match Get(response, [Field("Body"), Field("completion")])
    case Some(Str(text)) => (
      match svc.stringToJson(text)
      case None => Fault(RuntimeError(st))
      case Some(v) =>
        match Get(Obj(map["completion" := v]), [Field("completion")])
        case Some(out) => End(out)
        case None => Fault(RuntimeError(st)))
    case _ => Fault(RuntimeError(st))
  }

  /** Run one state on its input. */
  function Step(svc: Services, st: StateName, input: Json): (r: StepResult)
    decreases Rank(st), 1, 0
    ensures r.Next? ==> Rank(r.state) < Rank(st)
    ensures r.Fault? && r.error.FailState? ==> r.error.state == NoReceipts
  {
    match st
    case CountReceipts => (
      match Receipts(input)
      case None => Fault(RuntimeError(st))
      case Some(items) =>
        match SetField(input, "info", Obj(map["receiptsCount" := Num(|items|)]))
        case None => Fault(ResultPathMatchFailure(st))
        case Some(out) => Next(HasReceipts, out))
    case HasReceipts => (
      match Get(input, [Field("info"), Field("receiptsCount")])
      case None => Fault(RuntimeError(st))
      case Some(v) => if v.Num? && v.n > 0 then Next(ProcessReceipts, input) else Next(NoReceipts, input))
    case NoReceipts => Fault(FailState(st))
    case ProcessReceipts => (
      match Receipts(input)
      case None => Fault(RuntimeError(st))
      case Some(items) =>
        match RunEach(svc, ProcessReceipt, items)
        case Err(e) => Fault(e)
        case Ok(results) =>
          match SetField(input, "processedReceipts", Arr(results))
          case None => Fault(ResultPathMatchFailure(st))
          case Some(out) => Next(GeneratePrompt, out))
    case ProcessReceipt => (
      match svc.processReceipt(input)
      case TaskFailed(e, c) => Fault(TaskError(st, e, c))
      case TaskSucceeded(p) => Next(ParallelGetQueryAnswers, p))
    case ParallelGetQueryAnswers => (
      match RunFrom(svc, GetReceiptAmount, input)
      case Failed(e) => Fault(e)
      case Succeeded(a) =>
        match RunFrom(svc, GetReceiptDate, input)
        case Failed(e) => Fault(e)
        case Succeeded(d) =>
          match RunFrom(svc, GetReceiptConcept, input)
          case Failed(e) => Fault(e)
          case Succeeded(c) => SelectAnswers(st, Arr([a, d, c])))
    case GetReceiptAmount => QueryTask(svc, st, Amount, input)
    case GetReceiptDate => QueryTask(svc, st, Date, input)
    case GetReceiptConcept => QueryTask(svc, st, Concept, input)
    case GeneratePrompt => (
      match Get(input, [Field("processedReceipts")])
      case None => Fault(RuntimeError(st))
      case Some(processed) =>
        match svc.evaluateExpression(processed)
        case TaskFailed(e, c) => Fault(TaskError(st, e, c))
        case TaskSucceeded(prompt) =>
          match SetField(input, "prompt", prompt)
          case None => Fault(ResultPathMatchFailure(st))
          case Some(out) => Next(SummarizeTotals, out))
    case SummarizeTotals =>
      match Get(input, [Field("prompt")])
      case None => Fault(RuntimeError(st))
      case Some(prompt) =>
        match svc.invokeModel(BedrockBody(prompt))
        case TaskFailed(e, c) => Fault(TaskError(st, e, c))
        case TaskSucceeded(response) => Completion(svc, st, response)
  }

  /** Run from `st` until a state ends the run or fails. */
  function RunFrom(svc: Services, st: StateName, input: Json): (r: Outcome)
    decreases Rank(st), 2, 0
    ensures r.Failed? && r.error.FailState? ==> r.error.state == NoReceipts
  {
    match Step(svc, st, input)
    case Next(next, out) => RunFrom(svc, next, out)
    case End(out) => Succeeded(out)
    case Fault(e) => Failed(e)
  }

  /**
   * The Map state's iterations: the run from `st` on each item, in item order, stopping at the
   * first one that fails.
   */
  function RunEach(svc: Services, st: StateName, items: seq<Json>): (r: Result<seq<Json>, StateError>)
    decreases Rank(st), 3, |items|
    ensures r.Ok? <==> forall i :: 0 <= i < |items| ==> RunFrom(svc, st, items[i]).Succeeded?
    ensures r.Ok? ==> (|r.value| == |items| &&
              forall i :: 0 <= i < |items| ==> RunFrom(svc, st, items[i]) == Succeeded(r.value[i]))
    ensures r.Err? ==> exists i :: (0 <= i < |items| && RunFrom(svc, st, items[i]) == Failed(r.error) &&
              forall j :: 0 <= j < i ==> RunFrom(svc, st, items[j]).Succeeded?)
  {
    if items == [] then Ok([])
    else match RunFrom(svc, st, items[0])
      case Failed(e) => Err(e)
      case Succeeded(out) =>
        match RunEach(svc, st, items[1..])
        case Err(e) =>
          assert forall j :: 1 <= j < |items| ==> items[1..][j - 1] == items[j];
          Err(e)
        case Ok(rest) => Ok([out] + rest)
  }

  /**
   * A whole execution, started at Count Receipts. Only a non-empty `$.receipts` can lead to
   * success; an empty one ends at No Receipts, whatever the services would have done, and
   * No Receipts is the only Fail state a run can reach.
   */
  function Run(svc: Services, input: Json): (r: Outcome)
    ensures r.Succeeded? ==> Receipts(input).Some? && |Receipts(input).value| > 0
    ensures Receipts(input) == Some([]) ==> r == Failed(FailState(NoReceipts))
    ensures r.Failed? && r.error.FailState? ==> r.error.state == NoReceipts
  {
    RunFromCountReceipts(svc, input);
    RunFrom(svc, CountReceipts, input)
  }

  /** Count Receipts leads to success only through a non-empty `$.receipts`, and an empty one leads to No Receipts. */
  lemma RunFromCountReceipts(svc: Services, input: Json)
    ensures RunFrom(svc, CountReceipts, input).Succeeded? ==> Receipts(input).Some? && |Receipts(input).value| > 0
    ensures Receipts(input) == Some([]) ==> RunFrom(svc, CountReceipts, input) == Failed(FailState(NoReceipts))
  {
    CountReceiptsEffect(svc, input);
    if Receipts(input).Some? {
      var doc := Step(svc, CountReceipts, input).output;
      HasReceiptsRoute(svc, doc, |Receipts(input).value|);
      assert RunFrom(svc, CountReceipts, input) == RunFrom(svc, HasReceipts, doc);
      if |Receipts(input).value| == 0 {
        assert RunFrom(svc, HasReceipts, doc) == RunFrom(svc, NoReceipts, doc);
      }
    }
  }

  /** Count Receipts stores `{receiptsCount: length of $.receipts}` at `$.info` and changes no other field. */
  lemma CountReceiptsEffect(svc: Services, input: Json)
    ensures Receipts(input).None? <==> Step(svc, CountReceipts, input) == Fault(RuntimeError(CountReceipts))
    ensures Receipts(input).Some? ==> (
              var r := Step(svc, CountReceipts, input);
              && r.Next? && r.state == HasReceipts && r.output.Obj?
              && Get(r.output, [Field("info")]) == Some(Obj(map["receiptsCount" := Num(|Receipts(input).value|)]))
              && Get(r.output, [Field("info"), Field("receiptsCount")]) == Some(Num(|Receipts(input).value|))
              && r.output.fields.Keys == input.fields.Keys + {"info"}
              && forall k :: k != "info" ==> Get(r.output, [Field(k)]) == Get(input, [Field(k)]))
  {
    if Receipts(input).Some? {
      var out := Step(svc, CountReceipts, input).output;
      var info := Obj(map["receiptsCount" := Num(|Receipts(input).value|)]);
      assert Get(out, [Field("info")]) == Some(info);
      assert Get(info, [Field("receiptsCount")]) == Some(Num(|Receipts(input).value|));
      assert [Field("info"), Field("receiptsCount")][1..] == [Field("receiptsCount")];
    }
  }

  /** Has Receipts? passes its input on unchanged: to Process Receipts when the count is above 0, else to No Receipts. */
  lemma HasReceiptsRoute(svc: Services, input: Json, n: int)
    requires Get(input, [Field("info"), Field("receiptsCount")]) == Some(Num(n))
    ensures n > 0 ==> Step(svc, HasReceipts, input) == Next(ProcessReceipts, input)
    ensures n <= 0 ==> Step(svc, HasReceipts, input) == Next(NoReceipts, input)
  {
  }

  /** What Get receipt `alias` reports for the receipt processor's payload `p`. */
  function Answer(svc: Services, p: Json, alias: Alias): TaskResult
  {
    svc.getQueryAnswer(QueryPayload(p, alias))
  }

  /** The Get-* state of each alias: the Parallel state's branches, in declaration order. */
  function Branch(alias: Alias): StateName
  {
    match alias
    case Amount => GetReceiptAmount
    case Date => GetReceiptDate
    case Concept => GetReceiptConcept
  }

  /** A branch run is one Lambda call whose answer is keyed by the branch's alias. */
  lemma BranchRun(svc: Services, alias: Alias, p: Json)
    ensures Answer(svc, p, alias).TaskFailed? ==>
              RunFrom(svc, Branch(alias), p) ==
                Failed(TaskError(Branch(alias), Answer(svc, p, alias).error, Answer(svc, p, alias).cause))
    ensures Answer(svc, p, alias).TaskSucceeded? ==>
              RunFrom(svc, Branch(alias), p) == Succeeded(Obj(map[AliasName(alias) := Answer(svc, p, alias).payload]))
  {
  }

  /** The Parallel state's resultSelector picks each branch's answer out of the array of branch outputs. */
  lemma SelectAnswersPicks(st: StateName, a: Json, d: Json, c: Json)
    ensures SelectAnswers(st, Arr([Obj(map["amount" := a]), Obj(map["date" := d]), Obj(map["concept" := c])])) ==
              End(Obj(map["amount" := a, "date" := d, "concept" := c]))
  {
    var outs := Arr([Obj(map["amount" := a]), Obj(map["date" := d]), Obj(map["concept" := c])]);
    assert Get(outs, [Index(0), Field("amount")]) == Some(a) by {
      assert [Index(0), Field("amount")][1..] == [Field("amount")];
    }
    assert Get(outs, [Index(1), Field("date")]) == Some(d) by {
      assert [Index(1), Field("date")][1..] == [Field("date")];
    }
    assert Get(outs, [Index(2), Field("concept")]) == Some(c) by {
      assert [Index(2), Field("concept")][1..] == [Field("concept")];
    }
  }

  /**
   * The Parallel state gives all three branches the same input; it fails with the first failing
   * branch in declaration order, and otherwise outputs exactly the three answers keyed by alias.
   */
  lemma ParallelRun(svc: Services, p: Json)
    ensures var a, d, c := Answer(svc, p, Amount), Answer(svc, p, Date), Answer(svc, p, Concept);
      && (a.TaskFailed? ==>
            RunFrom(svc, ParallelGetQueryAnswers, p) == Failed(TaskError(GetReceiptAmount, a.error, a.cause)))
      && (a.TaskSucceeded? && d.TaskFailed? ==>
            RunFrom(svc, ParallelGetQueryAnswers, p) == Failed(TaskError(GetReceiptDate, d.error, d.cause)))
      && (a.TaskSucceeded? && d.TaskSucceeded? && c.TaskFailed? ==>
            RunFrom(svc, ParallelGetQueryAnswers, p) == Failed(TaskError(GetReceiptConcept, c.error, c.cause)))
      && (a.TaskSucceeded? && d.TaskSucceeded? && c.TaskSucceeded? ==>
            RunFrom(svc, ParallelGetQueryAnswers, p) ==
              Succeeded(Obj(map["amount" := a.payload, "date" := d.payload, "concept" := c.payload])))
  {
    BranchRun(svc, Amount, p);
    BranchRun(svc, Date, p);
    BranchRun(svc, Concept, p);
    var a, d, c := Answer(svc, p, Amount), Answer(svc, p, Date), Answer(svc, p, Concept);
    if a.TaskSucceeded? && d.TaskSucceeded? && c.TaskSucceeded? {
      SelectAnswersPicks(ParallelGetQueryAnswers, a.payload, d.payload, c.payload);
    }
  }

  /**
   * The item processor: Process Receipt's payload goes, whole, to the Parallel state, so a
   * receipt's result is the three answers for that payload; Process Receipt's own failure comes first.
   */
  lemma ItemProcessor(svc: Services, item: Json)
    ensures svc.processReceipt(item).TaskFailed? ==>
              RunFrom(svc, ProcessReceipt, item) ==
                Failed(TaskError(ProcessReceipt, svc.processReceipt(item).error, svc.processReceipt(item).cause))
    ensures svc.processReceipt(item).TaskSucceeded? ==>
              RunFrom(svc, ProcessReceipt, item) == RunFrom(svc, ParallelGetQueryAnswers, svc.processReceipt(item).payload)
  {
  }

  /**
   * Process Receipts runs the item processor on each element of `$.receipts` and stores the
   * results, one per element and in element order, at `$.processedReceipts`, changing no other
   * field; it fails with the error of the first element whose run fails.
   */
  lemma ProcessReceiptsEffect(svc: Services, doc: Json)
    requires Receipts(doc).Some?
    ensures var items := Receipts(doc).value;
      forall i :: (0 <= i < |items| && RunFrom(svc, ProcessReceipt, items[i]).Failed? &&
        (forall j :: 0 <= j < i ==> RunFrom(svc, ProcessReceipt, items[j]).Succeeded?)) ==>
          Step(svc, ProcessReceipts, doc) == Fault(RunFrom(svc, ProcessReceipt, items[i]).error)
    ensures var items := Receipts(doc).value;
      (forall i :: 0 <= i < |items| ==> RunFrom(svc, ProcessReceipt, items[i]).Succeeded?) ==> (
        var r := Step(svc, ProcessReceipts, doc);
        && r.Next? && r.state == GeneratePrompt && r.output.Obj?
        && Get(r.output, [Field("processedReceipts")]) ==
             Some(Arr(seq(|items|, i requires 0 <= i < |items| => RunFrom(svc, ProcessReceipt, items[i]).output)))
        && r.output.fields.Keys == doc.fields.Keys + {"processedReceipts"}
        && forall k :: k != "processedReceipts" ==> Get(r.output, [Field(k)]) == Get(doc, [Field(k)]))
  {
    var items := Receipts(doc).value;
    if RunEach(svc, ProcessReceipt, items).Err? {
      ProcessReceiptsFails(svc, doc);
    } else {
      ProcessReceiptsStores(svc, doc);
    }
  }

  /** When some receipt fails, Process Receipts fails with the error of the first one that does. */
  lemma ProcessReceiptsFails(svc: Services, doc: Json)
    requires Receipts(doc).Some? && RunEach(svc, ProcessReceipt, Receipts(doc).value).Err?
    ensures var items := Receipts(doc).value;
      forall i :: (0 <= i < |items| && RunFrom(svc, ProcessReceipt, items[i]).Failed? &&
        (forall j :: 0 <= j < i ==> RunFrom(svc, ProcessReceipt, items[j]).Succeeded?)) ==>
          Step(svc, ProcessReceipts, doc) == Fault(RunFrom(svc, ProcessReceipt, items[i]).error)
  {
    var items := Receipts(doc).value;
    var run := RunEach(svc, ProcessReceipt, items);
    assert Step(svc, ProcessReceipts, doc) == Fault(run.error);
    var i :| 0 <= i < |items| && RunFrom(svc, ProcessReceipt, items[i]) == Failed(run.error) &&
      forall j :: 0 <= j < i ==> RunFrom(svc, ProcessReceipt, items[j]).Succeeded?;
    forall i' | 0 <= i' < |items| && RunFrom(svc, ProcessReceipt, items[i']).Failed? &&
        (forall j :: 0 <= j < i' ==> RunFrom(svc, ProcessReceipt, items[j]).Succeeded?)
      ensures i' == i
    {
    }
  }

  /** When every receipt succeeds, Process Receipts stores their outputs, in order, at `$.processedReceipts`. */
  lemma ProcessReceiptsStores(svc: Services, doc: Json)
    requires Receipts(doc).Some? && RunEach(svc, ProcessReceipt, Receipts(doc).value).Ok?
    ensures var items := Receipts(doc).value;
      var r := Step(svc, ProcessReceipts, doc);
      && r.Next? && r.state == GeneratePrompt && r.output.Obj?
      && Get(r.output, [Field("processedReceipts")]) ==
           Some(Arr(seq(|items|, i requires 0 <= i < |items| => RunFrom(svc, ProcessReceipt, items[i]).output)))
      && r.output.fields.Keys == doc.fields.Keys + {"processedReceipts"}
      && forall k :: k != "processedReceipts" ==> Get(r.output, [Field(k)]) == Get(doc, [Field(k)])
  {
    var items := Receipts(doc).value;
    var run := RunEach(svc, ProcessReceipt, items);
    var expected := seq(|items|, i requires 0 <= i < |items| => RunFrom(svc, ProcessReceipt, items[i]).output);
    assert run.value == expected;
    assert Step(svc, ProcessReceipts, doc) == Next(GeneratePrompt, SetField(doc, "processedReceipts", Arr(run.value)).value);
  }


  /**
   * Generate Prompt renders the prompt from `$.processedReceipts` alone and stores it at
   * `$.prompt`, changing no other field.
   */
  lemma GeneratePromptEffect(svc: Services, doc: Json)
    ensures Get(doc, [Field("processedReceipts")]).None? ==>
              Step(svc, GeneratePrompt, doc) == Fault(RuntimeError(GeneratePrompt))
    ensures Get(doc, [Field("processedReceipts")]).Some? ==> (
              var rendered := svc.evaluateExpression(Get(doc, [Field("processedReceipts")]).value);
              var r := Step(svc, GeneratePrompt, doc);
              && (rendered.TaskFailed? ==> r == Fault(TaskError(GeneratePrompt, rendered.error, rendered.cause)))
              && (rendered.TaskSucceeded? ==>
                    && r.Next? && r.state == SummarizeTotals && r.output.Obj?
                    && Get(r.output, [Field("prompt")]) == Some(rendered.payload)
                    && r.output.fields.Keys == doc.fields.Keys + {"prompt"}
                    && forall k :: k != "prompt" ==> Get(r.output, [Field(k)]) == Get(doc, [Field(k)])))
  {
  }

  /** Two inputs that agree on `$.processedReceipts` get the same prompt. */
  lemma PromptDependsOnlyOnProcessedReceipts(svc: Services, doc1: Json, doc2: Json)
    requires Get(doc1, [Field("processedReceipts")]) == Get(doc2, [Field("processedReceipts")])
    ensures Step(svc, GeneratePrompt, doc1).Next? <==> Step(svc, GeneratePrompt, doc2).Next?
    ensures Step(svc, GeneratePrompt, doc1).Next? ==>
              Get(Step(svc, GeneratePrompt, doc1).output, [Field("prompt")]) ==
              Get(Step(svc, GeneratePrompt, doc2).output, [Field("prompt")])
  {
    GeneratePromptEffect(svc, doc1);
    GeneratePromptEffect(svc, doc2);
  }

  /** The model's completion for `prompt`, parsed as JSON; `None` when any of the three steps fails. */
  function ModelCompletion(svc: Services, prompt: Json): Option<Json>
  {
    match svc.invokeModel(BedrockBody(prompt))
    case TaskFailed(_, _) => None
    case TaskSucceeded(response) =>
      match Get(response, [Field("Body"), Field("completion")])
      case Some(Str(text)) => svc.stringToJson(text)
      case _ => None
  }

  /** Summarize Totals ends the run with the parsed completion and nothing else of its input or response. */
  lemma SummarizeTotalsRun(svc: Services, doc: Json, v: Json)
    ensures RunFrom(svc, SummarizeTotals, doc) == Succeeded(v) <==>
              Get(doc, [Field("prompt")]).Some? && ModelCompletion(svc, Get(doc, [Field("prompt")]).value) == Some(v)
  {
    var v' := Get(Obj(map["completion" := v]), [Field("completion")]);
    assert v' == Some(v);
  }

  /** What the last two states compute from the processed receipts. */
  function Summary(svc: Services, processed: Json): Option<Json>
  {
    match svc.evaluateExpression(processed)
    case TaskFailed(_, _) => None
    case TaskSucceeded(prompt) => ModelCompletion(svc, prompt)
  }

  /**
   * A run succeeds exactly when `$.receipts` is a non-empty array, every receipt's item
   * processor succeeds, and the prompt rendered from their results yields a parsable
   * completion; the output is that parsed completion.
   */
  lemma RunSucceeds(svc: Services, input: Json, v: Json)
    ensures Run(svc, input) == Succeeded(v) <==>
              && Receipts(input).Some? && |Receipts(input).value| > 0
              && RunEach(svc, ProcessReceipt, Receipts(input).value).Ok?
              && Summary(svc, Arr(RunEach(svc, ProcessReceipt, Receipts(input).value).value)) == Some(v)
  {
    CountReceiptsEffect(svc, input);
    if Receipts(input).Some? {
      var items := Receipts(input).value;
      var doc1 := Step(svc, CountReceipts, input).output;
      assert Run(svc, input) == RunFrom(svc, HasReceipts, doc1);
      HasReceiptsRoute(svc, doc1, |items|);
      if |items| > 0 {
        assert RunFrom(svc, HasReceipts, doc1) == RunFrom(svc, ProcessReceipts, doc1);
        assert Receipts(doc1) == Some(items) by {
          assert Get(doc1, [Field("receipts")]) == Get(input, [Field("receipts")]);
        }
        var run := RunEach(svc, ProcessReceipt, items);
        if run.Ok? {
          var doc2 := SetField(doc1, "processedReceipts", Arr(run.value)).value;
          assert RunFrom(svc, ProcessReceipts, doc1) == RunFrom(svc, GeneratePrompt, doc2);
          assert Get(doc2, [Field("processedReceipts")]) == Some(Arr(run.value));
          GeneratePromptEffect(svc, doc2);
          var rendered := svc.evaluateExpression(Arr(run.value));
          if rendered.TaskSucceeded? {
            var doc3 := Step(svc, GeneratePrompt, doc2).output;
            assert RunFrom(svc, GeneratePrompt, doc2) == RunFrom(svc, SummarizeTotals, doc3);
            SummarizeTotalsRun(svc, doc3, v);
          }
        }
      }
    }
  }
}
