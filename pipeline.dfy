/**
 * How the pieces meet: the S3 Listener's batch entries arrive as the SFN Triggerer's SQS
 * records, the execution input it builds is the workflow's `$.receipts`, and the Get-* tasks
 * call the Get Query Answer handler.
 */
module Pipeline {
  import opened Wrappers
  import opened Json
  import opened Types
  import S3Listener
  import SfnTrigger
  import ReceiptWorkflow
  import QueryAnswer

  /** The SQS records the triggerer receives for a batch: one per entry, with the entry's body. */
  function Delivered(batch: S3Listener.SendMessageBatchInput): seq<SfnTrigger.SqsRecord>
  {
    seq(|batch.entries|, i requires 0 <= i < |batch.entries| => SfnTrigger.SqsRecord(batch.entries[i].messageBody))
  }

  /** The receipt the workflow gets for an uploaded object: the first record's bucket and the object's decoded key. */
  function ExpectedReceipt(bucketName: string, key: string): Json
  {
    Obj(map["bucketName" := Str(bucketName), "key" := Str(key)])
  }

  /** The triggerer keeps exactly the bucket and key of a listener message body. */
  lemma ReceiptOfMessageBody(requestId: string, eventTime: string, bucketName: string, key: string)
    ensures SfnTrigger.Receipt(S3Listener.MessageBody(requestId, eventTime, bucketName, key)) ==
              Ok(ExpectedReceipt(bucketName, key))
  {
    var m := S3Listener.MessageBody(requestId, eventTime, bucketName, key).fields;
    var kept := map k | k in m && SfnTrigger.IsReceiptField(k) :: m[k];
    assert kept.Keys == {"bucketName", "key"};
    assert kept == ExpectedReceipt(bucketName, key).fields;
  }

  /**
   * When `JSON.parse` undoes `JSON.stringify`, a batch the listener sends becomes an execution
   * whose `$.receipts` holds one receipt per uploaded object, in upload order, each with the first
   * record's bucket and that object's decoded key; Count Receipts then counts the uploads.
   */
  lemma ListenerToWorkflow(
    queueUrl: string, records: seq<S3Listener.S3Record>, requestId: string,
    decode: string -> Option<string>, stringify: Json -> string,
    parse: string -> Result<Json, string>, arn: string, svc: ReceiptWorkflow.Services)
    requires S3Listener.Request(Some(queueUrl), records, requestId, decode, stringify).Ok?
    requires forall j :: parse(stringify(j)) == Ok(j)
    ensures var batch := S3Listener.Request(Some(queueUrl), records, requestId, decode, stringify).value;
      var start := SfnTrigger.Request(Some(arn), Delivered(batch), parse);
      var keys := S3Listener.DecodeKeys(records, decode).value;
      && S3Listener.DecodeKeys(records, decode).Some?
      && start.Ok? && start.value.stateMachineArn == arn
      && ReceiptWorkflow.Receipts(start.value.input) ==
           Some(seq(|records|, i requires 0 <= i < |records| => ExpectedReceipt(records[0].bucketName, keys[i])))
      && Get(ReceiptWorkflow.Step(svc, ReceiptWorkflow.CountReceipts, start.value.input).output,
             [Field("info"), Field("receiptsCount")]) == Some(Num(|records|))
  {
    var batch := S3Listener.Request(Some(queueUrl), records, requestId, decode, stringify).value;
    var keys := S3Listener.DecodeKeys(records, decode).value;
    var sqs := Delivered(batch);
    var expected := seq(|records|, i requires 0 <= i < |records| => ExpectedReceipt(records[0].bucketName, keys[i]));
    forall i | 0 <= i < |sqs|
      ensures parse(sqs[i].body).Ok?
      ensures SfnTrigger.Receipt(parse(sqs[i].body).value) == Ok(expected[i])
    {
      var body := S3Listener.MessageBody(requestId, records[0].eventTime, records[0].bucketName, keys[i]);
      assert sqs[i].body == stringify(body);
      ReceiptOfMessageBody(requestId, records[0].eventTime, records[0].bucketName, keys[i]);
    }
    var payload := SfnTrigger.Payload(sqs, parse);
    assert payload.Ok?;
    assert payload.value == expected;
    var start := SfnTrigger.Request(Some(arn), sqs, parse);
    assert Get(start.value.input, [Field("receipts")]) == Some(Arr(expected));
    ReceiptWorkflow.CountReceiptsEffect(svc, start.value.input);
  }

  /**
   * The Get Query Answer Lambda as a task: the handler's text as the payload, or the thrown
   * `Error` and its message. `decodeEvent` reads the task payload as the handler's event.
   */
  function QueryAnswerLambda(decodeEvent: Json -> QueryAnswer.Event): Json -> ReceiptWorkflow.TaskResult
  {
    (p: Json) =>
      match QueryAnswer.Handler(decodeEvent(p))
      case Ok(text) => ReceiptWorkflow.TaskSucceeded(Str(text))
      case Err(e) => ReceiptWorkflow.TaskFailed("Error", QueryAnswer.Message(e))
  }

  /** The handler's result for alias `a` on the receipt processor's payload `p`. */
  function HandlerAnswer(decodeEvent: Json -> QueryAnswer.Event, p: Json, a: Alias): Result<string, QueryAnswer.ExtractError>
  {
    QueryAnswer.Handler(decodeEvent(ReceiptWorkflow.QueryPayload(p, a)))
  }

  /**
   * With the handler behind the Get-* tasks, and the task payload read back as an event whose
   * alias is the branch's alias, a processed receipt is the three texts the handler finds, each
   * non-empty; the first handler error, in branch order, fails the receipt. Given how the payload
   * is read back, that error is never the missing-alias error.
   */
  lemma ProcessedReceiptFromHandler(svc: ReceiptWorkflow.Services, decodeEvent: Json -> QueryAnswer.Event, item: Json)
    requires svc.getQueryAnswer == QueryAnswerLambda(decodeEvent)
    requires forall q, a :: decodeEvent(ReceiptWorkflow.QueryPayload(q, a)).alias == Some(AliasName(a))
    requires svc.processReceipt(item).TaskSucceeded?
    ensures var p := svc.processReceipt(item).payload;
      var a, d, c := HandlerAnswer(decodeEvent, p, Amount), HandlerAnswer(decodeEvent, p, Date), HandlerAnswer(decodeEvent, p, Concept);
      && (a.Err? ==> a.error != QueryAnswer.AliasNotDefined)
      && (d.Err? ==> d.error != QueryAnswer.AliasNotDefined)
      && (c.Err? ==> c.error != QueryAnswer.AliasNotDefined)
      && (a.Err? ==>
            ReceiptWorkflow.RunFrom(svc, ReceiptWorkflow.ProcessReceipt, item) ==
              ReceiptWorkflow.Failed(ReceiptWorkflow.TaskError(ReceiptWorkflow.GetReceiptAmount, "Error", QueryAnswer.Message(a.error))))
      && (a.Ok? && d.Err? ==>
            ReceiptWorkflow.RunFrom(svc, ReceiptWorkflow.ProcessReceipt, item) ==
              ReceiptWorkflow.Failed(ReceiptWorkflow.TaskError(ReceiptWorkflow.GetReceiptDate, "Error", QueryAnswer.Message(d.error))))
      && (a.Ok? && d.Ok? && c.Err? ==>
            ReceiptWorkflow.RunFrom(svc, ReceiptWorkflow.ProcessReceipt, item) ==
              ReceiptWorkflow.Failed(ReceiptWorkflow.TaskError(ReceiptWorkflow.GetReceiptConcept, "Error", QueryAnswer.Message(c.error))))
      && (a.Ok? && d.Ok? && c.Ok? ==>
            && a.value != "" && d.value != "" && c.value != ""
            && ReceiptWorkflow.RunFrom(svc, ReceiptWorkflow.ProcessReceipt, item) ==
                 ReceiptWorkflow.Succeeded(Obj(map["amount" := Str(a.value), "date" := Str(d.value), "concept" := Str(c.value)])))
  {
    var p := svc.processReceipt(item).payload;
    ReceiptWorkflow.ItemProcessor(svc, item);
    ReceiptWorkflow.ParallelRun(svc, p);
    assert decodeEvent(ReceiptWorkflow.QueryPayload(p, Amount)).alias.Some?;
    assert decodeEvent(ReceiptWorkflow.QueryPayload(p, Date)).alias.Some?;
    assert decodeEvent(ReceiptWorkflow.QueryPayload(p, Concept)).alias.Some?;
  }
}
