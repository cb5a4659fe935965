/**
 * The SFN Triggerer Lambda: parse every SQS message body, keep its `bucketName` and `key`,
 * and start one workflow execution with `{receipts: [...]}`. `JSON.parse` is a parameter
 * (`Err` carries the SyntaxError's message), and so is the StartExecution send. The execution
 * input is given as the JSON value `JSON.stringify` serialises: a property read off a body
 * that lacks it is `undefined`, and `JSON.stringify` leaves such a property out.
 */
module SfnTrigger {
  import opened Wrappers
  import opened Json

  datatype SqsRecord = SqsRecord(body: string)

  datatype StartExecutionInput = StartExecutionInput(stateMachineArn: string, input: Json)

  /** What the handler throws. */
  datatype Failure =
    | ArnNotDefined                  // thrown before the try block
    | ProcessingFailed(cause: string) // anything thrown inside the try block, rethrown with a prefix

  const ProcessingErrorPrefix := "Error processing SQS event: "

  function Message(f: Failure): string
  {
    match f
    case ArnNotDefined => "STEP_FUNCTION_ARN is not defined"
    case ProcessingFailed(cause) => ProcessingErrorPrefix + cause
  }

  /** The TypeError Node.js throws for `null.bucketName`. */
  const NullBodyMessage := "Cannot read properties of null (reading 'bucketName')"

  /** The two properties a receipt keeps. */
  predicate IsReceiptField(k: string) { k == "bucketName" || k == "key" }

  /** `{bucketName: body.bucketName, key: body.key}` for one parsed body. */
  function Receipt(body: Json): (r: Result<Json, string>)
    ensures r.Err? <==> body.Null?
    ensures r.Ok? ==> r.value.Obj? && forall k :: k in r.value.fields ==> IsReceiptField(k)
    ensures r.Ok? ==> forall k :: IsReceiptField(k) ==>
              Get(r.value, [Field(k)]) == Get(body, [Field(k)])
  {
    match body
    case Null => Err(NullBodyMessage)
    case Obj(m) => Ok(Obj(map k | k in m && IsReceiptField(k) :: m[k]))
    case _ => Ok(Obj(map[]))
  }

  /** The receipt of the message at each position, or what the first failing message threw. */
  function Payload(records: seq<SqsRecord>, parse: string -> Result<Json, string>): (r: Result<seq<Json>, string>)
    ensures r.Ok? <==> forall i :: 0 <= i < |records| ==>
              parse(records[i].body).Ok? && Receipt(parse(records[i].body).value).Ok?
    ensures r.Ok? ==> |r.value| == |records| && forall i :: 0 <= i < |records| ==>
              Receipt(parse(records[i].body).value) == Ok(r.value[i])
    ensures r.Err? ==> exists i :: (0 <= i < |records| && FailsWith(records[i], parse, r.error) &&
              forall j :: 0 <= j < i ==> !Fails(records[j], parse))
  {
    if records == [] then Ok([])
    else match parse(records[0].body)
      case Err(m) => Err(m)
      case Ok(body) =>
        match Receipt(body)
        case Err(m) => Err(m)
        case Ok(receipt) =>
          match Payload(records[1..], parse)
          case Err(m) =>
            assert forall j :: 1 <= j < |records| ==> records[1..][j - 1] == records[j];
            Err(m)
          case Ok(rest) => Ok([receipt] + rest)
  }

  predicate Fails(record: SqsRecord, parse: string -> Result<Json, string>)
  {
    parse(record.body).Err? || Receipt(parse(record.body).value).Err?
  }

  /** Processing `record` throws an error whose message is `m`. */
  predicate FailsWith(record: SqsRecord, parse: string -> Result<Json, string>, m: string)
  {
    match parse(record.body)
    case Err(e) => e == m
    case Ok(body) => Receipt(body) == Err(m)
  }

  /** The StartExecution request, or the error thrown before it is sent. */
  function Request(arn: Option<string>, records: seq<SqsRecord>, parse: string -> Result<Json, string>): (r: Result<StartExecutionInput, Failure>)
    ensures arn.None? <==> r == Err(ArnNotDefined)
    ensures r.Ok? ==> (
              && r.value.stateMachineArn == arn.value
              && r.value.input.Obj? && r.value.input.fields.Keys == {"receipts"}
              && exists ps :: Payload(records, parse) == Ok(ps) && r.value.input.fields["receipts"] == Arr(ps))
    ensures r.Err? && r.error.ProcessingFailed? ==> Payload(records, parse) == Err(r.error.cause)
  {
    match arn
    case None => Err(ArnNotDefined)
    case Some(a) =>
      match Payload(records, parse)
      case Err(m) => Err(ProcessingFailed(m))
      case Ok(ps) => Ok(StartExecutionInput(a, Obj(map["receipts" := Arr(ps)])))
  }

  /** The whole handler: a failed send is rethrown with the same prefix as a failed parse. */
  function Handler<R>(
    arn: Option<string>, records: seq<SqsRecord>, parse: string -> Result<Json, string>,
    send: StartExecutionInput -> Result<R, string>): (r: Result<R, Failure>)
    ensures Request(arn, records, parse).Err? ==> r == Err(Request(arn, records, parse).error)
    ensures r.Ok? ==> (Request(arn, records, parse).Ok? && send(Request(arn, records, parse).value) == Ok(r.value))
    ensures Request(arn, records, parse).Ok? ==>
              r == match send(Request(arn, records, parse).value)
                   case Ok(response) => Ok(response)
                   case Err(m) => Err(ProcessingFailed(m))
  {
    match Request(arn, records, parse)
    case Err(f) => Err(f)
    case Ok(input) =>
      match send(input)
      case Ok(response) => Ok(response)
      case Err(m) => Err(ProcessingFailed(m))
  }
}
