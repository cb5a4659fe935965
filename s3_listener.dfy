/**
 * The S3 Listener Lambda: turn an S3 event into one SQS batch request with an entry per
 * uploaded object. `decodeURIComponent` and `JSON.stringify` are parameters (the first one
 * partial: `None` is a thrown URIError), and so is the SQS send.
 */
module S3Listener {
  import opened Wrappers
  import opened Json
  import FileNames

  /** The members of one S3 event record that the handler reads. */
  datatype S3Record = S3Record(eventTime: string, bucketName: string, objectKey: string)

  datatype BatchEntry = BatchEntry(id: string, messageBody: string, delaySeconds: nat)

  datatype SendMessageBatchInput = SendMessageBatchInput(queueUrl: string, entries: seq<BatchEntry>)

  /** What the handler throws. */
  datatype Failure =
    | QueueUrlNotDefined            // thrown before any record is read
    | NoRecords                     // `event.Records[0].eventTime` on an empty list: a TypeError, not wrapped
    | UriMalformed                  // decodeURIComponent's URIError, also outside the try block
    | SendFailed(message: string)   // the send failed; rethrown with a prefix

  const SendErrorPrefix := "Error processing S3 event: "

  /** The message of the thrown error (for the two runtime errors, the text Node.js gives them). */
  function Message(f: Failure): string
  {
    match f
    case QueueUrlNotDefined => "SQS_QUEUE_URL is not defined"
    case NoRecords => "Cannot read properties of undefined (reading 'eventTime')"
    case UriMalformed => "URI malformed"
    case SendFailed(m) => SendErrorPrefix + m
  }

  const DelaySeconds: nat := 10

  /** `key.replace(/\+/g, ' ')`: every '+' becomes a space, every other character stays. */
  function ReplacePlus(key: string): (r: string)
    ensures |r| == |key|
    ensures forall i :: 0 <= i < |key| ==> r[i] == (if key[i] == '+' then ' ' else key[i])
  {
    if key == [] then [] else [if key[0] == '+' then ' ' else key[0]] + ReplacePlus(key[1..])
  }

  /** The decoded keys, in record order; `None` when some key does not decode. */
  function DecodeKeys(records: seq<S3Record>, decode: string -> Option<string>): (r: Option<seq<string>>)
    ensures r.Some? <==> forall i :: 0 <= i < |records| ==> decode(ReplacePlus(records[i].objectKey)).Some?
    ensures r.Some? ==> (|r.value| == |records| &&
              forall i :: 0 <= i < |records| ==> decode(ReplacePlus(records[i].objectKey)) == Some(r.value[i]))
  {
    if records == [] then Some([])
    else match decode(ReplacePlus(records[0].objectKey))
      case None => None
      case Some(key) =>
        match DecodeKeys(records[1..], decode)
        case None => None
        case Some(rest) => Some([key] + rest)
  }

  /** The message body before it is stringified. */
  function MessageBody(requestId: string, eventTime: string, bucketName: string, key: string): Json
  {
    Obj(map["requestId" := Str(requestId), "eventTime" := Str(eventTime),
            "bucketName" := Str(bucketName), "key" := Str(key)])
  }

  /** The request the handler sends, or the error it throws before sending. */
  function Request(
    queueUrl: Option<string>, records: seq<S3Record>, requestId: string,
    decode: string -> Option<string>, stringify: Json -> string): (r: Result<SendMessageBatchInput, Failure>)
    ensures r == Err(QueueUrlNotDefined) <==> queueUrl.None?
    ensures r == Err(NoRecords) <==> queueUrl.Some? && records == []
    ensures r == Err(UriMalformed) <==>
              queueUrl.Some? && records != [] &&
              exists i :: 0 <= i < |records| && decode(ReplacePlus(records[i].objectKey)).None?
    ensures r.Err? ==> !r.error.SendFailed?
    ensures r.Ok? <==> (queueUrl.Some? && records != [] &&
              forall i :: 0 <= i < |records| ==> decode(ReplacePlus(records[i].objectKey)).Some?)
    ensures r.Ok? ==>
              && queueUrl.Some? && r.value.queueUrl == queueUrl.value
              && |r.value.entries| == |records|
              && forall i :: 0 <= i < |records| ==>
                   exists key :: decode(ReplacePlus(records[i].objectKey)) == Some(key) &&
                     r.value.entries[i] == BatchEntry(
                       FileNames.RemoveFileExtension(key),
                       stringify(MessageBody(requestId, records[0].eventTime, records[0].bucketName, key)),
                       DelaySeconds)
  {
    if queueUrl.None? then Err(QueueUrlNotDefined)
    else if records == [] then Err(NoRecords)
    else
      var eventTime, bucketName := records[0].eventTime, records[0].bucketName;
      match DecodeKeys(records, decode)
      case None => Err(UriMalformed)
      case Some(keys) =>
        var entries := seq(|keys|, i requires 0 <= i < |keys| =>
          BatchEntry(FileNames.RemoveFileExtension(keys[i]),
                     stringify(MessageBody(requestId, eventTime, bucketName, keys[i])),
                     DelaySeconds));
        Ok(SendMessageBatchInput(queueUrl.value, entries))
  }

  /** The whole handler: build the request, send it, rethrow a failed send with a prefix. */
  function Handler<R>(
    queueUrl: Option<string>, records: seq<S3Record>, requestId: string,
    decode: string -> Option<string>, stringify: Json -> string,
    send: SendMessageBatchInput -> Result<R, string>): (r: Result<R, Failure>)
    ensures Request(queueUrl, records, requestId, decode, stringify).Err? ==>
              r == Err(Request(queueUrl, records, requestId, decode, stringify).error)
    ensures r.Ok? ==> (Request(queueUrl, records, requestId, decode, stringify).Ok? &&
              send(Request(queueUrl, records, requestId, decode, stringify).value) == Ok(r.value))
    ensures Request(queueUrl, records, requestId, decode, stringify).Ok? ==>
              r == match send(Request(queueUrl, records, requestId, decode, stringify).value)
                   case Ok(response) => Ok(response)
                   case Err(m) => Err(SendFailed(m))
    ensures r.Err? && r.error.SendFailed? ==> (
              Request(queueUrl, records, requestId, decode, stringify).Ok? &&
              send(Request(queueUrl, records, requestId, decode, stringify).value) == Err(r.error.message) &&
              Message(r.error) == SendErrorPrefix + r.error.message)
  {
    match Request(queueUrl, records, requestId, decode, stringify)
    case Err(f) => Err(f)
    case Ok(input) =>
      match send(input)
      case Ok(response) => Ok(response)
      case Err(m) => Err(SendFailed(m))
  }

  /** '%2B' reaches the decoder intact, while a literal '+' reaches it as a space. */
  lemma PlusBecomesSpace()
    ensures ReplacePlus("a+b%2B.png") == "a b%2B.png"
  {
  }
}
