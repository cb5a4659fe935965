# Serverless receipt processing: a Dafny model

The system turns receipt images uploaded to S3 into a summary of expenses, in these steps:

1. The **S3 Listener** Lambda puts one SQS message per uploaded object. The message Id is the
   object key with its extension removed.
2. The **SFN Triggerer** Lambda reads a batch of those messages. It keeps each message's bucket
   and key and starts one execution of the **receipt-processor state machine** with
   `{receipts: [...]}`.
3. The state machine counts the receipts and fails when there are none.
4. For each receipt it runs the Receipt Processor Lambda (Textract). It then runs three
   **Get Query Answer** Lambdas in parallel, which pull the amount, date and concept out of the
   Textract response.
5. It renders a prompt from the results, asks a Bedrock model for a summary, and returns the
   parsed completion.

A second, demonstration state machine is built by the **state-machine construct**. It queues a
message carrying a task token, waits for a worker to hand the token back, and routes success, a
timeout or a failure to one of three Pass states. The construct adds a scheduler rule when the
environment has a schedule. The CDK code also provides:

- the environment lookup;
- resource and stack naming;
- four IAM policy builders.

Module by module:

- `QueryAnswer`: the Get Query Answer handler. It has ten named errors, checked in a fixed
  order, over Textract blocks whose members may be absent.
- `Search`: `find`/`some` as a first-index search.
- `FileNames`: `removeFileExtension`, the regex `\.[^/.]+$` stated on the last '.'.
- `S3Listener`: the key decoding, the batch entries, and the wrapping of the two kinds of error.
  `decodeURIComponent`, `JSON.stringify` and the SQS send are parameters.
- `SfnTrigger`: the projection of message bodies to `{bucketName, key}` and the execution
  input. `JSON.parse` and the StartExecution send are parameters.
- `Json`:
  - the JSON value;
  - reference paths;
  - the ResultPath write at a top-level field, which fails with States.ResultPathMatchFailure on
    an input that is not an object.
- `ReceiptWorkflow`: the receipt-processor state graph as a fixed enum of states.
  - `Step` runs one state with the Amazon States Language's Parameters, ResultSelector,
    ResultPath and OutputPath.
  - `RunFrom` runs to the end; termination follows from a rank that every transition lowers.
  - `RunEach` is the Map state.
  - The Lambda, EvaluateExpression and Bedrock tasks, and `States.StringToJson`, are parameters
    (`Services`).
- `CallbackWorkflow`:
  - the callback task, its catchers and the three Pass states;
  - the heartbeat rule, with the worker's signals as a parameter;
  - the `StateMachineConstruct` class, whose constructor and `AddScheduler` update its fields.
- `Config`, `ResourceNames`, `Permissions`, `Types`: the environment registry, naming, policies
  (with IAM's `*`/`?` resource matching) and the shared enums.
- `Pipeline`: how the pieces connect.
  - Listener output, delivered through SQS and parsed back, becomes the workflow's
    `$.receipts`.
  - The Get-* tasks backed by the handler model give the handler's texts.

The code declares two state-machine definitions, and those are what is modelled. AWS Step
Functions, the service that runs them, is not modelled (see "## Left out").

Catch matching follows the Amazon States Language rule. A catcher listing `States.TaskFailed`
matches every error name except `States.Timeout`; `States.Runtime` is matched by no catcher. So
in the callback demo, an error other than those two is routed to Failure. It does not fail the
run, as a literal comparison of error names would suggest.

## Model

| member | source | states |
|---|---|---|
| QueryAnswer.Handler | src/handlers/extract-query-response.ts:8-65 | The alias guard, MissingBlocks, MissingQueryBlocks and MissingQueryResultBlocks fire exactly when their conditions hold, in that order. An absent Blocks and an empty Blocks are told apart. A returned text is never empty. |
| QueryAnswer.LookupOutcomes | src/handlers/extract-query-response.ts:30-64 | Once the type guards pass, each of the last six outcomes holds exactly when its condition on the visited positions holds. Only the first QUERY block with the alias, its first ANSWER relationship and that relationship's first id are followed. An empty Ids searches for a block with no Id. The result block is the first block with that Id, of any type. Its non-empty Text is the result. |
| Search.FindFirst | src/handlers/extract-query-response.ts:30-32 | The index returned is the first one satisfying the predicate. None is returned exactly when no element satisfies it. |
| FileNames.RemoveFileExtension | src/utils/remove-file-extension.ts:1-3 | The result is a prefix of the input. Where the pattern matches (a '.' followed by a non-empty tail with no '/' or '.'), the result is the text before that '.'. Where the pattern does not match, the input is unchanged. |
| FileNames.NoDotIsFixedPoint | src/utils/remove-file-extension.ts:2 | A name with no '.' is returned unchanged. |
| FileNames.Examples | src/utils/remove-file-extension.ts:2 | receipt.png gives receipt. a.tar.gz gives a.tar. a. is unchanged. dir.v1/file is unchanged. .bashrc gives the empty string. |
| FileNames.NotIdempotent | src/utils/remove-file-extension.ts:2 | Applying it twice to a.tar.gz gives a, which differs from applying it once. |
| S3Listener.ReplacePlus | src/handlers/s3-listener.ts:21 | Every '+' becomes a space, every other character is kept, and the length is unchanged. |
| S3Listener.DecodeKeys | src/handlers/s3-listener.ts:20-24 | Keys decode exactly when every record's key decodes after the '+' replacement. The decoded keys are aligned with the records. |
| S3Listener.Request | src/handlers/s3-listener.ts:10-38 | Errors, none of them wrapped, each exactly when its condition holds: a missing queue URL comes first, then no records, then URIError when some key fails to decode. The request is built exactly when the URL is set, there are records and every key decodes. Then there is one entry per record, in order. Each entry's Id is its decoded key without the extension. Its body holds the request id, the first record's eventTime and bucket, and that entry's key. DelaySeconds is 10. |
| S3Listener.Handler | src/handlers/s3-listener.ts:40-52 | Errors before the send pass through unchanged. Once the request is built, a successful send returns exactly its response and a failed send is rethrown with the prefix "Error processing S3 event: ". |
| S3Listener.PlusBecomesSpace | src/handlers/s3-listener.ts:21 | A literal '+' reaches the decoder as a space, while '%2B' reaches it intact. |
| SfnTrigger.Receipt | src/handlers/process-sqs-events-trigger-sfn.ts:27-32 | A null body throws. Any other body gives an object holding only bucketName and key, each present exactly when the body has it. |
| SfnTrigger.Payload | src/handlers/process-sqs-events-trigger-sfn.ts:26-33 | It succeeds exactly when every body parses and projects. It then gives one receipt per record, in order. Otherwise it gives the error of the first failing record. |
| SfnTrigger.Request | src/handlers/process-sqs-events-trigger-sfn.ts:14-37 | A missing ARN gives exactly ArnNotDefined. Otherwise the input is `{receipts: payload}`, addressed to the ARN. A failed projection becomes ProcessingFailed with its message. |
| SfnTrigger.Handler | src/handlers/process-sqs-events-trigger-sfn.ts:23-49 | Errors before the send pass through unchanged. Once the request is built, a successful send returns exactly its response and a failed send is rethrown with the same prefix as a failed parse. |
| Json.SetField | cdk/lib/stacks/receipt-processor-sfn-stack.ts:123 | The write succeeds exactly on objects. It sets the field and leaves every other field and key unchanged. |
| ReceiptWorkflow.Step | cdk/lib/stacks/receipt-processor-sfn-stack.ts:119-290 | Every transition goes to a state of lower rank, so the graph is acyclic and every run ends. |
| ReceiptWorkflow.Receipts | cdk/lib/stacks/receipt-processor-sfn-stack.ts:121 | It is defined exactly when `$.receipts` is an array, and then it is that array. |
| ReceiptWorkflow.RunEach | cdk/lib/stacks/receipt-processor-sfn-stack.ts:212-218 | It succeeds exactly when every item's run succeeds. The results are aligned with the items, in item order. Otherwise it gives the first failing item's error. |
| ReceiptWorkflow.CountReceiptsEffect | cdk/lib/stacks/receipt-processor-sfn-stack.ts:119-124 | `$.info` becomes exactly `{receiptsCount: length of $.receipts}`, replacing whatever was there. Every other field is unchanged. A missing or non-array `$.receipts` is a States.Runtime error. |
| ReceiptWorkflow.HasReceiptsRoute | cdk/lib/stacks/receipt-processor-sfn-stack.ts:223-229 | The input goes on unchanged: to Process Receipts when the count is above 0, else to No Receipts. |
| ReceiptWorkflow.Run | cdk/lib/stacks/receipt-processor-sfn-stack.ts:223-229 | An empty `$.receipts` ends the run failed at No Receipts, whatever the services do. Only a non-empty `$.receipts` array can lead to success. No Receipts is the only Fail state a run can end in. |
| ReceiptWorkflow.BranchRun | cdk/lib/stacks/receipt-processor-sfn-stack.ts:142-186 | Each Get-* task sends `{textractResponse: whole input, alias}`. It keys the answer by its alias, or fails with the task's error. |
| ReceiptWorkflow.SelectAnswersPicks | cdk/lib/stacks/receipt-processor-sfn-stack.ts:194-200 | The resultSelector takes amount from branch 0, date from branch 1 and concept from branch 2. |
| ReceiptWorkflow.ParallelRun | cdk/lib/stacks/receipt-processor-sfn-stack.ts:194-203 | All three branches get the same input. The output is exactly `{amount, date, concept}` from the three answers. Otherwise it fails with the first failing branch, in declaration order. |
| ReceiptWorkflow.ItemProcessor | cdk/lib/stacks/receipt-processor-sfn-stack.ts:132-135 | A receipt's run fails with Process Receipt's error, or else is the Parallel run on the raw Lambda payload. |
| ReceiptWorkflow.ProcessReceiptsEffect | cdk/lib/stacks/receipt-processor-sfn-stack.ts:212-218 | `$.processedReceipts` gets one item-processor result per receipt, in order. Every other field is unchanged. Otherwise the state fails with the first failing receipt's error. |
| ReceiptWorkflow.GeneratePromptEffect | cdk/lib/stacks/receipt-processor-sfn-stack.ts:235-251 | The prompt is rendered from `$.processedReceipts` and stored at `$.prompt`, and every other field is unchanged. A missing `$.processedReceipts` is a States.Runtime error. |
| ReceiptWorkflow.PromptDependsOnlyOnProcessedReceipts | cdk/lib/stacks/receipt-processor-sfn-stack.ts:235-249 | Two inputs that agree on `$.processedReceipts` get the same prompt. |
| ReceiptWorkflow.SummarizeTotalsRun | cdk/lib/stacks/receipt-processor-sfn-stack.ts:268-282 | The state succeeds with v exactly when the model response's `Body.completion` parses to v. Nothing else of the input or the response is kept. |
| ReceiptWorkflow.RunSucceeds | cdk/lib/stacks/receipt-processor-sfn-stack.ts:119-290 | A run succeeds with v exactly when all of the following hold: `$.receipts` is a non-empty array; every receipt is processed; the prompt rendered from the results yields a completion that parses to v. |
| CallbackWorkflow.CatchTarget | cdk/lib/constructs/state-machine-construct.ts:44-49 | The target is that of the first catcher in order that matches. None is returned exactly when no catcher matches. |
| CallbackWorkflow.Resolve | cdk/lib/constructs/state-machine-construct.ts:33 | The task times out exactly when the worker gives no answer (a non-heartbeat signal) with every gap up to and including it at most 300 seconds. When it does, the outcome is that answer: its output on success, its error and cause on failure. |
| CallbackWorkflow.Recover | cdk/lib/constructs/state-machine-construct.ts:44-49 | A caught error goes only to Timeout or Failure. Only States.Runtime is left uncaught. |
| CallbackWorkflow.Step | cdk/lib/constructs/state-machine-construct.ts:25-49 | The callback task moves only to a lower state and never ends the run itself. The three Pass states end the run with their input unchanged. A step fails only with States.Runtime. |
| CallbackWorkflow.Run | cdk/lib/constructs/state-machine-construct.ts:51-53 | A run that succeeds ends in Success, Timeout or Failure. A run that fails, fails with States.Runtime. |
| CallbackWorkflow.QueuedMessage | cdk/lib/constructs/state-machine-construct.ts:31-40 | The message goes to the given queue URL and carries the fixed title and the task token. |
| CallbackWorkflow.CatcherRouting | cdk/lib/constructs/state-machine-construct.ts:44-49 | States.Timeout goes to Timeout. States.TaskFailed and every other catchable name go to Failure. States.Runtime is not caught. |
| CallbackWorkflow.RecoverCatches | cdk/lib/constructs/state-machine-construct.ts:44-49 | Every error except States.Runtime is caught, and the output is `{Error, Cause}`. |
| CallbackWorkflow.SuccessStoresOutput | cdk/lib/constructs/state-machine-construct.ts:41-53 | A success callback stores the worker's output at `$.SQS`, keeps every other field, and ends in Success. |
| CallbackWorkflow.TimeoutRoutesToTimeout | cdk/lib/constructs/state-machine-construct.ts:33-46 | A missed heartbeat ends in Timeout with the States.Timeout error as output. |
| CallbackWorkflow.FailureRoutesToFailure | cdk/lib/constructs/state-machine-construct.ts:44-49 | A failure signal ends in Failure with `{Error, Cause}`, or in Timeout when the worker itself reports States.Timeout. |
| CallbackWorkflow.LateAnswerTimesOut | cdk/lib/constructs/state-machine-construct.ts:33 | An answer arriving after 301 silent seconds is too late, and the run ends in Timeout. |
| CallbackWorkflow.NeverFails | cdk/lib/constructs/state-machine-construct.ts:25-53 | Every run ends succeeded in Success, Timeout or Failure, unless the worker reports the reserved States.Runtime. |
| CallbackWorkflow.StateMachineConstruct.constructor | cdk/lib/constructs/state-machine-construct.ts:20-71 | It keeps the environment and builds the state machine for the queue. A scheduler rule exists exactly when the environment has scheduleOptions. |
| CallbackWorkflow.StateMachineConstruct.AddScheduler | cdk/lib/constructs/state-machine-construct.ts:73-89 | With no scheduleOptions it refuses with the fixed message and changes nothing. Otherwise it adds the cron rule targeting the state machine, assumed by events.amazonaws.com. |
| Config.GetEnvironment | cdk/lib/config/environments/index.ts:10-22 | An undefined name gives "Missing ENV_NAME". Success comes exactly for "dev", and then the result is the dev record. Any other name gives the message listing the valid names and echoing the received one. |
| Config.OnlyDevIsRegistered | cdk/lib/config/environments/index.ts:6-8 | Among the enum's names, only dev is accepted. |
| Config.EnvironmentNamesJoined | cdk/lib/config/environments/index.ts:18 | The list in the refusal reads "dev , qa , stage , prod". |
| ResourceNames.GetResourcePrefix | cdk/lib/utils/resource-names.ts:3-5 | The prefix has no upper-case letter. |
| ResourceNames.GetStackName | cdk/lib/utils/resource-names.ts:7-9 | The stack name has no upper-case letter. |
| ResourceNames.ResourcePrefixShape | cdk/lib/utils/resource-names.ts:4 | The prefix is the lower-cased project, environment name and app name joined by '-'. Its length is theirs plus 2. |
| ResourceNames.StackNameShape | cdk/lib/utils/resource-names.ts:8 | The stack name is the prefix, then "-cdk-", then the region code. |
| ResourceNames.ToLowerIdempotent | cdk/lib/utils/resource-names.ts:8 | Lower-casing twice is lower-casing once. |
| Permissions.CreateSfnStartExecutionPolicy | cdk/lib/utils/permissions.ts:3-18 | The policy allows states:StartExecution on the given state machine. |
| Permissions.CreateSqsSendMessagePolicy | cdk/lib/utils/permissions.ts:20-35 | The policy allows sqs:sendmessage on the given queue. |
| Permissions.CreateTextractAnalyzeDocumentPolicy | cdk/lib/utils/permissions.ts:37-52 | The policy allows each of its three Textract actions on every document under the bucket, in every region and account. |
| Permissions.CreateS3ReadPolicy | cdk/lib/utils/permissions.ts:54-67 | The policy allows s3:GetObject on every object of the bucket. |
| Permissions.OneAllowStatement | cdk/lib/utils/permissions.ts:3-67 | Every builder returns exactly one statement, with effect Allow. |
| Permissions.PolicyNamesDistinct | cdk/lib/utils/permissions.ts:3-67 | The four policy names are pairwise distinct. |
| Permissions.SfnPolicyAllows | cdk/lib/utils/permissions.ts:3-18 | It allows exactly states:StartExecution on exactly the given ARN. |
| Permissions.SqsPolicyAllows | cdk/lib/utils/permissions.ts:20-35 | It allows exactly sqs:sendmessage on exactly the given queue ARN. |
| Permissions.TextractPolicyAllows | cdk/lib/utils/permissions.ts:37-52 | It allows exactly its three actions, on exactly the documents `arn:aws:textract:<region>:<account>:document/<bucket>/<key>`. |
| Permissions.S3PolicyAllows | cdk/lib/utils/permissions.ts:54-67 | It allows exactly s3:GetObject on exactly the objects `arn:aws:s3:::<bucket>/<key>`. |
| Pipeline.ReceiptOfMessageBody | src/handlers/process-sqs-events-trigger-sfn.ts:27-32 | From a listener message body the triggerer keeps exactly the bucket and the key. It drops requestId and eventTime. |
| Pipeline.ListenerToWorkflow | src/handlers/s3-listener.ts:17-38 | When parse undoes stringify, a listener batch becomes an execution with one receipt per uploaded object, in order. Each receipt has the first record's bucket and the object's decoded key. Count Receipts then counts the uploads. |
| Pipeline.ProcessedReceiptFromHandler | cdk/lib/stacks/receipt-processor-sfn-stack.ts:142-203 | With the handler model behind the Get-* tasks, and the payload read back with the branch's alias, a processed receipt is the three non-empty texts the handler finds. Otherwise the first handler error, in amount, date, concept order, fails the receipt with that error's message. As a consequence of that assumption about how the payload is read back, that error is never the missing-alias error. |

## Left out

- I/O with no model: the SQS SendMessageBatch, SFN StartExecution, Textract, Bedrock and S3 calls. They are parameters whose results are given, and `console.log`/`console.error` are not modelled.
- `decodeURIComponent`, `JSON.parse`, `JSON.stringify` and `States.StringToJson` are abstract parameters; their Unicode and number formatting behaviour is not modelled. `Pipeline.ListenerToWorkflow` assumes parse undoes stringify.
- Lambda error payloads: a thrown `Error` reaches Step Functions as error name "Error" with its message as cause. The JSON wrapping of the cause is not modelled.
- `toLowerCase` is modelled on ASCII letters only.
- IAM action names are compared exactly; IAM's case-insensitive matching of actions is not modelled.
- Concurrency: `maxConcurrency: 5` and the physical concurrency of Map and Parallel. Iterations and branches run in order, so the reported error is the first one in order, not the first in time.
- The Step Functions service itself is not modelled: the callback-token registry, single use of tokens, retries, cancellation and the task's overall timeout. Only the outcomes the catchers route on, and the heartbeat window, are modelled.
- Retries: CDK's LambdaInvoke adds a default Retry on Lambda service exceptions to the definition itself. The model has no Retry field; a task's given outcome is its outcome after any retries.
- CallbackWorkflow.Step: a failure to send the SQS message is represented by the worker's failure signal.
- CallbackWorkflow.Step: the cause text of States.ResultPathMatchFailure is left empty.
- CallbackWorkflow.NeverFails: the run does fail if the worker reports the reserved name States.Runtime, because no catcher matches that name; the lemma excludes that case.
- `grantTaskResponse` (a property read with no effect) and `grantSendMessages`: the latter is kept only as the queue ARN recorded in the state machine value.
- The receipt-processor stack passes `start: countReceiptsTask` and no `queue` to the construct, whose props accept only `environment` and `queue`; the construct always builds the callback chain. The receipt chain is modelled as its own definition (`ReceiptWorkflow.Run`).
- `Environment.bucketName` is optional here because the dev record leaves it out, and `scheduleOptions` is read by the construct although the environment type does not declare it.
- The environment records qa, stage and prod are not registered in the lookup. The stacks, the Lambda and queue constructs, the CDK app entry point, and the `process-sqs-and-send-message` and `process-receipt` handlers are not part of this model.
- The duplicate `removeFileExtension` in `src/handlers/s3-listener.ts:55-57` is the same regex as the shared utility and is modelled once, as `FileNames.RemoveFileExtension`.
- A `textractResponse` that is itself undefined (a TypeError before the Blocks guard) is not modelled; the response is always present.
- Floating-point numbers: JSON numbers are integers, which are all the workflows build or compare.
