# AWSRedrive redrive pipeline: a Dafny model

AWSRedrive pulls messages from a queue and redrives each one to an HTTP
endpoint described by the queue's `ConfigurationEntry`. This project models
the two sequential cores of that pipeline and proves properties of the model.

- **QueueProcessor** (`QueueProcessor.dfy`) is a class with the source's
  fields: the configuration, the queue client, the message processor, the
  task, the cancellation source and the three `int` counters. `Start` and `Stop`
  make up an Idle/Running lifecycle in which `_task == null` means idle.
  `ProcessMessageLoop` is run on a script of poll outcomes. Each outcome is
  either no message, a message with "processing raised or not" and "deletion
  raised or not", or `GetMessage` raising. The counters are 32-bit and
  wrap-around is modelled. A ghost log records every call the loop makes to
  its collaborators, so the proofs can state what happens to the queue. The
  proofs cover:
  - `received == sent + failed` holds modulo 2^32 after every iteration, and
    exactly while fewer than 2^31 messages have arrived;
  - every received message is deleted exactly once, right after it is
    processed;
  - a failed deletion changes nothing the loop does afterwards.
- **HttpMessageProcessor** (`HttpMessageProcessor.dfy`) builds an HTTP
  request and a client for one message, sends it, and interprets the
  response. The request and the client are objects that the source mutates in
  place (`Rest.dfy`: `RestRequest`, `RestClientOptions`, `RestClient`). Each
  method that builds or mutates one is proved against a specification
  function of the configuration and the message: `OutboundRequest`,
  `OutboundClient` and `Interpret`. The ensures clauses of those functions
  state the rules:
  - method precedence, GET > DELETE > PUT > POST;
  - a body for every method but GET, and query parameters for GET only;
  - independent, additive authentication headers and the Basic authenticator;
  - attribute filtering;
  - the 200/201 success rule and which error is raised on failure.
- `Decimal.dfy` renders the port of the base URL as C# does and proves that
  the rendering reads back. `Entities.dfy` holds `ConfigurationEntry` and
  `Message`. `Wrappers.dfy` holds `Option` and `Outcome`.

Inputs that stand for calls into code that is not modelled:
- The parse of the redrive URL is an `Option<Uri>`. `None` means the `Uri`
  constructor raised.
- The JSON reading of a GET message is an `Option` of its properties, in
  order, each with its value already rendered as text. `None` means the parse
  raised or the message is not a JSON object.
- Executing a request is a function parameter from the request and client
  values to a `Response`.
- The queue client and the message processor are opaque object handles. When
  the loop runs, their behaviour is the script of poll outcomes.

The four credential strings of a `ConfigurationEntry` (`AwsGatewayToken`,
`AuthToken`, `BasicAuthUserName`, `BasicAuthPassword`) are only tested with
`string.IsNullOrEmpty`, so a C# null there is represented by `""`.
`RedriveUrl` reaches the model only through the parsed-URI input: a null and
an empty URL both make the `Uri` constructor raise, which is `None`. `Alias`
is used only in log text. The attribute dictionary is its list of entries in
enumeration order, and `None` stands for null.

Three places where the source behaves differently from what one might expect
of a redrive loop. The model follows the source:
- The loop calls `ProcessMessage(msg.Content, Configuration)`
  (`QueueProcessor.cs:93`), so message attributes are never passed on. One might
  expect them to be forwarded as headers. The model's `ProcessMessageCall`
  carries only the content and the configuration.
- `GetMessage` (`QueueProcessor.cs:75`) is called outside any exception
  handler. An exception there ends the loop, although every other
  per-message error is caught and the loop goes on. `_task` stays non-null afterwards, so the
  processor still counts as running and `Start` does nothing.
- `Stop` waits on the cancellation token's wait handle
  (`QueueProcessor.cs:56`), which the `Cancel()` just before it has already
  signalled. It does not wait for the task to finish.
  `CancellationTokenSource.WaitOne` models this: it returns the token's state
  at once.

## Model

| member | source | states |
|---|---|---|
| QueueProcessor.Wrap32 | Projects/AWSRedrive/QueueProcessor.cs:19-21 | the counters are 32-bit `int`s: a value already in range is kept as is |
| QueueProcessor.Increment | Projects/AWSRedrive/QueueProcessor.cs:82 | unchecked `++` on a C# `int`: one more, except that the largest `int` wraps to the smallest |
| QueueProcessor.AddWrap | Projects/AWSRedrive/QueueProcessor.cs:82-100 | truncating an intermediate sum to 32 bits does not change the truncated total, so repeated unchecked `++` wraps like one exact sum |
| QueueProcessor.Step | Projects/AWSRedrive/QueueProcessor.cs:75-104 | a poll with no message, or one that raises, changes no counter; a message increments received, and sent when processing returned or failed when it raised, leaving the other one alone |
| QueueProcessor.Run | Projects/AWSRedrive/QueueProcessor.cs:72-120 | a run whose polls deliver no message leaves every counter as it was |
| QueueProcessor.IterationCalls | Projects/AWSRedrive/QueueProcessor.cs:75-119 | every iteration starts with one GetMessage call; for a message, it is followed by exactly one ProcessMessage call with the content and the configuration and then one DeleteMessage call for that message; a poll without a message calls nothing else |
| QueueProcessor.CallsOf | Projects/AWSRedrive/QueueProcessor.cs:72-120 | a run makes one GetMessage call per iteration plus two calls, processing and deletion, per received message |
| QueueProcessor.DeliveredMessages | Projects/AWSRedrive/QueueProcessor.cs:75-82 | a run receives at most one message per iteration, and none when no poll delivered one |
| QueueProcessor.TallyBalanced | Projects/AWSRedrive/QueueProcessor.cs:82-104 | in every run, each received message is counted exactly once as sent or as failed (received = sent + failed), and received equals the number of messages delivered |
| QueueProcessor.StepAdvance | Projects/AWSRedrive/QueueProcessor.cs:82-104 | one iteration on the 32-bit counters is the truncation of one iteration on exact counts |
| QueueProcessor.RunWrapsTally | Projects/AWSRedrive/QueueProcessor.cs:72-104 | after any run, each 32-bit counter is its starting value plus that run's exact count, truncated to 32 bits |
| QueueProcessor.StepBalanced | Projects/AWSRedrive/QueueProcessor.cs:82-104 | one iteration (no message, a message that processes or raises, or a poll that raises) keeps received = sent + failed modulo 2^32 |
| QueueProcessor.RunBalanced | Projects/AWSRedrive/QueueProcessor.cs:72-120 | any run keeps received = sent + failed modulo 2^32 |
| QueueProcessor.ExactCountsFromZero | Projects/AWSRedrive/QueueProcessor.cs:82-104 | starting from zero with fewer than 2^31 messages received: received = N + M, sent = N successes, failed = M failures |
| QueueProcessor.DeletesAreDeliveries | Projects/AWSRedrive/QueueProcessor.cs:110-119 | the messages passed to DeleteMessage are exactly the received messages, each once, in the order received; empty polls delete nothing |
| QueueProcessor.DeleteFollowsProcessing | Projects/AWSRedrive/QueueProcessor.cs:90-119 | every ProcessMessage call is directly followed by the DeleteMessage call for that message, and every deletion directly follows processing of the same content with the configuration, whatever processing did |
| QueueProcessor.DeleteFailuresAreInvisible | Projects/AWSRedrive/QueueProcessor.cs:110-119 | two runs that differ only in which deletions raised have the same counters and make the same calls: a failed delete neither stops the loop nor changes a counter |
| QueueProcessor.CancellationTokenSource.constructor | Projects/AWSRedrive/QueueProcessor.cs:40 | a new source has no cancellation requested and is not disposed |
| QueueProcessor.CancellationTokenSource.Cancel | Projects/AWSRedrive/QueueProcessor.cs:55 | requests cancellation |
| QueueProcessor.CancellationTokenSource.WaitOne | Projects/AWSRedrive/QueueProcessor.cs:56 | the wait on the token's handle reports whether cancellation has been requested |
| QueueProcessor.CancellationTokenSource.Dispose | Projects/AWSRedrive/QueueProcessor.cs:57 | marks the source disposed and keeps its cancellation state |
| QueueProcessor.WorkerTask.constructor | Projects/AWSRedrive/QueueProcessor.cs:41 | a new task is bound to the given source and has neither started nor been disposed |
| QueueProcessor.WorkerTask.Start | Projects/AWSRedrive/QueueProcessor.cs:42 | starts the task |
| QueueProcessor.WorkerTask.Dispose | Projects/AWSRedrive/QueueProcessor.cs:58 | marks the task disposed |
| QueueProcessor.QueueProcessor.constructor | Projects/AWSRedrive/QueueProcessor.cs:9-21 | a new processor is idle, has no collaborators or source, has zero counters and has made no calls |
| QueueProcessor.QueueProcessor.Valid | Projects/AWSRedrive/QueueProcessor.cs:40-41 | defines the object invariant that every method keeps: a running processor's task is bound to the source held in `_cancellation`, and received = sent + failed modulo 2^32 |
| QueueProcessor.QueueProcessor.Init | Projects/AWSRedrive/QueueProcessor.cs:23-30 | stores the configuration, the queue client and the message processor; the lifecycle state and the counters are untouched |
| QueueProcessor.QueueProcessor.Start | Projects/AWSRedrive/QueueProcessor.cs:32-43 | when running, changes nothing (no new task, no new source); when idle, installs a fresh uncancelled source and a fresh started task bound to it, so the processor is running; the counters are never reset |
| QueueProcessor.QueueProcessor.Stop | Projects/AWSRedrive/QueueProcessor.cs:45-68 | when idle, changes nothing; when running, requests cancellation, waits, disposes the source and then the task, stopping at whichever step raises, and always ends idle; the source reference is kept and the counters are untouched |
| QueueProcessor.QueueProcessor.Iterate | Projects/AWSRedrive/QueueProcessor.cs:74-119 | one iteration: a poll with no message (or a poll that raises) changes no counter and neither processes nor deletes; a message increments received and exactly one of sent or failed, and is processed with content and configuration only, then deleted, whatever either call did; the counter invariant is kept |
| QueueProcessor.QueueProcessor.Turn | Projects/AWSRedrive/QueueProcessor.cs:72-119 | one pass of the loop for the next scripted poll extends the counters and the call log by that poll's iteration; cancellation is requested exactly when that was the last scripted poll and it did not raise; the source is not disposed; the invariant is kept |
| QueueProcessor.QueueProcessor.ProcessMessageLoop | Projects/AWSRedrive/QueueProcessor.cs:70-121 | the loop runs every scripted iteration to completion, deletion included; it ends faulted exactly when GetMessage raised, and otherwise on the cancellation check, so the token is set exactly when the loop did not fault; the loop never disposes the source; the counters and the call log are those of the whole script; the counter invariant is kept |
| Decimal.NatToString | Projects/AWSRedrive/HttpMessageProcessor.cs:73 | a port renders as a non-empty string of decimal digits |
| Decimal.IntToString | Projects/AWSRedrive/HttpMessageProcessor.cs:73 | C#'s rendering of an `int`: never empty; only decimal digits for a non-negative value; a minus sign followed by digits for a negative one |
| Decimal.IntRoundTrip | Projects/AWSRedrive/HttpMessageProcessor.cs:73 | every rendered integer parses back to itself |
| Decimal.IntToStringInjective | Projects/AWSRedrive/HttpMessageProcessor.cs:73 | different ports render differently |
| Rest.RestRequest.constructor | Projects/AWSRedrive/HttpMessageProcessor.cs:44 | a new request has the given resource and method, and no parameters, headers or body |
| Rest.RestRequest.AddQueryParameter | Projects/AWSRedrive/HttpMessageProcessor.cs:50 | appends one query parameter and changes nothing else |
| Rest.RestRequest.AddHeader | Projects/AWSRedrive/HttpMessageProcessor.cs:92 | appends one header and changes nothing else |
| Rest.RestRequest.AddStringBody | Projects/AWSRedrive/HttpMessageProcessor.cs:66 | sets the body to the given text (JSON format) and changes nothing else |
| Rest.RestClientOptions.constructor | Projects/AWSRedrive/HttpMessageProcessor.cs:73 | new options carry the base URL, no timeout and the default certificate validation |
| Rest.RestClient.constructor | Projects/AWSRedrive/HttpMessageProcessor.cs:24 | a client takes its base URL, timeout and certificate handling from the options and has no authenticator |
| HttpMessageProcessor.BodyMethod | Projects/AWSRedrive/HttpMessageProcessor.cs:64 | for a request with a body: DELETE when UseDelete, else PUT when UsePUT, else POST; never GET |
| HttpMessageProcessor.SelectMethod | Projects/AWSRedrive/HttpMessageProcessor.cs:37-39 | GET exactly when UseGET; DELETE exactly when not UseGET and UseDelete; PUT exactly when neither of those and UsePUT; POST exactly when no flag is set |
| HttpMessageProcessor.BareRequest | Projects/AWSRedrive/HttpMessageProcessor.cs:35-69 | the request has the selected method and the URI's path and query as its resource; a GET has no body and one query parameter per JSON property, in order, or none when parsing failed; any other method has the message verbatim as its body and no query parameters |
| HttpMessageProcessor.AuthenticationHeaders | Projects/AWSRedrive/HttpMessageProcessor.cs:90-98 | `x-api-key` is present exactly when AwsGatewayToken is non-empty, and `Authorization` exactly when AuthToken is non-empty, each carrying its token; the two are independent and nothing else is added |
| HttpMessageProcessor.BasicAuthenticatorFor | Projects/AWSRedrive/HttpMessageProcessor.cs:100-105 | there is a Basic authenticator exactly when the user name and the password are both non-empty, and it carries them |
| HttpMessageProcessor.OutboundRequest | Projects/AWSRedrive/HttpMessageProcessor.cs:26-30 | the sent request is the bare request with the authentication headers and then the forwarded attribute headers appended; nothing else changes |
| HttpMessageProcessor.OutboundClient | Projects/AWSRedrive/HttpMessageProcessor.cs:22-28 | the client's base URL is `scheme://host:port`; it has the configured timeout when one is set (else the default), accepts any certificate exactly when IgnoreCertificateErrors is set, and has the Basic authenticator |
| HttpMessageProcessor.Interpret | Projects/AWSRedrive/HttpMessageProcessor.cs:124-137 | success exactly when the transport succeeded and the status is 200 or 201 (so 202 fails); on failure, the transport's exception when there is one, else an error carrying the status code and the response content |
| HttpMessageProcessor.QueryParameters | Projects/AWSRedrive/HttpMessageProcessor.cs:45-57 | the query parameters of a GET are the JSON properties, one per property in order; none when the parse raised, whose exception is caught |
| HttpMessageProcessor.Forwardable | Projects/AWSRedrive/HttpMessageProcessor.cs:112 | defines the filter: an attribute is forwarded when its key and its value are both non-empty |
| HttpMessageProcessor.ForwardableEntries | Projects/AWSRedrive/HttpMessageProcessor.cs:112-115 | keeps no more entries than it is given, and every entry it keeps has a non-empty key and value |
| HttpMessageProcessor.AttributeHeaders | Projects/AWSRedrive/HttpMessageProcessor.cs:110-116 | a null dictionary adds no header; otherwise a pair becomes a header exactly when it is an attribute whose key and value are both non-empty |
| HttpMessageProcessor.BaseUrl | Projects/AWSRedrive/HttpMessageProcessor.cs:73 | defines the options' base URL as `scheme://host:port`; its properties are stated by BaseUrlPort |
| HttpMessageProcessor.ForwardableEntriesMembership | Projects/AWSRedrive/HttpMessageProcessor.cs:110-116 | an attribute becomes a header exactly when it is an attribute whose key and value are both non-empty |
| HttpMessageProcessor.ForwardableEntriesAppend | Projects/AWSRedrive/HttpMessageProcessor.cs:112-115 | the attributes are filtered one at a time, in order: filtering a concatenation concatenates the filtered parts |
| HttpMessageProcessor.ForwardableEntriesKeepsAll | Projects/AWSRedrive/HttpMessageProcessor.cs:112-115 | attributes whose keys and values are all non-empty all become headers, in their order |
| HttpMessageProcessor.BaseUrlPort | Projects/AWSRedrive/HttpMessageProcessor.cs:73 | the base URL is `scheme://host:` followed by the port as written, which reads back as the port |
| HttpMessageProcessor.CreateGetRequest | Projects/AWSRedrive/HttpMessageProcessor.cs:42-60 | a fresh GET request on the URI's path and query, with one query parameter per JSON property in order, or none (and no error) when parsing failed |
| HttpMessageProcessor.CreatePostOrPutOrDeleteRequest | Projects/AWSRedrive/HttpMessageProcessor.cs:62-69 | a fresh request with the DELETE > PUT > POST method, the URI's path and query, and the message verbatim as its body |
| HttpMessageProcessor.CreateRequest | Projects/AWSRedrive/HttpMessageProcessor.cs:35-40 | a fresh request equal to the bare request of the specification |
| HttpMessageProcessor.BaseUrlParses | Projects/AWSRedrive/HttpMessageProcessor.cs:73 | defines when the base URL parses again in the options' constructor: exactly when the port is not -1, the port a URI reports when its scheme has no default port and it gives none |
| HttpMessageProcessor.CreateOptions | Projects/AWSRedrive/HttpMessageProcessor.cs:71-86 | raises (no options) exactly when the base URL does not parse again; otherwise fresh options with base URL `scheme://host:port`; the certificate bypass is installed exactly when IgnoreCertificateErrors is set; the timeout is set only when the configuration has one |
| HttpMessageProcessor.AddAuthentication | Projects/AWSRedrive/HttpMessageProcessor.cs:88-106 | appends exactly the authentication headers; sets the Basic authenticator only when both credentials are non-empty, and otherwise leaves the client's authenticator alone; nothing else changes |
| HttpMessageProcessor.AddAttributes | Projects/AWSRedrive/HttpMessageProcessor.cs:108-117 | appends one header per attribute whose key and value are non-empty, in order; a null dictionary adds none; no other request field changes |
| HttpMessageProcessor.SendRequest | Projects/AWSRedrive/HttpMessageProcessor.cs:119-138 | the outcome is the interpretation of the response to the request and client as they stand |
| HttpMessageProcessor.ProcessMessage | Projects/AWSRedrive/HttpMessageProcessor.cs:17-33 | a malformed redrive URL, or one whose base URL does not parse again, raises before any request is built; otherwise the outcome is the interpretation of the response to exactly the specified request sent with the specified client |

## Left out

- Threading: the long-running `Task`, the concurrent execution of `Stop` and the loop, and the 30-second bound on the wait (`QueueProcessor.cs:40-42, 55-58`). A sequential model cannot express timing or interleaving. The processor keeps the state of the task and the source; the loop sees cancellation only at its check, and it is taken to arrive once the scripted iterations are done. One source's token only goes from clear to set, so a finite run of a worker whose source stays in `_cancellation` has this shape. Runs that never end are not modelled.
- Stop followed by Start while the old worker is still running: the loop's check (`QueueProcessor.cs:72`) reads the `_cancellation` field, not a token of its own. `Stop` does not wait for the worker (the wait at `QueueProcessor.cs:56` returns at once, and `QueueProcessor.cs:58` may raise), and it clears `_task` (`QueueProcessor.cs:66`). A `Start` straight after then points `_cancellation` at a fresh, clear source (`QueueProcessor.cs:40`). An old worker that has not yet made its check then never sees its cancellation, and it runs beside the new one on the same counters. The model runs one loop at a time and does not capture this.
- QueueProcessor.QueueProcessor.Stop: which step raises is an input (`StopFault`), because the library's reasons for raising are not visible. The model does not say which failures can actually occur.
- Logging, including the `IsTraceEnabled` branch: it has no functional effect. As a consequence, the model misses that the log lines of `Start` and `Stop` read `Configuration.Alias`. Called before `Init`, those lines raise a null reference exception. `ProcessMessageLoop` requires `Init` to have been called.
- The queue transport behind `GetMessage` and `DeleteMessage`: it is external, so its results are the script of poll outcomes.
- The loop's processing outcome is an abstract flag per message. It is not tied to `HttpMessageProcessor.ProcessMessage`, because `QueueProcessor.cs:93` calls a two-argument overload whose implementation is not part of this model.
- The HTTP execution (`ExecuteAsync(...).Result`), the TLS validation callback, `Uri` parsing and JSON parsing: these are library calls. Their results are inputs, and the callback is a flag that accepts every certificate.
- The `RestClientOptions(string)` constructor at `HttpMessageProcessor.cs:73` parses its base URL again as a URI. The model makes it raise for port -1 only (`BaseUrlParses`), and it accepts every other base URL built from a parsed redrive URL.
- Library behaviour inside the `RestRequest` constructor, `AddQueryParameter` and `AddHeader` that the source does not show: for example, moving a query string out of the resource into parameters, or validating header names. The model takes the resource verbatim and appends every header and every query parameter. Had `AddQueryParameter` raised partway through the properties, the handler at `HttpMessageProcessor.cs:53` would keep the parameters added so far and the GET would still be sent. `CreateGetRequest` with `Some(properties)` always adds all of them.
- Exceptions are represented by text, and the status error carries the status code and the content instead of the formatted message text (`HttpMessageProcessor.cs:137`).
- Configuration loading and `ConfigurationEntry` parsing: neither is shown, so the configuration is an already-built record.
