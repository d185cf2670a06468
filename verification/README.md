# Custom-resource response adapter, modelled in Dafny

This project models `cfn-response.js`, the small adapter a custom-resource provider
uses to report a lifecycle event's outcome back to CloudFormation. It has
two pieces.

- **Response submitter** (`submitResponse`, module `CfnResponse`). It builds the
  callback envelope from an event, a status (`SUCCESS` or `FAILED`) and options
  (`reason`, `noEcho`). It also fixes the parameters of the PUT request that
  carries the envelope: `content-type` is empty, `content-length` is the UTF-8 byte
  length of the body, and retry options are 5 attempts with a 1000 ms sleep. Finally,
  it builds the redacted URL that is logged.
- **Handler guard** (`safeHandler`, module `SafeHandler`). It wraps the user's
  action. An orphaned Delete answers SUCCESS without running the action. Here,
  "orphaned Delete" means a Delete whose physical id is exactly the create-failed
  marker. For any other event, the guard looks at how the action ended:
  - a `Retry` error is re-raised;
  - normal completion yields nothing, because the action reports its own success;
  - any other error yields one FAILED response. Before that, a Create without an id
    gets the create-failed marker, so that the later Delete is recognised as orphaned.

`SafeHandler.Handle` composes the two pieces: in one invocation the guard itself
either raises an error or makes at most one submission, never both.

Module `Utf8` gives the byte length a meaning. It defines the UTF-8 encoder Node
uses for `Buffer.byteLength(body, "utf8")`, where a lone surrogate becomes U+FFFD.
It also defines a strict decoder, and proves the two inverse to each other. So
`content-length` is the length of a real encoding. It lies between 1 and 4 bytes per
code point, and equals the number of code points for an ASCII body.

Modelling conventions:
- JavaScript falsiness is explicit. An optional string is "absent" when it is
  `undefined` or `""` (`CfnResponse.Absent`). `x || fallback` is
  `CfnResponse.OrElse`.
- The orphaned-delete test is an exact comparison with the marker, as `===` is.
- The action is a function parameter `Event -> Attempt`. Its result is the event as
  the action left it, together with how the action ended. The source passes the event
  object itself, so a failing action's changes are visible to the catch block. The
  model reads the post-action event just as the source does.
- `url.parse` and `JSON.stringify` are function parameters (`parse`, `stringify`).
  The body is an opaque sequence of code points.
- `includeStackTraces` is a parameter, not a global. The source's default is on
  (`SafeHandler.DefaultIncludeStackTraces`).
- The logged URL follows the source's template literally. A pathname that already
  starts with `/` is logged after a second `/`, giving a double slash.
  `CfnResponse.LogSafeUrl` states this.

Three behaviours of the code that are easy to misread:
- A reason or physical id that is the empty string counts as missing, because the
  code uses `||`.
- With stack traces switched on, the failure reason is the error's `stack`. If the
  stack is missing, the reason falls back to `FAILED`, not to the message.
- The id fix-up on failure reads the event after the action ran, not the event as
  it arrived.

## Model

| member | source | states |
|---|---|---|
| CfnResponse.StatusText | rag/knowledge-bases/features-examples/04-infrastructure/e2e-rag-using-bedrock-kb-cfn/lambdas/provider_event_handler/cfn-response.js:1 | The status literals handed to `submitResponse` at its two call sites: the text is never empty, it is `SUCCESS` exactly for the success status, and it is `FAILED` for the failure status. |
| CfnResponse.BuildEnvelope | rag/knowledge-bases/features-examples/04-infrastructure/e2e-rag-using-bedrock-kb-cfn/lambdas/provider_event_handler/cfn-response.js:1 | The envelope is always well formed, with a non-empty reason and a non-empty physical id. The reason is the supplied reason when it is non-empty, otherwise exactly the status text. The physical id is the event's id when non-empty, otherwise the missing-id marker. StackId, RequestId, LogicalResourceId and Data are copied from the event, and NoEcho from the options. |
| CfnResponse.BuildEnvelopeFixpoint | rag/knowledge-bases/features-examples/04-infrastructure/e2e-rag-using-bedrock-kb-cfn/lambdas/provider_event_handler/cfn-response.js:1 | Feeding an envelope's own id and reason back into the builder reproduces that same envelope. The defaulting is therefore stable. |
| CfnResponse.LogSafeUrl | rag/knowledge-bases/features-examples/04-infrastructure/e2e-rag-using-bedrock-kb-cfn/lambdas/provider_event_handler/cfn-response.js:1 | The logged URL always ends in `?***`. When the parsed components hold no `?`, there is no other `?` in it, so no query leaks. It starts with protocol, `//` and host, followed by `/`. A pathname that starts with `/` gives a double slash after the host. |
| CfnResponse.LogSafeUrlHidesQuery | rag/knowledge-bases/features-examples/04-infrastructure/e2e-rag-using-bedrock-kb-cfn/lambdas/provider_event_handler/cfn-response.js:1 | The logged URL is the same whatever the query component is. |
| CfnResponse.SubmitResponse | rag/knowledge-bases/features-examples/04-infrastructure/e2e-rag-using-bedrock-kb-cfn/lambdas/provider_event_handler/cfn-response.js:1 | The submission carries the built envelope and its serialization. The request is a PUT with an empty content-type, sent to the parsed host and path. Content-length is the length of the body's UTF-8 encoding and lies between 1 and 4 bytes per code point. Retry options are exactly 5 attempts and 1000 ms. The log URL ends in `?***`. |
| Utf8.Width | rag/knowledge-bases/features-examples/04-infrastructure/e2e-rag-using-bedrock-kb-cfn/lambdas/provider_event_handler/cfn-response.js:1 | Each code point takes 1 to 4 bytes, and takes 1 exactly when it is ASCII. |
| Utf8.ByteLength | rag/knowledge-bases/features-examples/04-infrastructure/e2e-rag-using-bedrock-kb-cfn/lambdas/provider_event_handler/cfn-response.js:1 | The byte length, as `Buffer.byteLength` computes it, lies between the number of code points and four times that number. It equals the number of code points for ASCII text. |
| Utf8.EncodePoint | rag/knowledge-bases/features-examples/04-infrastructure/e2e-rag-using-bedrock-kb-cfn/lambdas/provider_event_handler/cfn-response.js:1 | A code point is encoded as a leading byte that announces the width, followed by continuation bytes. |
| Utf8.Encode | rag/knowledge-bases/features-examples/04-infrastructure/e2e-rag-using-bedrock-kb-cfn/lambdas/provider_event_handler/cfn-response.js:1 | The encoding of a body has exactly `ByteLength` bytes. |
| Utf8.PointRoundTrip | rag/knowledge-bases/features-examples/04-infrastructure/e2e-rag-using-bedrock-kb-cfn/lambdas/provider_event_handler/cfn-response.js:1 | Decoding the bytes of one scalar value gives that value back. |
| Utf8.PointInverse | rag/knowledge-bases/features-examples/04-infrastructure/e2e-rag-using-bedrock-kb-cfn/lambdas/provider_event_handler/cfn-response.js:1 | Any single sequence the decoder accepts is the encoding of the scalar value it decodes to. |
| Utf8.DecodeEncode | rag/knowledge-bases/features-examples/04-infrastructure/e2e-rag-using-bedrock-kb-cfn/lambdas/provider_event_handler/cfn-response.js:1 | For a body of scalar values, decoding its encoding returns the body. |
| Utf8.EncodeDecode | rag/knowledge-bases/features-examples/04-infrastructure/e2e-rag-using-bedrock-kb-cfn/lambdas/provider_event_handler/cfn-response.js:1 | Every byte string the decoder accepts is exactly the encoding of the scalar values it decodes to. |
| SafeHandler.Guard | rag/knowledge-bases/features-examples/04-infrastructure/e2e-rag-using-bedrock-kb-cfn/lambdas/provider_event_handler/cfn-response.js:1 | An orphaned Delete yields one SUCCESS submission with default options, and SUCCESS is submitted only then. Otherwise the result depends on how the action ended. After normal completion, the guard does nothing. After a Retry-kind error, it re-raises that same error value. After any other error, it submits FAILED. The reason is the stack or the message, following the switch, and there is no NoEcho. The event equals the post-action event except for its id. A present id is kept. A Create without an id gets the create-failed marker. An Update or Delete without an id is left unchanged. |
| SafeHandler.Handle | rag/knowledge-bases/features-examples/04-infrastructure/e2e-rag-using-bedrock-kb-cfn/lambdas/provider_event_handler/cfn-response.js:1 | In one invocation the guard itself raises an error or makes at most one submission, never both. An orphaned Delete submits SUCCESS with reason `SUCCESS` and the create-failed marker as id. Completion has no effect. Retry raises the same error. Any other error submits FAILED. Its reason is the stack or message, falling back to `FAILED` when that is missing or empty. Its id is the present id, otherwise the create-failed marker on Create, otherwise the missing-id marker. |
| SafeHandler.OrphanedDeleteSkipsAction | rag/knowledge-bases/features-examples/04-infrastructure/e2e-rag-using-bedrock-kb-cfn/lambdas/provider_event_handler/cfn-response.js:1 | For an orphaned Delete, the response does not depend on the action, so the action is never consulted. |
| SafeHandler.RetryRecognisedByKind | rag/knowledge-bases/features-examples/04-infrastructure/e2e-rag-using-bedrock-kb-cfn/lambdas/provider_event_handler/cfn-response.js:1 | Two errors with the same message and stack are treated differently by kind alone. A Retry is re-raised. An ordinary error is reported as FAILED. |
| SafeHandler.CreateFailureRoundTrip | rag/knowledge-bases/features-examples/04-infrastructure/e2e-rag-using-bedrock-kb-cfn/lambdas/provider_event_handler/cfn-response.js:1 | Take a Create without an id whose action fails with an ordinary error. It answers FAILED with the create-failed marker. Every Delete that carries that id is an orphaned Delete, whatever its other fields. Whatever its action, it yields SUCCESS, with reason `SUCCESS` and the marker as id. |

## Left out

- `url.parse` is a parameter. Its parsed components are inputs. The model assumes two
  things about it: there is no `?` in protocol, hostname or pathname (`QueryFree`, used by
  `LogSafeUrl`),
  and `path` is the pathname joined with the query, set only when either is truthy
  (`CfnResponse.RequestPath`).
- `JSON.stringify` is a parameter. The serialized body is opaque, so key order,
  escaping, and the omission of undefined `NoEcho`/`Data` are not modelled.
- The transport (`httpRequest` in `./outbound`) and the retry loop (`withRetries`
  in `./util`) are not part of this model. Only the retry options handed to the
  loop are stated. The attempt count and delays of an actual retry run are therefore
  not proved.
- A delivery error that survives all retries propagates out of the guard uncaught.
  This is not modelled, because it comes from the transport.
- Submissions the action makes on its own, such as the SUCCESS response it is expected
  to send, are part of the abstract action and are not counted in `SafeHandler.Handle`'s
  effect. If such a submission fails after its retries, its error is caught and the guard
  submits FAILED as well. An action that submits and then throws `Retry` leaves both a
  submission and a raised error.
- Log lines (`log` in `./util`) are diagnostic output. Only the redacted URL is
  modelled. The malformed-event log line, with `ResponseURL` replaced by `...`, is
  not.
- `async`/`await` sequencing and the runtime re-invoking the handler after a
  re-raised Retry belong to the host runtime.
- How `Error.stack` and `Error.message` are produced is runtime behaviour. Both are
  given as optional strings. A thrown primitive such as `"boom"` or `5` has neither,
  which the model covers as an error with no message and no stack. A thrown `null`
  or `undefined` makes reading `stack`/`message` throw a TypeError. By then the
  create-failed marker has already been written into the event, and no FAILED
  response is submitted. That case is not modelled.
- Event fields other than the ones the adapter reads (for example resource
  properties) are not represented.
- Data values are kept as their JSON text, and the adapter never looks inside them.
