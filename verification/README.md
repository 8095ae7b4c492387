# quic-rpc call dispatch, modelled in Dafny

This project models the per-call dispatch layer of quic-rpc (`src/sugar.rs`):
how each of the four interaction patterns (`Rpc`, `ClientStreaming`,
`ServerStreaming`, `BidiStreaming`) drives one freshly opened duplex channel,
on the client side (`ClientChannel`) and on the server side (`DispatchHelper`,
`UpdateDowncaster`).

The async plumbing is replaced by events:

- `Channel.Bi`: the outcome of `open_bi` (client) or `accept_bi` (server).
- `Channel.Sink`: how the send sink answers each send. `FailsAt(k, e)` fails send `k` and every later send.
- `Duplex.incoming`: the finite sequence of items the receive stream yields, each `Ok(value)` or `Err(e)`, before it ends.
- `Service.MsgType`: the message's pattern and its `Into`/`TryFrom` conversions. A failed `TryFrom` is `None`.

Every operation is a pure function. Each returns an `Exchange`: what the side
handed to its sink, how many received items it took, and its result. The
compile-time bound `Pattern = X` becomes the precondition `t.pattern == Pattern.X`.
`UpdateDowncaster::poll_next` is a step function (`Downcaster.PollNext`) from the
state of its one-shot error sender. `Downcaster.Run` folds it over a whole receive stream.

Modules:

- `Wrappers`: `Option`, `Result` and `Map`.
- `Service`: patterns, `Msg` and `RpcMsg` declarations.
- `Channel`: channel events and the shared send loop `Pump`.
- `Client`: `ClientChannel` and its error enums.
- `ServerErrors`: `RpcServerError`.
- `Downcaster`: `UpdateDowncaster`.
- `Race`: `race2`.
- `Server`: `DispatchHelper`.
- `Loopback`: client and server joined by an ideal transport.

The code does not enforce the shape of a call beyond what each operation reads:

- A unary call that receives a second response does not raise a stream error. `rpc` reads only the first item and drops the channel.
- Nothing rejects client-streaming updates that arrive after the server has answered.

## Model

| member | source | states |
|---|---|---|
| Service.AsMsg | src/sugar.rs:40-46 | an `RpcMsg` declaration becomes a `Msg` with pattern `Rpc`, with the message itself as update type and the response type carried over |
| Service.RpcMsgRoundTrip | src/sugar.rs:36-46 | `RpcMsg` declarations correspond one-to-one to `Msg` declarations with pattern `Rpc` whose update conversions are the message's own |
| Channel.Pump | src/sugar.rs:507-515 | a send loop hands its values to the sink in order, and what it sent is a prefix of them. It succeeds exactly when every send succeeds, and then it has sent all of them. On failure the last value sent is the one that failed |
| Client.FirstResponse | src/sugar.rs:262-274 | single-response rule: an empty stream gives `EarlyClose`, a first `Err(e)` gives `RecvError(e)`, and a first item that does not downcast gives `DowncastError`. Otherwise the result is the downcast first item |
| Client.ResponseStream | src/sugar.rs:228-235 | the response stream has the received stream's length and order. An `Err(e)` becomes `RecvError(e)`, an `Ok` becomes its downcast or `DowncastError`, and a bad item does not end the stream |
| Client.Rpc | src/sugar.rs:194-207 | open failure gives `Open` and sends nothing. Send failure gives `Send` and receives nothing. Otherwise only the first received item decides the result, with all four outcomes stated. It takes that one item, or none from an empty stream |
| Client.RpcCheckOrder | src/sugar.rs:198-200 | checks run in the order open, send, receive: an open failure decides the result whatever follows, and so does a send failure whatever is received |
| Client.RpcIgnoresLaterItems | src/sugar.rs:201-206 | items after the first received one do not change the result of `rpc` |
| Client.FirstResponseIsFirstStreamItem | src/sugar.rs:201-206 | the single-response rule equals the stream rule applied to the first item, with `EarlyClose` for an empty stream |
| Client.ResponseStreamAppend | src/sugar.rs:298-303 | the response stream is built item by item, so splitting the received stream splits the response stream the same way |
| Client.ServerStreaming | src/sugar.rs:210-237 | open and send failures are reported first. Otherwise the call succeeds with the response stream of everything received |
| Client.SendUpdates | src/sugar.rs:259-261 | updates go out after the first message, each converted into the request type, in order. Every send before the last succeeded, and the loop stops at the first failed send with its error |
| Client.ClientStreaming | src/sugar.rs:240-277 | the first message is sent before any update, then the updates follow in order. A failed update send is the last one made, with its error, after only successful sends. The response follows the single-response rule and takes at most one item |
| Client.Bidi | src/sugar.rs:280-305 | the first message is sent before any update, then the updates follow in order. A failed update send is the last one made, with its error, after only successful sends. The response stream maps every received item in order |
| Server.AcceptOne | src/sugar.rs:370-391 | accept failure gives `AcceptBiError`, an empty stream gives `EarlyClose`, and a first `Err(e)` gives `RecvError(e)`. Otherwise it returns the first request and the rest of the channel, which together rebuild the accepted channel |
| Server.AcceptOneErrors | src/sugar.rs:377-390 | `accept_one` fails only with `AcceptBiError`, `EarlyClose` or `RecvError` |
| Server.SendResponses | src/sugar.rs:473-481 | responses are converted and sent in production order. The first failed send ends the loop with `SendError`, right after that send |
| Server.Rpc | src/sugar.rs:396-417 | exactly one response, the handler's converted answer, is sent. Nothing is received. The result is `SendError` exactly when that send fails |
| Server.ServerStreaming | src/sugar.rs:489-516 | what is sent is a prefix of the converted responses. `Ok(())` comes exactly when every send succeeds, and then all were sent. Otherwise the loop stops at the first failed send with `SendError` |
| Server.ClientStreaming | src/sugar.rs:422-447 | corrected race: the handler sees the downcast updates. The first update failure wins, with nothing sent, when the error branch is polled before the send completes, and always when a second update fails. In every other run the one converted response is sent and the result is that send's outcome. It reads every received item, or after a second failing update only up to that update, where the read stays pending |
| Server.ClientStreamingAsWritten | src/sugar.rs:422-447 | as written: the task panics exactly when no update failed and the error branch is polled before the response send completes. In every other run it agrees with `Server.ClientStreaming` |
| Server.BidiStreaming | src/sugar.rs:452-484 | the handler sees the downcast updates. Its responses are sent in production order and form a prefix, which is all of them on success. The result is a send error at the failing send, or the first update failure. That failure wins, with nothing sent, when the error branch is polled before any send completes, even if the handler yields no responses, and always when a second update fails. With one failing update and the error branch reached after `k` sends that all succeed, exactly those `k` responses are sent and the result is the update failure. When the loop cannot be interrupted, the sends alone decide the result. It reads every received item, or after a second failing update only up to that update |
| Downcaster.PollNext | src/sugar.rs:537-562 | yields an item only when it downcasts, and ends exactly when the inner stream ends. A receive error or failed downcast gives `Pending` and is reported only while the sender has not yet been taken |
| Downcaster.Updates | src/sugar.rs:541-542 | reference update stream: never longer than the input, and when nothing fails it is the downcast of every received request, in order |
| Downcaster.Failures | src/sugar.rs:543-557 | the number of failing items, each a poll that returns `Pending` without yielding: never more than the items, and zero exactly when no item fails |
| Downcaster.SecondFailing | src/sugar.rs:551-556 | the position of the second failing item: present exactly when at least two items fail, after the first failing item, with no failing item between the two |
| Downcaster.FirstFailing | src/sugar.rs:543-557 | reference position of the report: none exactly when no item fails. Otherwise it is a failing item (a receive error or a request that does not downcast) with no failing item before it. `Downcaster.FirstError` turns it into `RecvError` or `UnexpectedUpdateMessage` |
| Downcaster.RunMatchesReference | src/sugar.rs:534-562 | polling to the end yields exactly the reference update stream and ends. It reports exactly the first failure, and after the sender is taken nothing more is reported |
| Downcaster.UpdatesAppend | src/sugar.rs:539-542 | updates keep arrival order across any split of the received stream |
| Downcaster.UpdatesComeFromItems | src/sugar.rs:541-549 | every yielded update is the downcast of some received `Ok` request, so nothing that fails to downcast is yielded |
| Race.Race2AsWritten | src/sugar.rs:527-531 | the error future unwraps the one-shot result. It panics exactly when the downcaster was dropped without reporting and the scheduler polls that branch while the send loop is pending: before a send completes, or during a final poll of the producer after the last send |
| Race.Race2 | src/sugar.rs:565-570 | corrected race: a reported error wins exactly when reached while the send loop is pending. What was sent is then the completed sends. Otherwise the loop's result stands |
| Race.Race2AsWrittenPanics | src/sugar.rs:529 | a dropped downcaster with a pending send panics the task |
| Race.Race2AgreesUnlessPanic | src/sugar.rs:565-570 | the corrected race agrees with the source wherever the source completes, and treats a dropped sender like a live one |
| Loopback.UpdatesOverWire | src/sugar.rs:260 | updates converted by the client come out of the server's downcaster unchanged, with nothing reported |
| Loopback.RpcLoopback | src/sugar.rs:194-207 | a unary call against `accept_one` and the server's `rpc` gets exactly the handler's answer |
| Loopback.ServerStreamingLoopback | src/sugar.rs:210-237 | a server-streaming call gets the handler's responses, item for item, in production order |
| Loopback.ClientStreamingLoopback | src/sugar.rs:240-277 | with the corrected race, the server's handler sees exactly the client's updates, and the client gets exactly its answer |
| Loopback.ClientStreamingLoopbackAsWritten | src/sugar.rs:422-447 | against the server as written, the same call panics the server task exactly when the error branch is polled before the response send completes. Otherwise the client gets exactly the handler's answer |
| Loopback.BidiLoopback | src/sugar.rs:280-305 | the server's handler sees exactly the client's updates, and the client's response stream is the handler's stream in production order |

## Left out

- Async machinery (`Pin`, `Poll` wakers, boxing of sinks and streams) is not modelled. `poll_next` returns `Pending` after a failure without the inner stream having registered a waker. It relies on the one-shot send waking the task, which is a waker matter and not modelled.
- Which branch of `race2`'s `select!` completes first is the scheduler's choice. It is the parameter `Race.Schedule`, not modelled timing.
- Handlers are pure functions. A streaming-request handler is taken to read its update stream to the end before the race is decided. That cannot hold past a second failing update: the first error is then ready and the read is pending again, so the error wins before any send, whatever the schedule, and the items after that update are never read (`Server.RaceSchedule`, `Server.ItemsRead`). Handlers that stop reading early, or that interleave reads with sends, are not modelled.
- Streams and producers are finite sequences. Infinite response or update streams are not modelled.
- The client's update sink is driven by the caller. The model sends every given update in order until a send fails.
- `consumed` for a client response stream counts the items taken by a caller that reads the stream to its end. Dropping the stream early is not modelled.
- The server-side choice of handler, which downcasts the first request with the message's `TryFrom`, lives outside this file. It appears only in the `Loopback` lemmas.
- The `Channel`/`ChannelTypes` traits, the in-process and QUIC transports, and their framing and codec are not part of this model. Transport errors appear as opaque type parameters.
- The QUIC, TLS and certificate setup in `tests/quinn.rs` is network plumbing and is not modelled. The harness in `tests/util.rs` expects server termination to surface as `AcceptBiError`, which `Server.AcceptOne` returns for a failed accept.
- `Display`/`Debug` impls are formatting only. `UnexpectedUpdateMessage` debug-prints as "UnexpectedStartMessage" (src/sugar.rs:346).
- `UnexpectedStartMessage` is declared but produced by none of the modelled operations.
- `ClientChannel::new` and the `Clone`/`Copy`/`Default` impls of `DispatchHelper` carry no behaviour. `Server.DispatchHelper` has no content, like the source's `PhantomData` struct. It only fixes the channel's error types.
- The three identical enums `StreamingResponseError`, `ClientStreamingError` and `BidiError` are one type, `Client.StreamingResponseError`. Likewise `BidiItemError` is `Client.StreamingResponseItemError`.
- Server.BidiStreaming: models the handler's response stream as keeping its update stream until it ends. A handler stream that drops its update stream early, with no update failed, exposes the same cancelled one-shot as `Server.ClientStreamingAsWritten`. That case is not modelled.
- A send whose value the sink has taken but not yet flushed when a reported error wins is not counted among the values sent.

## Findings

| source | as written | input that shows it | evidently intended | confidence | as-written member | corrected member |
|---|---|---|---|---|---|---|
| src/sugar.rs:529 | The error future unwraps the result of the one-shot receiver. When the `UpdateDowncaster` is dropped without reporting, the one-shot is cancelled and `unwrap` panics | a client-streaming handler returns its response with no update failing, which drops the downcaster. The response send is still pending, and `select!` polls the error branch first | a cancelled one-shot should leave the error branch pending, so that the send loop decides the result | medium, not executed | Server.ClientStreamingAsWritten, Race.Race2AsWritten, Race.Race2AsWrittenPanics | Server.ClientStreaming, Race.Race2, Race.Race2AgreesUnlessPanic |
