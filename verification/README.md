# E1.33 controller dispatch bookkeeping and `MemoryBuffer`, in Dafny

This project models two small stateful pieces of the Open Lighting Architecture (OLA).

**The E1.33 controller tool** (`tools/e133/e133-controller.cpp`) sends RDM requests to one device and waits for their completions. Two global counters drive it:
- `transaction_number` is stamped into each request and then incremented.
- `responses_to_go` counts the requests that are still waiting for a completion.

`SendGetRequest` and `SendSetRequest` build a request and hand it to the universe controller. Every request carries port id 1, message count 0 and the root sub-device. The fields are those of the RDM message of section 6.2 of ANSI E1.20. Each send then counts the request as outstanding.

The completion callback `RequestCallback` works the same way for every response code. It releases the response, decrements the count, and stops the node when the count reaches zero. `main` sends two GETs and one SET, and enters the event loop only if something is outstanding.

The model is the class `E133Controller.Session`. It holds both counters, the number of `Stop` calls, the log of requests handed to the controller, and the log of released responses. `Session.Valid()` is its invariant. Under it:
- the dispatched requests are numbered 0, 1, 2, … in dispatch order, and all carry the fixed addressing;
- outstanding plus completed equals dispatched;
- Stop has not been called more often than completions arrived.

`RunEventLoop` stands in for `node.Run()`. It feeds the completions the transport delivers to `RequestCallback` until the node is stopped. Its contract proves that with one completion per outstanding request, in any order and with any mix of codes, all of them are handled and Stop is called exactly once. The loop's exit condition means Stop cannot fire before the last completion. `RunController` is main's dispatch-and-run sequence. It proves that the three requests get numbers 0, 1 and 2, that the count is 3 after dispatch, and that the loop is entered and ends with a count of 0 after one Stop. The `--log-level` switch is the pure function `ApplyLogLevelArgument`, and `DEFAULT_LOG_LEVEL` (WARN) is main's default (e133-controller.cpp:232).

**`ola::io::MemoryBuffer`** (`include/ola/io/MemoryBuffer.h`) is a read cursor over a memory block the buffer does not own. The class `Io.MemoryBuffer` wraps an `array<uint8>`. `Get` clamps the request to the bytes left, copies them into the caller's array (a `forall` statement stands for `memcpy`) and advances the cursor. Its contract is tied to the pure function `Io.ReadAt`. `Io.ReadAllIsPrefix` proves that successive reads hand out the contiguous prefix of the block whose length is the total requested, clamped to the size.

Both payload bytes of the SET request are fixed. `HostToNetwork` stores the start address 10 in network byte order, and the bytes of a value in network order are the same on every host. So the payload is `[0x00, 0x0A]` (`NetworkOrder16`).

Files: `base_types.dfy` (fixed-width integers, `Option`), `rdm.dfy` (UIDs, request and response values, E1.20 constants), `memory_buffer.dfy` (module `Io`), `e133_controller.dfy` (module `E133Controller`).

## Model

| member | source | states |
|---|---|---|
| `Io.Clamp` | include/ola/io/MemoryBuffer.h:45 | the length handed out is the minimum of the bytes left and the request: at most each, and equal to one of them |
| `Io.ReadAt` | include/ola/io/MemoryBuffer.h:44-48 | one read returns `Clamp` bytes and moves the cursor past them; the bytes read followed by the still-unread bytes are exactly the bytes unread before; on an exhausted block it returns nothing and leaves the cursor where it was |
| `Io.ReadAllIsPrefix` | include/ola/io/MemoryBuffer.h:44-48 | the concatenated output of any sequence of reads is `block[cursor .. cursor + min(total requested, bytes left))`; from a fresh buffer it is the prefix of length min(total, size) |
| `Io.MemoryBuffer.constructor` | include/ola/io/MemoryBuffer.h:37-41 | a new buffer wraps the given block and size, with the cursor at 0 and nothing consumed |
| `Io.MemoryBuffer.Get` | include/ola/io/MemoryBuffer.h:44-48 | the returned length is `min(size - cursor, requested)`; the output starts with exactly the block's bytes from the old cursor; output bytes past the length are untouched; the wrapped data is unchanged; the cursor advances by the length and stays within the size; the result agrees with `ReadAt`, and the consumed bytes grow by exactly the output |
| `E133Controller.LevelArgument` | tools/e133/e133-controller.cpp:99-119 | the argument that selects each log level lies between 0 and 4 |
| `E133Controller.ApplyLogLevelArgument` | tools/e133/e133-controller.cpp:99-119 | an argument from 0 to 4 selects the level whose argument it is (0 NONE, 1 FATAL, 2 WARN, 3 INFO, 4 DEBUG); any other argument leaves the level unchanged |
| `E133Controller.LogLevelArgumentRoundTrip` | tools/e133/e133-controller.cpp:99-119 | applying a level's own argument yields that level, whatever the level before; so the five levels have distinct arguments |
| `E133Controller.ConfiguredLogLevel` | tools/e133/e133-controller.cpp:232 | with no --log-level option, main's level is the default, WARN |
| `E133Controller.LastValidLogLevelWins` | tools/e133/e133-controller.cpp:98-119 | over several --log-level options, the last argument from 0 to 4 decides the level; if there is none, the level before the options (main's default) stays |
| `E133Controller.GetRequest` | tools/e133/e133-controller.cpp:184-193 | a GET request carries the given source, destination, transaction number and PID, port id 1, message count 0, the root sub-device and no parameter data |
| `E133Controller.SetRequest` | tools/e133/e133-controller.cpp:209-218 | a SET request carries the same fixed addressing, the given numbers and PID, and exactly the caller's first `data_length` bytes |
| `E133Controller.NetworkOrder16` | tools/e133/e133-controller.cpp:273-274 | the two payload bytes are the start address in big-endian order |
| `E133Controller.NumberedRequestsIncrease` | tools/e133/e133-controller.cpp:178-224 | requests numbered consecutively in dispatch order carry strictly increasing, hence distinct, transaction numbers |
| `E133Controller.DispatchedNumbersIncrease` | tools/e133/e133-controller.cpp:187 | in every valid session the dispatched requests carry strictly increasing, distinct transaction numbers, the first being 0 |
| `E133Controller.Session.constructor` | tools/e133/e133-controller.cpp:59-60 | both counters start at 0, nothing has been dispatched, released or stopped |
| `E133Controller.Session.SendRdmRequest` | tools/e133/e133-controller.cpp:197 | the universe controller records the request it is handed, after all earlier ones |
| `E133Controller.Session.SendGetRequest` | tools/e133/e133-controller.cpp:178-199 | the controller receives one more request, a GET stamped with the old transaction number; the transaction number and the outstanding count each grow by exactly one; nothing else changes; the session invariant is kept |
| `E133Controller.Session.SendSetRequest` | tools/e133/e133-controller.cpp:202-224 | as for GET, with a SET request carrying the caller's data |
| `E133Controller.Session.RequestCallback` | tools/e133/e133-controller.cpp:156-175 | for every response code, the response is released once and the count drops by exactly one; Stop is called exactly when the new count is 0; requests and transaction number are unchanged; requires a positive count |
| `E133Controller.Session.RunEventLoop` | tools/e133/e133-controller.cpp:283-284 | given one completion per outstanding request, in any order and with any codes, every completion is handled, the count ends at 0 and Stop is called exactly once |
| `E133Controller.RunController` | tools/e133/e133-controller.cpp:254-285 | main dispatches GET DEVICE_INFO, GET SOFTWARE_VERSION_LABEL and SET DMX_START_ADDRESS `[0x00, 0x0A]` with transaction numbers 0, 1, 2; the count is 3 after dispatch; the loop is entered; afterwards the count is 0 and Stop was called once |

## Left out

- Command-line parsing is not modelled beyond the --log-level options, which `ApplyLogLevelArguments` applies in order from main's default. That leaves out the rest of the `getopt_long` loop, `atoi` on the option text, `DisplayHelpAndExit`, the `exit` calls and all logging. The log-level switch is modelled on the integer `atoi` returns. The response fields that `RequestCallback` logs on success are not modelled either. The model keeps only the fact that it dereferences the response, which is why `Deliverable` requires a response with `RDM_COMPLETED_OK`.
- `E133Node` (`Init`, `Run`, `Stop`, `RegisterComponent`, `UnRegisterComponent`) and `E133UniverseController` (`AddUID`, `SendRDMRequest`) are not part of this model. They are networking and event-loop code. The controller is a recorder of the requests it receives (`Session.SendRdmRequest`). Stop is a counter of calls. The event loop is `RunEventLoop`, which takes the completions the transport delivers as a parameter.
- `RunController` starts after node initialisation and UID registration. The failure exits before dispatch (bad target address, missing UID, `Init` failure) belong to the process plumbing above.
- `UID::FromString`, `IPV4Address::FromString` and the binary encoding of RDM requests and responses are not part of this model. UIDs and messages are values.
- E133Controller.Session.SendGetRequest: the transaction number and `responses_to_go` are unbounded naturals. The source keeps them in 32-bit `unsigned int`, and any narrowing to the RDM field happens inside the request classes, which are not shown. Wrap-around is not modelled. Only three requests are ever sent, so it cannot occur.
- E133Controller.Session.SendSetRequest: the same unbounded counters as for GET.
- E133Controller.Session.RequestCallback: requires a positive count. The model assumes that `SendRDMRequest` never runs the callback before it returns, and that each dispatched request completes exactly once. The source does not show this: the controller's code is not part of this model. `responses_to_go++` runs only after `SendRDMRequest` returns (e133-controller.cpp:197-198, 222-223). So if the controller ran the callback early, for example on a send failure, the source would decrement before it increments. With nothing else outstanding, the unsigned counter would wrap to its maximum and Stop would be skipped. With other requests outstanding, the count would reach zero one completion early, and Stop could fire before `node.Run()` or while a request is still pending. The model does not capture those paths.
- Memory ownership (`new`, `delete`, `NewSingleCallback`) is reduced to the log of released responses. Each callback appends its response to that log exactly once.
- Concurrency is not modelled. The model assumes one thread, with callbacks delivered only by the event loop inside `RunEventLoop`, after dispatch. The early-callback case above is the consequence if that assumption fails.
- The callback does not correlate completions with requests by transaction number. The code never looks at which request completed, so the model follows the code.
- The `rdm_response_code` values other than `RDM_COMPLETED_OK` are not listed one by one (`OtherCode`), because the callback treats them all alike.
