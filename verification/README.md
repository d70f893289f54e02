# Verified model of the request core of wilton_server

`wilton_server` puts an HTTP and WebSocket server in front of scripts. A script is handed an integer handle of a
request, and answers it through calls that look the handle up, work on the request and put it back. This project
models the four stateful parts that the server's own code decides, and proves what it relies on:

* **Requests and their transport tokens** (`Metadata`, `RequestCore`, `Request`). A request owns one token, the
  library's response writer or websocket. A compare-and-swap from `created` to `committed` decides which call takes
  it. `RequestCore` gives, per call, its *gate* (all it checks, up to the swap) and its *effect*; `Request` has the
  objects with their fields and methods, each proved to do exactly gate and effect.
* **Any number of threads** (`Protocol`, `TokenLife`, `ProtocolInvariant`, `ProtocolTheorems`, `ProtocolReplies`,
  `ProtocolDiscipline`, `ProtocolWitnesses`). Check-out, gate, effect, put-back, hand-over to a delayed writer or
  retained websocket, registration, use, deletion, the end of a stream sender, return of the callback, `finish` and
  destruction are separate atomic steps of one transition system. Using a dead object or a moved-away token is a step
  like any other and sets `fault`. What callers are told is recorded at put-back. The system is proved to refine
  `TokenLife`, a small automaton of what may happen to a single token. `ProtocolDeeds` says what every run does to the
  clients in terms of the calls themselves, without events.
* **What a call does by itself** (`ProtocolSolo`, `ProtocolDelayed`, `ProtocolHandler`): one thread alone, from
  check-out to put-back, for every script on a request and every operation on a delayed object, and then whole
  handlers, the error page of a failed script included.
* **The stream sender** (`Chunking`, `StreamSender`, `Delivery`), a loop written as callbacks that lends one buffer to
  a writer which reads it later, piece by piece. The buffer is a real array, refilled for each chunk. `Delivery` puts
  a request, its sender and the removal of a temporary file together.
* **Request bodies** (`PayloadStore`, `PayloadSharing`, `PayloadHandler`, `PayloadWitnesses`), kept in memory up to a
  limit and then in a temporary file, and read back as a string or as a file name in any order, by handlers that
  share records and are copied, moved, assigned to and destroyed in any order.
* **Header and query merging** (`HeaderSpec`, `HeaderFolding`, `HeaderNames`) and the **templates** (`Templates`):
  the template cache and the loading of partials.

`dafny verify dfyconfig.toml` checks everything.

## Assumptions

* A registry's `put` gives an object the same handle every time; the server discards what `put` returns and goes on
  using the old handle (src/wiltoncall_server.cpp:421, src/wiltoncall_server.cpp:541). The registry class is not part
  of this model. Handles and addresses may be used again once their object is gone; only tokens are unique.
* Two rules that callers must respect are not enforced by the code, and are stated as `Disciplined`: no thread holds
  a request when its callback returns (the last `remove`, src/wiltoncall_server.cpp:251, does not wait), and request
  metadata or a websocket message is read only while the request still has its token (src/request.cpp:108 reads the
  connection through `resp`). `ReturnIsSafeIffQuiescent`, `ReadIsSafeIffTokenHeld` and `ServeCrashesIff` prove that
  each rule is exactly what is needed, and `EarlyReturnFaults`, `LateReadFaults` and `LateReadCrashes` give runs that
  break one and go wrong.
* What the file system or the library answers (a file opens, a template loads, a write fails, a send throws) is an
  input, and every statement holds for all answers. A send that throws does so while writing, with the token still in
  its request or object. Names of temporary files are new because of their random part.
* `change_header` replaces the value of the header with the same name as written.
* Library code becomes the classes `Channel`, `ChunkWriter` and `FileSystem`; `std::sort` becomes an insertion sort,
  of which only the sorted result is used.

## Code and documentation

The comment above the header loop says that values are joined with `", "` (src/request.cpp:262-267). The code joins
with `","` (src/request.cpp:304-311). The model follows the code: `JoinedByBareComma` is a request where the two
differ, and `DocumentedIff` proves that they agree exactly when at most one line of a name has a value.

A handler that is assigned over lets its record go without removing the record's file, since only the destructor of a
handler does that (src/request_payload_handler.hpp:84-106). `AssignmentLeavesFile` is such a run; `LeavesBehindIff` and
`NothingLeftBehindIff` prove that nothing else ever leaves a file behind.

## Model

| member | source | states |
|---|---|---|
| `Metadata.FoldIsLastWins` | src/request.cpp:152-156 | over any list of metadata calls, the last one decides status and message, the last line naming a header decides its value, and headers never named keep theirs |
| `RequestCore.ServeTrace` | src/sserver.cpp:106-113 | for every list of calls of a handler, the token receives the metadata accepted before the first committing call, then that call's answer or the one of `finish`, and nothing more; every later committing or metadata call is refused |
| `RequestCore.ServeDisposesOnce` | src/request.cpp:159-238 | handler plus `finish` end the exchange exactly once, with the fold of the accepted metadata, except after a hand-over, a template that fails to load and data that cannot be written |
| `RequestCore.ServeCrashesIff` | src/request.cpp:102-124 | a handler reads a moved-away token if and only if it reads request metadata (or a websocket message) after the call that gave the token away |
| `RequestCore.LateReadCrashes` | src/request.cpp:102-124 | such a handler: it answers and then asks for the request metadata |
| `RequestCore.ServeClosing` | src/sserver.cpp:98-104 | the handler of a closing websocket starts committed: no call reaches the token and none can go wrong |
| `RequestCore.FailedFileLeavesRequestOpen` | src/request.cpp:173-181 | a `send_file` whose file does not open leaves the request as it was, so any later calls, an error page included, behave as if it had not been made |
| `RequestCore.WinnerTakesToken` | src/request.cpp:159-226 | a call eligible for this kind of request, made while it is open, commits it and takes the token; a failing template or write commits it and leaves the token inside |
| `RequestCore.RunCallsCommitted` | src/request.cpp:147-226 | on a committed request no sequence of calls changes anything, and each committing or metadata call replies that it is already committed |
| `RequestCore.Winner` | src/request.cpp:159-226 | the winner is the first call of the handler that could commit a request of its kind |
| `RequestCore.LateMessageCrashes` | src/request.cpp:112-124 | the message of a websocket goes with its token, the body of an HTTP request stays readable after the answer |
| `RequestCore.ErrorsIff` | src/request.cpp:112-226 | for every call on every request, exactly when it gets each of the five errors, and that the state changes exactly on a success or a failure after the commit |
| `Request.Channel.SetMetadata` | src/request.cpp:152-156 | the loop over headers leaves the response as one metadata call should |
| `Request.Request.FromHttp` | src/request.cpp:84-95 | an HTTP request starts created and holds its response writer |
| `Request.Request.FromWebSocket` | src/request.cpp:97-100 | a websocket request starts created, or committed when no response is allowed, and holds its websocket |
| `Request.Request.SetResponseMetadata` | src/request.cpp:147-157 | refused once committed, and for websockets; otherwise applied to the response; fields, token and reply are exactly those of gate and effect |
| `Request.Request.SendResponse` | src/request.cpp:159-171 | exactly one caller gets through; the data is written and sent on the token, which is moved out; a write that fails after the commit leaves a committed request with its token |
| `Request.Request.SendFile` | src/request.cpp:173-184 | kind, then opening the file, then the commit; only then is the token moved to a stream sender |
| `Request.Request.SendMustache` | src/request.cpp:186-204 | kind, then the commit, then loading the template; a load failure leaves a committed request with its token |
| `Request.Request.SendLater` | src/request.cpp:206-215 | a success moves the token into a new delayed writer, anything else returns none and keeps the token |
| `Request.Request.RetainWebSocket` | src/request.cpp:217-226 | the same for websockets |
| `Request.Request.Finish` | src/request.cpp:228-238 | commits, and answers or re-arms, exactly when no call has committed |
| `Request.DelayedWriter.SetMetadata` | src/response_writer.cpp:39-45 | metadata reaches the response of the token held |
| `Request.DelayedWriter.Send` | src/response_writer.cpp:47-50 | the data is sent with the response as it is: the log gains exactly that, and the token is moved out |
| `Request.RetainedSocket.Send` | src/websocket.cpp:38-41 | the log gains exactly the data sent, and the token is moved out |
| `Request.RetainedSocket.Close` | src/websocket.cpp:43-45 | the log gains exactly a close, and the token is moved out |
| `Request.Serve` | src/sserver.cpp:99-113 | construct, run the handler, finish: on the real objects, every handler that reads no token late has exactly the acts and the replies of `RequestCore.Serve`, and no method dereferences a moved-away token |
| `TokenLife.LifeFoldsMetadata` | src/request.cpp:147-171 | in any legal log the response of a token is the left-to-right fold of exactly the metadata accepted for it |
| `TokenLife.LifeLogsOnce` | src/request.cpp:159-238 | a token is answered at most once, with the response it has at that moment, and only a streamed answer is on its way for a while |
| `TokenLife.EndIsFinal` | src/wilton_server.cpp:456-502 | nothing happens to a token after its end |
| `TokenLife.EndsProperly` | src/request.cpp:159-238 | each way of ending is reached only from where it belongs: re-arming only by `finish` on a websocket, streaming only from a claimed HTTP request, closing only from a retained websocket, dropping only from an abandoned request or an object whose send failed |
| `TokenLife.EndLeavesEntry` | src/request.cpp:159-238 | in any legal log the act that ends an exchange leaves its own entry and no other: sent with its body and the response of that moment, streamed with its source, re-armed, closed or dropped |
| `TokenLife.DoomedIffExcused` | src/request.cpp:159-204 | in any legal log a token is dropped, or about to be, if and only if a template failed to load, a send failed, or it was a websocket already closing |
| `TokenLife.DropIsExcused` | src/wilton_server.cpp:456-491 | the failure is on record before the drop |
| `TokenLife.StrandedIffLeaked` | src/wilton_server.cpp:493-502 | a token is stuck in a leaked object if and only if a close of that object threw |
| `ProtocolInvariant.StepInv` | src/wiltoncall_server.cpp:192-826 | every disciplined step of any thread or of the server keeps the invariant of the whole system |
| `ProtocolInvariant.RunInv` | src/wiltoncall_server.cpp:192-826 | the invariant holds after every disciplined run, over any interleaving of any number of threads, requests and delayed objects |
| `ProtocolTheorems.NoFault` | src/wiltoncall_server.cpp:397-826 | no disciplined run uses a dead request, a freed delayed object or a moved-away token, or frees an object twice |
| `ProtocolTheorems.RunsRefineTokenLife` | src/request.cpp:159-238 | the interleaved system refines the automaton of each single token, and the transport agrees with it |
| `ProtocolTheorems.TokenInOnePlace` | src/wiltoncall_server.cpp:652-826 | in every reachable state each token is in exactly one place: one live request, one live delayed object, one running stream sender, or one entry of the log of its end |
| `ProtocolTheorems.EverythingIsDisposed` | src/sserver.cpp:97-113 | once no request and no delayed object is left, every token that arrived was answered or dropped exactly once, and only streamed answers can still be on their way |
| `ProtocolTheorems.SentResponseIsFold` | src/response_writer.cpp:39-50 | the response finally sent or streamed is the fold of exactly the metadata accepted before the commit, continued by that set on the delayed writer; `ProtocolDeeds.LoggedIsAsked` ties that metadata to the calls |
| `ProtocolTheorems.UnansweredIffExcused` | src/request.cpp:159-238 | in every run an exchange that is over went unanswered if and only if its template failed to load, a send of its token failed, or it was a closing websocket |
| `ProtocolTheorems.DroppedAfterExcuse` | src/wilton_server.cpp:456-491 | in every run one of these is on record before a token is dropped; a hand-over alone is no reason |
| `ProtocolTheorems.MetadataAfterCommitOnlyDelayed` | src/request.cpp:147-157 | after the commit metadata reaches the token only through the delayed writer that holds it |
| `ProtocolDeeds.ClientsGetWhatWasAsked` | src/wiltoncall_server.cpp:192-826 | in every disciplined run, for every token: its response is the one it arrived with changed by exactly the metadata that the calls on its request and delayed object carried, left to right, and its log has the one end that a call or the server asked for, with that call's body or path and that response, or none yet |
| `ProtocolDeeds.LoggedIsAsked` | src/wiltoncall_server.cpp:714-743 | in every disciplined run the metadata events of a token are exactly the metadata of those calls, in order |
| `ProtocolReplies.CommittedAtMostOnce` | src/request.cpp:159-238 | in every run at all, disciplined or not, no request is committed twice |
| `ProtocolReplies.OneReplyWins` | src/request.cpp:159-226 | in every run at all, of any two committing calls on one request at most one is told of anything but an error raised before its commit |
| `ProtocolReplies.LosesIff` | src/request.cpp:159-226 | a committing call loses exactly when the request is committed already or the call could never commit it, and its error is then one raised before any commit |
| `ProtocolReplies.LoserLeavesNoTrace` | src/wiltoncall_server.cpp:534-541 | a losing call, from check-out to put-back, leaves the whole state as it was but for one refusal told |
| `ProtocolReplies.OthersLeaveHeld` | src/wiltoncall_server.cpp:534-541 | while a thread has a request checked out no step of anyone else changes it, its registration or that thread |
| `ProtocolReplies.LosingCall` | src/wiltoncall_server.cpp:534-541 | the same in the middle of anything: whatever others do before the refusal and after it, none of the three steps of a losing call adds an event or changes any request, token, delayed object or log, its request is untouched in between, and its caller is told |
| `ProtocolReplies.ScriptsAreKept` | src/wiltoncall_server.cpp:192-204 | a script under one check-out always has a next step, no step of it forgets or reorders a call, and it is put back only when every call has its reply |
| `ProtocolTheorems.CallsTerminate` | src/wiltoncall_server.cpp:397-826 | a thread inside a call can always move and leaves the call after a bounded number of its own steps, whatever the others do |
| `ProtocolDiscipline.RequestIsExclusive` | src/wiltoncall_server.cpp:534-541 | while its handler runs a request is in its registry and held by nobody, or held by exactly one thread |
| `ProtocolDiscipline.DelayedIsExclusive` | src/wiltoncall_server.cpp:714-826 | a delayed object is leaked, which is so if and only if a close of it threw, or in its registry with its token, or held by exactly one thread |
| `ProtocolDiscipline.ReturnIsSafeIffQuiescent` | src/wiltoncall_server.cpp:251-252 | returning from the callback can be followed by a use of the dead request if and only if some thread holds the request at that moment |
| `ProtocolDiscipline.ReadIsSafeIffTokenHeld` | src/request.cpp:102-124 | reading metadata or a message can go wrong if and only if the request has given its token away |
| `ProtocolWitnesses.EarlyReturnFaults` | src/wiltoncall_server.cpp:251-252 | a run of seven steps in which only the return breaks a rule: the request is finished and destroyed under a thread that then uses it |
| `ProtocolWitnesses.LateReadFaults` | src/request.cpp:252-258 | a run of eight steps in which only the last check-out breaks a rule: an answered request is still registered, and reading its metadata uses the moved-away token |
| `ProtocolSolo.SoloScript` | src/wiltoncall_server.cpp:534-541 | every script, one call or two under one check-out, made by one thread alone, does to request, registry, token, handles and callers exactly what its calls do one after another, with one reply for each; nothing else changes |
| `ProtocolSolo.SystemErrorIsSent` | src/wiltoncall_server.cpp:192-204 | the error page: on an open HTTP request the client gets status 500 and the message; on an open websocket the status is refused and the message still goes out; on a committed request nothing changes |
| `ProtocolHandler.EveryHandlerHasARun` | src/sserver.cpp:97-113 | every handler, in any number of scripts, that reads no token late is served by some disciplined run of the interleaved system, and at its end the request is gone, its callers were told exactly the replies of the handler, and the token has seen exactly the acts of construct, handler and `finish` |
| `ProtocolHandler.FailedHandlerIsReported` | src/wiltoncall_server.cpp:238-251 | a handler whose script fails after calls that answered nothing: the client gets status 500 and the message, with the headers set before, or on a websocket the message, and nothing else |
| `ProtocolDelayed.SoloDelayed` | src/wiltoncall_server.cpp:714-826 | every operation on a registered delayed object, made by one thread alone: metadata changes the response and leaves the handle; a send leaves its data with the response held, or a drop if it throws; a close leaves a close, or if it throws a leaked object; nothing else in the system changes |
| `ProtocolDelayed.DelayedResponse` | src/wiltoncall_server.cpp:652-773 | `send_later`, any list of metadata on the writer, and `send`: the client gets the data with the left-to-right fold of that metadata, and no object and no handle is left |
| `ProtocolDelayed.RetainedExchange` | src/wiltoncall_server.cpp:683-826 | `retain_websocket` and then a send or a close: the socket's log gains exactly that, and no object and no handle is left |
| `Chunking.ChunksAreContent` | src/response_stream_sender.hpp:59-91 | a body of n bytes is cut into n / 4096 chunks of exactly 4096 bytes and one last chunk of n mod 4096 bytes, whose concatenation is the body |
| `Chunking.FirstFailure` | src/response_stream_sender.hpp:86-90 | the first failing write, all earlier ones having succeeded |
| `StreamSender.ChunkWriter.TransmitAll` | src/response_stream_sender.hpp:72-82 | in whatever pieces a chunk goes out, the bytes are those its payload holds while it does |
| `StreamSender.ResponseStreamSender.ReadAll` | src/response_stream_sender.hpp:62-63 | fills the buffer from the stream, and may be called only while the buffer is not on loan |
| `StreamSender.ResponseStreamSender.HandleWrite` | src/response_stream_sender.hpp:59-91 | one callback: a full chunk is lent and stays pending, a last chunk is copied and finishes, an error marks the connection for closing; the finalizer is called in the last two cases only |
| `StreamSender.Advance` | src/response_stream_sender.hpp:72-82 | a pending chunk goes out with the bytes read for it and its callback leads to the next chunk, the end or the failure |
| `StreamSender.Run` | src/response_stream_sender.hpp:54-91 | every run ends; without failures the wire carries exactly the chunks of the stream, even though the buffer is refilled while writes are pending and reused before the last one; with a failure it carries a prefix; the finalizer is called exactly once, with the right answer, and only after the last byte is read and all full chunks are out, or at the failure |
| `Delivery.SendTempFile` | src/wiltoncall_server.cpp:576-611 | the file is removed if and only if the call is not refused, which is so exactly for an open HTTP request and a file that opens; then the token goes to a sender, the file or a prefix of it goes on the wire, and it is removed once, not before it has been read to its end or a write has failed; all other files stay |
| `Delivery.StreamOut` | src/response_stream_sender.hpp:54-91 | what a sender leaves on the wire for any content, and when its finalizer is called |
| `Delivery.RunSender` | src/response_stream_sender.hpp:54-91 | a running sender of the interleaved system comes to its end by such a run: the log gains one end of a sender, complete exactly when the finalizer was told so, which is when the whole content went out |
| `PayloadStore.ReceiveAccumulates` | src/request_payload_handler.hpp:123-150 | one chunk is appended to memory or file, the step that spills included; the limit is never reached in memory; a refusal changes nothing |
| `PayloadStore.FeedAccumulates` | src/request_payload_handler.hpp:123-150 | after any chunks the store holds exactly their concatenation, or the body was refused for lack of a directory |
| `PayloadStore.FateByLength` | src/request_payload_handler.hpp:126-140 | with a limit of at least one byte, memory, file or refusal depends on the length of the body alone |
| `PayloadStore.SplittingMattersIff` | src/request_payload_handler.hpp:126-140 | two splittings of one body fare alike if and only if the limit is positive or both or neither have a chunk |
| `PayloadStore.ZeroLimitSplitsDiffer` | src/request_payload_handler.hpp:126-140 | with a limit of zero, no chunk and one empty chunk end differently |
| `PayloadStore.DecimalRoundTrip` | src/request_payload_handler.hpp:157-160 | the counter in a file name is written in decimal and read back as itself |
| `PayloadStore.NamesAreDistinct` | src/request_payload_handler.hpp:157-160 | the file of a body lies in the configured directory, its name ends with the random part, and two names are equal if and only if counter and random part are |
| `PayloadStore.ReadingEndsReceiving` | src/request_payload_handler.hpp:166-199 | every read and destruction closes the file being written; after a read as a file name more of the body is refused and nothing changes |
| `PayloadSharing.EveryReadIsFaithful` | src/request_payload_handler.hpp:166-199 | after receiving, every string read and every file-name read of any run, through any handler and in any order with copies, moves, assignments and destructions, answers with the body of the record the handler then has, as long as no record with a file is destroyed through one handler while another has it |
| `PayloadSharing.MissingFileRead` | src/request_payload_handler.hpp:166-181 | a string read of a file that is gone fails once and later ones answer with what memory holds |
| `PayloadSharing.OneNamePerRecord` | src/request_payload_handler.hpp:183-199 | all file-name reads of one record give one name, those of different records different ones, and each record makes at most one file |
| `PayloadSharing.LeavesBehindIff` | src/request_payload_handler.hpp:84-106 | an operation leaves a file without an owner if and only if it is an assignment to the only handler of a record whose file is there, of another record or none; what is left behind stays so |
| `PayloadSharing.OverwritesIff` | src/request_payload_handler.hpp:84-95 | where nothing was destroyed early, that is an assignment to the only handler of a record with a file name |
| `PayloadSharing.FilesLeft` | src/request_payload_handler.hpp:84-106 | once all handlers are gone, the files still there are exactly those an assignment left behind |
| `PayloadSharing.NothingLeftBehindIff` | src/request_payload_handler.hpp:84-106 | for every order of reads, copies, moves, assignments and destructions, early ones included, the file system is in the end as before if and only if no assignment overwrote the only handler of a record with a file |
| `PayloadSharing.EarlyDestroyIsSafeIffNoFile` | src/request_payload_handler.hpp:97-106 | destroying one of several handlers of a record keeps later reads correct if and only if no file exists yet |
| `PayloadSharing.BodiesRoundTrip` | src/request_payload_handler.hpp:111-199 | any bodies received in any chunks are read back as their concatenations, in every way of reading |
| `PayloadSharing.AssignMoveTakes` | src/request_payload_handler.hpp:92-95 | the handler assigned to then has the other's record and the other has none; onto itself nothing changes; all other handlers, records and files stay |
| `PayloadSharing.MoveTakes` | src/request_payload_handler.hpp:89-90 | the new handler has the record, the one moved from has none, all else stays |
| `PayloadSharing.CopyShares` | src/request_payload_handler.hpp:81-82 | after a copy both handlers have the record, all else stays |
| `PayloadSharing.MovedFromIsHarmless` | src/request_payload_handler.hpp:89-106 | after any further operations that assign nothing to it, destroying a moved-from handler changes no record and no file |
| `PayloadWitnesses.AssignmentLeavesFile` | src/request_payload_handler.hpp:84-87 | two received bodies, one read as a file and its handler assigned over: when both handlers are gone the file is still there |
| `PayloadWitnesses.EarlyDestroyLosesFile` | src/request_payload_handler.hpp:97-106 | a received body read as a file, its handler copied and destroyed: the copy names a file that is not there |
| `PayloadWitnesses.MoveKeepsFile` | src/request_payload_handler.hpp:89-106 | the same run with a move instead of the copy: the file is still there |
| `PayloadHandler.Handler.Receive` | src/request_payload_handler.hpp:123-150 | `operator()` on the shared record and the file system does what the store's receive step says, in every state |
| `PayloadHandler.Handler.GetDataAsString` | src/request_payload_handler.hpp:166-181 | the same for reading as a string, a vanished file included |
| `PayloadHandler.Handler.GetDataAsFilename` | src/request_payload_handler.hpp:183-199 | the same for reading as a file name |
| `PayloadHandler.Handler.Destroy` | src/request_payload_handler.hpp:97-106 | the destructor removes the file of its store, if any |
| `PayloadHandler.Handler.Copy` | src/request_payload_handler.hpp:81-82 | a copy shares the record |
| `PayloadHandler.Handler.Move` | src/request_payload_handler.hpp:89-90 | a move takes the record and leaves the other handler without |
| `PayloadHandler.Handler.AssignCopy` | src/request_payload_handler.hpp:84-87 | copy assignment shares the other handler's record and lets its own go without touching any file |
| `PayloadHandler.Handler.AssignMove` | src/request_payload_handler.hpp:92-95 | move assignment takes the other handler's record, again touching no file; onto itself it changes nothing |
| `PayloadHandler.PerformOps` | src/request_payload_handler.hpp:81-199 | any operations on any number of real handlers sharing any number of records, moved-from and destroyed ones included, give the answers, handlers, records and files of `PayloadSharing.PerformAll` |
| `PayloadHandler.ReceiveBody` | src/request_payload_handler.hpp:123-150 | a body fed chunk by chunk to the real handler is held in full, or refused exactly when it reaches the limit with no directory to spill to |
| `HeaderSpec.AppendWithCommaAssociative` | src/request.cpp:304-311 | joining is associative with the empty string as identity |
| `HeaderSpec.JoinedSnoc` | src/request.cpp:304-311 | appending one value at a time gives all non-empty values separated by commas |
| `HeaderSpec.DocumentedIff` | src/request.cpp:262-311 | for every list of lines and every merged header outside the 17 names, its value is the documented one, joined by a comma and a space, if and only if at most one of its lines has a value |
| `HeaderSpec.DocumentedListIff` | src/request.cpp:262-287 | the whole list is as documented if and only if no such name has two lines with a value |
| `HeaderSpec.JoinedByBareComma` | src/request.cpp:262-311 | a request where code and comment differ: two values of one name are joined with a comma and no space |
| `HeaderSpec.HeaderListUnique` | src/request.cpp:280-286 | a request has only one merged header list, so it cannot depend on the order of the hash map |
| `HeaderSpec.SwapKeepsHeaderList` | src/request.cpp:268-287 | exchanging neighbouring lines with different names does not change the list |
| `HeaderSpec.HeaderListIsFixed` | src/request.cpp:268-287 | a merged list, taken as input, is merged to itself |
| `HeaderNames.LowerIff` | src/request.cpp:273-274 | two names are lower-cased alike if and only if they have the same length and differ at most in the case of ASCII letters |
| `HeaderNames.LowerIsLower` | src/request.cpp:273-274 | lower-casing leaves no capital, changes nothing but capitals, and does nothing twice |
| `HeaderNames.DiscardedNames` | src/request.cpp:59-63 | the names of which only the first line counts are exactly the 17 of the list |
| `HeaderNames.LessIff` | src/request.cpp:283-285 | a name comes first if and only if it is a proper prefix or has the smaller character at the first difference |
| `HeaderNames.HeadersByName` | src/request.cpp:268-287 | without lower-casing: the list holds exactly one header per name in any spelling, with the first spelling and the first value (17 names) or all values appended in order |
| `HeaderNames.EveryLineHasAHeader` | src/request.cpp:268-287 | every line of the request is in exactly one header, under a spelling of its own name |
| `HeaderNames.TwoSpellings` | src/request.cpp:268-287 | two lines of one name in any two spellings give exactly one header |
| `HeaderNames.AcceptTwice` | src/request.cpp:268-287 | the lines `Accept: a` and `accept: b` give exactly `Accept: a,b` |
| `HeaderNames.QueriesByName` | src/request.cpp:289-302 | the query list holds exactly one query per name, case and all, with all its values appended in order: none is discarded |
| `HeaderNames.QueriesStayApart` | src/request.cpp:289-302 | queries whose names differ, even in case only, stay apart |
| `HeaderNames.QueriesKeepAll` | src/request.cpp:289-302 | a repeated query keeps both values, whatever its name |
| `HeaderFolding.AbsorbOk` | src/request.cpp:270-279 | one turn of the loop keeps the map equal to the merged entries seen so far |
| `HeaderFolding.GetRequestHeaders` | src/request.cpp:268-287 | the loops and the sort, for every walk through the map, give the one list with, per lower-cased name, the first spelling and the first value (17 names) or all non-empty values, strictly sorted by name |
| `HeaderFolding.GetQueries` | src/request.cpp:289-302 | the same case-sensitively, each name once, unsorted |
| `Templates.MustacheCache.Get` | src/mustache_cache.hpp:49-62 | a lookup answers from the cache or reads the file once; a file that cannot be read changes nothing |
| `Templates.LookupIsFirstRead` | src/mustache_cache.hpp:49-62 | in any run, however files change, a lookup answers with the first successful read of its path |
| `Templates.CacheOnlyGrows` | src/mustache_cache.hpp:49-62 | entries are never changed or dropped |
| `Templates.CacheIsInvisible` | src/mustache_cache.hpp:49-62 | when files do not change, the cache answers as reading the file would |
| `Templates.PartialOfFile` | src/sserver.cpp:217-219 | a file is a partial if and only if its name is something followed by `.mustache`, and that something is the name of the partial |
| `Templates.LoadPartials` | src/sserver.cpp:213-227 | succeeds if and only if all stripped names over all directories are distinct, and then holds exactly those partials |
| `Templates.ListingOrderIrrelevant` | src/sserver.cpp:213-227 | loading succeeds or fails alike for every order of the directories and of the files listed in each, and gives the same map |

## Left out

- The registry and call functions of src/wiltoncall_server.cpp are modelled on values, as the steps of `Protocol`, because their interleaving is the point; the model does not capture them as methods of a registry object.
- The several writes of one metadata call to a response, and a write followed by its send, are one effect step in `Protocol`; `Request.Channel.SetMetadata` has the writes one by one, and `ProtocolDiscipline.RequestIsExclusive` rules out another thread between them.
- JSON parsing of call arguments, null and length checks of the C interface, error strings, logging and UTF-8 repair: single branches around library calls. A call starts at its handle and its parsed arguments.
- pion, asio, OpenSSL, websocket frames, HTTP parsing and the framing bytes of chunks: library code that is not part of this model.
- Failures of the final chunk's write, and exceptions thrown by the library's own `send` or `receive` once the token has been moved to it: handled inside the library. A throw of the write before it is modelled, as the failing template is.
- Mustache rendering, and the stripping of a file prefix from template paths (src/request.cpp:193-198).
- Weak memory ordering: the atomic is sequentially consistent here.
- Records that are still receiving while handlers of others are read: in `PayloadSharing` bodies arrive one after another, before they are read.
- File operations other than those named as inputs succeed. Writing more of a body after it has been read is modelled in `PayloadHandler.Handler.Receive`, and refused after a read as a file name (`PayloadStore.ReadingEndsReceiving`); nothing more is claimed for it.
- Registry destructors at module shutdown, server creation, stop, broadcast and port queries, TLS callbacks, and the file, zip and loader handlers.
- The configuration classes, of which only the memory limit and the directory are taken, and the extraction of views from the server configuration.
