# Telegram downloader bot: handlers and concurrent download engine

This project models the core of a Telegram bot that downloads the documents users send it, and proves properties of the model.

- **Routing.** `handle_update` sends each incoming message to one of three places: the document handler, the command handler, or a fallback reply.
- **Command handler.** It answers `/start` with a welcome text and any other command with a help text.
- **Query handler.** It answers inline-button presses. A cancel button's payload goes to the cancellation routine. Any other payload gets "Invalid Button".
- **Helpers.** They wait on the shared update stream, with a timeout, for a button press or for the next message from a chat. On top of that they ask the user to pick a download directory or to type a file name.
- **Single-stream download.** `handle_document` and `load` copy a document chunk by chunk into a new file. They edit a progress message at most once per second.
- **Segmented download.** `download_media_concurrent` is the engine.
  - Worker tasks share a counter that hands out 512 KiB chunk offsets.
  - A worker follows "file migrate" (RPC error 303) redirects by retrying the same offset against another data centre.
  - Workers push `(offset, bytes)` into a FIFO channel.
  - One coalescer drains the channel into a pre-sized file. It checks a cancel flag per chunk, seeks only when a chunk does not follow the previous one, and sends at most one progress edit per 5 s.
  - When the channel closes, it edits "Download Complete!" and reports the first failed worker in spawn order.

## How the model is built

- **Client values and effects.** Telegram client values are datatypes.
  - Every client call (send, reply, edit, delete, answer) is recorded as an `Effect` value.
  - A handler returns its effects in order.
  - Client-assigned message ids, clock readings and I/O outcomes are parameters.
  - The message texts rendered from floating-point progress (`format_message`) are an opaque `render` function of the sample they are built from.
- **Update stream and timeouts.** The update stream is a finite sequence of arrivals, each stamped with a clock reading.
  - A wait with a timeout reads arrivals until one matches.
  - An arrival at or after the deadline is never read.
  - `AwaitMatch` is the reference definition. The imperative loops are proved equal to it.
- **Concurrency in the segmented download.** The concurrency is replaced by an arbitrary interleaving, given as a schedule of steps:
  - a worker's call: it takes its next offset (its pending retry, or a fresh one under the counter's lock), and either returns Ok past `size` or sends `upload.getFile` for that offset, which is then in flight;
  - the reply to a worker's call in flight, with the RPC result;
  - one receive of the coalescer, with the clock reading and whether the seek and write succeeded;
  - the cancel flag being set.

  Calls of different workers are in flight together and their replies come in any order, so chunks enter the channel out of order (`DownloadUtils.OutOfOrderArrival` shows the coalescer seeking forward and back for two of them). The channel is FIFO. A receive on an empty channel when every worker has ended is the channel closing.
- **State of the segmented download.** `ConcurrentDownload` is a class holding the call's state.
  - Each of its methods updates fields in place.
  - The step methods `WorkerCall`, `WorkerReply`, `Receive` and `Close`, and the methods between them and the field updates (`BeginIteration`, `TakeOffset`, `SendRequest`, `EndIteration`, `ReceiveChunk`, `CancelDownload`, `WriteChunk`, `Store`, `Report`, `Finish`), are proved to produce the transition function of the value-level snapshot `Engine`: `State() == XNext(old(State()))`. `RequestCancel`, `Deliver`, `Redirect` and `Fail` state the new snapshot as the old one with the fields they update. The innermost methods (`Claim`, `SeekAndWrite`, `CheckProgress`, `Abandon`, `Complete`, `AbortTasks`, `AwaitTasks`) state the fields they change or the value they return.
  - The invariant `Inv` holds initially (`InitialInv`) and is preserved by every step (`StepInv`) and so by every schedule (`ExecInv`). `DownloadOutcome` derives the call's promises from it.
  - `DownloadMediaConcurrent` returns the outputs of `Exec` from the initial state.
- **The file.** It is a byte sequence with POSIX write semantics.
  - A write past the end zero-fills the gap and grows the file.
  - The file is created as `size` zero bytes.

Three details of the code that are easy to misread; the model keeps them as written:

- A worker stops only at an offset strictly greater than `size` (src/utils/download_utils.rs:73). So when `size` is a multiple of 512 KiB, the offset `size` is still requested. A complete download fetches `size / 524288 + 1` chunks: 21 for a 10 MiB file, not 20.
- Workers never read the cancel flag. Only the coalescer does, once per chunk it receives (src/utils/download_utils.rs:121). Workers keep fetching until the coalescer aborts them.
- `default_handler.rs` and `helper.rs` each define an identical `get_document`. The model defines it once, as `Helper.GetDocument`.

## Model

| member | source | states |
|---|---|---|
| CommandHandler.HandleStart | src/message_handler/command_handler.rs:17-20 | the welcome text starts with "Welcom " followed by the chat's name |
| CommandHandler.HandleHelp | src/message_handler/command_handler.rs:22-26 | the help text greets the chat by name and names the "/start" command |
| CommandHandler.HandleCommand | src/message_handler/command_handler.rs:6-15 | exactly one message to the originating chat; it is the welcome text if and only if the text is exactly "/start", otherwise the help text |
| QueryHandler.HandleQuery | src/message_handler/query_handler.rs:8-27 | exactly one answer to the query; empty data and a first byte other than the cancel marker give "Invalid Button"; the cancel marker gives the cancellation routine's reply for the whole payload |
| DefaultHandler.HandleUpdate | src/message_handler/default_handler.rs:9-40 | each update takes exactly one branch, each as an if-and-only-if: outgoing messages and other updates are ignored; a document wins over a leading "/"; a "/" text is a command; every other incoming message gets "Please Send a Message Media" |
| Helper.GetDocument | src/utils/helper.rs:63-71 | a document is returned exactly when the message's media is a document, and it is that document |
| Helper.AwaitMatchIsFirst | src/utils/helper.rs:110-126 | a wait returns the first matching arrival before the deadline, having read only earlier non-matching ones; it times out exactly when nothing it read matched and the stream ended or the next arrival was too late |
| Helper.GetCallbackQueryResponse | src/utils/helper.rs:104-132 | the loop's result and the number of arrivals read equal the reference wait for a callback query from the chat; a result comes from that chat |
| Helper.GetNextMessage | src/utils/helper.rs:134-160 | the loop equals the reference wait for a non-outgoing message from the chat |
| Helper.BuildButtons | src/utils/helper.rs:80-84 | one row per option, in order, each with one button labelled with the option whose payload is its index modulo 256 |
| Helper.AskQuery | src/utils/helper.rs:74-101 | the reply carries one button per option; on timeout the reply is edited to "Timeout, please try again" and the answer is None; on a press it is answered, the reply deleted, and the answer is the first payload byte; an empty payload is the panic |
| Helper.GetDirectory | src/utils/helper.rs:24-49 | one configured directory is returned without asking and nothing is sent; otherwise the messages are those of asking the query (the prompt with one button per directory carrying its index, then the timeout edit or the answer and the deletion), the pressed index selects the directory, a timeout gives None, and an index past the end is the panic |
| Helper.GetCustomFileName | src/utils/helper.rs:51-60 | on timeout None, with only the prompt sent; otherwise the text of the chat's next message, after that message and the prompt are deleted |
| Throttle.Step | src/utils/download_utils.rs:137-156 | an edit is sent only when the interval has elapsed and the text differs from the last one sent, and it carries the text rendered from the running size, the bytes since the last reset and the seconds since it; the clock and size reset whenever the interval has elapsed; before the interval nothing changes |
| Throttle.RunEditsDistinctAndSpaced | src/message_handler/document_handler.rs:84-98 | over any sequence of checks, successive edits have different texts and are at least one interval apart, and the first edit comes at least one interval after the start |
| DocumentHandler.ProgressStep | src/message_handler/document_handler.rs:81-98 | handling one chunk extends the throttle run by exactly one check on the running size including that chunk |
| DocumentHandler.ProgressOfLoad | src/message_handler/document_handler.rs:84-98 | the progress edits of `load` are never the empty text first, have different successive texts, and are at least 1 s apart |
| DocumentHandler.ConcatPrefix | src/message_handler/document_handler.rs:100-107 | what is in the file after a prefix of the pulls is a prefix of the full concatenation |
| DocumentHandler.CopyChunks | src/message_handler/document_handler.rs:76-108 | the file holds the concatenated chunks up to where the loop stopped; it stops exactly at the first failed pull or failed write; the messages are the throttled edits, then "failed to update chunk " after a failed write |
| DocumentHandler.Load | src/message_handler/document_handler.rs:45-119 | no file: one message and Ok; otherwise the zero-progress message, the edits, and "Download Complete!" when the iterator ran out; a failed pull is Err; a failed write is Ok |
| DocumentHandler.HandleDocument | src/message_handler/document_handler.rs:11-34 | the destination is directory + "/" + name; a directory failure sends its reason and is Err; otherwise the result is Ok, the messages are exactly those of `load` where it stopped, which is the first pull that was not a written chunk, and the saved file is a prefix of the chunks, all of them when every chunk was pulled and written |
| Common.Zeros | src/utils/download_utils.rs:41-42 | the freshly sized file is `size` zero bytes |
| DownloadUtils.WriteAt | src/utils/download_utils.rs:131-135 | a write replaces exactly the bytes it covers, keeps all others, zero-fills a gap past the end, and grows the file only as needed |
| DownloadUtils.WriteAllFaithful | src/utils/download_utils.rs:119-135 | writing slices of the remote object at chunk boundaries, in any order and even repeatedly, leaves each byte as it was or makes it the remote byte, the latter exactly when its chunk was written |
| DownloadUtils.FileMatchesRemote | src/utils/download_utils.rs:40-43 | faithful chunks covering every chunk start, written over the zeroed allocation, rebuild the remote object exactly |
| DownloadUtils.SchedulerCall | src/utils/download_utils.rs:63-87 | a call keeps the scheduler invariant: the offset taken, at most `size`, becomes this worker's call in flight and its pending retry is cleared |
| DownloadUtils.SchedulerSend | src/utils/download_utils.rs:88-92 | a data reply keeps the scheduler invariant: the offset in flight is sent; sent offsets are distinct handed-out offsets, and every handed-out offset up to `size` is sent, pending a retry, in flight, or lost with a failed worker |
| DownloadUtils.SchedulerRedirect | src/utils/download_utils.rs:96-102 | a 303 keeps the invariant: the offset in flight becomes this worker's pending retry and no offset is lost |
| DownloadUtils.SchedulerFail | src/utils/download_utils.rs:103-105 | any other error keeps the invariant, the offset being lost only together with a failed worker |
| DownloadUtils.SchedulerExit | src/utils/download_utils.rs:73-75 | a worker stops only with no retry pending and no call in flight, and only once the counter has passed `size` |
| DownloadUtils.SchedulerAbort | src/utils/download_utils.rs:123-125 | aborting the tasks keeps the scheduler invariant |
| DownloadUtils.SchedulerComplete | src/utils/download_utils.rs:58-109 | once at least one worker exists and all of them returned Ok, the offsets sent are exactly the chunk starts in [0, size], each sent once |
| DownloadUtils.ChunkCount | src/utils/download_utils.rs:63-75 | such a complete download sent `size / 524288 + 1` chunks, 21 for 10 MiB |
| DownloadUtils.Starts | src/utils/download_utils.rs:68-70 | the first `m` counter values hand out exactly the `m` chunk starts below `m` chunks |
| DownloadUtils.AbortAll | src/utils/download_utils.rs:123-125 | every running task becomes aborted, every other keeps how it ended |
| DownloadUtils.FirstFailure | src/utils/download_utils.rs:164-169 | None exactly when no task failed; otherwise the error of the failed task with the lowest spawn index |
| DownloadUtils.ProgressEffects | src/utils/download_utils.rs:148-153 | one edit per throttle edit, with its text and the "Cancel" button carrying the button payload |
| DownloadUtils.InitialInv | src/utils/download_utils.rs:40-60 | the state after allocation and spawning satisfies the engine invariant |
| DownloadUtils.CallInv | src/utils/download_utils.rs:61-87 | a worker's call, whether it stops past `size` or sends a request, keeps the invariant |
| DownloadUtils.ReplyInv | src/utils/download_utils.rs:88-107 | a reply, whatever the RPC returned, keeps the scheduler, coalescer and outcome invariants |
| DownloadUtils.ReceiveInv | src/utils/download_utils.rs:120-156 | one receive, whether cancelled, failing or writing, keeps the invariant, including file == writes applied to zeros and throttle == the run over the readings |
| DownloadUtils.CloseInv | src/utils/download_utils.rs:159-169 | closing the channel keeps the invariant |
| DownloadUtils.CancelInv | src/utils/download_utils.rs:121 | setting the cancel flag keeps the invariant |
| DownloadUtils.StepInv | src/utils/download_utils.rs:58-157 | every step of the schedule keeps the invariant while the call has not returned |
| DownloadUtils.ExecInv | src/utils/download_utils.rs:24-170 | any schedule run from a state satisfying the invariant ends in one that satisfies it |
| DownloadUtils.ExecAppend | src/utils/download_utils.rs:58-157 | running one schedule and then another is running their concatenation |
| DownloadUtils.CallRequests | src/utils/download_utils.rs:63-87 | a worker with no retry pending calls for the counter's chunk start at its data centre, the counter goes up by one, and the coalescer's side is untouched |
| DownloadUtils.ReplyDelivers | src/utils/download_utils.rs:88-92 | a data reply appends the chunk at the offset in flight to the channel and clears the call in flight |
| DownloadUtils.ReceiveStores | src/utils/download_utils.rs:120-135 | a received chunk leaves the channel for the file, with a seek exactly when it does not start at `pos` |
| DownloadUtils.RepliesOvertake | src/utils/download_utils.rs:63-92 | with two workers, the second call's reply can reach the channel before the first's |
| DownloadUtils.ReceivesSeek | src/utils/download_utils.rs:131-135 | two chunks received out of order are both written, each after a seek |
| DownloadUtils.OutOfOrderArrival | src/utils/download_utils.rs:58-135 | a concrete schedule of two calls, their replies in reverse order and two receives writes both chunks, seeking to 524288 and then back to 0 |
| DownloadUtils.CompletedState | src/utils/download_utils.rs:159-169 | an Ok result with the file in place means a normal close, every worker finished, every sent chunk written, and "Download Complete!" last |
| DownloadUtils.CompletedDownload | src/utils/download_utils.rs:24-170 | Ok with the file in place and at least one worker: every chunk start in [0, size] fetched exactly once, "Download Complete!" last, and the file equals the remote object when every chunk was its faithful slice |
| DownloadUtils.CancelledDownload | src/utils/download_utils.rs:121-129 | Ok without the file means cancelled: no task is left running and "Download Cancelled" is the last message |
| DownloadUtils.ProgressOfDownload | src/utils/download_utils.rs:137-156 | the messages are the progress edits followed by at most one closing message; successive edits differ and are at least 5 s apart, the first at least 5 s after the start |
| DownloadUtils.DownloadOutcome | src/utils/download_utils.rs:24-170 | all of the call's promises about its outputs gathered over the final state: requests at chunk boundaries up to `size`, progress edits, completion, cancellation, the worker-error branch, and an I/O error (lines 131-134) with the file kept and no closing message |
| DownloadUtils.ConcurrentDownload.constructor | src/utils/download_utils.rs:40-60 | the state is the initial engine (zeroed file of `size` bytes, counter 0, every worker running with no retry and the home data centre) and satisfies the invariant |
| DownloadUtils.ConcurrentDownload.Claim | src/utils/download_utils.rs:68-70 | the counter goes up by one and the offset is the chunk start of its old value |
| DownloadUtils.ConcurrentDownload.TakeOffset | src/utils/download_utils.rs:63-72 | a pending retry offset is taken and cleared; otherwise a fresh one comes from the counter |
| DownloadUtils.ConcurrentDownload.WorkerCall | src/utils/download_utils.rs:61-87 | the call transition, which keeps the invariant |
| DownloadUtils.ConcurrentDownload.BeginIteration | src/utils/download_utils.rs:63-87 | takes the offset, then stops past `size` or sends the request |
| DownloadUtils.ConcurrentDownload.SendRequest | src/utils/download_utils.rs:77-87 | records `upload.getFile` at the offset to the worker's data centre and marks it in flight |
| DownloadUtils.ConcurrentDownload.WorkerReply | src/utils/download_utils.rs:88-107 | the reply transition, which keeps the invariant |
| DownloadUtils.ConcurrentDownload.EndIteration | src/utils/download_utils.rs:88-106 | clears the call in flight, then delivers, redirects or fails by the result |
| DownloadUtils.ConcurrentDownload.Deliver | src/utils/download_utils.rs:89-92 | the size grows by the chunk's length and the chunk joins the channel's tail |
| DownloadUtils.ConcurrentDownload.Redirect | src/utils/download_utils.rs:96-102 | the worker's data centre becomes the error's value and its retry offset the failed offset |
| DownloadUtils.ConcurrentDownload.Fail | src/utils/download_utils.rs:103-105 | the worker ends with the error; nothing else changes |
| DownloadUtils.ConcurrentDownload.RequestCancel | src/utils/download_utils.rs:121 | only the flag changes, and the invariant holds |
| DownloadUtils.ConcurrentDownload.AbortTasks | src/utils/download_utils.rs:123-125 | the loop aborts every running task and leaves the others |
| DownloadUtils.ConcurrentDownload.Receive | src/utils/download_utils.rs:120-156 | the receive transition, which keeps the invariant |
| DownloadUtils.ConcurrentDownload.ReceiveChunk | src/utils/download_utils.rs:120-156 | pops the channel's head and cancels, fails with Io, or writes it |
| DownloadUtils.ConcurrentDownload.CancelDownload | src/utils/download_utils.rs:121-129 | tasks aborted, file deleted, "Download Cancelled" edit, result Ok |
| DownloadUtils.ConcurrentDownload.WriteChunk | src/utils/download_utils.rs:131-156 | stores the chunk, then runs one progress check |
| DownloadUtils.ConcurrentDownload.Store | src/utils/download_utils.rs:131-135 | seeks only when the offset differs from `pos`, writes at the handle, and sets `pos` to the chunk's end |
| DownloadUtils.ConcurrentDownload.Report | src/utils/download_utils.rs:137-156 | one throttle step on the shared size, with an edit carrying the Cancel button when it fires |
| DownloadUtils.ConcurrentDownload.AwaitTasks | src/utils/download_utils.rs:164-169 | the loop returns the first failed task's error in spawn order, else Ok |
| DownloadUtils.ConcurrentDownload.Close | src/utils/download_utils.rs:159-169 | the close transition, which keeps the invariant |
| DownloadUtils.ConcurrentDownload.Finish | src/utils/download_utils.rs:159-169 | "Download Complete!" with the path, then the first failure or Ok |
| DownloadUtils.ConcurrentDownload.Run | src/utils/download_utils.rs:58-157 | the loop stops when the schedule ends or the call returns; the new state is the schedule's run from the old one, and the invariant holds |
| DownloadUtils.ConcurrentDownload.Perform | src/utils/download_utils.rs:58-157 | the new state is the step's transition of the old one, a call or reply only for a running worker with no call or with a call in flight, and the invariant holds |
| DownloadUtils.DownloadMediaConcurrent | src/utils/download_utils.rs:24-170 | a failed allocation is Err(Io) with no request and no message; otherwise the result, messages, file and requests are those of the schedule's run from the initial state, which `DownloadOutcome` describes |

## Left out

- `format_message` (both files): floating-point percentages, speeds and the progress bar are not modelled. The text is the opaque `render` of the bytes so far, and the bytes and seconds since the last reset, which is the last check whose interval had elapsed, whether or not it sent an edit.
- Client calls (send, reply, edit, delete, answer, `next_update`): their errors (the `?` after each `.await`) are not modelled; every call is assumed to succeed and is recorded as an effect.
- `DownloadUtils.DownloadMediaConcurrent`: its ensures tie the outputs to the schedule's run and state no promise directly. The promises follow from `InitialInv`, `ExecInv` and `DownloadOutcome` applied to that run.
- `DownloadUtils.DownloadMediaConcurrent`: the parts of allocation are not told apart. File creation, `set_len` and the seek to 0 failing together become one `allocOk` flag with the result `Err(Io)`.
- `DownloadUtils.ConcurrentDownload.ReceiveChunk`: a failed seek or write leaves the file unchanged in the model. A partial `write_all` is not modelled.
- `DocumentHandler.CopyChunks`: a failed `write_all` (src/message_handler/document_handler.rs:100-107) is modelled as writing nothing of its chunk, so the file is exactly the chunks written before it. The source's `write_all` may have written part of the chunk before failing, and those bytes stay in the file.
- `DocumentHandler.Load`: the same holds for the file it returns after a failed write. `DocumentHandler.HandleDocument`'s claim that the saved file is a prefix of the chunks' concatenation would hold with a partial write too.
- `delete_file` (src/utils/download_utils.rs:202-208): its own failure is only logged, so the model just marks the file as gone.
- The `CdnRedirect` panic (src/utils/download_utils.rs:93-95) is left out: the request sets `cdn_supported = false`, and `RpcResult` has no such case.
- The non-document panic (line 35) and the `unwrap` of the input location (line 38) are left out: the model takes the document's size directly.
- Integer widths are not modelled, because no realistic file size reaches them: the `u64`/`i64` offsets, the `AtomicI64` size, `dc as i32`, and `downloaded as usize`. `index as u8` in `ask_query` is modelled, as modulo 256.
- Scheduling granularity: taking the offset and sending the request is one step, and handling the reply is another. Finer interleavings are not separated, because none is observable:
  - The counter lock is held only while the counter is updated (src/utils/download_utils.rs:68-70).
  - An abort between taking an offset and sending its request leaves only the counter different, and nothing reads the counter after the abort.
  - A receive between `fetch_add` and `send` (lines 90-91) reads the chunk's size before the chunk reaches the channel. In the model it reads the size after a send to the channel's tail, which does not change the chunk it receives.
- Abort semantics: `task.abort()` marks a running task aborted at once. Tokio would stop it at its next await point. The call returns right after the abort, so nothing observable differs.
- `DownloadUtils.CompletedDownload` applies only when at least one worker exists. With zero workers the channel closes at once and the call returns Ok over an all-zero file, which the model also produces.
- The cancellation registry is not part of this model. `cancel_download` and `DOWNLOAD_ID_QUERY`, which query_handler.rs imports, are parameters of `QueryHandler.HandleQuery`, and the flag that cancelling sets is the `Cancel` step of the schedule.
- `AppConfig::from_env().unwrap()` and its panic are left out: the configured directories are parameters.
- `send_message_to_user` (src/utils/helper.rs:11-21) is not modelled: it is a single client call with no logic beyond it.
- Also not modelled: src/main.rs, src/get_bot.rs, src/app_config.rs, src/message_handler/url_handler.rs and the commented-out `download_file`. They are setup, configuration and dead code.
- Logging (`println!`, `log::*`) is not modelled.
