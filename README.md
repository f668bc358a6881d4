# process-fun: the caller-side process lifecycle and the `#[process]` signature analysis

process-fun runs a Rust function in a forked child process. The `#[process]`
attribute macro generates, next to a function `foo`, a function `foo_process`.
That function forks and hands the caller a `ProcessWrapper<T>`. With the wrapper
the caller can wait for the child's JSON-encoded result, wait with a timeout,
or abort the child. Dropping the wrapper kills the child as well.

This project models two parts of the repository in Dafny:

- **The wrapper's lifecycle** (`process-fun-core/src/lib.rs`).
  - `ProcessFunCore.ProcessWrapper` is a class. Its fields are the child's pid, the
    recorded start time, the optional pipe receiver, the result buffer it shares
    with the reader thread, and the bytes that thread has still to store.
  - `Wait`, `Timeout`, `Abort` and `Drop` take the receiver or the buffered bytes
    at most once.
  - `Kill` sends SIGKILL only to a pid whose stat'ed start time equals the
    recorded one. It treats `ESRCH` as success.
  - The operating system is a value, `OsModel.Os`. It holds the process table that
    `stat` on `/proc/<pid>/stat` reads, the errno `kill(2)` would return for each
    pid, and a log of every `kill(2)` call.
  - The clock counts abstract ticks. Each sleep may overrun by an amount the
    environment chooses, but never ends early.
  - The start time crosses the pipe as the 16-byte memory image of a
    `SystemTime`. `StartTime` writes this layout out and proves it round-trips.
- **The macro's signature analysis** (`process-fun-macro/src/lib.rs`).
  `ProcessMacro.Expand` maps a function's attributes and signature to one of
  two results:
  - a panic, with the warnings emitted before it;
  - the generated name, the output type, the argument names and types, the
    receiver flag, the child's call, and the `&mut` warnings.

Two behaviours a caller might expect do not hold in the code, and the model
follows the code:

- `wait` is not idempotent. It keeps nothing it reads from the pipe, so a second
  `wait` fails (`SecondWaitFails`).
- If the abort after a timeout fails, `timeout` returns that abort error, not
  `TimeoutError`.
- The two modelled files contain no registry, signature-hash dispatch or
  environment-variable bootstrap, so none is modelled.

## Model

| member | source | states |
|---|---|---|
| `StartTime.EpochPlusSecs` | process-fun-core/src/lib.rs:115 | `UNIX_EPOCH + Duration::from_secs(s)` is the time with `s` whole seconds and no nanoseconds |
| `StartTime.EncodeTime` | process-fun-core/src/lib.rs:177-179 | the image of a `SystemTime` is exactly `SYSTEM_TIME_SIZE` (16) bytes |
| `StartTime.DecodeEncodeTime` | process-fun-core/src/lib.rs:175-183 | reinterpreting the image of `t` gives back `t` |
| `StartTime.DecodeTime` | process-fun-core/src/lib.rs:181-183 | reinterpreting 16 bytes as a `SystemTime` inverts `EncodeTime` on every image with zero padding: re-encoding the decoded time gives the same bytes; with `DecodeEncodeTime` the two reinterpretations are inverse |
| `StartTime.EncodeTimeInjective` | process-fun-core/src/lib.rs:177-179 | distinct times have distinct images |
| `StartTime.WriteTime` | process-fun-core/src/lib.rs:186-197 | `write_time` appends 16 bytes and keeps what was written before; with the read end closed it fails with a broken-pipe `IoError` |
| `StartTime.ReadStartTime` | process-fun-core/src/lib.rs:215-227 | `read_exact` fails with `UnexpectedEof` iff fewer than 16 bytes remain; otherwise it consumes exactly the first 16 |
| `StartTime.WriteThenReadStartTime` | process-fun-core/src/lib.rs:186-227 | the time `write_time` puts on a fresh pipe is the time `read_start_time_from_pipe` reads back, whatever follows it |
| `OsModel.StatCTime` | process-fun-core/src/lib.rs:112-113 | `stat` of `/proc/<pid>/stat` succeeds iff the pid is in the process table, and gives its `st_ctime` |
| `OsModel.SendKill` | process-fun-core/src/lib.rs:124 | `kill(2)` is logged and fails iff the environment says so for that pid; the process table does not change |
| `ProcessFunCore.DecodeJson` | process-fun-core/src/lib.rs:57 | decoding succeeds only on non-empty bytes the decoder accepts; a reply of no bytes is always a `JsonError` |
| `ProcessFunCore.ReadAndDecode` | process-fun-core/src/lib.rs:65-67 | a failed pipe read is a `ProcessError`; otherwise the bytes read are decoded |
| `ProcessFunCore.ReaderArrival` | process-fun-core/src/lib.rs:80-86 | the reader thread stores the delivered bytes iff its read succeeds |
| `ProcessFunCore.Observe` | process-fun-core/src/lib.rs:92 | a check of the buffer sees the stored bytes iff the store happened by the tick of the check |
| `ProcessFunCore.SaturatingSub` | process-fun-core/src/lib.rs:95 | the remaining time is zero when elapsed has reached the duration, and is the difference otherwise |
| `ProcessFunCore.AsWrittenPoll` | process-fun-core/src/lib.rs:89-101 | the loop as written takes a result iff it was already stored when the loop began; an expiry comes only at or after the deadline |
| `ProcessFunCore.PollAsWritten` | process-fun-core/src/lib.rs:89-101 | the loop inspects the buffer at most once, and exactly once iff it starts before the deadline; bytes are taken only at a check before the deadline that saw them; the outcome is `AsWrittenPoll` |
| `ProcessFunCore.AsWrittenDiscardsResultWithinWindow` | process-fun-core/src/lib.rs:89-105 | a reply stored at tick 500 of a 1000-tick timeout is discarded by the loop as written, and taken by the corrected loop |
| `ProcessFunCore.PollFrom` | process-fun-core/src/lib.rs:89-101 | corrected loop: it takes only bytes that have been stored; it expires only after the deadline, when its last check found nothing |
| `ProcessFunCore.PollTakesResultWithinWindow` | process-fun-core/src/lib.rs:89-105 | corrected loop: bytes stored by the deadline are always taken |
| `ProcessFunCore.PollReturnsPromptly` | process-fun-core/src/lib.rs:89-101 | corrected loop: it returns within one poll interval plus one oversleep of the store |
| `ProcessFunCore.PollForResult` | process-fun-core/src/lib.rs:89-101 | the corrected loop, proved to compute `PollFrom` |
| `ProcessFunCore.AbortResult` | process-fun-core/src/lib.rs:139-142 | `abort` succeeds iff `kill` did, and turns a kill errno into a `ProcessError` carrying it |
| `ProcessFunCore.ProcessWrapper.constructor` | process-fun-core/src/lib.rs:43-51 | a new wrapper holds the receiver, an empty buffer and no pending store |
| `ProcessFunCore.ProcessWrapper.IsSameProcess` | process-fun-core/src/lib.rs:111-119 | false when `stat` fails; otherwise true iff the recorded start time is exactly `st_ctime` whole seconds, so a start time with a fractional second never matches |
| `ProcessFunCore.ProcessWrapper.Kill` | process-fun-core/src/lib.rs:121-132 | `kill(2)` is called only when the pid still has the recorded start time; not the same process, success and `ESRCH` all give `Ok`; any other errno is returned |
| `ProcessFunCore.ProcessWrapper.Abort` | process-fun-core/src/lib.rs:135-143 | afterwards the receiver is `None` and the buffer untouched; the result is the kill's outcome as a `ProcessError` |
| `ProcessFunCore.ProcessWrapper.Drop` | process-fun-core/src/lib.rs:146-154 | afterwards the receiver is `None`; the kill runs and its error is ignored, so dropping never fails |
| `ProcessFunCore.ProcessWrapper.Wait` | process-fun-core/src/lib.rs:54-70 | buffered bytes are taken and decoded, leaving the receiver alone; with neither bytes nor receiver it fails with "already completed" and changes nothing; otherwise the receiver is consumed and its bytes are decoded but not kept |
| `ProcessFunCore.ProcessWrapper.Timeout` | process-fun-core/src/lib.rs:73-106 | without a receiver it fails at once and sends no kill; otherwise the receiver is gone on every path; a result taken in time is decoded with no kill; on expiry the worker is killed, a late store stays pending, and `TimeoutError` is returned only if the abort succeeded, else the abort's `ProcessError` |
| `ProcessFunCore.ProcessWrapper.ReaderStores` | process-fun-core/src/lib.rs:83-84 | the reader thread's single store fills the buffer with the bytes it read |
| `ProcessFunCore.SecondWaitFails` | process-fun-core/src/lib.rs:54-70 | after a `wait` that read the pipe, a second `wait` returns "already completed" instead of the same value |
| `ProcessFunCore.AbortTwice` | process-fun-core/src/lib.rs:135-143 | a repeated `abort` reports the same outcome as the first; both leave the receiver `None`, the buffer and the pending store untouched, and the process table unchanged |
| `ProcessMacro.CountProcessAttrs` | process-fun-macro/src/lib.rs:31-35 | counts the attributes whose path is the bare identifier `process`; it is zero iff there are none |
| `ProcessMacro.MoreThanOneProcessAttr` | process-fun-macro/src/lib.rs:31-39 | the count exceeds one iff two distinct attributes have the path `process` |
| `ProcessMacro.ProcessFnName` | process-fun-macro/src/lib.rs:42 | the generated name is the original name followed by `_process` |
| `ProcessMacro.OutputType` | process-fun-macro/src/lib.rs:45-48 | `()` for a default return type, the declared type otherwise |
| `ProcessMacro.MutWarnings` | process-fun-macro/src/lib.rs:51-65 | exactly one warning per typed argument whose type is a `&mut` reference, in argument order; receivers and other arguments give none |
| `ProcessMacro.ArgNames` | process-fun-macro/src/lib.rs:67-84 | the analysis panics with "Unsupported argument pattern" iff some typed argument's pattern is not an identifier |
| `ProcessMacro.ArgNamesSingle` | process-fun-macro/src/lib.rs:70-83 | a receiver contributes no name, an identifier pattern its identifier, any other pattern a panic |
| `ProcessMacro.ArgNamesAppend` | process-fun-macro/src/lib.rs:68-84 | the names of `a + b` are the names of `a` followed by those of `b`, so the original order is kept |
| `ProcessMacro.ArgNamesLength` | process-fun-macro/src/lib.rs:68-84 | there is one name per argument that is not a receiver |
| `ProcessMacro.SelfStream` | process-fun-macro/src/lib.rs:67-84 | `self_stream` is true iff some argument is a receiver |
| `ProcessMacro.ArgType` | process-fun-macro/src/lib.rs:88-100 | a typed argument keeps its type; a receiver becomes `Self` when taken by value (even `mut self`), and otherwise `&'a Self` or `&'a mut Self`, keeping its lifetime and mutability |
| `ProcessMacro.ArgTypes` | process-fun-macro/src/lib.rs:86-102 | one type per argument, same length and order as `fn_args` |
| `ProcessMacro.CallOf` | process-fun-macro/src/lib.rs:107-111 | the call goes through `self` iff `self_stream`, calls the original name, and passes the argument names in order |
| `ProcessMacro.Expand` | process-fun-macro/src/lib.rs:27-111 | it panics on duplicate attributes iff more than one `process` attribute is present; it panics on patterns iff no duplicate and some typed argument is not an identifier, after emitting the `&mut` warnings; it expands iff there is at most one `process` attribute and every typed argument's pattern is an identifier, and then the analysis is the `_process` name, `OutputType`, the `ArgNames` names, exactly the `ArgTypes` types, the receiver flag of `SelfStream`, the matching call and the `MutWarnings` warnings |
| `ProcessMacro.ExpandMethodWithSelf` | process-fun/src/lib.rs:114-126 | `get_value(&self) -> i32` becomes `get_value_process`; it has no argument names, the types `[&Self]`, and the call `self.get_value()` |
| `ProcessMacro.ExpandFreeFunction` | process-fun/src/lib.rs:129-135 | `add_points(p1, p2)` becomes `add_points_process`; it has the names `[p1, p2]` and the call `add_points(p1, p2)` |

## Left out

- `create_pipes`, `fork_process`, `read_from_pipe` and `write_to_pipe` are operating-system I/O. A result pipe is represented by what it delivers at end-of-stream (`OsModel.Delivery`).
- Real signal delivery and `/proc` metadata are replaced by the process table and the `kill(2)` outcomes in `OsModel.Os`.
- The caller never reaps a killed child, so a killed pid stays in the process table as a zombie.
- The thread that `timeout` spawns and the `Arc<Mutex<…>>` are concurrency. The thread is represented by the tick at which its store becomes visible. A store that lands after `timeout` has returned is the environment step `ReaderStores`.
- `SystemTime::now`, `elapsed` and `thread::sleep` are an abstract tick clock. The amount by which each sleep overruns is a parameter.
- Negative `st_ctime` values are not modelled. For those, `as u64` would wrap and adding the result to `UNIX_EPOCH` would overflow.
- The `mem::transmute` is modelled as the 64-bit Linux layout of a `timespec`. The model writes the four padding bytes as zeros; the real transmute leaves them unspecified. The model does not single out byte images whose nanoseconds exceed 999 999 999; in Rust, reinterpreting such an image as a `SystemTime` is undefined behaviour.
- `serde_json` is a decoder parameter (`decode`). The model adds only the fact that JSON text is never empty. The child's encoding of the result is left out.
- `syn` parsing, the `quote!` token generation (process-fun-macro/src/lib.rs:113-183) and the child branch's write-then-`exit(0)` are left out. So is the wiring between the crates: the generated `ProcessWrapper::new(child, read_pipe)` call and the façade's re-exports.
- Receivers with an explicit type (`self: Box<Self>`) are not distinguished. `syn` gives them no reference, so the analysis maps them to `Self` just as `ArgType` does for any by-value receiver.
- Only the panics of the macro are modelled. Whether `proc_macro_error` still shows warnings emitted before a panic is not modelled.
- The `eprintln!`/`dbg!` debug output and the `Display` texts of `ProcessFunError` are left out. A `ProcessError` records which message it carries as a `ProcessCause`.
- The examples and the test bodies are left out. The test expectations are used only as evidence: `ExpandMethodWithSelf`, `ExpandFreeFunction` and the finding below.
- ProcessFunCore.ProcessWrapper.Timeout: uses the corrected wait loop `PollForResult`, not the loop of lines 89-101 as written. The loop as written is `PollAsWritten` (see Findings).

## Findings

| source | as written | input that shows it | evidently intended | confidence | as-written member | corrected member |
|---|---|---|---|---|---|---|
| process-fun-core/src/lib.rs:89-105 | the loop checks the buffer once, then sleeps for all of the remaining time, then gives up without checking again, kills the worker and returns `TimeoutError` | a 1000-tick timeout whose reply is stored at tick 500 (the `slow_but_within_timeout` worker and `test_timeout_success`, process-fun/src/lib.rs:158-170): the first check at tick 0 finds nothing and the reply is discarded | a reply stored before the deadline is returned, soon after it is stored (`test_timeout_success` at process-fun/src/lib.rs:158-170 and `test_long_calculation` at process-fun/src/lib.rs:204-235) | high; not executed | `ProcessFunCore.AsWrittenDiscardsResultWithinWindow` | `ProcessFunCore.PollFrom` |

The corrected loop sleeps for at most `POLL_INTERVAL` ticks at a time. It
checks the buffer once more after the deadline before giving up. It is proved
to take every reply stored by the deadline (`PollTakesResultWithinWindow`) and
to return within one interval plus one oversleep of the store
(`PollReturnsPromptly`). `ProcessWrapper.Timeout` uses it.
