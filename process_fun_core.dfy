/**
 * The caller-side lifecycle of an out-of-process call: `ProcessWrapper<T>` of
 * process-fun-core/src/lib.rs:22-154.
 *
 * The wrapper owns the child's pid, its recorded start time, the read end of
 * the result pipe (taken at most once) and a result buffer shared with the
 * reader thread that `timeout` detaches. Time is an abstract clock counted in
 * ticks since `timeout` began; the reader thread is represented by when its
 * store into the buffer becomes visible.
 */
module ProcessFunCore {
  import opened Wrappers
  import opened MachineInts
  import opened CoreErrors
  import opened StartTime
  import opened OsModel

  /**
   * `serde_json::from_slice::<T>`: `decode` is the parser of `T` for non-empty
   * input; JSON text cannot be empty, so no reply at all is always a `JsonError`.
   */
  function DecodeJson<T>(decode: seq<Byte> -> Option<T>, bytes: seq<Byte>): (r: Result<T>)
    ensures bytes == [] ==> r == Err(JsonError)
    ensures r.Ok? <==> bytes != [] && decode(bytes).Some?
    ensures r.Ok? ==> r.value == decode(bytes).value
    ensures r.Err? ==> r.error == JsonError
  {
    if bytes == [] then Err(JsonError)
    else match decode(bytes)
      case Some(v) => Ok(v)
      case None => Err(JsonError)
  }

  /** `read_from_pipe(&mut receiver)?` followed by `serde_json::from_slice(&result_bytes)?`. */
  function ReadAndDecode<T>(recv: Recver, decode: seq<Byte> -> Option<T>): (r: Result<T>)
    ensures recv.delivery.ReadFailed? ==> r == Err(ProcessError(PipeReadFailed))
    ensures recv.delivery.Delivered? ==> r == DecodeJson(decode, recv.delivery.bytes)
  {
    match recv.delivery
    case ReadFailed => Err(ProcessError(PipeReadFailed))
    case Delivered(bytes) => DecodeJson(decode, bytes)
  }

  /** When the store of the reader thread becomes visible, and what it stores. */
  datatype Arrival = Never | At(time: nat, bytes: seq<Byte>)

  /**
   * The reader thread `timeout` spawns on `recv` (lines 81-86): it stores the
   * bytes if the read succeeds, at tick `storedAt`, and stores nothing otherwise.
   */
  function ReaderArrival(recv: Recver, storedAt: nat): (a: Arrival)
    ensures a.At? <==> recv.delivery.Delivered?
    ensures a.At? ==> a.time == storedAt && a.bytes == recv.delivery.bytes
  {
    match recv.delivery
    case Delivered(bytes) => At(storedAt, bytes)
    case ReadFailed => Never
  }

  /** What `self.result.lock().unwrap().take()` finds at a check made at tick `elapsed`. */
  function Observe(arrival: Arrival, elapsed: nat): (seen: Option<seq<Byte>>)
    ensures seen.Some? <==> arrival.At? && arrival.time <= elapsed
    ensures seen.Some? ==> seen.value == arrival.bytes
  {
    if arrival.At? && arrival.time <= elapsed then Some(arrival.bytes) else None
  }

  /** How waiting on the buffer ended: bytes taken at a check, or the deadline gone by. */
  datatype PollOutcome = Taken(bytes: seq<Byte>, elapsed: nat) | Expired(elapsed: nat)

  /** `Duration::saturating_sub` */
  function SaturatingSub(a: nat, b: nat): (d: nat)
    ensures a <= b ==> d == 0
    ensures b < a ==> b + d == a
  {
    if b < a then a - b else 0
  }

  /**
   * How many ticks the `k`-th sleep lasts beyond what was asked: `thread::sleep`
   * never returns early, and may return late by an amount the environment chooses.
   */
  function Oversleep(extra: seq<nat>, k: nat): nat
  {
    if k < |extra| then extra[k] else 0
  }

  /**
   * The outcome of the wait loop of `timeout` as written (lines 89-105), in
   * closed form: the buffer is checked once, at the start, and if it is empty
   * the loop sleeps for all of the remaining time and gives up on waking.
   */
  function AsWrittenPoll(duration: nat, elapsed0: nat, extra: seq<nat>, arrival: Arrival): (p: PollOutcome)
    ensures p.Taken? <==> elapsed0 < duration && arrival.At? && arrival.time <= elapsed0
    ensures p.Taken? ==> p.elapsed == elapsed0 && p.bytes == arrival.bytes
    ensures p.Expired? ==> duration <= p.elapsed
  {
    if duration <= elapsed0 then Expired(elapsed0)
    else if Observe(arrival, elapsed0).Some? then Taken(arrival.bytes, elapsed0)
    else Expired(duration + Oversleep(extra, 0))
  }

  /**
   * The wait loop of `timeout` as written. `checks` counts the inspections of
   * the buffer: there is at most one, because the first sleep lasts at least the
   * whole remaining time; and the `break` on a zero remaining time is never taken,
   * since the loop only runs while time remains.
   */
  method PollAsWritten(duration: nat, elapsed0: nat, extra: seq<nat>, arrival: Arrival)
    returns (p: PollOutcome, checks: nat)
    ensures p == AsWrittenPoll(duration, elapsed0, extra, arrival)
    ensures checks <= 1 && (checks == 1 <==> elapsed0 < duration)
    ensures p.Taken? ==> p.elapsed < duration && Observe(arrival, p.elapsed) == Some(p.bytes)
  {
    var elapsed := elapsed0;
    checks := 0;
    while elapsed < duration
      invariant checks <= 1
      invariant checks == 0 ==> elapsed == elapsed0
      invariant checks == 1 ==> elapsed0 < duration && Observe(arrival, elapsed0).None?
      invariant checks == 1 ==> elapsed == duration + Oversleep(extra, 0)
      decreases duration - elapsed
    {
      checks := checks + 1;
      var seen := Observe(arrival, elapsed);
      if seen.Some? {
        return Taken(seen.value, elapsed), checks;
      }
      var remaining := SaturatingSub(duration, elapsed);
      if remaining == 0 {
        break;
      }
      elapsed := elapsed + remaining + Oversleep(extra, checks - 1);
    }
    p := Expired(elapsed);
  }

  /** The longest sleep the corrected wait loop asks for. */
  const POLL_INTERVAL: nat := 10

  function Min(a: nat, b: nat): nat
  {
    if a <= b then a else b
  }

  function Max(a: nat, b: nat): nat
  {
    if a <= b then b else a
  }

  /** The largest oversleep `extra` allows. */
  function MaxOversleep(extra: seq<nat>): (m: nat)
    ensures forall k :: 0 <= k < |extra| ==> extra[k] <= m
  {
    if extra == [] then 0 else Max(extra[0], MaxOversleep(extra[1..]))
  }

  /**
   * The corrected wait loop, from the `k`-th sleep on, at tick `elapsed`: check
   * the buffer; give up if the deadline has passed; otherwise sleep for the
   * remaining time but at most `POLL_INTERVAL` ticks, and check again.
   */
  function PollFrom(duration: nat, elapsed: nat, extra: seq<nat>, k: nat, arrival: Arrival): (p: PollOutcome)
    decreases if elapsed <= duration then duration - elapsed + 1 else 0
    ensures elapsed <= p.elapsed
    ensures p.Taken? ==> Observe(arrival, p.elapsed) == Some(p.bytes)
    ensures p.Expired? ==> duration <= p.elapsed && Observe(arrival, p.elapsed).None?
  {
    if Observe(arrival, elapsed).Some? then Taken(arrival.bytes, elapsed)
    else if duration <= elapsed then Expired(elapsed)
    else PollFrom(duration, elapsed + Min(duration - elapsed, POLL_INTERVAL) + Oversleep(extra, k), extra, k + 1, arrival)
  }

  /**
   * Bytes stored by the deadline are always taken by the corrected loop: by the
   * contract of `PollFrom`, an expiry needs a check after the deadline that saw
   * nothing, and such a check sees bytes stored by the deadline.
   */
  lemma PollTakesResultWithinWindow(duration: nat, elapsed: nat, extra: seq<nat>, k: nat, arrival: Arrival)
    requires arrival.At? && arrival.time <= duration
    ensures PollFrom(duration, elapsed, extra, k, arrival).Taken?
    ensures PollFrom(duration, elapsed, extra, k, arrival).bytes == arrival.bytes
  {
  }

  /**
   * The corrected loop returns soon after the bytes are stored: at the first
   * check after they are, which comes at most one poll interval and one
   * oversleep later.
   */
  lemma {:induction false} PollReturnsPromptly(duration: nat, elapsed: nat, extra: seq<nat>, k: nat, arrival: Arrival)
    requires PollFrom(duration, elapsed, extra, k, arrival).Taken?
    ensures PollFrom(duration, elapsed, extra, k, arrival).elapsed <= Max(elapsed, arrival.time + POLL_INTERVAL + MaxOversleep(extra))
    decreases if elapsed <= duration then duration - elapsed + 1 else 0
  {
    if Observe(arrival, elapsed).None? && elapsed < duration {
      var next := elapsed + Min(duration - elapsed, POLL_INTERVAL) + Oversleep(extra, k);
      PollReturnsPromptly(duration, next, extra, k + 1, arrival);
      assert elapsed < arrival.time;
      assert Oversleep(extra, k) <= MaxOversleep(extra);
    }
  }

  /**
   * The worker of the crate's `slow_but_within_timeout` test replies `42` half
   * way through a 1000-tick timeout. The loop as written checks at tick 0, finds
   * nothing, sleeps to the deadline and gives up (so `timeout` kills the worker
   * and fails); the corrected loop takes the reply.
   */
  lemma AsWrittenDiscardsResultWithinWindow()
    ensures AsWrittenPoll(1000, 0, [], At(500, [52, 50])) == Expired(1000)
    ensures PollFrom(1000, 0, [], 0, At(500, [52, 50])).Taken?
    ensures PollFrom(1000, 0, [], 0, At(500, [52, 50])).bytes == [52, 50]
  {
    PollTakesResultWithinWindow(1000, 0, [], 0, At(500, [52, 50]));
  }

  /** The corrected wait loop. */
  method PollForResult(duration: nat, elapsed0: nat, extra: seq<nat>, arrival: Arrival) returns (p: PollOutcome)
    ensures p == PollFrom(duration, elapsed0, extra, 0, arrival)
  {
    var elapsed := elapsed0;
    var k := 0;
    while true
      invariant PollFrom(duration, elapsed, extra, k, arrival) == PollFrom(duration, elapsed0, extra, 0, arrival)
      decreases if elapsed <= duration then duration - elapsed + 1 else 0
    {
      var seen := Observe(arrival, elapsed);
      if seen.Some? {
        return Taken(seen.value, elapsed);
      }
      if duration <= elapsed {
        return Expired(elapsed);
      }
      var remaining := SaturatingSub(duration, elapsed);
      elapsed := elapsed + Min(remaining, POLL_INTERVAL) + Oversleep(extra, k);
      k := k + 1;
    }
  }

  /** The `ProcessError` that `abort` makes of a failed `kill`. */
  function AbortResult(failure: Option<Errno>): (r: Result<()>)
    ensures r.Ok? <==> failure.None?
    ensures failure.Some? ==> r == Err(ProcessError(KillFailed(failure.value)))
  {
    match failure
    case None => Ok(())
    case Some(e) => Err(ProcessError(KillFailed(e)))
  }

  class ProcessWrapper<T> {
    const childPid: Pid
    const startTime: SystemTime
    var receiver: Option<Recver>
    /** The `Arc<Mutex<Option<Vec<u8>>>>` shared with the reader thread. */
    var result: Option<seq<Byte>>
    /** Bytes the detached reader thread has read but not yet stored into `result`. */
    var pendingStore: Option<seq<Byte>>

    /**
     * While the wrapper still holds the receiver no reader thread exists, so the
     * buffer is empty; the single reader thread stores at most once.
     */
    ghost predicate Valid()
      reads this
    {
      (receiver.Some? ==> result.None? && pendingStore.None?) &&
      (result.Some? ==> pendingStore.None?)
    }

    /** `ProcessWrapper::new` */
    constructor (childPid: Pid, startTime: SystemTime, receiver: Recver)
      ensures Valid()
      ensures this.childPid == childPid && this.startTime == startTime
      ensures this.receiver == Some(receiver) && result == None && pendingStore == None
    {
      this.childPid := childPid;
      this.startTime := startTime;
      this.receiver := Some(receiver);
      result := None;
      pendingStore := None;
    }

    /**
     * `is_same_process`: the pid still names the process that was started
     * exactly when the wrapper records. `stat` reports whole seconds, so a start
     * time with a fractional second never matches.
     */
    function IsSameProcess(os: Os): (same: bool)
      ensures same <==> childPid in os.ctimes && startTime == SystemTime(os.ctimes[childPid], 0)
      ensures startTime.nanos != 0 ==> !same
    {
      match StatCTime(os, childPid)
      case Some(ctime) => EpochPlusSecs(ctime) == startTime
      case None => false
    }

    /**
     * `kill`: the errno it fails with, if any, and the system after it. SIGKILL
     * is sent only to a pid that `IsSameProcess` accepts; "no such process" is
     * a success.
     */
    function Kill(os: Os): (r: (Option<Errno>, Os))
      ensures r.1.ctimes == os.ctimes && r.1.killErrors == os.killErrors
      ensures !IsSameProcess(os) ==> r == (None, os)
      ensures IsSameProcess(os) ==> r.1.killCalls == os.killCalls + [childPid]
      ensures r.1.killCalls != os.killCalls ==>
                childPid in os.ctimes && EpochPlusSecs(os.ctimes[childPid]) == startTime
      ensures r.0.Some? <==> IsSameProcess(os) && childPid in os.killErrors && os.killErrors[childPid] != ESRCH
      ensures r.0.Some? ==> r.0.value == os.killErrors[childPid]
    {
      if IsSameProcess(os) then
        var (failure, os') := SendKill(os, childPid);
        match failure
        case None => (None, os')
        case Some(e) => if e == ESRCH then (None, os') else (Some(e), os')
      else
        (None, os)
    }

    /** `abort`: drop the receiver, then kill, turning a kill errno into a `ProcessError`. */
    method Abort(os: Os) returns (r: Result<()>, os': Os)
      requires Valid()
      modifies this
      ensures Valid()
      ensures receiver == None && result == old(result) && pendingStore == old(pendingStore)
      ensures os' == Kill(os).1 && r == AbortResult(Kill(os).0)
    {
      receiver := None;
      var (failure, after) := Kill(os);
      os' := after;
      r := AbortResult(failure);
    }

    /** `Drop`: drop the receiver, then kill, ignoring any kill error. */
    method Drop(os: Os) returns (os': Os)
      requires Valid()
      modifies this
      ensures Valid()
      ensures receiver == None && result == old(result) && pendingStore == old(pendingStore)
      ensures os' == Kill(os).1
    {
      receiver := None;
      os' := Kill(os).1;
    }

    /**
     * `wait`: a result already in the buffer is taken and decoded, leaving the
     * receiver alone; otherwise the receiver is taken and read to its end, and
     * what it delivers is decoded without being kept.
     */
    method Wait(decode: seq<Byte> -> Option<T>) returns (r: Result<T>)
      requires Valid()
      modifies this
      ensures Valid()
      ensures old(result).Some? ==>
                r == DecodeJson(decode, old(result).value) &&
                result == None && receiver == old(receiver) && pendingStore == old(pendingStore)
      ensures old(result).None? && old(receiver).None? ==>
                r == Err(ProcessError(AlreadyCompleted)) &&
                result == None && receiver == None && pendingStore == old(pendingStore)
      ensures old(result).None? && old(receiver).Some? ==>
                r == ReadAndDecode(old(receiver).value, decode) &&
                result == None && receiver == None && pendingStore == None
    {
      if result.Some? {
        var bytes := result.value;
        result := None;
        return DecodeJson(decode, bytes);
      }
      if receiver.None? {
        return Err(ProcessError(AlreadyCompleted));
      }
      var recv := receiver.value;
      receiver := None;
      r := ReadAndDecode(recv, decode);
    }

    /**
     * `timeout(duration)`, with the corrected wait loop. The clock reads
     * `elapsed0` ticks when the loop starts, the `k`-th sleep oversleeps by
     * `extra[k]`, and the reader thread stores at tick `storedAt` if its read
     * succeeds. Without a receiver it fails at once and does not abort. Otherwise
     * the receiver is gone afterwards, and either the stored bytes are decoded,
     * or the worker is aborted first and `TimeoutError` is returned only if the
     * abort succeeded.
     */
    method Timeout(duration: nat, elapsed0: nat, extra: seq<nat>, storedAt: nat,
                   decode: seq<Byte> -> Option<T>, os: Os)
      returns (r: Result<T>, os': Os)
      requires Valid()
      modifies this
      ensures Valid()
      ensures old(receiver).None? ==>
                r == Err(ProcessError(AlreadyCompleted)) && os' == os &&
                receiver == None && result == old(result) && pendingStore == old(pendingStore)
      ensures old(receiver).Some? ==> receiver == None && result == None
      ensures old(receiver).Some? ==>
                var arrival := ReaderArrival(old(receiver).value, storedAt);
                match PollFrom(duration, elapsed0, extra, 0, arrival)
                case Taken(bytes, _) =>
                  r == DecodeJson(decode, bytes) && os' == os && pendingStore == None
                case Expired(_) =>
                  os' == Kill(os).1 && pendingStore == (if arrival.At? then Some(arrival.bytes) else None) &&
                  r == (if Kill(os).0.Some? then Err(ProcessError(KillFailed(Kill(os).0.value))) else Err(TimeoutError))
    {
      if receiver.None? {
        return Err(ProcessError(AlreadyCompleted)), os;
      }
      var recv := receiver.value;
      receiver := None;
      var arrival := ReaderArrival(recv, storedAt);
      var p := PollForResult(duration, elapsed0, extra, arrival);
      if p.Taken? {
        return DecodeJson(decode, p.bytes), os;
      }
      if arrival.At? {
        pendingStore := Some(arrival.bytes);
      }
      var aborted;
      aborted, os' := Abort(os);
      if aborted.Err? {
        return Err(aborted.error), os';
      }
      r := Err(TimeoutError);
    }

    /** The detached reader thread storing what it read (lines 83-84). */
    method ReaderStores()
      requires Valid() && pendingStore.Some?
      modifies this
      ensures Valid()
      ensures result == old(pendingStore) && pendingStore == None && receiver == old(receiver)
    {
      result := pendingStore;
      pendingStore := None;
    }
  }

  /**
   * `wait` is not idempotent: after a `wait` that read the pipe, a second `wait`
   * finds neither a buffered result nor a receiver.
   */
  method SecondWaitFails<T>(w: ProcessWrapper<T>, decode: seq<Byte> -> Option<T>)
    returns (first: Result<T>, second: Result<T>)
    requires w.Valid() && w.result.None? && w.receiver.Some?
    modifies w
    ensures first == ReadAndDecode(old(w.receiver).value, decode)
    ensures second == Err(ProcessError(AlreadyCompleted))
  {
    first := w.Wait(decode);
    second := w.Wait(decode);
  }

  /** A second `abort` leaves the wrapper as the first did and reports the same outcome. */
  method AbortTwice<T>(w: ProcessWrapper<T>, os: Os) returns (r1: Result<()>, r2: Result<()>, os2: Os)
    requires w.Valid()
    modifies w
    ensures r1 == r2 && w.receiver == None
    ensures w.result == old(w.result) && w.pendingStore == old(w.pendingStore)
    ensures os2.ctimes == os.ctimes && os2.killErrors == os.killErrors
  {
    var os1;
    r1, os1 := w.Abort(os);
    r2, os2 := w.Abort(os1);
  }
}
