/**
 * The parts of the operating system the caller-side wrapper depends on, as
 * values the environment supplies: the process table that `stat` on
 * `/proc/<pid>/stat` consults, the outcome `kill(2)` would have for each pid,
 * and the pipe a result arrives on.
 */
module OsModel {
  import opened Wrappers
  import opened CoreErrors
  import opened MachineInts

  /** A `nix::unistd::Pid`. */
  type Pid = int

  /** An `st_ctime`, in seconds since the epoch, that the process table can report. */
  type CTime = x: int | 0 <= x < TWO_TO_63

  /**
   * The system as the wrapper sees it.
   * - `ctimes`: the pids whose `/proc/<pid>/stat` can be stat'ed, with its `st_ctime`
   *   (a pid absent from the map makes `stat` fail);
   * - `killErrors`: the pids for which `kill(2)` would fail, with its errno;
   * - `killCalls`: every pid `kill(pid, SIGKILL)` has been called on, in order.
   * A killed worker is never reaped by the caller, so it stays in `ctimes` as a zombie.
   */
  datatype Os = Os(ctimes: map<Pid, CTime>, killErrors: map<Pid, Errno>, killCalls: seq<Pid>)

  /** `stat::stat(format!("/proc/{}/stat", pid))`, giving the `st_ctime` field. */
  function StatCTime(os: Os, pid: Pid): (c: Option<CTime>)
    ensures c.Some? <==> pid in os.ctimes
    ensures c.Some? ==> c.value == os.ctimes[pid]
  {
    if pid in os.ctimes then Some(os.ctimes[pid]) else None
  }

  /** `signal::kill(pid, SIGKILL)`: records the call and gives its outcome. */
  function SendKill(os: Os, pid: Pid): (r: (Option<Errno>, Os))
    ensures r.1.killCalls == os.killCalls + [pid]
    ensures r.1.ctimes == os.ctimes && r.1.killErrors == os.killErrors
    ensures r.0.Some? <==> pid in os.killErrors
    ensures r.0.Some? ==> r.0.value == os.killErrors[pid]
  {
    (if pid in os.killErrors then Some(os.killErrors[pid]) else None,
     os.(killCalls := os.killCalls + [pid]))
  }

  /**
   * What `read_from_pipe` (`read_to_end`) on a result pipe will give once the
   * worker's write end is closed: every byte written, or a read failure.
   */
  datatype Delivery = Delivered(bytes: seq<Byte>) | ReadFailed

  /** The read end of a result pipe (`interprocess::unnamed_pipe::Recver`). */
  datatype Recver = Recver(delivery: Delivery)
}
