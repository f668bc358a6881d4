/**
 * The worker's start time as it crosses the pipe (process-fun-core/src/lib.rs:175-227).
 *
 * The source reinterprets a `SystemTime` as its raw memory image of
 * `SYSTEM_TIME_SIZE` bytes and back. On 64-bit Linux that image is a
 * `timespec`: a signed 64-bit seconds count, an unsigned 32-bit nanoseconds
 * count, and four padding bytes, in little-endian order. The model spells this
 * layout out; the padding bytes, which the reinterpretation copies without
 * defining, are written as zeros and ignored when read back.
 */
module StartTime {
  import opened MachineInts
  import opened CoreErrors

  /** A `SystemTime`: seconds and nanoseconds since the Unix epoch. */
  datatype SystemTime = SystemTime(secs: I64, nanos: U32)

  /** `SystemTime::UNIX_EPOCH + Duration::from_secs(s)` for an `s` that fits an `i64`. */
  function EpochPlusSecs(s: nat): (t: SystemTime)
    requires s < TWO_TO_63
    ensures t.secs == s && t.nanos == 0
  {
    SystemTime(s, 0)
  }

  /** `mem::size_of::<SystemTime>()` */
  const SYSTEM_TIME_SIZE: nat := 16

  function Pow256(n: nat): (p: nat)
    ensures p >= 1
  {
    if n == 0 then 1 else 256 * Pow256(n - 1)
  }

  lemma Pow256Values()
    ensures Pow256(4) == 0x1_0000_0000
    ensures Pow256(8) == TWO_TO_64
  {
    assert Pow256(1) == 0x100;
    assert Pow256(2) == 0x1_0000;
    assert Pow256(3) == 0x100_0000;
    assert Pow256(4) == 0x1_0000_0000;
    assert Pow256(5) == 0x100_0000_0000;
    assert Pow256(6) == 0x1_0000_0000_0000;
    assert Pow256(7) == 0x100_0000_0000_0000;
  }

  /** The `n` little-endian bytes of `x`. */
  function LittleEndian(x: nat, n: nat): (b: seq<Byte>)
    requires x < Pow256(n)
    ensures |b| == n
  {
    if n == 0 then [] else [x % 256] + LittleEndian(x / 256, n - 1)
  }

  /** The number whose little-endian bytes are `b`. */
  function FromLittleEndian(b: seq<Byte>): (x: nat)
    ensures x < Pow256(|b|)
  {
    if b == [] then 0 else b[0] + 256 * FromLittleEndian(b[1..])
  }

  lemma {:induction false} FromLittleEndianOfLittleEndian(x: nat, n: nat)
    requires x < Pow256(n)
    ensures FromLittleEndian(LittleEndian(x, n)) == x
  {
    if n > 0 {
      var b := LittleEndian(x, n);
      assert b[1..] == LittleEndian(x / 256, n - 1);
      FromLittleEndianOfLittleEndian(x / 256, n - 1);
      assert FromLittleEndian(b) == x % 256 + 256 * (x / 256);
    }
  }

  lemma {:induction false} LittleEndianOfFromLittleEndian(b: seq<Byte>)
    ensures LittleEndian(FromLittleEndian(b), |b|) == b
  {
    if b != [] {
      var x := FromLittleEndian(b);
      var y := FromLittleEndian(b[1..]);
      DivModUnique(x, b[0], y);
      LittleEndianOfFromLittleEndian(b[1..]);
    }
  }

  lemma DivModUnique(x: nat, lo: nat, hi: nat)
    requires lo < 256 && x == lo + 256 * hi
    ensures x % 256 == lo && x / 256 == hi
  {
  }

  /** The two's-complement bits of an `i64`, read as an unsigned number. */
  function Unsigned64(s: I64): (u: nat)
    ensures u < TWO_TO_64
    ensures s >= 0 ==> u == s
    ensures s < 0 ==> u >= TWO_TO_63
  {
    if s < 0 then s + TWO_TO_64 else s
  }

  /** The `i64` whose two's-complement bits, read as an unsigned number, are `u`. */
  function Signed64(u: nat): (s: I64)
    requires u < TWO_TO_64
    ensures Unsigned64(s) == u
  {
    if u >= TWO_TO_63 then u - TWO_TO_64 else u
  }

  /** The memory image of `t` (`system_time_to_bytes_unsafe`). */
  function EncodeTime(t: SystemTime): (b: seq<Byte>)
    ensures |b| == SYSTEM_TIME_SIZE
  {
    Pow256Values();
    LittleEndian(Unsigned64(t.secs), 8) + LittleEndian(t.nanos, 4) + [0, 0, 0, 0]
  }

  /**
   * The `SystemTime` whose memory image is `b` (`bytes_to_system_time_unsafe`).
   * Every image with zero padding is the image of the time it decodes to.
   */
  function DecodeTime(b: seq<Byte>): (t: SystemTime)
    requires |b| == SYSTEM_TIME_SIZE
    ensures b[12..] == [0, 0, 0, 0] ==> EncodeTime(t) == b
  {
    Pow256Values();
    LittleEndianOfFromLittleEndian(b[..8]);
    LittleEndianOfFromLittleEndian(b[8..12]);
    assert b == b[..8] + b[8..12] + b[12..];
    SystemTime(Signed64(FromLittleEndian(b[..8])), FromLittleEndian(b[8..12]))
  }

  /** Reading back an image gives the time that was written. */
  lemma DecodeEncodeTime(t: SystemTime)
    ensures DecodeTime(EncodeTime(t)) == t
  {
    Pow256Values();
    var b := EncodeTime(t);
    assert b[..8] == LittleEndian(Unsigned64(t.secs), 8);
    assert b[8..12] == LittleEndian(t.nanos, 4);
    FromLittleEndianOfLittleEndian(Unsigned64(t.secs), 8);
    FromLittleEndianOfLittleEndian(t.nanos, 4);
  }

  /** Two times with the same image are the same time. */
  lemma EncodeTimeInjective(t: SystemTime, u: SystemTime)
    requires EncodeTime(t) == EncodeTime(u)
    ensures t == u
  {
    DecodeEncodeTime(t);
    DecodeEncodeTime(u);
  }

  /**
   * The write end of a pipe: the bytes written so far, and whether the read end
   * is still open (a write to a pipe without reader fails with `EPIPE`).
   */
  datatype Sender = Sender(written: seq<Byte>, readerOpen: bool)

  /** `write_time`: append the image of `time` to the pipe. */
  function WriteTime(fd: Sender, time: SystemTime): (r: Result<Sender>)
    ensures r.Ok? <==> fd.readerOpen
    ensures r.Ok? ==> |r.value.written| == |fd.written| + SYSTEM_TIME_SIZE
    ensures r.Ok? ==> r.value.readerOpen && r.value.written[..|fd.written|] == fd.written
    ensures r.Err? ==> r.error == IoError(BrokenPipe)
  {
    if fd.readerOpen then Ok(fd.(written := fd.written + EncodeTime(time)))
    else Err(IoError(BrokenPipe))
  }

  /**
   * `read_start_time_from_pipe`: `read_exact` of `SYSTEM_TIME_SIZE` bytes from
   * the bytes `stream` still unread in the pipe, up to its end. Gives the time
   * and the bytes left unread, or `UnexpectedEof` if the pipe ends sooner.
   */
  function ReadStartTime(stream: seq<Byte>): (r: Result<(SystemTime, seq<Byte>)>)
    ensures r.Err? <==> |stream| < SYSTEM_TIME_SIZE
    ensures r.Err? ==> r.error == IoError(UnexpectedEof)
    ensures r.Ok? ==> stream == stream[..SYSTEM_TIME_SIZE] + r.value.1
  {
    if |stream| < SYSTEM_TIME_SIZE then Err(IoError(UnexpectedEof))
    else Ok((DecodeTime(stream[..SYSTEM_TIME_SIZE]), stream[SYSTEM_TIME_SIZE..]))
  }

  /**
   * The start-time round trip: whatever the worker writes after its start time,
   * the caller reads back exactly that start time and leaves the rest unread.
   */
  lemma WriteThenReadStartTime(time: SystemTime, rest: seq<Byte>)
    ensures WriteTime(Sender([], true), time).Ok?
    ensures ReadStartTime(WriteTime(Sender([], true), time).value.written + rest) == Ok((time, rest))
  {
    var stream := EncodeTime(time) + rest;
    assert stream[..SYSTEM_TIME_SIZE] == EncodeTime(time);
    assert stream[SYSTEM_TIME_SIZE..] == rest;
    DecodeEncodeTime(time);
  }
}
