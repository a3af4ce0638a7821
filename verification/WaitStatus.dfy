/** The wait-status encoder used by the reaping loop and the two decoders. */
module WaitStatus {
  import opened Results

  const SIGCHLD: int := 17

  datatype ChildCode = CldExited | CldKilled | CldDumped | CldStopped | CldTrapped | CldContinued | CldOther(code: int)

  datatype SigInfo = SigInfo(signo: int, code: ChildCode, pid: int, uid: int, status: int)

  datatype WaitRecord =
    | Continued
    | Exited(status: int)
    | Signaled(signal: int)
    | Stopped(stopSignal: int, event: int)

  datatype WaitError = InvalidSiginfo(signo: int) | InvalidSiginfoCode(code: int) | InvalidWaitStatus(raw: int)

  predicate IsCInt(x: int) {
    -0x8000_0000 <= x < 0x8000_0000
  }

  /** Truncation to a 32-bit C int. */
  function Wrap32(x: int): (r: int)
    ensures IsCInt(r)
  {
    (x + 0x8000_0000) % 0x1_0000_0000 - 0x8000_0000
  }

  // ---- Encoder ----

  /** W_EXITCODE: the shift wraps, the low byte receives the signal. */
  function WExitCode(ret: int, signal: int): int
    requires 0 <= signal < 256
  {
    Wrap32(ret * 256) + signal
  }

  function WStopCode(signal: int): int {
    Wrap32(signal * 256) + 0x7f
  }

  function RawStatusFromSiginfo(s: SigInfo): (r: Outcome<int, WaitError>)
    ensures r.Ok? <==> s.signo == SIGCHLD && !s.code.CldOther?
  {
    if s.signo != SIGCHLD then Err(InvalidSiginfo(s.signo))
    else match s.code
      case CldExited => Ok(WExitCode(s.status, 0))
      case CldKilled => Ok(WExitCode(0, s.status % 128))
      case CldDumped => Ok(WExitCode(0, s.status % 128 + 0x80))
      case CldStopped | CldTrapped => Ok(WStopCode(s.status))
      case CldContinued => Ok(0xffff)
      case CldOther(code) => Err(InvalidSiginfoCode(code))
  }

  // ---- Decoders ----

  function TryFromSiginfo(s: SigInfo): Outcome<WaitRecord, WaitError> {
    if s.signo != SIGCHLD then Err(InvalidSiginfo(s.signo))
    else match s.code
      case CldExited => Ok(Exited(s.status))
      case CldKilled | CldDumped => Ok(Signaled(s.status))
      case CldStopped | CldTrapped => Ok(Stopped(s.status % 256, s.status / 256))
      case CldContinued => Ok(Continued)
      case CldOther(code) => Err(InvalidSiginfoCode(code))
  }

  predicate WIfExited(raw: int) { raw % 128 == 0 }

  /** The sum is narrowed to a signed byte before the comparison. */
  predicate WIfSignaled(raw: int) {
    var sum := raw % 128 + 1;
    (if sum < 128 then sum else sum - 256) >= 2
  }

  predicate WIfStopped(raw: int) { raw % 256 == 0x7f }

  predicate WIfContinued(raw: int) { raw == 0xffff }

  function TryFromStatus(raw: int): Outcome<WaitRecord, WaitError> {
    if WIfExited(raw) then Ok(Exited(raw / 256 % 256))
    else if WIfSignaled(raw) then Ok(Signaled(raw % 128))
    else if WIfStopped(raw) then Ok(Stopped(raw / 256 % 256, raw / 65536))
    else if WIfContinued(raw) then Ok(Continued)
    else Err(InvalidWaitStatus(raw))
  }

  // ---- Agreement ----

  /** The values of `si_status` the kernel can report for each code. */
  predicate Representable(s: SigInfo) {
    match s.code
    case CldExited => 0 <= s.status < 256
    case CldKilled | CldDumped => 1 <= s.status <= 126
    case CldStopped | CldTrapped => -0x80_0000 <= s.status < 0x80_0000
    case CldContinued => true
    case CldOther(_) => false
  }

  /** Decoding the encoded status gives what decoding the siginfo gives, exactly for the
      representable values; everything else is lost in a mask or in the shift. */
  lemma StatusAgrees(s: SigInfo)
    requires IsCInt(s.status) && s.signo == SIGCHLD && !s.code.CldOther?
    ensures RawStatusFromSiginfo(s).Ok?
    ensures TryFromStatus(RawStatusFromSiginfo(s).value) == TryFromSiginfo(s) <==> Representable(s)
  {
    match s.code {
      case CldExited => ExitAgrees(s.status);
      case CldKilled => SignalAgrees(s.status);
      case CldDumped => SignalAgrees(s.status);
      case CldStopped => StopAgrees(s.status);
      case CldTrapped => StopAgrees(s.status);
      case CldContinued =>
    }
  }

  /** The status word of every value the kernel can report: an exit code in the second byte, a
      signal in the low seven bits with the eighth saying whether core was dumped, a stop in the
      bytes above the marker 0x7f. */
  lemma StatusWords(s: SigInfo)
    requires s.signo == SIGCHLD && Representable(s)
    ensures RawStatusFromSiginfo(s) ==
              match s.code
              case CldExited => Ok(s.status * 0x100)
              case CldKilled => Ok(s.status)
              case CldDumped => Ok(s.status + 0x80)
              case CldStopped | CldTrapped => Ok(s.status * 0x100 + 0x7f)
              case CldContinued => Ok(0xffff)
              case CldOther(code) => Err(InvalidSiginfoCode(code))
  {
    if s.code.CldExited? || s.code.CldStopped? || s.code.CldTrapped? {
      ShiftKeeps24(s.status);
    }
  }

  lemma ExitAgrees(x: int)
    requires IsCInt(x)
    ensures TryFromStatus(WExitCode(x, 0)) == Ok(Exited(x)) <==> 0 <= x < 256
  {
    ShiftKeeps24(x);
    ExitByte(x, Low24(x));
  }

  lemma ExitByte(x: int, low: int)
    requires low % 256 == x % 256
    ensures TryFromStatus(low * 256) == Ok(Exited(x)) <==> 0 <= x < 256
  {
  }

  lemma SignalAgrees(x: int)
    ensures TryFromStatus(WExitCode(0, x % 128)) == Ok(Signaled(x)) <==> 1 <= x <= 126
    ensures TryFromStatus(WExitCode(0, x % 128 + 0x80)) == Ok(Signaled(x)) <==> 1 <= x <= 126
  {
    var low := x % 128;
    assert Wrap32(0) == 0;
    assert (low + 0x80) % 128 == low;
  }

  lemma StopAgrees(x: int)
    requires IsCInt(x)
    ensures TryFromStatus(WStopCode(x)) == Ok(Stopped(x % 256, x / 256)) <==> -0x80_0000 <= x < 0x80_0000
  {
    ShiftKeeps24(x);
    StopWord(Low24(x));
    StopDecodes(WStopCode(x), Low24(x));
    Low24Fits(x);
  }

  /** The bytes of a stop word. */
  lemma StopWord(low: int)
    ensures var raw := low * 256 + 0x7f;
            raw % 128 == 0x7f && raw % 256 == 0x7f && raw / 256 == low && raw / 65536 == low / 256
  {
    var raw := low * 256 + 0x7f;
    assert raw % 256 == 0x7f && raw / 256 == low;
    assert raw % 128 == 0x7f by { assert raw == (2 * low) * 128 + 0x7f; }
    assert raw / 65536 == (raw / 256) / 256;
  }

  lemma StopDecodes(raw: int, low: int)
    requires raw % 128 == 0x7f && raw % 256 == 0x7f && raw / 256 == low && raw / 65536 == low / 256
    ensures TryFromStatus(raw) == Ok(Stopped(low % 256, low / 256))
  {
  }

  lemma Low24Fits(x: int)
    ensures Low24(x) == x <==> -0x80_0000 <= x < 0x80_0000
    ensures Low24(x) % 256 == x % 256 && Low24(x) / 256 == x / 256 <==> Low24(x) == x
  {
    ShiftKeeps24(x);
  }

  /** The low 24 bits, sign-extended: all a left shift by eight leaves of a C int. */
  function Low24(x: int): int {
    (x + 0x80_0000) % 0x100_0000 - 0x80_0000
  }

  lemma ShiftKeeps24(x: int)
    ensures Wrap32(x * 256) == Low24(x) * 256
    ensures Low24(x) % 256 == x % 256
  {
    var y := x + 0x80_0000;
    var turns, low := y / 0x100_0000, y % 0x100_0000;
    assert x * 256 + 0x8000_0000 == turns * 0x1_0000_0000 + low * 256;
    WordRemainder(x * 256 + 0x8000_0000, turns, low * 256);
    ByteRemainder(Low24(x), turns * 0x1_0000);
    assert x == Low24(x) + turns * 0x1_0000 * 256;
  }

  lemma WordRemainder(v: int, q: int, r: int)
    requires v == q * 0x1_0000_0000 + r && 0 <= r < 0x1_0000_0000
    ensures v % 0x1_0000_0000 == r
  {
  }

  lemma ByteRemainder(a: int, m: int)
    ensures (a + m * 256) % 256 == a % 256
  {
  }
}
