/** How the server obtains the socket it listens on. */
module ServerSocket {
  import opened Results
  import opened Kernel
  import opened FileDescriptors
  import opened Os
  import opened Registry
  import opened EpollData

  /** The socket argument after parsing: an integer names an open descriptor, a leading @ an
      abstract address, anything else a path. */
  datatype SocketArg = GivenFd(fd: int) | AbstractName(name: string) | PathName(path: string)

  datatype SocketError =
    | Accept
    | ClientRegistration(cause: RegistryError)
    | Creation
    | DirectoryCreation
    | Fstat
    | ListenFailure
    | Metadata
    | PathExists(path: string)
    | PathHasNoParent(path: string)
    | Poll
    | ProvidedFdNotOpenFile(fd: int)
    | ProvidedFdNotSeqPacket(fd: int)
    | ProvidedFdNotSocket(fd: int)
    | TooManyClients

  // ---- Parsing the argument ----

  function Digits(text: string): Option<nat>
  {
    if text == "" then Some(0)
    else
      match Digits(text[..|text| - 1])
      case Some(n) => if '0' <= text[|text| - 1] <= '9' then Some(10 * n + (text[|text| - 1] - '0') as nat) else None
      case None => None
  }

  function SignedBy(negative: bool, size: nat): int {
    if negative then -(size as int) else size
  }

  function ParseDigits(digits: string, negative: bool): (r: Option<int>)
    ensures r.Some? ==> IsRawFd(r.value)
  {
    match Digits(digits)
    case None => None
    case Some(n) =>
      var number := SignedBy(negative, n);
      if digits != "" && IsRawFd(number) then Some(number) else None
  }

  /** A signed decimal number that fits a descriptor: an optional sign, then at least one digit. */
  function ParseRawFd(text: string): (r: Option<int>)
    ensures r.Some? ==> IsRawFd(r.value)
  {
    if text != "" && (text[0] == '+' || text[0] == '-') then ParseDigits(text[1..], text[0] == '-')
    else ParseDigits(text, false)
  }

  function SocketArgOf(text: string): SocketArg {
    match ParseRawFd(text)
    case Some(fd) => GivenFd(fd)
    case None => if text != "" && text[0] == '@' then AbstractName(text[1..]) else PathName(text)
  }

  // ---- What an argument means ----

  /** How a number is printed. */
  function Decimal(n: nat): (text: string)
    ensures text != "" && '0' <= text[0] <= '9'
    decreases n
  {
    var digit := '0' + (n % 10) as char;
    if n < 10 then [digit] else Decimal(n / 10) + [digit]
  }

  function Zeros(count: nat): (text: string)
    ensures |text| == count
  {
    if count == 0 then "" else "0" + Zeros(count - 1)
  }

  /** Printed with a sign that fits it, or without one, and with any number of leading zeros. */
  ghost predicate Denotes(text: string, n: int) {
    exists sign, zeros :: Prints(text, n, sign, zeros)
  }

  predicate Prints(text: string, n: int, sign: string, zeros: nat) {
    && (sign == "" || sign == "+" || sign == "-")
    && (n < 0 ==> sign == "-") && (n > 0 ==> sign != "-")
    && text == sign + (Zeros(zeros) + Decimal(if n < 0 then -n else n))
  }

  lemma {:induction false} DecimalIsRead(n: nat)
    ensures Digits(Decimal(n)) == Some(n)
    decreases n
  {
    var digit := '0' + (n % 10) as char;
    if n < 10 {
      assert [digit][..0] == "";
    } else {
      DecimalIsRead(n / 10);
      assert (Decimal(n / 10) + [digit])[..|Decimal(n / 10)|] == Decimal(n / 10);
    }
  }

  lemma {:induction false} ZeroIsSkipped(text: string)
    ensures Digits("0" + text) == Digits(text)
    decreases |text|
  {
    if text == "" {
      assert ("0" + text)[..0] == "";
    } else {
      ZeroIsSkipped(text[..|text| - 1]);
      assert ("0" + text)[..|text|] == "0" + text[..|text| - 1];
    }
  }

  lemma {:induction false} ZerosAreSkipped(zeros: nat, text: string)
    ensures Digits(Zeros(zeros) + text) == Digits(text)
  {
    if zeros == 0 {
      assert Zeros(0) + text == text;
    } else {
      ZerosAreSkipped(zeros - 1, text);
      ZeroIsSkipped(Zeros(zeros - 1) + text);
      assert Zeros(zeros) + text == "0" + (Zeros(zeros - 1) + text);
    }
  }

  lemma {:induction false} DigitsAreDigits(text: string)
    requires Digits(text).Some?
    ensures forall i | 0 <= i < |text| :: '0' <= text[i] <= '9'
    ensures text != "" && text[0] != '0' ==> Digits(text).value > 0
    decreases |text|
  {
    if text != "" {
      var init := text[..|text| - 1];
      DigitsAreDigits(init);
      assert forall i | 0 <= i < |init| :: text[i] == init[i];
    }
  }

  lemma {:induction false} ReadIsPrinted(text: string)
    requires Digits(text).Some? && text != "" && (text[0] != '0' || |text| == 1)
    ensures Decimal(Digits(text).value) == text
    decreases |text|
  {
    var init, last := text[..|text| - 1], text[|text| - 1];
    assert text == init + [last];
    DigitsAreDigits(text);
    if init != "" {
      DigitsAreDigits(init);
      ReadIsPrinted(init);
    }
  }

  lemma {:induction false} LeadingZeros(text: string) returns (zeros: nat)
    requires Digits(text).Some? && text != ""
    ensures text == Zeros(zeros) + Decimal(Digits(text).value)
    decreases |text|
  {
    if text[0] != '0' || |text| == 1 {
      ReadIsPrinted(text);
      zeros := 0;
    } else {
      assert text == "0" + text[1..];
      ZeroIsSkipped(text[1..]);
      var fewer := LeadingZeros(text[1..]);
      zeros := fewer + 1;
    }
  }

  lemma SignIsRead(sign: string, digits: string)
    requires (sign == "" || sign == "+" || sign == "-") && digits != "" && '0' <= digits[0] <= '9'
    ensures ParseRawFd(sign + digits) == ParseDigits(digits, sign == "-") && (sign + digits)[0] != '@'
  {
    var text := sign + digits;
    if sign == "" {
      assert text == digits;
    } else {
      assert text[1..] == digits && text[0] == sign[0];
    }
  }

  lemma PrintedDigits(size: nat, zeros: nat, negative: bool)
    requires IsRawFd(SignedBy(negative, size))
    ensures var digits := Zeros(zeros) + Decimal(size);
            '0' <= digits[0] <= '9' && ParseDigits(digits, negative) == Some(SignedBy(negative, size))
  {
    ZerosAreSkipped(zeros, Decimal(size));
    DecimalIsRead(size);
    DigitsAreDigits(Zeros(zeros) + Decimal(size));
  }

  lemma PrintedIsParsed(text: string, n: int, sign: string, zeros: nat)
    requires Prints(text, n, sign, zeros) && IsRawFd(n)
    ensures ParseRawFd(text) == Some(n) && text[0] != '@'
  {
    var size: nat := if n < 0 then -n else n;
    PrintedDigits(size, zeros, sign == "-");
    SignIsRead(sign, Zeros(zeros) + Decimal(size));
  }

  lemma ParsedDigits(digits: string, negative: bool) returns (zeros: nat)
    requires ParseDigits(digits, negative).Some?
    ensures var n := ParseDigits(digits, negative).value;
            && digits == Zeros(zeros) + Decimal(if n < 0 then -n else n)
            && (n < 0 ==> negative) && (n > 0 ==> !negative)
  {
    zeros := LeadingZeros(digits);
  }

  lemma ParsedIsPrinted(text: string)
    ensures ParseRawFd(text).Some? ==> Denotes(text, ParseRawFd(text).value)
  {
    if ParseRawFd(text).Some? {
      var n := ParseRawFd(text).value;
      if text != "" && (text[0] == '+' || text[0] == '-') {
        var zeros := ParsedDigits(text[1..], text[0] == '-');
        assert text == text[..1] + text[1..];
        assert Prints(text, n, if text[0] == '-' then "-" else "+", zeros);
      } else {
        var zeros := ParsedDigits(text, false);
        assert text == "" + text;
        assert Prints(text, n, "", zeros);
      }
    }
  }

  /** An argument is a descriptor's number exactly when it is that number printed; a leading @
      makes it the abstract name that follows, and anything else is a path. */
  lemma ArgumentIs(text: string)
    ensures forall fd :: SocketArgOf(text) == GivenFd(fd) <==> IsRawFd(fd) && Denotes(text, fd)
    ensures forall name :: SocketArgOf(text) == AbstractName(name) <==> text == "@" + name
    ensures forall path :: SocketArgOf(text) == PathName(path) <==>
              path == text && (text == "" || text[0] != '@') && !exists fd :: IsRawFd(fd) && Denotes(text, fd)
  {
    ParsedIsPrinted(text);
    forall fd | IsRawFd(fd) && Denotes(text, fd) ensures ParseRawFd(text) == Some(fd) && text[0] != '@' {
      var sign, zeros :| Prints(text, fd, sign, zeros);
      PrintedIsParsed(text, fd, sign, zeros);
    }
    assert text != "" && text[0] == '@' ==> text == "@" + text[1..];
  }

  // ---- Obtaining the socket ----

  function ListenerAt(address: Address): Description {
    Socket(Listening, Some(address), None, true, true)
  }

  function AddressOf(arg: SocketArg): Address
    requires !arg.GivenFd?
  {
    if arg.AbstractName? then AbstractAddress(arg.name) else PathAddress(arg.path)
  }

  /** A name a new socket can be bound to. */
  predicate NameIsFree(arg: SocketArg, k: Kernel) {
    arg.AbstractName? || (arg.PathName? && arg.path != "" && arg.path !in k.fs && arg.path !in k.bound)
  }

  /** A given number the server can listen on. */
  predicate CanServe(arg: SocketArg, k: Kernel) {
    && arg.GivenFd? && arg.fd >= 0 && DescAt(k, arg.fd).Some?
    && CanListen(DescAt(k, arg.fd).value) && DescAt(k, arg.fd).value.seqpacket
  }

  /** Why an argument is refused, when nothing fails. */
  function Refusal(arg: SocketArg, k: Kernel): Option<SocketError> {
    match arg
    case GivenFd(fd) =>
      if fd < 0 || DescAt(k, fd).None? then Some(ProvidedFdNotOpenFile(fd))
      else if !DescAt(k, fd).value.Socket? then Some(ProvidedFdNotSocket(fd))
      else if !DescAt(k, fd).value.seqpacket then Some(ProvidedFdNotSeqPacket(fd))
      else if !CanListen(DescAt(k, fd).value) then Some(ListenFailure)
      else None
    case AbstractName(_) => None
    case PathName(path) =>
      if path in k.fs || path in k.bound then Some(PathExists(path))
      else if path == "" then Some(PathHasNoParent(path))
      else None
  }

  lemma RefusalIs(arg: SocketArg, k: Kernel)
    ensures Refusal(arg, k).None? <==> if arg.GivenFd? then CanServe(arg, k) else NameIsFree(arg, k)
  {
  }

  /** A number named in the argument is the one that is listened on; a name is the one the socket
      there goes by. */
  predicate ListensAs(k: Kernel, fd: Fd, arg: SocketArg) {
    match arg
    case GivenFd(number) => fd == number
    case AbstractName(name) => CurrentInfo(k, fd) == Some(FileDescriptors.BoundSocket(AbstractAddress(name)))
    case PathName(path) => CurrentInfo(k, fd) == Some(FileDescriptors.BoundSocket(PathAddress(path)))
  }

  lemma NamedAsAsked(k: Kernel, arg: SocketArg)
    requires WellFormed(k) && !arg.GivenFd?
    ensures var k' := Allocated(Bind(k, AddressOf(arg)), ListenerAt(AddressOf(arg)), false);
            ListensAs(k', LowestFree(k), arg) && k'.bound == k.bound + if arg.PathName? then {arg.path} else {}
  {
  }

  /** A named socket is new, on the lowest free number; a given one keeps its number, its
      addresses and its description.  Without unexplained failures there is a socket unless
      the argument is refused, and then the error says why. */
  method GetServerSocket(os: Os, arg: SocketArg) returns (r: Outcome<Fd, SocketError>)
    requires WellFormed(os.k)
    modifies os
    ensures os.faults >= old(os.faults) && WellFormed(os.k)
    ensures os.k.pid == old(os.k).pid && os.k.others == old(os.k).others
    ensures r.Ok? ==> Refusal(arg, old(os.k)).None? && ListensAs(os.k, r.value, arg)
    ensures r.Ok? ==> os.k.bound == old(os.k.bound) + if arg.PathName? then {arg.path} else {}
    ensures r.Ok? && !arg.GivenFd? ==>
              && r.value == LowestFree(old(os.k))
              && os.k == Allocated(Bind(old(os.k), AddressOf(arg)), ListenerAt(AddressOf(arg)), false)
    ensures r.Ok? && arg.GivenFd? ==>
              && arg.fd == r.value && CanServe(arg, old(os.k))
              && os.k == WithDesc(old(os.k), r.value,
                                  DescAt(old(os.k), r.value).value.(role := Listening, nonblocking := true))
    ensures os.faults == old(os.faults) ==>
              match Refusal(arg, old(os.k)) { case None => r.Ok? case Some(error) => r == Err(error) }
    ensures !r.Panic?
  {
    if !arg.GivenFd? { NamedAsAsked(os.k, arg); }
    var fd: Fd;
    match arg {
      case GivenFd(number) =>
        if number < 0 || number !in os.k.fds { return Err(ProvidedFdNotOpenFile(number)); }
        fd := number;
        var unread := os.Fault();
        if unread { return Err(Fstat); }
        if !DescAt(os.k, fd).value.Socket? { return Err(ProvidedFdNotSocket(number)); }
        unread := os.Fault();
        if unread { return Err(Metadata); }
        if !DescAt(os.k, fd).value.seqpacket { return Err(ProvidedFdNotSeqPacket(number)); }
      case AbstractName(_) =>
        var created := os.BoundSocket(AddressOf(arg));
        if created.None? { return Err(Creation); }
        fd := created.value;
      case PathName(path) =>
        if path in os.k.fs || path in os.k.bound { return Err(PathExists(path)); }
        if path == "" { return Err(PathHasNoParent(path)); }
        var directory := os.Fault();
        if directory { return Err(DirectoryCreation); }
        var created := os.BoundSocket(AddressOf(arg));
        if created.None? { return Err(Creation); }
        fd := created.value;
    }
    var ok := os.SetNonblocking(fd);
    if !ok { return Err(Metadata); }
    ok := os.Listen(fd);
    if !ok { return Err(ListenFailure); }
    return Ok(fd);
  }
}
