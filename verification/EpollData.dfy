/** The 64-bit tag the server stores with every watched descriptor. */
module EpollData {
  import opened Results

  datatype EpollTag = Client | Server | Signal

  datatype EpollData = EpollData(fd: int, tag: EpollTag)

  predicate IsRawFd(fd: int) {
    -TWO_31 <= fd < TWO_31
  }

  function TagNumber(tag: EpollTag): int {
    match tag
    case Client => 0
    case Server => 1
    case Signal => 2
  }

  /** The descriptor zero-extended in the low half, the tag above it. */
  function Encode(d: EpollData): (v: int)
    requires IsRawFd(d.fd)
    ensures 0 <= v < TWO_64
  {
    d.fd % TWO_32 + TagNumber(d.tag) * TWO_32
  }

  function SignExtend(v: int, bits: int): int
    requires bits > 0
  {
    if v % bits < bits / 2 then v % bits else v % bits - bits
  }

  /** Both halves are truncated: the low 32 bits to a descriptor, the next 8 to a tag. */
  function Decode(v: int): Option<EpollData>
    requires 0 <= v < TWO_64
  {
    var fd := SignExtend(v, TWO_32);
    match SignExtend(v / TWO_32, 256)
    case 0 => Some(EpollData(fd, Client))
    case 1 => Some(EpollData(fd, Server))
    case 2 => Some(EpollData(fd, Signal))
    case _ => None
  }

  /** Every event decodes to the descriptor and class it was added with. */
  lemma RoundTrip(d: EpollData)
    requires IsRawFd(d.fd)
    ensures Decode(Encode(d)) == Some(d)
  {
  }

  /** Which words are accepted, and what re-encoding an accepted word loses: the bits the
      narrowing of the tag dropped. */
  lemma AcceptedWords(v: int)
    requires 0 <= v < TWO_64
    ensures Decode(v).Some? <==> v / TWO_32 % 256 <= 2
    ensures Decode(v).Some? ==> IsRawFd(Decode(v).value.fd) && Encode(Decode(v).value) == v % (256 * TWO_32)
  {
    var high := v / TWO_32;
    assert v == high * TWO_32 + v % TWO_32;
    assert high == high / 256 * 256 + high % 256;
    assert v == high / 256 * (256 * TWO_32) + (high % 256 * TWO_32 + v % TWO_32);
    assert 0 <= high % 256 * TWO_32 + v % TWO_32 < 256 * TWO_32;
    QuotientRemainder(v, 256 * TWO_32, high / 256, high % 256 * TWO_32 + v % TWO_32);
    if Decode(v).Some? {
      assert Decode(v).value.fd % TWO_32 == v % TWO_32;
    }
  }

  lemma QuotientRemainder(v: int, d: int, q: int, r: int)
    requires d > 0 && v == q * d + r && 0 <= r < d
    ensures v % d == r
  {
    var e := v / d - q;
    assert v == v / d * d + v % d;
    assert e * d == r - v % d by { assert e * d == v / d * d - q * d; }
  }

  /** The filler the event buffer starts with is never mistaken for an event. */
  lemma FillerRejected()
    ensures Decode(TWO_64 - 1) == None
  {
  }
}
