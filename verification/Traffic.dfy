/** The packets clients send, the replies the server sends, and the connections it takes. */
module Traffic {
  import opened Results
  import opened Kernel
  import opened Os
  import opened ServerSocket
  import opened SpawnParams
  import opened Packets

  datatype Reply =
    | AckResponse
    | IdentityQueryResponse(name: string, species: string, arch: string)
    | SpawnResponse(pid: Pid)
    | StatResponse

  datatype Received = Got(packet: Packet) | WouldBlock | Broken

  datatype Connection = Taken(fd: Fd) | NoConnection | AcceptFailed

  /** What a server says about itself, its name, its species' name and its architecture, and
      the payloads that species understands. */
  datatype Identity = Identity(name: string, species: string, arch: string, payloads: set<PayloadKind>)

  /** The requests that get a reply: not those with another species' payload, and not
      messages that are no requests. */
  predicate WantsReply(packet: Packet, who: Identity) {
    packet.Parcel? &&
    match packet.request
    case Exit | IdentityQuery | Stat => true
    case Spawn(_, payload) => payload in who.payloads
    case SpawnSubspecies(_, _, payload) => payload in who.payloads
    case Other => false
  }

  predicate IsReplyTo(reply: Reply, request: Request, who: Identity) {
    match request
    case Exit => reply.AckResponse?
    case IdentityQuery => reply == IdentityQueryResponse(who.name, who.species, who.arch)
    case Spawn(_, _) | SpawnSubspecies(_, _, _) => reply.SpawnResponse?
    case Stat => reply.StatResponse?
    case Other => false
  }

  /** One reply per packet that wants one, in the packets' order, and no others. */
  predicate Answers(replies: seq<Reply>, packets: seq<Packet>, who: Identity)
    decreases |packets|
  {
    if packets == [] then replies == []
    else
      var init, last := packets[..|packets| - 1], packets[|packets| - 1];
      if WantsReply(last, who) then
        replies != [] && IsReplyTo(replies[|replies| - 1], last.request, who) && Answers(replies[..|replies| - 1], init, who)
      else Answers(replies, init, who)
  }

  function Wanting(packets: seq<Packet>, who: Identity): seq<Request> {
    if packets == [] then []
    else
      Wanting(packets[..|packets| - 1], who) +
      if WantsReply(packets[|packets| - 1], who) then [packets[|packets| - 1].request] else []
  }

  /** The replies correspond one to one, by position, to the packets that want one. */
  lemma {:induction false} AnswersByPosition(replies: seq<Reply>, packets: seq<Packet>, who: Identity)
    ensures Answers(replies, packets, who) <==>
              && |replies| == |Wanting(packets, who)|
              && forall i | 0 <= i < |replies| :: IsReplyTo(replies[i], Wanting(packets, who)[i], who)
    decreases |packets|
  {
    if packets != [] {
      var init, last := packets[..|packets| - 1], packets[|packets| - 1];
      if WantsReply(last, who) {
        if replies != [] { AnswersByPosition(replies[..|replies| - 1], init, who); }
      } else {
        AnswersByPosition(replies, init, who);
      }
    }
  }

  /** A packet after which the server reads on. */
  predicate ReadsOn(packet: Packet) {
    packet.Parcel? && !packet.request.Exit?
  }

  predicate AllReadOn(packets: seq<Packet>) {
    forall i | 0 <= i < |packets| :: ReadsOn(packets[i])
  }

  /** Only the last packet of a drain may stop it. */
  predicate StopsOnlyAtEnd(packets: seq<Packet>) {
    forall i | 0 <= i < |packets| - 1 :: ReadsOn(packets[i])
  }

  lemma AnswersSnoc(replies: seq<Reply>, packets: seq<Packet>, packet: Packet, who: Identity)
    requires Answers(replies, packets, who)
    ensures (packets + [packet])[..|packets|] == packets
    ensures !WantsReply(packet, who) ==> Answers(replies, packets + [packet], who)
    ensures forall reply | WantsReply(packet, who) && IsReplyTo(reply, packet.request, who) ::
              Answers(replies + [reply], packets + [packet], who)
  {
  }

  lemma {:induction false} AnswersConcat(replies: seq<Reply>, packets: seq<Packet>, more: seq<Reply>, later: seq<Packet>,
                                         who: Identity)
    requires Answers(replies, packets, who) && Answers(more, later, who)
    ensures Answers(replies + more, packets + later, who)
    decreases |later|
  {
    if later == [] {
      assert packets + later == packets && replies + more == replies;
    } else {
      var init, last := later[..|later| - 1], later[|later| - 1];
      assert (packets + later)[..|packets + later| - 1] == packets + init;
      if WantsReply(last, who) {
        AnswersConcat(replies, packets, more[..|more| - 1], init, who);
        assert (replies + more)[..|replies + more| - 1] == replies + more[..|more| - 1];
      } else {
        AnswersConcat(replies, packets, more, init, who);
      }
    }
  }

  function QueueOf<T>(queues: map<nat, seq<T>>, id: nat): seq<T> {
    if id in queues then queues[id] else []
  }

  /** A call that would have blocked: a stream after `read` packets of it had been read, or the
      backlog with `left` connections still to come. */
  datatype Stall = StreamDry(id: nat, read: nat) | BacklogDry(left: nat)

  /** Unread packets, packets read, and replies sent, per stream, and the calls that would
      have blocked. */
  datatype Mail = Mail(inbox: map<nat, seq<Packet>>, taken: map<nat, seq<Packet>>, sent: map<nat, seq<Reply>>,
                       stalls: seq<Stall>)

  /** What the server reads of a stream: every datagram, decoded. */
  function PacketsOf(datagrams: seq<Datagram>): seq<Packet> {
    seq(|datagrams|, i requires 0 <= i < |datagrams| => PacketOf(datagrams[i]))
  }

  function InboxOf(inbox: map<nat, seq<Datagram>>): map<nat, seq<Packet>> {
    map id | id in inbox :: PacketsOf(inbox[id])
  }

  /** Every packet of a stream is what the datagram in its place decodes to. */
  lemma InboxIsDecoded(datagrams: map<nat, seq<Datagram>>, id: nat)
    ensures |QueueOf(InboxOf(datagrams), id)| == |QueueOf(datagrams, id)|
    ensures forall i | 0 <= i < |QueueOf(datagrams, id)| ::
        QueueOf(InboxOf(datagrams), id)[i] == PacketOf(QueueOf(datagrams, id)[i])
  {
  }

  ghost predicate Untouched(a: Mail, b: Mail, id: nat) {
    && QueueOf(b.inbox, id) == QueueOf(a.inbox, id)
    && QueueOf(b.taken, id) == QueueOf(a.taken, id)
    && QueueOf(b.sent, id) == QueueOf(a.sent, id)
  }

  /** `got` was read off the front of one stream's queue and `replies` were sent back on it. */
  ghost predicate Exchanged(a: Mail, b: Mail, id: nat, got: seq<Packet>, replies: seq<Reply>) {
    && QueueOf(a.inbox, id) == got + QueueOf(b.inbox, id)
    && QueueOf(b.taken, id) == QueueOf(a.taken, id) + got
    && QueueOf(b.sent, id) == QueueOf(a.sent, id) + replies
    && a.stalls <= b.stalls
    && forall other | other != id :: Untouched(a, b, other)
  }

  lemma NothingExchanged(a: Mail, id: nat)
    ensures Exchanged(a, a, id, [], [])
  {
    assert [] + QueueOf(a.inbox, id) == QueueOf(a.inbox, id) && QueueOf(a.taken, id) + [] == QueueOf(a.taken, id);
    assert QueueOf(a.sent, id) + [] == QueueOf(a.sent, id);
  }

  /** Nothing sent by a client is lost, repeated or reordered on the way to being read, and
      nothing that was read is unread again. */
  ghost predicate Conserved(a: Mail, b: Mail) {
    && a.stalls <= b.stalls
    && forall id ::
         && QueueOf(b.taken, id) + QueueOf(b.inbox, id) == QueueOf(a.taken, id) + QueueOf(a.inbox, id)
         && QueueOf(a.taken, id) <= QueueOf(b.taken, id)
  }

  lemma ExchangeConserves(a: Mail, b: Mail, id: nat, got: seq<Packet>, replies: seq<Reply>)
    requires Exchanged(a, b, id, got, replies)
    ensures Conserved(a, b)
  {
    forall x
      ensures QueueOf(b.taken, x) + QueueOf(b.inbox, x) == QueueOf(a.taken, x) + QueueOf(a.inbox, x)
      ensures QueueOf(a.taken, x) <= QueueOf(b.taken, x)
    {
      if x == id {
        assert QueueOf(a.taken, x) + got + QueueOf(b.inbox, x) == QueueOf(a.taken, x) + (got + QueueOf(b.inbox, x));
      } else {
        assert Untouched(a, b, x);
      }
    }
  }

  /** All that was ever read from a stream has been answered on it, in order. */
  predicate StreamAnswered(mail: Mail, id: nat, who: Identity) {
    Answers(QueueOf(mail.sent, id), QueueOf(mail.taken, id), who)
  }

  lemma ExchangeAnswers(a: Mail, b: Mail, id: nat, got: seq<Packet>, replies: seq<Reply>, who: Identity)
    requires Exchanged(a, b, id, got, replies) && StreamAnswered(a, id, who) && Answers(replies, got, who)
    ensures StreamAnswered(b, id, who)
  {
    AnswersConcat(QueueOf(a.sent, id), QueueOf(a.taken, id), replies, got, who);
  }

  /** No stream from number `n` on has been used. */
  ghost predicate UnusedFrom(mail: Mail, n: nat) {
    forall id | id >= n :: QueueOf(mail.taken, id) == [] && QueueOf(mail.sent, id) == []
  }

  lemma ExchangedMore(a: Mail, b: Mail, c: Mail, id: nat, got: seq<Packet>, replies: seq<Reply>,
                      more: seq<Packet>, answers: seq<Reply>)
    requires Exchanged(a, b, id, got, replies) && Exchanged(b, c, id, more, answers)
    ensures Exchanged(a, c, id, got + more, replies + answers)
  {
    assert got + more + QueueOf(c.inbox, id) == got + (more + QueueOf(c.inbox, id));
    assert QueueOf(a.taken, id) + (got + more) == (QueueOf(a.taken, id) + got) + more;
    assert QueueOf(a.sent, id) + (replies + answers) == (QueueOf(a.sent, id) + replies) + answers;
    forall other | other != id ensures Untouched(a, c, other) {
      assert Untouched(a, b, other) && Untouched(b, c, other);
    }
  }

  /** Everything a run's clients will ever send and how many will ever connect; what has
      arrived at a given moment is up to them.  Streams belong to open file descriptions. */
  class Network {
    var inbox: map<nat, seq<Packet>>
    var sent: map<nat, seq<Reply>>
    var connections: nat
    ghost var taken: map<nat, seq<Packet>>
    ghost var stalls: seq<Stall>
    ghost var faults: nat

    /** Decoding is a function of the bytes alone, so what will be read is known beforehand. */
    constructor (datagrams: map<nat, seq<Datagram>>, connections: nat)
      ensures inbox == InboxOf(datagrams) && this.connections == connections && sent == map[] && taken == map[]
      ensures stalls == [] && faults == 0
    {
      inbox, this.connections := InboxOf(datagrams), connections;
      sent, taken, stalls, faults := map[], map[], [], 0;
    }

    ghost function Mailbox(): Mail
      reads this`inbox, this`taken, this`sent, this`stalls
    {
      Mail(inbox, taken, sent, stalls)
    }

    /** One recvmsg, and what it read decodes to. */
    method Recv(id: nat) returns (r: Received)
      modifies this`inbox, this`taken, this`stalls, this`faults
      ensures faults >= old(faults)
      ensures r.Got? ==> Exchanged(old(Mailbox()), Mailbox(), id, [r.packet], []) && faults == old(faults)
      ensures r.Got? ==> |QueueOf(inbox, id)| < |QueueOf(old(inbox), id)|
      ensures r.WouldBlock? ==>
                Mailbox() == old(Mailbox()).(stalls := old(stalls) + [StreamDry(id, |QueueOf(taken, id)|)])
      ensures !r.Got? ==> Exchanged(old(Mailbox()), Mailbox(), id, [], [])
      ensures !r.WouldBlock? ==> stalls == old(stalls)
      ensures r.Broken? ==> Mailbox() == old(Mailbox())
      ensures r.Broken? <==> faults > old(faults)
    {
      NothingExchanged(Mailbox(), id);
      var arrived: bool := *;
      var broken: bool := *;
      if broken {
        faults := faults + 1;
        return Broken;
      }
      var queue := QueueOf(inbox, id);
      if !arrived || queue == [] {
        stalls := stalls + [StreamDry(id, |QueueOf(taken, id)|)];
        return WouldBlock;
      }
      taken := taken[id := QueueOf(taken, id) + [queue[0]]];
      inbox := inbox[id := queue[1..]];
      return Got(queue[0]);
    }

    method Send(id: nat, reply: Reply) returns (ok: bool)
      modifies this`sent, this`faults
      ensures ok ==> Exchanged(old(Mailbox()), Mailbox(), id, [], [reply]) && faults == old(faults)
      ensures !ok ==> Mailbox() == old(Mailbox()) && faults > old(faults)
    {
      ok := *;
      if ok {
        sent := sent[id := QueueOf(sent, id) + [reply]];
      } else {
        faults := faults + 1;
      }
    }

    method Accept(os: Os, listener: Fd) returns (r: Connection)
      modifies this`connections, this`stalls, os
      ensures os.faults >= old(os.faults)
      ensures r.Taken? ==> && connections < old(connections) && os.faults == old(os.faults)
                              && r.fd == LowestFree(old(os.k))
                              && DescAt(old(os.k), listener).Some? && DescAt(old(os.k), listener).value.Socket?
                              && exists peer ::
                                   os.k == Allocated(old(os.k), AcceptedSocket(DescAt(old(os.k), listener).value, peer), false)
      ensures !r.Taken? ==> os.k == old(os.k) && connections == old(connections)
      ensures r.AcceptFailed? ==> os.faults > old(os.faults)
      ensures r.NoConnection? ==> os.faults == old(os.faults) && stalls == old(stalls) + [BacklogDry(connections)]
      ensures !r.NoConnection? ==> stalls == old(stalls)
    {
      var arrived: bool := *;
      if !arrived || connections == 0 {
        stalls := stalls + [BacklogDry(connections)];
        return NoConnection;
      }
      var fd := os.TakeConnection(listener);
      if fd.None? { return AcceptFailed; }
      connections := connections - 1;
      return Taken(fd.value);
    }
  }
}
