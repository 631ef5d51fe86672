/**
 * The NAT packet listener: a UDP server whose receive callback reads one
 * datagram of at most 512 bytes and, when it starts with the tag byte 0x08,
 * publishes 'ProcessServerNatPacket' with the sender's "host:port" and the
 * decoded rest of the datagram, then acknowledges with 0x08 "OK".
 *
 * The listener is a Subscribable in the original; here it holds one (`bus`).
 * The socket is replaced by its observable effects: what recvfrom returned
 * and how sendto ended are inputs, and every datagram sendto accepted is
 * appended to `sent`.
 */
module NatPacket {
  import opened Wrappers
  import opened Utf8
  import opened Subscriptions

  /** The buffer size passed to recvfrom. */
  const RECV_SIZE: nat := 512

  /** The tag byte of a NAT packet, and the first byte of the acknowledgement. */
  const NAT_TAG: byte := 0x08

  /** The acknowledgement b"\x08OK". */
  const ACK: seq<byte> := [0x08, 0x4F, 0x4B]

  const COMMAND_ID: string := "ProcessServerNatPacket"

  /** errno for "operation would block" (EAGAIN) on Linux. */
  const EWOULDBLOCK: int := 11

  datatype Address = Address(host: string, port: nat)

  /** What one recvfrom produced: a datagram as its sender sent it, or an OSError. */
  datatype Received = Datagram(datagram: seq<byte>, from: Address) | RecvFailed(errno: int)

  /** How the sendto of the acknowledgement ended. */
  datatype SendStatus = SendOk | SendFailed(errno: int)

  /** The exceptions the receive callback re-raises. */
  datatype Error = IndexError | UnicodeDecodeError | OSError(errno: int)

  /** What the callback does with one receive, before any acknowledgement is sent. */
  datatype Decision =
    | Ignore
    | Swallow
    | Emit(message: Message, reply: seq<byte>, to: Address)
    | Raise(error: Error)

  /** What one call of the callback did: the handler calls its notify made, and what it raised. */
  datatype Outcome = Outcome(calls: seq<Call>, raised: Option<Error>)

  function Digit(d: nat): char
    requires d < 10
  {
    ('0' as int + d) as char
  }

  /** Python's str() of a non-negative int. */
  function DecimalString(n: nat): (s: string)
    ensures |s| >= 1
    ensures forall i :: 0 <= i < |s| ==> '0' <= s[i] <= '9'
  {
    if n < 10 then [Digit(n)] else DecimalString(n / 10) + [Digit(n % 10)]
  }

  /** The value of a string of decimal digits. */
  function DecimalValue(s: string): nat
    requires forall i :: 0 <= i < |s| ==> '0' <= s[i] <= '9'
  {
    if s == [] then 0
    else DecimalValue(s[..|s| - 1]) * 10 + (s[|s| - 1] as int - '0' as int)
  }

  /** "{}:{}".format(host, port) */
  function AddressString(a: Address): string
  {
    a.host + ":" + DecimalString(a.port)
  }

  /** The bytes recvfrom(512) returns: a longer datagram is cut to its first 512 bytes. */
  function ReadBytes(datagram: seq<byte>): (data: seq<byte>)
    ensures |data| <= RECV_SIZE
    ensures |data| <= |datagram| && data == datagram[..|data|]
    ensures |datagram| <= RECV_SIZE ==> data == datagram
    ensures |datagram| > RECV_SIZE ==> |data| == RECV_SIZE
  {
    if |datagram| <= RECV_SIZE then datagram else datagram[..RECV_SIZE]
  }

  /**
   * The decision of the receive callback: a would-block error is swallowed and
   * any other OSError re-raised; an empty datagram fails on `data[0]`; a first
   * byte other than 0x08 is ignored; a payload that is not UTF-8 fails on
   * `decode()` before anything is published.
   */
  function Classify(rx: Received): (d: Decision)
    ensures d.Swallow? <==> rx.RecvFailed? && rx.errno == EWOULDBLOCK
    ensures d.Raise? && d.error.OSError? <==> rx.RecvFailed? && rx.errno != EWOULDBLOCK
    ensures d.Raise? && d.error.OSError? ==> d.error.errno == rx.errno
    ensures d == Raise(IndexError) <==> rx.Datagram? && rx.datagram == []
    ensures d.Ignore? <==> rx.Datagram? && rx.datagram != [] && rx.datagram[0] != NAT_TAG
    ensures d == Raise(UnicodeDecodeError) <==>
              rx.Datagram? && rx.datagram != [] && rx.datagram[0] == NAT_TAG
              && Decode(ReadBytes(rx.datagram)[1..]).None?
    ensures d.Emit? <==>
              rx.Datagram? && rx.datagram != [] && rx.datagram[0] == NAT_TAG
              && Decode(ReadBytes(rx.datagram)[1..]).Some?
  {
    match rx
    case RecvFailed(errno) =>
      if errno == EWOULDBLOCK then Swallow else Raise(OSError(errno))
    case Datagram(datagram, from) =>
      var data := ReadBytes(datagram);
      if |data| == 0 then Raise(IndexError)
      else if data[0] != NAT_TAG then Ignore
      else
        match Decode(data[1..])
        case None => Raise(UnicodeDecodeError)
        case Some(token) =>
          Emit(Message(Str(COMMAND_ID), [Str(AddressString(from)), Str(token)]), ACK, from)
  }

  class NatPacketServer {
    const port: nat
    const bus: Subscribable
    /** Every datagram sendto accepted, with its destination, in order. */
    var sent: seq<(seq<byte>, Address)>

    /** A fresh listener's subscription table holds only the empty catch-all list. */
    constructor (port: nat)
      ensures this.port == port && fresh(bus) && bus.Valid()
      ensures bus.subscriptions == map[ALL := []] && sent == []
    {
      this.port := port;
      this.bus := new Subscribable();
      this.sent := [];
    }

    /**
     * One run of the receive callback. A tagged, decodable datagram is
     * published once, then acknowledged to its sender; a would-block error
     * from that sendto is swallowed, any other is raised after the publish.
     * Every other receive publishes nothing and sends nothing.
     */
    method Recv(rx: Received, send: SendStatus) returns (out: Outcome)
      requires bus.Valid()
      modifies this, Targets(bus.subscriptions, COMMAND_ID)
      ensures Classify(rx).Ignore? || Classify(rx).Swallow? ==>
                out == Outcome([], None) && sent == old(sent)
      ensures Classify(rx).Raise? ==> out == Outcome([], Some(Classify(rx).error)) && sent == old(sent)
      ensures Classify(rx).Emit? ==>
                var Emit(m, reply, to) := Classify(rx);
                && out.calls == Dispatch(Targets(bus.subscriptions, COMMAND_ID), COMMAND_ID, m.arguments)
                && sent == old(sent) + (if send.SendOk? then [(reply, to)] else [])
                && out.raised == (if send.SendFailed? && send.errno != EWOULDBLOCK
                                  then Some(OSError(send.errno)) else None)
      ensures forall s :: s in Targets(bus.subscriptions, COMMAND_ID) ==>
                s.emissions == if Classify(rx).Emit?
                               then AfterFire(s.filter(Classify(rx).message.arguments), old(s.emissions), COMMAND_ID)
                               else old(s.emissions)
    {
      match Classify(rx)
      case Ignore =>
        out := Outcome([], None);
      case Swallow =>
        out := Outcome([], None);
      case Raise(e) =>
        out := Outcome([], Some(e));
      case Emit(m, reply, to) =>
        var r := bus.Notify(m);
        var calls := r.value;
        match send
        case SendOk =>
          sent := sent + [(reply, to)];
          out := Outcome(calls, None);
        case SendFailed(errno) =>
          out := Outcome(calls, if errno == EWOULDBLOCK then None else Some(OSError(errno)));
    }
  }

  /** Reading back the digits of a port gives the port. */
  lemma {:induction false} DecimalRoundTrip(n: nat)
    ensures DecimalValue(DecimalString(n)) == n
  {
    if n >= 10 {
      var s := DecimalString(n);
      assert s[..|s| - 1] == DecimalString(n / 10);
      DecimalRoundTrip(n / 10);
    }
  }

  /**
   * A datagram of at most 512 bytes made of 0x08 and the UTF-8 encoding of a
   * token is published as ["host:port", token] and acknowledged to its sender.
   */
  lemma TaggedTokenEmits(token: string, from: Address)
    requires 1 + |Encode(token)| <= RECV_SIZE
    ensures Classify(Datagram([NAT_TAG] + Encode(token), from))
         == Emit(Message(Str(COMMAND_ID), [Str(AddressString(from)), Str(token)]), ACK, from)
  {
    var d := [NAT_TAG] + Encode(token);
    assert ReadBytes(d)[1..] == Encode(token);
    DecodeEncode(token);
  }

  /**
   * Whatever is published came from a datagram tagged 0x08 whose next bytes,
   * at most 511 of them, are exactly the UTF-8 encoding of the published
   * token, and the acknowledgement goes back to the datagram's sender.
   */
  lemma EmitComesFromTaggedToken(rx: Received)
    requires Classify(rx).Emit?
    ensures rx.Datagram?
    ensures Classify(rx).reply == ACK && Classify(rx).to == rx.from
    ensures Classify(rx).message.commandId == Str(COMMAND_ID)
    ensures |Classify(rx).message.arguments| == 2
    ensures Classify(rx).message.arguments[0] == Str(AddressString(rx.from))
    ensures Classify(rx).message.arguments[1].Str?
    ensures var token := Classify(rx).message.arguments[1].s;
            |Encode(token)| < RECV_SIZE && |Encode(token)| < |rx.datagram| &&
            rx.datagram[0] == NAT_TAG && rx.datagram[1..1 + |Encode(token)|] == Encode(token)
  {
    var data := ReadBytes(rx.datagram);
    EncodeDecode(data[1..]);
  }
}
