/**
 Session messages as the text frames of a transport: what a session hands to Write is the
 JSON text of a message, and what it takes from ReadChan it parses again. A link of frames
 that meets the transport contract is, seen through its messages, a link of packets as
 module Correlation uses it.
 */
module Cargo {
  import opened Wrappers
  import opened Proto
  import opened Frames
  import opened Transport
  import opened Correlation

  /** encoding/json down to bytes. */
  datatype Codec = Codec(encode: Json -> Bytes, decode: Bytes -> Option<Json>)

  ghost predicate Faithful(codec: Codec) {
    forall j: Json :: codec.decode(codec.encode(j)) == Some(j)
  }

  function TextFrame(codec: Codec, m: Message): Frame {
    Frame(Kind.Text, codec.encode(Marshal(m)))
  }

  /** ParseValidMessage on the bytes of a data package. */
  function ParseBytes(codec: Codec, data: Bytes): Result<Message, ParseFailure> {
    match codec.decode(data)
    case None => Err(BadJson)
    case Some(j) => ParseValid(j)
  }

  /** The messages among the frames one side got accepted, and at which positions. */
  datatype Load = Load(packets: seq<Packet>, at: seq<nat>)

  predicate Loaded(codec: Codec, load: Load, l: Link<Frame>) {
    && |load.packets| == |load.at| && Increasing(load.at)
    && (forall j | 0 <= j < |load.at| ::
         load.at[j] < |l.sent| && l.sent[load.at[j]] == TextFrame(codec, load.packets[j].msg))
    && (forall i | 0 <= i < |l.sent| && l.sent[i].kind == Kind.Text :: i in load.at)
    && (forall i | i in l.delivered :: i < |l.sent|)
  }

  /** The link seen through its messages. */
  function Packets(load: Load, l: Link<Frame>): Link<Packet> {
    Link(load.packets, set j | 0 <= j < |load.at| && load.at[j] in l.delivered)
  }

  function Place(at: seq<nat>, i: nat): (j: nat)
    ensures i in at ==> j < |at| && at[j] == i
  {
    if at == [] then 0 else if at[0] == i then 0 else 1 + Place(at[1..], i)
  }

  function AddMessage(load: Load, n: nat, p: Packet): Load {
    Load(load.packets + [p], load.at + [n])
  }

  lemma MessageAccepted(codec: Codec, load: Load, l: Link<Frame>, p: Packet)
    requires Loaded(codec, load, l)
    ensures var l', load' := Move(l, Accept(TextFrame(codec, p.msg))), AddMessage(load, |l.sent|, p);
            Loaded(codec, load', l') && Packets(load', l') == Move(Packets(load, l), Accept(p))
  {
    var l', load' := Move(l, Accept(TextFrame(codec, p.msg))), AddMessage(load, |l.sent|, p);
    forall i | 0 <= i < |l'.sent| && l'.sent[i].kind == Kind.Text ensures i in load'.at {
      if i < |l.sent| {
        assert i in load.at;
      } else {
        assert load'.at[|load.at|] == i;
      }
    }
  }

  lemma OtherAccepted(codec: Codec, load: Load, l: Link<Frame>, f: Frame)
    requires Loaded(codec, load, l) && f.kind != Kind.Text
    ensures var l' := Move(l, Accept(f)); Loaded(codec, load, l') && Packets(load, l') == Packets(load, l)
  {
  }

  /** Delivering a text frame delivers its message, and the session parses that message. */
  lemma MessageDelivered(codec: Codec, load: Load, l: Link<Frame>, i: nat)
    requires Faithful(codec) && Loaded(codec, load, l) && CanMove(l, Deliver(i)) && l.sent[i].kind == Kind.Text
    ensures var l', j := Move(l, Deliver(i)), Place(load.at, i);
            && Loaded(codec, load, l')
            && CanMove(Packets(load, l), Deliver(j))
            && Packets(load, l') == Move(Packets(load, l), Deliver(j))
            && ParseBytes(codec, l.sent[i].data) == Received(load.packets[j].msg)
  {
    assert i in load.at && load.at[Place(load.at, i)] == i;
    ParsesBack(codec, load.packets[Place(load.at, i)].msg);
    DeliveredSet(load.at, l.delivered, Place(load.at, i));
  }

  lemma ParsesBack(codec: Codec, m: Message)
    requires Faithful(codec)
    ensures ParseBytes(codec, TextFrame(codec, m).data) == Received(m)
  {
    assert codec.decode(codec.encode(Marshal(m))) == Some(Marshal(m));
  }

  lemma DeliveredSet(at: seq<nat>, delivered: set<nat>, j: nat)
    requires Increasing(at) && j < |at| && at[j] !in delivered
    ensures (set k | 0 <= k < |at| && at[k] in delivered + {at[j]}) ==
            (set k | 0 <= k < |at| && at[k] in delivered) + {j}
  {
    assert forall k | 0 <= k < |at| && k != j :: at[k] != at[j];
  }

  // ------------------------------------------------------------ one session

  /** The write a session step hands to its transport, if it is one the transport takes. */
  function Written(v: View, st: Step): Option<Packet>
    requires Enabled(v, st)
  {
    var sent := Do(v, st).out.sent;
    if Do(v, st).out == v.out || sent == [] then None else Some(sent[|sent| - 1])
  }

  /** Everything a session does but taking in a data package writes what is Written, and
      nothing else. */
  lemma SessionStep(v: View, st: Step)
    requires !st.Read? && Enabled(v, st)
    ensures Do(v, st).inn == v.inn
    ensures Do(v, st).out == match Written(v, st) case None => v.out case Some(p) => Move(v.out, Accept(p))
  {
    StepsAreLinkMoves(v, st);
  }

  /** Reading message j starts what was parsed and leaves the link as given. */
  predicate ReadsAs(v: View, j: nat, parsed: Result<Message, ParseFailure>, inn: Link<Packet>) {
    Enabled(v, Read(j)) && Do(v, Read(j)) == View(Start(v.me, j, parsed), v.out, inn)
  }

  lemma ReadsReceived(v: View, j: nat)
    requires CanMove(v.inn, Deliver(j))
    ensures ReadsAs(v, j, Received(v.inn.sent[j].msg), Move(v.inn, Deliver(j)))
  {
  }

  /** Taking in a data package. */
  lemma SessionReads(codec: Codec, v: View, load: Load, inn: Link<Frame>, i: nat)
    requires Faithful(codec) && Loaded(codec, load, inn) && v.inn == Packets(load, inn)
    requires CanMove(inn, Deliver(i)) && inn.sent[i].kind == Kind.Text
    ensures Loaded(codec, load, Move(inn, Deliver(i)))
    ensures ReadsAs(v, Place(load.at, i), ParseBytes(codec, inn.sent[i].data), Packets(load, Move(inn, Deliver(i))))
  {
    MessageDelivered(codec, load, inn, i);
    ReadsReceived(v, Place(load.at, i));
  }
}
