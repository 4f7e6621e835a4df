/** The frames a WebSocket transport moves (transport/ws/msg.go). */
module Frames {
  newtype Byte = x: int | 0 <= x < 256

  type Bytes = seq<Byte>

  datatype Kind = Text | Binary | Ping | Pong | CloseFrame

  datatype Frame = Frame(kind: Kind, data: Bytes)

  /** The capacity of every queue of the transport. */
  const CAPACITY := 16

  /** The frames of one kind, in order. */
  function Select(fs: seq<Frame>, kind: Kind): seq<Bytes> {
    if fs == [] then []
    else (if fs[0].kind == kind then [fs[0].data] else []) + Select(fs[1..], kind)
  }

  function Flatten(ds: seq<Bytes>): Bytes {
    if ds == [] then [] else ds[0] + Flatten(ds[1..])
  }

  lemma {:induction false} SelectSplits(fs: seq<Frame>, gs: seq<Frame>, kind: Kind)
    ensures Select(fs + gs, kind) == Select(fs, kind) + Select(gs, kind)
  {
    if fs == [] {
      assert fs + gs == gs;
    } else {
      var first, rest := if fs[0].kind == kind then [fs[0].data] else [], Select(fs[1..], kind);
      assert (fs + gs)[0] == fs[0] && (fs + gs)[1..] == fs[1..] + gs;
      SelectSplits(fs[1..], gs, kind);
      assert first + (rest + Select(gs, kind)) == first + rest + Select(gs, kind);
    }
  }

  lemma {:induction false} FlattenSplits(ds: seq<Bytes>, es: seq<Bytes>)
    ensures Flatten(ds + es) == Flatten(ds) + Flatten(es)
  {
    if ds == [] {
      assert ds + es == es;
    } else {
      assert (ds + es)[0] == ds[0] && (ds + es)[1..] == ds[1..] + es;
      FlattenSplits(ds[1..], es);
      assert ds[0] + (Flatten(ds[1..]) + Flatten(es)) == ds[0] + Flatten(ds[1..]) + Flatten(es);
    }
  }
}
