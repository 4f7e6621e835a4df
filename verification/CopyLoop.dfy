/**
 The copy loop (audio/stream.go) over a reader and a writer known by what their calls
 return. A reader returns no bytes together with an error, and never more than the
 buffer holds.
 */
module CopyLoop {
  import opened Frames

  /** io.EOF is one error value; other errors are told apart by their text. */
  datatype ReadEvent = Chunk(data: Bytes) | Eof | ReadError(text: string)

  datatype WriteEvent = WriteOk | WriteError(n: nat, text: string)

  const RESET := "reset called"

  /** How the loop stands: returned nil, returned an error, or waiting in Read. */
  datatype Exit = Finished | Failed(text: string) | InRead

  datatype Outcome = Outcome(exit: Exit, delivered: Bytes, readsLeft: seq<ReadEvent>, writesLeft: seq<WriteEvent>)

  class Reader {
    var events: seq<ReadEvent>

    constructor (events: seq<ReadEvent>)
      ensures this.events == events
    {
      this.events := events;
    }

    /** Fills the front of buf. */
    method Read(buf: array<Byte>) returns (n: nat, e: ReadEvent)
      requires events != []
      requires events[0].Chunk? ==> |events[0].data| <= buf.Length
      modifies this, buf
      ensures e == old(events)[0] && events == old(events)[1..]
      ensures e.Chunk? ==> n == |e.data| <= buf.Length && buf[..n] == e.data
    {
      e := events[0];
      events := events[1..];
      n := 0;
      if e.Chunk? {
        forall i | 0 <= i < |e.data| {
          buf[i] := e.data[i];
        }
        n := |e.data|;
      }
    }
  }

  class Writer {
    var written: Bytes
    var events: seq<WriteEvent>

    constructor (events: seq<WriteEvent>)
      ensures this.events == events && written == []
    {
      this.events := events;
      written := [];
    }

    /** A failing write may take a part; once its script is over a writer succeeds. */
    method Write(p: Bytes) returns (e: WriteEvent)
      modifies this
      ensures e == NextWrite(old(events)) && events == LaterWrites(old(events))
      ensures written == old(written) + Taken(p, e)
    {
      e := WriteOk;
      if events != [] {
        e := events[0];
        events := events[1..];
      }
      written := written + Taken(p, e);
    }
  }

  function Taken(p: Bytes, e: WriteEvent): Bytes {
    match e
    case WriteOk => p
    case WriteError(n, _) => if n <= |p| then p[..n] else p
  }

  /** What the loop does, by the results of its reads. */
  function Copied(rs: seq<ReadEvent>, ws: seq<WriteEvent>): Outcome {
    if rs == [] then Outcome(InRead, [], [], ws)
    else
      match rs[0]
      case Eof => Outcome(Finished, [], rs[1..], ws)
      case ReadError(text) =>
        if text == RESET then Copied(rs[1..], ws) else Outcome(Failed(text), [], rs[1..], ws)
      case Chunk(data) =>
        var e := if ws == [] then WriteOk else ws[0];
        var ws' := if ws == [] then [] else ws[1..];
        if e.WriteError? then Outcome(Failed(e.text), Taken(data, e), rs[1..], ws')
        else
          var rest := Copied(rs[1..], ws');
          rest.(delivered := data + rest.delivered)
  }

  /** What the whole loop comes to when it has delivered `done` and `o` is still to come. */
  function Onward(done: Bytes, o: Outcome): Outcome {
    o.(delivered := done + o.delivered)
  }

  /** A round that reads no chunk: the loop goes on behind a reset, and else ends. */
  lemma ErrorRound(rs: seq<ReadEvent>, ws: seq<WriteEvent>, done: Bytes)
    requires rs != [] && !rs[0].Chunk?
    ensures Onward(done, Copied(rs, ws)) ==
            if IsReset(rs[0]) then Onward(done, Copied(rs[1..], ws))
            else Outcome(if rs[0].Eof? then Finished else Failed(rs[0].text), done, rs[1..], ws)
  {
    assert done + [] == done;
  }

  /** No reads are left. */
  lemma LastRound(ws: seq<WriteEvent>, done: Bytes)
    ensures Onward(done, Copied([], ws)) == Outcome(InRead, done, [], ws)
  {
    assert done + [] == done;
  }

  /** The result of the next write, and those after it. */
  function NextWrite(ws: seq<WriteEvent>): WriteEvent {
    if ws == [] then WriteOk else ws[0]
  }

  function LaterWrites(ws: seq<WriteEvent>): seq<WriteEvent> {
    if ws == [] then [] else ws[1..]
  }

  /** A round that reads a chunk: the loop goes on behind it, or ends with its write. */
  lemma ChunkRound(rs: seq<ReadEvent>, ws: seq<WriteEvent>, done: Bytes)
    requires rs != [] && rs[0].Chunk?
    ensures var e := NextWrite(ws);
            var done' := done + Taken(rs[0].data, e);
            Onward(done, Copied(rs, ws)) ==
            if e.WriteError? then Outcome(Failed(e.text), done', rs[1..], LaterWrites(ws))
            else Onward(done', Copied(rs[1..], LaterWrites(ws)))
  {
    if NextWrite(ws).WriteOk? {
      var rest := Copied(rs[1..], LaterWrites(ws)).delivered;
      assert done + (rs[0].data + rest) == done + rs[0].data + rest;
    }
  }

  predicate FitsIn(rs: seq<ReadEvent>, n: nat) {
    forall i | 0 <= i < |rs| && rs[i].Chunk? :: |rs[i].data| <= n
  }

  /** CopyWithBuf: ends as soon as its reader has no reads left, if not before. */
  method CopyWithBuf(a: Reader, b: Writer, buf: array<Byte>) returns (exit: Exit)
    requires FitsIn(a.events, buf.Length)
    modifies a, b, buf
    ensures var o := Copied(old(a.events), old(b.events));
            && exit == o.exit
            && b.written == old(b.written) + o.delivered
            && a.events == o.readsLeft
            && b.events == o.writesLeft
  {
    ghost var all := Copied(a.events, b.events);
    ghost var done: Bytes := [];
    ghost var rs, ws := a.events, b.events;
    assert Onward(done, all) == all;
    while a.events != []
      invariant rs == a.events && ws == b.events && FitsIn(rs, buf.Length)
      invariant b.written == old(b.written) + done
      invariant Onward(done, Copied(rs, ws)) == all
      decreases |a.events|
    {
      var n, e := a.Read(buf);
      if !e.Chunk? {
        ErrorRound(rs, ws, done);
        rs := rs[1..];
        if e.Eof? {
          return Finished;
        }
        if e.text == RESET {
          continue;
        }
        return Failed(e.text);
      }
      var w := b.Write(buf[..n]);
      ChunkRound(rs, ws, done);
      rs, ws, done := rs[1..], LaterWrites(ws), done + Taken(e.data, w);
      if w.WriteError? {
        return Failed(w.text);
      }
    }
    LastRound(ws, done);
    return InRead;
  }

  /** Copy: the loop with a buffer of its own. */
  method Copy(a: Reader, b: Writer, size: nat) returns (exit: Exit)
    requires FitsIn(a.events, size)
    modifies a, b
    ensures var o := Copied(old(a.events), old(b.events));
            exit == o.exit && b.written == old(b.written) + o.delivered && a.events == o.readsLeft
  {
    var buf := new Byte[size];
    exit := CopyWithBuf(a, b, buf);
  }

  // ------------------------------------------------------------- the main results

  predicate IsReset(e: ReadEvent) {
    e.ReadError? && e.text == RESET
  }

  function WithoutResets(rs: seq<ReadEvent>): seq<ReadEvent> {
    if rs == [] then []
    else (if IsReset(rs[0]) then [] else [rs[0]]) + WithoutResets(rs[1..])
  }

  /** The chunks up to the first event that ends the loop. */
  function Chunks(rs: seq<ReadEvent>): seq<Bytes> {
    if rs == [] then []
    else if rs[0].Chunk? then [rs[0].data] + Chunks(rs[1..])
    else if IsReset(rs[0]) then Chunks(rs[1..])
    else []
  }

  /** Resets on read are invisible. */
  lemma {:induction false} ResetsAreIgnored(rs: seq<ReadEvent>, ws: seq<WriteEvent>)
    ensures Copied(rs, ws).exit == Copied(WithoutResets(rs), ws).exit
    ensures Copied(rs, ws).delivered == Copied(WithoutResets(rs), ws).delivered
    ensures Copied(rs, ws).writesLeft == Copied(WithoutResets(rs), ws).writesLeft
    decreases rs
  {
    if rs != [] {
      var rest := WithoutResets(rs[1..]);
      if IsReset(rs[0]) {
        assert WithoutResets(rs) == rest;
        ResetsAreIgnored(rs[1..], ws);
      } else {
        assert WithoutResets(rs)[0] == rs[0] && WithoutResets(rs)[1..] == rest;
        ResetsAreIgnored(rs[1..], if ws == [] then [] else ws[1..]);
      }
    }
  }

  /** What arrives is always a prefix of the chunks read, joined; all of them unless a
      write fails, and then the loop ends there. */
  lemma {:induction false} DeliversChunksInOrder(rs: seq<ReadEvent>, ws: seq<WriteEvent>)
    ensures Copied(rs, ws).delivered <= Flatten(Chunks(rs))
    ensures (forall i | 0 <= i < |ws| :: ws[i].WriteOk?) ==>
              Copied(rs, ws).delivered == Flatten(Chunks(rs))
    decreases rs
  {
    if rs != [] && rs[0].Chunk? {
      var ws' := if ws == [] then [] else ws[1..];
      DeliversChunksInOrder(rs[1..], ws');
      assert Chunks(rs)[0] == rs[0].data && Chunks(rs)[1..] == Chunks(rs[1..]);
    } else if rs != [] && IsReset(rs[0]) {
      DeliversChunksInOrder(rs[1..], ws);
    }
  }

  /** The loop returns nil exactly at an end of file it reaches, and waits only when every
      read it was given was a chunk or a reset. */
  lemma {:induction false} HowTheLoopEnds(rs: seq<ReadEvent>, ws: seq<WriteEvent>)
    requires forall i | 0 <= i < |ws| :: ws[i].WriteOk?
    ensures Copied(rs, ws).exit == InRead <==>
              forall i | 0 <= i < |rs| :: rs[i].Chunk? || IsReset(rs[i])
    ensures Copied(rs, ws).exit == Finished <==>
              exists i :: 0 <= i < |rs| && rs[i].Eof? &&
                forall j | 0 <= j < i :: rs[j].Chunk? || IsReset(rs[j])
    decreases rs
  {
    if rs != [] {
      var ws' := if ws == [] || IsReset(rs[0]) then ws else ws[1..];
      HowTheLoopEnds(rs[1..], ws');
      if rs[0].Chunk? || IsReset(rs[0]) {
        forall i | 0 <= i < |rs| && rs[i].Eof? && (forall j | 0 <= j < i :: rs[j].Chunk? || IsReset(rs[j]))
          ensures Copied(rs, ws).exit == Finished
        {
          assert rs[1..][i - 1].Eof?;
          assert forall j | 0 <= j < i - 1 :: rs[1..][j] == rs[j + 1];
        }
        if Copied(rs, ws).exit == Finished {
          var i :| 0 <= i < |rs[1..]| && rs[1..][i].Eof? &&
            forall j | 0 <= j < i :: rs[1..][j].Chunk? || IsReset(rs[1..][j]);
          assert rs[i + 1].Eof?;
          assert forall j | 1 <= j < i + 1 :: rs[j] == rs[1..][j - 1];
        }
        assert forall i | 1 <= i < |rs| :: rs[i] == rs[1..][i - 1];
      }
    }
  }

  /** The data of all chunks among some reads. */
  function Datas(rs: seq<ReadEvent>): seq<Bytes> {
    if rs == [] then [] else (if rs[0].Chunk? then [rs[0].data] else []) + Datas(rs[1..])
  }

  /** Reads after which the loop goes on if their writes succeed. */
  predicate Passes(rs: seq<ReadEvent>) {
    forall i | 0 <= i < |rs| :: rs[i].Chunk? || IsReset(rs[i])
  }

  predicate FirstOk(ws: seq<WriteEvent>, k: nat) {
    k == 0 || (NextWrite(ws).WriteOk? && FirstOk(LaterWrites(ws), k - 1))
  }

  function After(ws: seq<WriteEvent>, k: nat): seq<WriteEvent> {
    if k == 0 then ws else After(LaterWrites(ws), k - 1)
  }

  /** With `done` delivered, the loop ends at the head of these reads: none is left, or it is an
      end of file, an error but no reset, or a chunk whose write fails. */
  predicate EndsHere(rest: seq<ReadEvent>, ws: seq<WriteEvent>, done: Bytes, o: Outcome) {
    if rest == [] then o == Outcome(InRead, done, [], ws)
    else
      match rest[0]
      case Eof => o == Outcome(Finished, done, rest[1..], ws)
      case ReadError(text) => text != RESET && o == Outcome(Failed(text), done, rest[1..], ws)
      case Chunk(data) =>
        var w := NextWrite(ws);
        w.WriteError? && o == Outcome(Failed(w.text), done + Taken(data, w), rest[1..], LaterWrites(ws))
  }

  /** Whatever the reads and the writes return: the loop ends at the first end of file, the first
      read error that is no reset, or the first failed write, with that error; every chunk before
      was written in full, one write for each. */
  lemma {:induction false} LoopAccounts(rs: seq<ReadEvent>, ws: seq<WriteEvent>)
    returns (front: seq<ReadEvent>, rest: seq<ReadEvent>)
    ensures rs == front + rest && Passes(front) && FirstOk(ws, |Datas(front)|)
    ensures EndsHere(rest, After(ws, |Datas(front)|), Flatten(Datas(front)), Copied(rs, ws))
    decreases rs
  {
    if rs != [] && rs[0].Chunk? && NextWrite(ws).WriteOk? {
      front, rest := LoopAccounts(rs[1..], LaterWrites(ws));
      OnePassed(rs[0], front);
      DeliversBefore(rs[0].data, rest, After(LaterWrites(ws), |Datas(front)|), Flatten(Datas(front)),
                     Copied(rs[1..], LaterWrites(ws)));
      front := [rs[0]] + front;
    } else if rs != [] && IsReset(rs[0]) {
      front, rest := LoopAccounts(rs[1..], ws);
      OnePassed(rs[0], front);
      front := [rs[0]] + front;
    } else {
      front, rest := [], rs;
      assert front + rest == rs && Datas(front) == [] && Flatten(Datas(front)) == [];
      if rs != [] && rs[0].Chunk? {
        assert [] + Taken(rs[0].data, NextWrite(ws)) == Taken(rs[0].data, NextWrite(ws));
      }
    }
  }

  lemma OnePassed(e: ReadEvent, front: seq<ReadEvent>)
    requires (e.Chunk? || IsReset(e)) && Passes(front)
    ensures Passes([e] + front)
    ensures Datas([e] + front) == (if e.Chunk? then [e.data] else []) + Datas(front)
    ensures Flatten(Datas([e] + front)) == (if e.Chunk? then e.data else []) + Flatten(Datas(front))
  {
    var longer := [e] + front;
    assert longer[0] == e && longer[1..] == front;
    assert forall i | 1 <= i < |longer| :: longer[i] == front[i - 1];
    if e.Chunk? {
      assert ([e.data] + Datas(front))[1..] == Datas(front);
    } else {
      assert Datas(longer) == [] + Datas(front) == Datas(front);
      assert [] + Flatten(Datas(front)) == Flatten(Datas(front));
    }
  }

  lemma DeliversBefore(data: Bytes, rest: seq<ReadEvent>, ws: seq<WriteEvent>, done: Bytes, o: Outcome)
    requires EndsHere(rest, ws, done, o)
    ensures EndsHere(rest, ws, data + done, o.(delivered := data + o.delivered))
  {
    if rest != [] && rest[0].Chunk? {
      assert data + (done + Taken(rest[0].data, NextWrite(ws))) == data + done + Taken(rest[0].data, NextWrite(ws));
    }
  }
}
