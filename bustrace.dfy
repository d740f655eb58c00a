/** What a recorder on the DIT4192 control port sees: chip-select edges and
    full-duplex byte exchanges, in order. A well-formed trace is a run of
    transactions, each one select, some exchanges and one deselect. */
module BusTrace {
  import opened Wrappers
  import opened Shifter

  /** One byte exchange: the byte the AVR sent and the byte it received. */
  datatype Exchange = Exchange(sent: bv8, received: bv8)

  /** SELECT, one exchange, DESELECT. */
  datatype Event = Select | Transfer(x: Exchange) | Deselect

  /** The exchanges of the bytes outs sent back to back from bit time t0:
      exchange i starts at bit time t0 + 8 * i and receives the DI levels of
      its eight bits. */
  function Exchanges(din: Wire, t0: nat, outs: seq<bv8>): (xs: seq<Exchange>)
    ensures |xs| == |outs|
    ensures forall i :: 0 <= i < |outs| ==> xs[i].sent == outs[i]
  {
    seq(|outs|, i requires 0 <= i < |outs| => Exchange(outs[i], Received(din, t0 + 8 * i)))
  }

  /** A trace extended event by event with a select, three back-to-back
      exchanges of outs from bit time t0 and a deselect is the trace followed by
      the transaction of those exchanges. */
  lemma ThreeExchangeTransaction(din: Wire, t0: nat, outs: seq<bv8>, t: seq<Event>)
    requires |outs| == 3
    ensures t + [Select] + [Transfer(Exchange(outs[0], Received(din, t0)))]
              + [Transfer(Exchange(outs[1], Received(din, t0 + 8)))]
              + [Transfer(Exchange(outs[2], Received(din, t0 + 16)))] + [Deselect]
            == t + Transaction(Exchanges(din, t0, outs))
  {
    var xs := Exchanges(din, t0, outs);
    assert xs == [Exchange(outs[0], Received(din, t0)),
                  Exchange(outs[1], Received(din, t0 + 8)),
                  Exchange(outs[2], Received(din, t0 + 16))];
    assert Transaction(xs) == [Select, Transfer(xs[0]), Transfer(xs[1]), Transfer(xs[2]), Deselect];
  }

  /** The bytes sent by a run of exchanges. */
  function Sent(xs: seq<Exchange>): (s: seq<bv8>)
  {
    seq(|xs|, i requires 0 <= i < |xs| => xs[i].sent)
  }

  /** The events recording a run of exchanges. */
  function Transfers(xs: seq<Exchange>): (t: seq<Event>)
    decreases |xs|
    ensures |t| == |xs|
    ensures forall i :: 0 <= i < |xs| ==> t[i] == Transfer(xs[i])
  {
    if xs == [] then [] else [Transfer(xs[0])] + Transfers(xs[1..])
  }

  /** One transaction: select, the exchanges, deselect. */
  function Transaction(xs: seq<Exchange>): seq<Event>
  {
    [Select] + Transfers(xs) + [Deselect]
  }

  /** Transactions one after the other. */
  function Build(fs: seq<seq<Exchange>>): seq<Event>
    decreases |fs|
  {
    if fs == [] then [] else Transaction(fs[0]) + Build(fs[1..])
  }

  /** The rest of a transaction after its select: the exchanges up to the first
      deselect, and the events after that deselect. None if a select comes first
      or the trace ends while selected. */
  function Body(t: seq<Event>): (r: Option<(seq<Exchange>, seq<Event>)>)
    decreases |t|
    ensures r.Some? ==> t == Transfers(r.value.0) + [Deselect] + r.value.1
  {
    if t == [] then None
    else match t[0]
      case Select => None
      case Deselect => Some(([], t[1..]))
      case Transfer(x) =>
        match Body(t[1..])
        case None => None
        case Some(p) =>
          assert Transfers([x] + p.0) == [Transfer(x)] + Transfers(p.0) by {
            assert ([x] + p.0)[1..] == p.0;
          }
          Some(([x] + p.0, p.1))
  }

  /** The transactions of a trace, or None if the trace is not a run of
      transactions. */
  function Frames(t: seq<Event>): Option<seq<seq<Exchange>>>
    decreases |t|
  {
    if t == [] then Some([])
    else if t[0] != Select then None
    else match Body(t[1..])
      case None => None
      case Some(p) =>
        match Frames(p.1)
        case None => None
        case Some(fs) => Some([p.0] + fs)
  }

  lemma {:induction false} BodyOfTransfers(xs: seq<Exchange>, rest: seq<Event>)
    ensures Body(Transfers(xs) + [Deselect] + rest) == Some((xs, rest))
    decreases |xs|
  {
    var t := Transfers(xs) + [Deselect] + rest;
    if xs == [] {
      assert t[1..] == rest;
    } else {
      assert t[0] == Transfer(xs[0]);
      assert t[1..] == Transfers(xs[1..]) + [Deselect] + rest;
      BodyOfTransfers(xs[1..], rest);
      assert [xs[0]] + xs[1..] == xs;
    }
  }

  /** A trace splits into the transactions fs exactly when it is those
      transactions one after the other. */
  lemma {:induction false} FramesIff(t: seq<Event>, fs: seq<seq<Exchange>>)
    ensures Frames(t) == Some(fs) <==> t == Build(fs)
    decreases |t|
  {
    if t == Build(fs) {
      BuildFrames(fs);
    }
    if Frames(t) == Some(fs) {
      FramesBuild(t);
    }
  }

  lemma {:induction false} BuildFrames(fs: seq<seq<Exchange>>)
    ensures Frames(Build(fs)) == Some(fs)
    decreases |fs|
  {
    if fs != [] {
      var t := Build(fs);
      assert t == [Select] + (Transfers(fs[0]) + [Deselect] + Build(fs[1..]));
      assert t[1..] == Transfers(fs[0]) + [Deselect] + Build(fs[1..]);
      BodyOfTransfers(fs[0], Build(fs[1..]));
      BuildFrames(fs[1..]);
      assert [fs[0]] + fs[1..] == fs;
    }
  }

  lemma {:induction false} FramesBuild(t: seq<Event>)
    requires Frames(t).Some?
    ensures Build(Frames(t).value) == t
    decreases |t|
  {
    if t != [] {
      assert t[0] == Select;
      var p := Body(t[1..]).value;
      var rest := Frames(p.1).value;
      var fs := Frames(t).value;
      assert fs == [p.0] + rest;
      assert fs[0] == p.0 && fs[1..] == rest;
      FramesBuild(p.1);
      calc {
        Build(fs);
        Transaction(p.0) + Build(rest);
        [Select] + (Transfers(p.0) + [Deselect] + p.1);
        [Select] + t[1..];
        t;
      }
    }
  }

  /** Replays a trace against the chip-select line: Some(the final level, true
      meaning asserted) if every select finds the chip deselected, every deselect
      finds it selected, and every exchange happens while it is selected; None at
      the first event that breaks this. */
  function Replay(t: seq<Event>, selected: bool): Option<bool>
    decreases |t|
  {
    if t == [] then Some(selected)
    else match t[0]
      case Select => if selected then None else Replay(t[1..], true)
      case Deselect => if selected then Replay(t[1..], false) else None
      case Transfer(_) => if selected then Replay(t[1..], true) else None
  }

  lemma {:induction false} ReplayBody(t: seq<Event>)
    ensures Body(t).Some? ==> Replay(t, true) == Replay(Body(t).value.1, false)
    ensures Body(t).None? ==> Replay(t, true) != Some(false)
    decreases |t|
  {
    if t != [] && t[0].Transfer? {
      ReplayBody(t[1..]);
    }
  }

  /** Select exclusivity: a trace is a run of whole transactions exactly when,
      starting and ending with the chip deselected, no select overlaps another
      transaction, no deselect comes without a select, and no exchange happens
      outside a select. */
  lemma {:induction false} FramesIffBracketed(t: seq<Event>)
    ensures Frames(t).Some? <==> Replay(t, false) == Some(false)
    decreases |t|
  {
    if t != [] && t[0] == Select {
      ReplayBody(t[1..]);
      if Body(t[1..]).Some? {
        FramesIffBracketed(Body(t[1..]).value.1);
      }
    }
  }
}
