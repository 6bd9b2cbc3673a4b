/** Exactly when a receiver keeps its output in order, and how it fails otherwise. */
module Misstep {
  import opened Packets
  import opened Settings
  import opened ReceiverModel
  import opened ReceiverFacts
  import opened Safety
  import opened System

  /** The receiver after a list of datagrams. */
  function ReceiveAll(c: Config, r: Receiver, ps: seq<Packet>): Receiver
    requires forall p :: p in ps ==> IsRequest(p.kind)
    decreases |ps|
  {
    if |ps| == 0 then r else ReceiveAll(c, Receive(c, r, ps[0]).receiver, ps[1..])
  }

  predicate FreeOfMissteps(c: Config, r: Receiver, ps: seq<Packet>)
    requires forall p :: p in ps ==> IsRequest(p.kind)
    decreases |ps|
  {
    |ps| == 0 || (!Missteps(r, ps[0]) && FreeOfMissteps(c, Receive(c, r, ps[0]).receiver, ps[1..]))
  }

  ghost predicate FromLog(log: seq<Packet>, ps: seq<Packet>) {
    forall p :: p in ps ==> InLog(log, p) && IsRequest(p.kind)
  }

  ghost predicate InOrder(r: Receiver, log: seq<Packet>) {
    r.first <= |log| && r.out == Payloads(log[..r.first])
  }

  lemma {:induction false} FreeKeepsOrder(c: Config, r: Receiver, ps: seq<Packet>, log: seq<Packet>)
    requires c.Valid() && LogOk(log) && ReceiverOk(c, r, log) && r.first > 0
    requires FromLog(log, ps) && FreeOfMissteps(c, r, ps)
    ensures ReceiverOk(c, ReceiveAll(c, r, ps), log) && InOrder(ReceiveAll(c, r, ps), log)
    decreases |ps|
  {
    if |ps| > 0 {
      ReceiveKeeps(c, r, ps[0], log);
      FreeKeepsOrder(c, Receive(c, r, ps[0]).receiver, ps[1..], log);
    }
  }

  // ---- The failure ----

  /** A connected receiver that writes log[..k] again behind what it has written before. */
  ghost predicate Rewriting(c: Config, r: Receiver, k: nat, written: nat, out: Bytes, log: seq<Packet>) {
    && !r.done && r.state != Idle
    && r.first == k <= written <= |log|
    && r.second == k + c.recvWindow
    && r.out == out + Payloads(log[..k])
    && (forall n :: n in r.buffer ==> n > written)
  }

  lemma RewriteOne(c: Config, r: Receiver, k: nat, written: nat, out: Bytes, log: seq<Packet>)
    requires c.Valid() && LogOk(log) && k < written < |log|
    requires Rewriting(c, r, k, written, out, log)
    ensures !Missteps(r, log[k])
    ensures Rewriting(c, Receive(c, r, log[k]).receiver, k + 1, written, out, log)
  {
    var p := log[k];
    TakesFront(c, r, p);
    assert log[..k + 1] == log[..k] + [log[k]];
    PayloadsSnoc(log[..k], log[k]);
    JoinAssociates(out, Payloads(log[..k]), p.payload);
  }

  lemma TakesFront(c: Config, r: Receiver, p: Packet)
    requires c.Valid() && !r.done && r.state != Idle && r.first == p.number && r.second == r.first + c.recvWindow
    requires (forall n :: n in r.buffer ==> n > r.first + 1) && IsRequest(p.kind) && p.kind != DisconnReq
    ensures var r' := Receive(c, r, p).receiver;
      && r' == r.(state := r'.state, first := r.first + 1, second := r.second + 1,
                  out := r.out + p.payload, buffer := r'.buffer)
      && r'.state != Idle && r'.buffer.Keys == r.buffer.Keys
  {
    var r2 := Buffer(Transition(c, r, p), p);
    assert r2.first == p.number && r2.buffer.Keys == r.buffer.Keys + {p.number} && r2.buffer[p.number] == p;
    FrontAlone(r2);
  }

  /** With a gap behind the front, the slide loop writes one packet. */
  lemma FrontAlone(r: Receiver)
    requires r.first in r.buffer && r.first + 1 !in r.buffer && forall n :: n in r.buffer ==> r.first <= n
    ensures Slide(r) == WriteFront(r)
  {
    assert FrontIsNext(r);
    assert !FrontIsNext(WriteFront(r));
  }

  lemma {:induction false} RewriteRest(c: Config, r: Receiver, k: nat, written: nat, out: Bytes, log: seq<Packet>)
    requires c.Valid() && LogOk(log) && k <= written < |log|
    requires Rewriting(c, r, k, written, out, log)
    ensures FromLog(log, log[k..written])
    ensures FreeOfMissteps(c, r, log[k..written])
    ensures Rewriting(c, ReceiveAll(c, r, log[k..written]), written, written, out, log)
    decreases written - k
  {
    if k < written {
      RewriteOne(c, r, k, written, out, log);
      assert log[k..written][1..] == log[k + 1..written];
      assert log[k..written][0] == log[k];
      RewriteRest(c, Receive(c, r, log[k]).receiver, k + 1, written, out, log);
    }
  }

  /** After a misstep a late ConnReq starts the window again. */
  lemma MisstepThenConnect(c: Config, r: Receiver, p: Packet, log: seq<Packet>)
    requires c.Valid() && LogOk(log) && ReceiverOk(c, r, log) && InLog(log, p)
    requires Missteps(r, p) && r.first >= 2
    ensures var r1 := Receive(c, r, p).receiver;
      && !Missteps(r1, log[0])
      && Rewriting(c, Receive(c, r1, log[0]).receiver, 1, r.first, r.out, log)
  {
    var r1 := Buffer(Transition(c, r, p), p);
    assert r1.first !in r1.buffer && Slide(r1) == r1;
    var q := log[0];
    var r2 := Buffer(Transition(c, r1, q), q);
    assert q.number == 0 && 0 !in r1.buffer;
    assert FrontIsNext(r2);
    var r3 := WriteFront(r2);
    assert r3.first == 1 && r3.first !in r3.buffer && Slide(r3) == r3;
    FirstPayload(log);
  }

  /** The receiver writes everything twice when, after a misstep, the packets it already took arrive
      once more. Every one of the datagrams is a packet that the sender numbered. */
  lemma MisstepDuplicatesOutput(c: Config, r: Receiver, p: Packet, log: seq<Packet>)
    requires c.Valid() && LogOk(log) && ReceiverOk(c, r, log) && InLog(log, p)
    requires Missteps(r, p) && r.first >= 2
    ensures FromLog(log, log[..r.first])
    ensures var r1 := Receive(c, r, p).receiver;
      && FreeOfMissteps(c, r1, log[..r.first])
      && ReceiveAll(c, r1, log[..r.first]).first == r.first
      && ReceiveAll(c, r1, log[..r.first]).out == r.out + r.out
  {
    var r1 := Receive(c, r, p).receiver;
    MisstepThenConnect(c, r, p, log);
    assert log[..r.first][1..] == log[1..r.first];
    assert log[..r.first][0] == log[0];
    RewriteRest(c, Receive(c, r1, log[0]).receiver, 1, r.first, r.out, log);
  }

  // ---- A receiver that has written no byte ----

  /** What stays true after a misstep as long as no byte has been written: the output is in order, and only an
      idle receiver without output can still go back to number 0. */
  ghost predicate Orderly(r: Receiver, log: seq<Packet>) {
    && InOrder(r, log)
    && (!r.done ==> Matches(r, log))
    && (!r.done && r.state == Idle ==> r.out == [] && forall n :: n in r.buffer ==> r.first < n)
  }

  lemma OrderlyStep(c: Config, r: Receiver, p: Packet, log: seq<Packet>)
    requires LogOk(log) && |log| > 3 && Orderly(r, log)
    requires InLog(log, p) && IsRequest(p.kind) && !Missteps(r, p)
    ensures Orderly(Receive(c, r, p).receiver, log)
  {
    if !r.done && r.state == Idle {
      OrderlyWhileIdle(c, r, p, log);
    } else if !r.done && !IsOld(r, p) && !IsBeyond(r, p) {
      OrderlyWhileActive(c, r, p, log);
    }
  }

  /** A receiver that is not idle becomes so only by a DisconnReq in order, and then it is done. */
  lemma OrderlyWhileActive(c: Config, r: Receiver, p: Packet, log: seq<Packet>)
    requires LogOk(log) && |log| > 3 && Matches(r, log) && !r.done && r.state != Idle
    requires InLog(log, p) && IsRequest(p.kind) && !Missteps(r, p) && !IsOld(r, p) && !IsBeyond(r, p)
    ensures Orderly(Accept(c, r, p).receiver, log)
  {
    assert p.kind == DisconnReq ==> log[p.number].kind == DisconnReq && p.number == |log| - 1;
    var r1 := Transition(c, r, p);
    assert r1 == r.(state := r1.state);
    assert r1.state == Idle ==> p.number == r.first;
    SlideDelivers(Buffer(r1, p), log);
  }

  lemma OrderlyWhileIdle(c: Config, r: Receiver, p: Packet, log: seq<Packet>)
    requires LogOk(log) && Orderly(r, log) && !r.done && r.state == Idle
    requires InLog(log, p) && IsRequest(p.kind)
    ensures Orderly(Receive(c, r, p).receiver, log)
  {
    if p.kind == ConnReq {
      OrderlyRestart(c, r, p, log);
    } else {
      assert Transition(c, r, p) == r;
      OrderlyIdle(c, r, p, log);
    }
  }

  lemma OrderlyIdle(c: Config, r: Receiver, p: Packet, log: seq<Packet>)
    requires LogOk(log) && Orderly(r, log) && !r.done && r.state == Idle && Transition(c, r, p) == r
    requires InLog(log, p) && IsRequest(p.kind)
    ensures Orderly(Accept(c, r, p).receiver, log)
  {
    if p.number < r.first {
      assert Slide(Buffer(r, p)) == Buffer(r, p);
    } else {
      OrderlyAhead(r, p, log);
    }
  }

  /** An idle receiver that is not behind buffers a packet, or writes it and is done. */
  lemma OrderlyAhead(r: Receiver, p: Packet, log: seq<Packet>)
    requires Orderly(r, log) && !r.done && r.state == Idle && InLog(log, p) && r.first <= p.number
    ensures var r' := Slide(Buffer(r, p));
      && InOrder(r', log) && Matches(r', log) && r'.state == Idle && !r'.done
      && (p.number < r'.first || (r'.out == [] && forall n :: n in r'.buffer ==> r'.first < n))
  {
    var r2 := Buffer(r, p);
    assert Matches(r2, log);
    SlideDelivers(r2, log);
    assert p.number > r.first ==> r.first !in r2.buffer;
  }

  /** A ConnReq sets an idle receiver back to number 0, which is in order as long as nothing is written. */
  lemma OrderlyRestart(c: Config, r: Receiver, p: Packet, log: seq<Packet>)
    requires LogOk(log) && Orderly(r, log) && !r.done && r.state == Idle
    requires InLog(log, p) && p.kind == ConnReq
    ensures Orderly(Accept(c, r, p).receiver, log)
  {
    var r2 := Buffer(Transition(c, r, p), p);
    assert Payloads(log[..0]) == [];
    assert Matches(r2, log);
    SlideDelivers(r2, log);
  }

  lemma {:induction false} OrderlyRun(c: Config, r: Receiver, ps: seq<Packet>, log: seq<Packet>)
    requires LogOk(log) && |log| > 3 && Orderly(r, log)
    requires FromLog(log, ps) && FreeOfMissteps(c, r, ps)
    ensures InOrder(ReceiveAll(c, r, ps), log)
    decreases |ps|
  {
    if |ps| > 0 {
      OrderlyStep(c, r, ps[0], log);
      OrderlyRun(c, Receive(c, r, ps[0]).receiver, ps[1..], log);
    }
  }

  lemma MisstepWithoutOutput(c: Config, r: Receiver, p: Packet, log: seq<Packet>)
    requires c.Valid() && LogOk(log) && ReceiverOk(c, r, log) && InLog(log, p)
    requires Missteps(r, p) && r.out == []
    ensures |log| > 3 && Orderly(Receive(c, r, p).receiver, log)
  {
    var r1 := Buffer(Transition(c, r, p), p);
    assert r1.first !in r1.buffer && Slide(r1) == r1;
  }

  // ---- The exact condition ----

  /** Exactly when a datagram is safe to take: every later delivery of the sender's packets, as long as it
      makes no misstep of its own, keeps the output in order, if and only if this one is no misstep or no byte
      has been written yet. */
  lemma OrderKeptExactly(c: Config, r: Receiver, p: Packet, log: seq<Packet>)
    requires c.Valid() && LogOk(log) && ReceiverOk(c, r, log) && InLog(log, p)
    requires r.first == 0 ==> |log| <= 1
    ensures !Missteps(r, p) || r.out == [] <==>
      forall ps :: FromLog(log, ps) && FreeOfMissteps(c, Receive(c, r, p).receiver, ps) ==>
        InOrder(ReceiveAll(c, Receive(c, r, p).receiver, ps), log)
  {
    var r1 := Receive(c, r, p).receiver;
    if !Missteps(r, p) {
      ReceiveKeeps(c, r, p, log);
      forall ps | FromLog(log, ps) && FreeOfMissteps(c, r1, ps)
        ensures InOrder(ReceiveAll(c, r1, ps), log)
      {
        FreeKeepsOrder(c, r1, ps, log);
      }
    } else if r.out == [] {
      MisstepWithoutOutput(c, r, p, log);
      forall ps | FromLog(log, ps) && FreeOfMissteps(c, r1, ps)
        ensures InOrder(ReceiveAll(c, r1, ps), log)
      {
        OrderlyRun(c, r1, ps, log);
      }
    } else {
      WrittenNeedsData(c, r, log);
      MisstepDuplicatesOutput(c, r, p, log);
      var ps := log[..r.first];
      assert !InOrder(ReceiveAll(c, r1, ps), log);
    }
  }

  lemma FirstPayload(log: seq<Packet>)
    requires |log| >= 1
    ensures Payloads(log[..0]) == [] && Payloads(log[..1]) == log[0].payload
  {
    assert log[..1] == log[..0] + [log[0]];
    PayloadsSnoc(log[..0], log[0]);
  }

  /** Output means that the window is past the two control packets. */
  lemma WrittenNeedsData(c: Config, r: Receiver, log: seq<Packet>)
    requires LogOk(log) && ReceiverOk(c, r, log) && r.out != []
    ensures r.first >= 2
  {
    if |log| >= 1 {
      FirstPayload(log);
    }
  }
}
