/**
 The part of the board the firmware drives: the lwIP raw TCP calls it
 makes and the LED pin it writes. `Board` performs no networking; it keeps
 the ordered log of calls, hands out a fresh pcb on every `tcp_new`, and
 returns whatever outcome of `tcp_connect` the environment supplies.
 */
module Lwip {

  /** A TCP protocol control block, identified by the order of creation. */
  type Pcb = nat

  /** lwIP's `err_t`: `ERR_OK` or one of its negative error codes. */
  datatype Err = ErrOk | ErrCode(code: int)

  /** A received packet buffer: its identity and its `tot_len`. */
  datatype Pbuf = Pbuf(id: nat, totLen: nat)

  datatype Event =
    | LedPut(level: bool)                          // gpio_put(LED_RED_PIN, level)
    | TcpNew(pcb: Pcb)
    | TcpConnect(pcb: Pcb, ip: string, port: nat)  // tcp_connect(pcb, SERVER_IP, SERVER_PORT)
    | TcpWrite(pcb: Pcb, data: string, len: nat)   // tcp_write(pcb, data, len, TCP_WRITE_FLAG_COPY)
    | TcpOutput(pcb: Pcb)
    | TcpRecv(pcb: Pcb)                            // tcp_recv(pcb, tcp_finish)
    | TcpRecved(pcb: Pcb, len: nat)
    | PbufFree(id: nat)
    | TcpClose(pcb: Pcb)

  class Board {
    var log: seq<Event>
    var nextPcb: Pcb

    constructor ()
      ensures log == [] && nextPcb == 0
      ensures Fresh(log, nextPcb)
    {
      log, nextPcb := [], 0;
      FreshAtStart();
    }

    method NewPcb() returns (pcb: Pcb)
      modifies this
      ensures pcb == old(nextPcb) && nextPcb == pcb + 1
      ensures log == old(log) + [TcpNew(pcb)]
    {
      pcb := nextPcb;
      nextPcb := nextPcb + 1;
      log := log + [TcpNew(pcb)];
    }

    /** `tcp_connect`, whose immediate outcome is `outcome`. */
    method Connect(pcb: Pcb, ip: string, port: nat, outcome: Err) returns (e: Err)
      modifies this
      ensures e == outcome && nextPcb == old(nextPcb)
      ensures log == old(log) + [TcpConnect(pcb, ip, port)]
    {
      e := outcome;
      log := log + [TcpConnect(pcb, ip, port)];
    }

    /** Applies one logged call to the board: the log grows by `ev`. */
    method Call(ev: Event)
      requires !ev.TcpNew? && !ev.TcpConnect?
      modifies this
      ensures nextPcb == old(nextPcb)
      ensures log == old(log) + [ev]
    {
      log := log + [ev];
    }
  }

  // ---------------------------------------------------------------------
  // The lifecycle of one connection, read off the log.

  /** How far the firmware's calls have taken a pcb. `Connecting` means that
      `tcp_connect` was called on it, whatever its outcome: after a refused
      connect lwIP leaves the pcb allocated in its own CLOSED state, not in
      SYN_SENT. `Closed` means that `tcp_close` was called on it; whether
      lwIP then released it is not modelled. */
  datatype ConnState = Unallocated | Created | Connecting | RequestSent | Waiting | Closed

  /** The states in which `tcp_finish` is registered on a pcb: after
      `tcp_recv`, and after the `tcp_close` that `tcp_finish` itself makes,
      which does not unregister it. */
  predicate Registered(st: ConnState) {
    st == Waiting || st == Closed
  }

  /** The effect of one call on the state of `pcb`. */
  function Step(st: ConnState, ev: Event, pcb: Pcb): ConnState {
    match ev
    case TcpNew(p) => if p == pcb then Created else st
    case TcpConnect(p, _, _) => if p == pcb then Connecting else st
    case TcpWrite(p, _, _) => if p == pcb then RequestSent else st
    case TcpRecv(p) => if p == pcb then Waiting else st
    case TcpClose(p) => if p == pcb then Closed else st
    case _ => st
  }

  /** The state of `pcb` after the calls `evs`, starting from `st`. */
  function StateAfter(st: ConnState, evs: seq<Event>, pcb: Pcb): ConnState
    decreases evs
  {
    if evs == [] then st else StateAfter(Step(st, evs[0], pcb), evs[1..], pcb)
  }

  /** Reading a log in two parts is reading it whole. */
  lemma {:induction false} StateAfterAppend(st: ConnState, a: seq<Event>, b: seq<Event>, pcb: Pcb)
    ensures StateAfter(st, a + b, pcb) == StateAfter(StateAfter(st, a, pcb), b, pcb)
    decreases a
  {
    if a == [] {
      assert a + b == b;
    } else {
      assert (a + b)[0] == a[0] && (a + b)[1..] == a[1..] + b;
      StateAfterAppend(Step(st, a[0], pcb), a[1..], b, pcb);
    }
  }

  /** The last call on a log decides what it does to the state. */
  lemma LastCallDecides(st: ConnState, evs: seq<Event>, pcb: Pcb)
    requires evs != []
    ensures StateAfter(st, evs, pcb) == Step(StateAfter(st, evs[..|evs| - 1], pcb), evs[|evs| - 1], pcb)
  {
    var last := evs[|evs| - 1];
    assert evs == evs[..|evs| - 1] + [last];
    StateAfterAppend(st, evs[..|evs| - 1], [last], pcb);
    assert [last][1..] == [];
  }

  /** Calls that do not change the state of `pcb`: those on other pcbs,
      those on no pcb, and `tcp_output`/`tcp_recved` on `pcb` itself. */
  predicate Untouched(evs: seq<Event>, pcb: Pcb) {
    forall i :: 0 <= i < |evs| ==> Step(Unallocated, evs[i], pcb) == Unallocated
  }

  /** No call has changed the state of a pcb numbered `next` or above:
      `tcp_new` has handed out only the numbers below `next`. */
  ghost predicate Fresh(log: seq<Event>, next: Pcb) {
    forall q: Pcb :: q >= next ==> StateAfter(Unallocated, log, q) == Unallocated
  }

  /** Before any call, every pcb is fresh. */
  lemma FreshAtStart()
    ensures Fresh([], 0)
  {
  }

  /** Under `Fresh`, every pcb whose state the log has changed lies below `next`. */
  lemma FreshNamedBelow(log: seq<Event>, next: Pcb, pcb: Pcb)
    requires Fresh(log, next) && StateAfter(Unallocated, log, pcb) != Unallocated
    ensures pcb < next
  {
  }

  lemma {:induction false} UntouchedKeepsState(st: ConnState, evs: seq<Event>, pcb: Pcb)
    requires Untouched(evs, pcb)
    ensures StateAfter(st, evs, pcb) == st
  {
    if evs != [] {
      assert Step(Unallocated, evs[0], pcb) == Unallocated;
      assert Step(st, evs[0], pcb) == st;
      assert Untouched(evs[1..], pcb) by {
        forall i | 0 <= i < |evs[1..]| ensures Step(Unallocated, evs[1..][i], pcb) == Unallocated {
          assert evs[1..][i] == evs[i + 1];
        }
      }
      UntouchedKeepsState(st, evs[1..], pcb);
    }
  }

  /** The LED levels written, in order. */
  function LedWrites(evs: seq<Event>): (w: seq<bool>)
    ensures |w| <= |evs|
  {
    if evs == [] then []
    else (if evs[0].LedPut? then [evs[0].level] else []) + LedWrites(evs[1..])
  }

  lemma {:induction false} LedWritesAppend(a: seq<Event>, b: seq<Event>)
    ensures LedWrites(a + b) == LedWrites(a) + LedWrites(b)
  {
    if a == [] {
      assert a + b == b;
    } else {
      assert (a + b)[0] == a[0] && (a + b)[1..] == a[1..] + b;
      LedWritesAppend(a[1..], b);
    }
  }

  /** A log without `LedPut` calls writes nothing to the LED. */
  lemma {:induction false} NoLedWrites(evs: seq<Event>)
    requires forall i :: 0 <= i < |evs| ==> !evs[i].LedPut?
    ensures LedWrites(evs) == []
  {
    if evs != [] {
      assert !evs[0].LedPut?;
      NoLedWrites(evs[1..]);
    }
  }
}
