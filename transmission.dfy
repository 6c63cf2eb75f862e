/**
 The firmware's HTTP sender: `enviar_json` opens a fresh pcb, gives up
 silently when `tcp_connect` is refused, and otherwise writes the framed
 request, flushes it and registers `tcp_finish`; `tcp_finish` acknowledges
 and frees whatever arrived and always closes the connection.
 */
module Transmission {
  import Text
  import Http
  import opened Lwip

  /** The calls `enviar_json(json, endpt)` makes on the pcb it creates. */
  function SendTrace(pcb: Pcb, cfg: Http.Config, json: string, endpt: string, connect: Err): seq<Event> {
    [TcpNew(pcb), TcpConnect(pcb, cfg.serverIp, cfg.serverPort)]
    + if connect != ErrOk then []
      else
        var req := Http.FormatRequest(cfg, endpt, json);
        [TcpWrite(pcb, req, |req|), TcpOutput(pcb), TcpRecv(pcb)]
  }

  /** `enviar_json`, with `connect` the outcome `tcp_connect` reports. */
  method EnviarJson(b: Board, cfg: Http.Config, json: string, endpt: string, connect: Err)
    modifies b
    ensures b.nextPcb == old(b.nextPcb) + 1
    ensures b.log == old(b.log) + SendTrace(old(b.nextPcb), cfg, json, endpt, connect)
    ensures Fresh(old(b.log), old(b.nextPcb)) ==> Fresh(b.log, b.nextPcb)
  {
    if Fresh(b.log, b.nextPcb) {
      FreshAfterSend(b.log, b.nextPcb, cfg, json, endpt, connect);
    }
    var pcb := b.NewPcb();
    var e := b.Connect(pcb, cfg.serverIp, cfg.serverPort, connect);
    if e != ErrOk {
      return;
    }
    var req := Http.FormatRequest(cfg, endpt, json);
    b.Call(TcpWrite(pcb, req, |req|));
    b.Call(TcpOutput(pcb));
    b.Call(TcpRecv(pcb));
  }

  /** A refused connection ends the send: nothing is written, flushed or
      registered, and the pcb is left connecting: `tcp_connect` was called
      on it, and it is never closed. */
  lemma SendRefused(st: ConnState, pcb: Pcb, cfg: Http.Config, json: string, endpt: string, connect: Err)
    requires connect != ErrOk
    ensures var t := SendTrace(pcb, cfg, json, endpt, connect);
      forall i :: 0 <= i < |t| ==> !t[i].TcpWrite? && !t[i].TcpOutput? && !t[i].TcpRecv? && !t[i].TcpClose?
    ensures StateAfter(st, SendTrace(pcb, cfg, json, endpt, connect), pcb) == Connecting
  {
    LastCallDecides(st, SendTrace(pcb, cfg, json, endpt, connect), pcb);
  }

  /** An accepted connection is written exactly the bounded request and its
      length, then flushed, then handed to `tcp_finish`, in that order, and
      ends waiting for the peer. */
  lemma SendAccepted(st: ConnState, pcb: Pcb, cfg: Http.Config, json: string, endpt: string)
    ensures var t := SendTrace(pcb, cfg, json, endpt, ErrOk);
      && |t| == 5
      && t[2] == TcpWrite(pcb, t[2].data, |t[2].data|)
      && t[2].data <= Http.RequestText(cfg, endpt, json) && |t[2].data| <= 511
      && t[3] == TcpOutput(pcb) && t[4] == TcpRecv(pcb)
    ensures StateAfter(st, SendTrace(pcb, cfg, json, endpt, ErrOk), pcb) == Waiting
  {
    LastCallDecides(st, SendTrace(pcb, cfg, json, endpt, ErrOk), pcb);
  }

  /** A send touches only its own pcb and never the LED. */
  lemma SendIsolated(pcb: Pcb, other: Pcb, cfg: Http.Config, json: string, endpt: string, connect: Err)
    requires other != pcb
    ensures Untouched(SendTrace(pcb, cfg, json, endpt, connect), other)
    ensures LedWrites(SendTrace(pcb, cfg, json, endpt, connect)) == []
  {
    NoLedWrites(SendTrace(pcb, cfg, json, endpt, connect));
  }

  /** The calls `tcp_finish(arg, pcb, p, err)` makes. */
  function FinishTrace(pcb: Pcb, p: Text.Option<Pbuf>): seq<Event> {
    (if p.Some? then [TcpRecved(pcb, p.value.totLen), PbufFree(p.value.id)] else [])
    + [TcpClose(pcb)]
  }

  /** `tcp_finish`: `p` is `None` when lwIP reports the peer's close. lwIP
      invokes it only on a pcb that registered it with `tcp_recv`: one left
      waiting by an accepted send, or one the callback has already closed,
      since `tcp_close` does not unregister it and the peer's FIN may still
      arrive. */
  method TcpFinish(b: Board, pcb: Pcb, p: Text.Option<Pbuf>, err: Err) returns (r: Err)
    requires Registered(StateAfter(Unallocated, b.log, pcb))
    modifies b
    ensures r == ErrOk
    ensures b.nextPcb == old(b.nextPcb)
    ensures b.log == old(b.log) + FinishTrace(pcb, p)
    ensures Fresh(old(b.log), old(b.nextPcb)) ==> Fresh(b.log, b.nextPcb)
  {
    if Fresh(b.log, b.nextPcb) {
      FreshAfterFinish(b.log, b.nextPcb, pcb, p);
    }
    if p.Some? {
      b.Call(TcpRecved(pcb, p.value.totLen));
      b.Call(PbufFree(p.value.id));
    }
    b.Call(TcpClose(pcb));
    r := ErrOk;
  }

  /** `tcp_finish` acknowledges exactly `tot_len` bytes and frees the
      buffer, both before the close, when a buffer arrived; it closes the
      pcb in every case. */
  lemma FinishAlwaysCloses(st: ConnState, pcb: Pcb, p: Text.Option<Pbuf>)
    ensures var t := FinishTrace(pcb, p);
      && t[|t| - 1] == TcpClose(pcb)
      && (p.None? ==> t == [TcpClose(pcb)])
      && (p.Some? ==> t == [TcpRecved(pcb, p.value.totLen), PbufFree(p.value.id), TcpClose(pcb)])
    ensures StateAfter(st, FinishTrace(pcb, p), pcb) == Closed
    ensures LedWrites(FinishTrace(pcb, p)) == []
  {
    NoLedWrites(FinishTrace(pcb, p));
    LastCallDecides(st, FinishTrace(pcb, p), pcb);
  }

  /** Until a later call changes its state, a sent connection stays as the
      send left it: waiting for `tcp_finish` when accepted, connecting (and
      never closed) when refused. */
  lemma {:induction false} PendingUntilTouched(log: seq<Event>, pcb: Pcb, cfg: Http.Config, json: string,
                                               endpt: string, connect: Err, between: seq<Event>)
    requires Untouched(between, pcb)
    ensures StateAfter(Unallocated, log + SendTrace(pcb, cfg, json, endpt, connect) + between, pcb)
         == if connect == ErrOk then Waiting else Connecting
  {
    var send := SendTrace(pcb, cfg, json, endpt, connect);
    StateAfterAppend(Unallocated, log + send, between, pcb);
    StateAfterAppend(Unallocated, log, send, pcb);
    var st := StateAfter(Unallocated, log, pcb);
    if connect == ErrOk {
      SendAccepted(st, pcb, cfg, json, endpt);
    } else {
      SendRefused(st, pcb, cfg, json, endpt, connect);
    }
    UntouchedKeepsState(StateAfter(st, send, pcb), between, pcb);
  }

  /** `tcp_finish` touches only the pcb it was called for. */
  lemma FinishIsolated(pcb: Pcb, other: Pcb, p: Text.Option<Pbuf>)
    requires other != pcb
    ensures Untouched(FinishTrace(pcb, p), other)
  {
  }

  /** A send leaves every other pcb in whatever state it was. */
  lemma SendKeepsOthers(st: ConnState, pcb: Pcb, other: Pcb, cfg: Http.Config, json: string,
                        endpt: string, connect: Err)
    requires other != pcb
    ensures StateAfter(st, SendTrace(pcb, cfg, json, endpt, connect), other) == st
  {
    SendIsolated(pcb, other, cfg, json, endpt, connect);
    UntouchedKeepsState(st, SendTrace(pcb, cfg, json, endpt, connect), other);
  }

  /** A pcb whose connect was refused stays connecting through any later
      send, since every send opens a pcb of its own. */
  lemma LeakSurvivesSend(log: seq<Event>, pcb: Pcb, q: Pcb, cfg: Http.Config, json: string,
                         endpt: string, connect: Err)
    requires StateAfter(Unallocated, log, pcb) == Connecting && q != pcb
    ensures StateAfter(Unallocated, log + SendTrace(q, cfg, json, endpt, connect), pcb) == Connecting
  {
    StateAfterAppend(Unallocated, log, SendTrace(q, cfg, json, endpt, connect), pcb);
    SendKeepsOthers(Connecting, q, pcb, cfg, json, endpt, connect);
  }

  /** It also stays connecting through any `tcp_finish`: the callback runs
      only on registered pcbs, so never on it. */
  lemma LeakSurvivesFinish(log: seq<Event>, pcb: Pcb, q: Pcb, p: Text.Option<Pbuf>)
    requires StateAfter(Unallocated, log, pcb) == Connecting
    requires Registered(StateAfter(Unallocated, log, q))
    ensures StateAfter(Unallocated, log + FinishTrace(q, p), pcb) == Connecting
  {
    StateAfterAppend(Unallocated, log, FinishTrace(q, p), pcb);
    FinishIsolated(q, pcb, p);
    UntouchedKeepsState(Connecting, FinishTrace(q, p), pcb);
  }

  /** A send opens the pcb numbered `next`, so afterwards the numbers from
      `next + 1` on are still fresh. */
  lemma FreshAfterSend(log: seq<Event>, next: Pcb, cfg: Http.Config, json: string, endpt: string, connect: Err)
    requires Fresh(log, next)
    ensures Fresh(log + SendTrace(next, cfg, json, endpt, connect), next + 1)
  {
    forall q: Pcb | q >= next + 1
      ensures StateAfter(Unallocated, log + SendTrace(next, cfg, json, endpt, connect), q) == Unallocated
    {
      StateAfterAppend(Unallocated, log, SendTrace(next, cfg, json, endpt, connect), q);
      SendKeepsOthers(Unallocated, next, q, cfg, json, endpt, connect);
    }
  }

  /** `tcp_finish` on a registered pcb changes no fresh number. */
  lemma FreshAfterFinish(log: seq<Event>, next: Pcb, pcb: Pcb, p: Text.Option<Pbuf>)
    requires Fresh(log, next) && Registered(StateAfter(Unallocated, log, pcb))
    ensures Fresh(log + FinishTrace(pcb, p), next)
  {
    FreshNamedBelow(log, next, pcb);
    forall q: Pcb | q >= next
      ensures StateAfter(Unallocated, log + FinishTrace(pcb, p), q) == Unallocated
    {
      StateAfterAppend(Unallocated, log, FinishTrace(pcb, p), q);
      FinishIsolated(pcb, q, p);
      UntouchedKeepsState(Unallocated, FinishTrace(pcb, p), q);
    }
  }

  /** On a log whose fresh numbers start at `next`, the next send opens a
      pcb other than any refused one, so a refused pcb stays connecting,
      and the numbers from `next + 1` on stay fresh. */
  lemma LeakSurvivesFreshSend(log: seq<Event>, pcb: Pcb, next: Pcb, cfg: Http.Config, json: string,
                              endpt: string, connect: Err)
    requires Fresh(log, next) && StateAfter(Unallocated, log, pcb) == Connecting
    ensures StateAfter(Unallocated, log + SendTrace(next, cfg, json, endpt, connect), pcb) == Connecting
    ensures Fresh(log + SendTrace(next, cfg, json, endpt, connect), next + 1)
  {
    FreshNamedBelow(log, next, pcb);
    LeakSurvivesSend(log, pcb, next, cfg, json, endpt, connect);
    FreshAfterSend(log, next, cfg, json, endpt, connect);
  }

  /** After `tcp_finish` the pcb is closed and still registered, so lwIP may
      run the callback on it again, as it does when the peer's FIN follows
      the data; every such call closes it again. */
  lemma FinishLeavesRegistered(log: seq<Event>, pcb: Pcb, p: Text.Option<Pbuf>)
    requires Registered(StateAfter(Unallocated, log, pcb))
    ensures StateAfter(Unallocated, log + FinishTrace(pcb, p), pcb) == Closed
    ensures Registered(StateAfter(Unallocated, log + FinishTrace(pcb, p), pcb))
  {
    StateAfterAppend(Unallocated, log, FinishTrace(pcb, p), pcb);
    FinishAlwaysCloses(StateAfter(Unallocated, log, pcb), pcb, p);
  }
}
