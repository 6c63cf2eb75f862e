/**
 The firmware's main loop: one pass of `while (true)` checks the 1-second
 timer against the monotonic microsecond clock and, when it fires, restarts
 it, toggles the heartbeat LED and sends the joystick, button and
 temperature messages in that order. `led_toggle`'s `static bool state` and
 the loop's `t0` are the fields of `Monitor`.
 */
module Firmware {
  import Text
  import Joystick
  import Encoder
  import Http
  import opened Lwip
  import Transmission

  /** The tick period in microseconds (the `1e6` of the timer test). */
  const TickPeriodUs: int := 1000000

  /** Everything one firing tick reads from outside: the two joystick
      readings and the angle `atan2f` gives for them, the `%.3f` renderings
      of the normalised pair, the two button pin levels, the `%.2f`
      rendering of the temperature, and the outcome of each `tcp_connect`. */
  datatype Sample = Sample(
    rawX: nat, rawY: nat, angle: real, xText: string, yText: string,
    btn1Level: bool, btn2Level: bool, tempText: string,
    connectJoystick: Err, connectButtons: Err, connectTemp: Err)

  function JoystickMessage(s: Sample): string {
    Encoder.JoystickJson(s.xText, s.yText, Joystick.JoystickLer(s.rawX, s.rawY, s.angle).direcao)
  }

  function ButtonsMessage(s: Sample): string {
    Encoder.ButtonsJson(s.btn1Level, s.btn2Level)
  }

  function TempMessage(s: Sample): string {
    Encoder.TempJson(s.tempText)
  }

  /** The three sends of one firing tick, on three consecutive fresh pcbs. */
  function ReadingsTrace(pcb: Pcb, cfg: Http.Config, s: Sample): seq<Event> {
    Transmission.SendTrace(pcb, cfg, JoystickMessage(s), "/joystick", s.connectJoystick)
    + Transmission.SendTrace(pcb + 1, cfg, ButtonsMessage(s), "/botoes", s.connectButtons)
    + Transmission.SendTrace(pcb + 2, cfg, TempMessage(s), "/temp", s.connectTemp)
  }

  /** The calls of one firing tick: the LED write, then the three sends. */
  function TickTrace(led: bool, pcb: Pcb, cfg: Http.Config, s: Sample): seq<Event> {
    [LedPut(led)] + ReadingsTrace(pcb, cfg, s)
  }

  /** LED levels false, true, false, ... from the first write on. */
  predicate Alternating(w: seq<bool>) {
    forall i :: 0 <= i < |w| ==> w[i] == (i % 2 == 1)
  }

  /** The heartbeat invariant: the writes so far alternate, and the stored
      state is the level the next write will use. */
  predicate HeartbeatOf(led: bool, log: seq<Event>) {
    Alternating(LedWrites(log)) && led == (|LedWrites(log)| % 2 == 1)
  }

  /** Writing the stored state and flipping it keeps the invariant. */
  lemma ToggleKeepsHeartbeat(led: bool, log: seq<Event>)
    requires HeartbeatOf(led, log)
    ensures HeartbeatOf(!led, log + [LedPut(led)])
  {
    LedWritesAppend(log, [LedPut(led)]);
    assert LedWrites([LedPut(led)]) == [led];
  }

  /** `tcp_finish` runs from inside the network poll; it never writes the
      LED, so it keeps the invariant. */
  lemma FinishKeepsHeartbeat(led: bool, log: seq<Event>, pcb: Pcb, p: Text.Option<Pbuf>)
    requires HeartbeatOf(led, log)
    ensures HeartbeatOf(led, log + Transmission.FinishTrace(pcb, p))
  {
    LedWritesAppend(log, Transmission.FinishTrace(pcb, p));
    Transmission.FinishAlwaysCloses(Unallocated, pcb, p);
  }

  lemma SendKeepsHeartbeat(led: bool, log: seq<Event>, pcb: Pcb, cfg: Http.Config,
                           json: string, endpt: string, connect: Err)
    requires HeartbeatOf(led, log)
    ensures HeartbeatOf(led, log + Transmission.SendTrace(pcb, cfg, json, endpt, connect))
  {
    LedWritesAppend(log, Transmission.SendTrace(pcb, cfg, json, endpt, connect));
    Transmission.SendIsolated(pcb, pcb + 1, cfg, json, endpt, connect);
  }

  class Monitor {
    var t0: int
    var ledState: bool

    ghost predicate Heartbeat(b: Board)
      reads this, b
    {
      HeartbeatOf(ledState, b.log)
    }

    /** `t0 = get_absolute_time()` before the loop; `state` starts false. */
    constructor (b: Board, start: int)
      requires LedWrites(b.log) == []
      ensures t0 == start && !ledState
      ensures Heartbeat(b)
    {
      t0, ledState := start, false;
    }

    /** `led_toggle`: write the stored level, then flip it. */
    method LedToggle(b: Board)
      requires Heartbeat(b)
      modifies this, b
      ensures ledState == !old(ledState) && t0 == old(t0)
      ensures b.log == old(b.log) + [LedPut(old(ledState))] && b.nextPcb == old(b.nextPcb)
      ensures Heartbeat(b)
    {
      b.Call(LedPut(ledState));
      ToggleKeepsHeartbeat(ledState, old(b.log));
      ledState := !ledState;
    }

    /** One pass of the main loop after `cyw43_arch_poll`. The clock is read
        twice: `nowCheck` for the test, `nowReset` for the new `t0`. */
    method Tick(b: Board, cfg: Http.Config, nowCheck: int, nowReset: int, s: Sample) returns (fired: bool)
      requires Heartbeat(b)
      modifies this, b
      ensures Heartbeat(b)
      ensures fired == (nowCheck - old(t0) >= TickPeriodUs)
      ensures t0 == if fired then nowReset else old(t0)
      ensures ledState == (fired != old(ledState))
      ensures b.nextPcb == old(b.nextPcb) + (if fired then 3 else 0)
      ensures b.log == old(b.log) + (if fired then TickTrace(old(ledState), old(b.nextPcb), cfg, s) else [])
      ensures Fresh(old(b.log), old(b.nextPcb)) ==> Fresh(b.log, b.nextPcb)
    {
      if Fresh(b.log, b.nextPcb) {
        FreshAfterTick(b.log, b.nextPcb, ledState, cfg, s);
      }
      fired := nowCheck - t0 >= TickPeriodUs;
      if !fired {
        return;
      }
      t0 := nowReset;
      LedToggle(b);
      SendReadings(b, cfg, s);
      Assoc(old(b.log), [LedPut(old(ledState))], ReadingsTrace(old(b.nextPcb), cfg, s));
    }

    /** The three `enviar_json` calls of a firing tick, in source order. */
    method SendReadings(b: Board, cfg: Http.Config, s: Sample)
      requires Heartbeat(b)
      modifies b
      ensures Heartbeat(b)
      ensures b.nextPcb == old(b.nextPcb) + 3
      ensures b.log == old(b.log) + ReadingsTrace(old(b.nextPcb), cfg, s)
    {
      var jm, bm, tm := JoystickMessage(s), ButtonsMessage(s), TempMessage(s);
      ghost var p := b.nextPcb;
      ghost var t1 := Transmission.SendTrace(p, cfg, jm, "/joystick", s.connectJoystick);
      ghost var t2 := Transmission.SendTrace(p + 1, cfg, bm, "/botoes", s.connectButtons);
      ghost var t3 := Transmission.SendTrace(p + 2, cfg, tm, "/temp", s.connectTemp);
      assert ReadingsTrace(p, cfg, s) == t1 + t2 + t3;
      Send(b, cfg, jm, "/joystick", s.connectJoystick);
      Send(b, cfg, bm, "/botoes", s.connectButtons);
      Send(b, cfg, tm, "/temp", s.connectTemp);
      Concat3(old(b.log), t1, t2, t3);
    }

    /** One `enviar_json` call; it leaves the heartbeat as it was. */
    method Send(b: Board, cfg: Http.Config, json: string, endpt: string, connect: Err)
      requires Heartbeat(b)
      modifies b
      ensures Heartbeat(b)
      ensures b.nextPcb == old(b.nextPcb) + 1
      ensures b.log == old(b.log) + Transmission.SendTrace(old(b.nextPcb), cfg, json, endpt, connect)
    {
      Transmission.EnviarJson(b, cfg, json, endpt, connect);
      SendKeepsHeartbeat(ledState, old(b.log), old(b.nextPcb), cfg, json, endpt, connect);
    }
  }

  lemma Assoc<T>(log: seq<T>, a: seq<T>, b: seq<T>)
    ensures log + a + b == log + (a + b)
  {
  }

  lemma Concat3<T>(log: seq<T>, a: seq<T>, b: seq<T>, c: seq<T>)
    ensures log + a + b + c == log + (a + b + c)
  {
  }

  /** The fourth, ninth and fourteenth calls of a tick are its writes. */
  lemma TickWrites<T>(a: seq<T>, b: seq<T>, c: seq<T>, d: seq<T>)
    requires |a| == 1 && |b| == 5 && |c| == 5 && |d| == 5
    ensures var t := a + (b + c + d); |t| == 16 && t[0] == a[0] && t[3] == b[2] && t[8] == c[2] && t[13] == d[2]
  {
  }

  /** `ev` is a `tcp_write` on `pcb` of the whole request for `endpt` and
      `json`, with its exact length. */
  predicate WritesWhole(ev: Event, pcb: Pcb, cfg: Http.Config, endpt: string, json: string) {
    ev.TcpWrite? && ev.pcb == pcb && ev.len == |ev.data| && ev.data == Http.RequestText(cfg, endpt, json)
  }

  /** `ev` is a `tcp_write` on `pcb` of a request for `endpt` whose receiver
      reads back exactly `json` as a correctly framed body. */
  predicate Delivers(ev: Event, pcb: Pcb, cfg: Http.Config, endpt: string, json: string) {
    && ev.TcpWrite? && ev.pcb == pcb && ev.len == |ev.data|
    && Http.ParseRequest(ev.data)
       == Text.Some(Http.Request(endpt, cfg.serverIp + ":" + Text.Dec(cfg.serverPort), |json|, json))
  }

  /** For a firmware-sized body, path and address, an accepted send writes
      the whole request. */
  lemma SendWritesWhole(pcb: Pcb, cfg: Http.Config, json: string, endpt: string)
    requires |json| <= 159 && |endpt| <= 9
    requires |cfg.serverIp| <= 15 && cfg.serverPort <= 65535
    ensures var t := Transmission.SendTrace(pcb, cfg, json, endpt, ErrOk);
      |t| == 5 && WritesWhole(t[2], pcb, cfg, endpt, json)
  {
    Http.FirmwareRequestFits(cfg, endpt, json);
  }

  /** A whole request for a plain path reaches the receiver intact. */
  lemma WholeDelivers(ev: Event, pcb: Pcb, cfg: Http.Config, endpt: string, json: string)
    requires WritesWhole(ev, pcb, cfg, endpt, json)
    requires ' ' !in endpt && '\r' !in endpt && '\r' !in cfg.serverIp
    ensures Delivers(ev, pcb, cfg, endpt, json)
  {
    Http.RequestRoundTrip(cfg, endpt, json);
  }

  /** An accepted send of a firmware-sized body delivers it. */
  lemma SendDelivers(pcb: Pcb, cfg: Http.Config, json: string, endpt: string)
    requires |json| <= 159 && |endpt| <= 9 && ' ' !in endpt && '\r' !in endpt
    requires |cfg.serverIp| <= 15 && '\r' !in cfg.serverIp && cfg.serverPort <= 65535
    ensures var t := Transmission.SendTrace(pcb, cfg, json, endpt, ErrOk);
      |t| == 5 && Delivers(t[2], pcb, cfg, endpt, json)
  {
    SendWritesWhole(pcb, cfg, json, endpt);
    WholeDelivers(Transmission.SendTrace(pcb, cfg, json, endpt, ErrOk)[2], pcb, cfg, endpt, json);
  }

  /** A pcb whose connect was refused in an earlier tick stays connecting
      through every later tick, which opens pcbs of its own from `q` on. */
  lemma LeakSurvivesTick(log: seq<Event>, pcb: Pcb, led: bool, q: Pcb, cfg: Http.Config, s: Sample)
    requires StateAfter(Unallocated, log, pcb) == Connecting && pcb < q
    ensures StateAfter(Unallocated, log + TickTrace(led, q, cfg, s), pcb) == Connecting
  {
    SendsKeep(Connecting, pcb, q, q + 1, q + 2, cfg, JoystickMessage(s), ButtonsMessage(s), TempMessage(s),
              s.connectJoystick, s.connectButtons, s.connectTemp);
    StateAfterAppend(Unallocated, log, TickTrace(led, q, cfg, s), pcb);
    StateAfterAppend(Connecting, [LedPut(led)], ReadingsTrace(q, cfg, s), pcb);
    assert StateAfter(Connecting, [LedPut(led)], pcb) == Connecting;
  }

  /** The three sends of a tick, on pcbs other than `pcb`, leave `pcb` in
      whatever state it was, whatever the messages. */
  lemma SendsKeep(st: ConnState, pcb: Pcb, p1: Pcb, p2: Pcb, p3: Pcb, cfg: Http.Config,
                  jm: string, bm: string, tm: string, cj: Err, cb: Err, ct: Err)
    requires pcb != p1 && pcb != p2 && pcb != p3
    ensures StateAfter(st, Transmission.SendTrace(p1, cfg, jm, "/joystick", cj)
                           + Transmission.SendTrace(p2, cfg, bm, "/botoes", cb)
                           + Transmission.SendTrace(p3, cfg, tm, "/temp", ct), pcb)
            == st
  {
    Transmission.SendKeepsOthers(st, p1, pcb, cfg, jm, "/joystick", cj);
    Transmission.SendKeepsOthers(st, p2, pcb, cfg, bm, "/botoes", cb);
    Transmission.SendKeepsOthers(st, p3, pcb, cfg, tm, "/temp", ct);
    KeepsThrough(st, pcb,
                 Transmission.SendTrace(p1, cfg, jm, "/joystick", cj),
                 Transmission.SendTrace(p2, cfg, bm, "/botoes", cb),
                 Transmission.SendTrace(p3, cfg, tm, "/temp", ct));
  }

  /** A tick opens the pcbs `next`, `next + 1` and `next + 2`, so afterwards
      the numbers from `next + 3` on are still fresh. */
  lemma FreshAfterTick(log: seq<Event>, next: Pcb, led: bool, cfg: Http.Config, s: Sample)
    requires Fresh(log, next)
    ensures Fresh(log + TickTrace(led, next, cfg, s), next + 3)
  {
    forall q: Pcb | q >= next + 3
      ensures StateAfter(Unallocated, log + TickTrace(led, next, cfg, s), q) == Unallocated
    {
      SendsKeep(Unallocated, q, next, next + 1, next + 2, cfg, JoystickMessage(s), ButtonsMessage(s),
                TempMessage(s), s.connectJoystick, s.connectButtons, s.connectTemp);
      StateAfterAppend(Unallocated, log, TickTrace(led, next, cfg, s), q);
      StateAfterAppend(Unallocated, [LedPut(led)], ReadingsTrace(next, cfg, s), q);
      assert StateAfter(Unallocated, [LedPut(led)], q) == Unallocated;
    }
  }

  /** On a log whose fresh numbers start at the board's `nextPcb`, a pcb
      left connecting by a refused connect stays connecting through the
      next tick, and the numbers after that tick's pcbs stay fresh, so the
      same holds for every later tick. */
  lemma LeakSurvivesFreshTick(log: seq<Event>, pcb: Pcb, led: bool, next: Pcb, cfg: Http.Config, s: Sample)
    requires Fresh(log, next) && StateAfter(Unallocated, log, pcb) == Connecting
    ensures StateAfter(Unallocated, log + TickTrace(led, next, cfg, s), pcb) == Connecting
    ensures Fresh(log + TickTrace(led, next, cfg, s), next + 3)
  {
    FreshNamedBelow(log, next, pcb);
    LeakSurvivesTick(log, pcb, led, next, cfg, s);
    FreshAfterTick(log, next, led, cfg, s);
  }

  /** Three stretches of calls that each keep the state of `pcb` keep it together. */
  lemma KeepsThrough(st: ConnState, pcb: Pcb, a: seq<Event>, b: seq<Event>, c: seq<Event>)
    requires StateAfter(st, a, pcb) == st && StateAfter(st, b, pcb) == st && StateAfter(st, c, pcb) == st
    ensures StateAfter(st, a + b + c, pcb) == st
  {
    StateAfterAppend(st, a, b, pcb);
    StateAfterAppend(st, a + b, c, pcb);
  }

  /** When all three connections are accepted, one firing tick writes the
      LED first and then three whole requests on three distinct pcbs, to
      `/joystick`, `/botoes` and `/temp` in that order, each carrying its own
      message (for a dotted IPv4 address and a 16-bit port). By
      `WholeDelivers` each of them reaches the receiver intact when the
      address holds no CR. */
  lemma TickSendsInOrder(led: bool, pcb: Pcb, cfg: Http.Config, s: Sample)
    requires s.connectJoystick == ErrOk && s.connectButtons == ErrOk && s.connectTemp == ErrOk
    requires |cfg.serverIp| <= 15 && cfg.serverPort <= 65535
    ensures var t := TickTrace(led, pcb, cfg, s);
      && |t| == 16 && t[0] == LedPut(led)
      && WritesWhole(t[3], pcb, cfg, "/joystick", JoystickMessage(s))
      && WritesWhole(t[8], pcb + 1, cfg, "/botoes", ButtonsMessage(s))
      && WritesWhole(t[13], pcb + 2, cfg, "/temp", TempMessage(s))
  {
    var jm, bm, tm := JoystickMessage(s), ButtonsMessage(s), TempMessage(s);
    var t1 := Transmission.SendTrace(pcb, cfg, jm, "/joystick", ErrOk);
    var t2 := Transmission.SendTrace(pcb + 1, cfg, bm, "/botoes", ErrOk);
    var t3 := Transmission.SendTrace(pcb + 2, cfg, tm, "/temp", ErrOk);
    assert |jm| <= 159 && |bm| <= 159 && |tm| <= 159;
    SendWritesWhole(pcb, cfg, jm, "/joystick");
    SendWritesWhole(pcb + 1, cfg, bm, "/botoes");
    SendWritesWhole(pcb + 2, cfg, tm, "/temp");
    assert TickTrace(led, pcb, cfg, s) == [LedPut(led)] + (t1 + t2 + t3);
    WholeInTick(led, pcb, cfg, jm, bm, tm, t1, t2, t3);
  }

  /** Where the three writes of a tick sit, for any three accepted sends. */
  lemma WholeInTick(led: bool, pcb: Pcb, cfg: Http.Config, jm: string, bm: string, tm: string,
                    t1: seq<Event>, t2: seq<Event>, t3: seq<Event>)
    requires |t1| == 5 && |t2| == 5 && |t3| == 5
    requires WritesWhole(t1[2], pcb, cfg, "/joystick", jm)
    requires WritesWhole(t2[2], pcb + 1, cfg, "/botoes", bm)
    requires WritesWhole(t3[2], pcb + 2, cfg, "/temp", tm)
    ensures var t := [LedPut(led)] + (t1 + t2 + t3);
      && |t| == 16 && t[0] == LedPut(led)
      && WritesWhole(t[3], pcb, cfg, "/joystick", jm)
      && WritesWhole(t[8], pcb + 1, cfg, "/botoes", bm)
      && WritesWhole(t[13], pcb + 2, cfg, "/temp", tm)
  {
    TickWrites([LedPut(led)], t1, t2, t3);
  }
}
