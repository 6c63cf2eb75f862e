/**
 The relay server: each of the three POST routes tags the validated payload
 with its `type`, fills in `ts` when the firmware sent none, and hands the
 message to `_broadcast`, which sends it to every registered dashboard
 socket and keeps only those whose send succeeded. The WebSocket endpoint
 registers a socket on accept and unregisters it when its connection ends.
 */
module Server {
  import Text

  // ---------------------------------------------------------------------
  // Messages: the Python dicts the routes build.

  /** The values a payload field can hold. */
  datatype Value = VNone | VInt(i: int) | VFloat(f: real) | VStr(s: string)

  type Dict = map<string, Value>

  /** Python truthiness: `None`, zero and the empty string are false. */
  predicate Truthy(v: Value) {
    match v
    case VNone => false
    case VInt(i) => i != 0
    case VFloat(f) => f != 0.0
    case VStr(s) => s != ""
  }

  /** `data["type"] = tag; data["ts"] = data["ts"] or now`. The payload
      always carries its `ts` field, `None` when the firmware left it out. */
  function Envelope(data: Dict, tag: string, now: real): (r: Dict)
    requires "ts" in data
    ensures r.Keys == data.Keys + {"type"}
    ensures r["type"] == VStr(tag)
    ensures forall k :: k in data && k != "type" && k != "ts" ==> r[k] == data[k]
    ensures Truthy(data["ts"]) ==> r["ts"] == data["ts"]
    ensures !Truthy(data["ts"]) ==> r["ts"] == VFloat(now)
  {
    var tagged := data["type" := VStr(tag)];
    tagged["ts" := if Truthy(tagged["ts"]) then tagged["ts"] else VFloat(now)]
  }

  /** With a clock that never reads zero the message always leaves with a
      truthy timestamp, so enveloping it again changes nothing. */
  lemma EnvelopeIdempotent(data: Dict, tag: string, now: real, later: real)
    requires "ts" in data && now != 0.0
    ensures Truthy(Envelope(data, tag, now)["ts"])
    ensures Envelope(Envelope(data, tag, now), tag, later) == Envelope(data, tag, now)
  {
    var e := Envelope(data, tag, now);
    var ee := Envelope(e, tag, later);
    assert ee.Keys == e.Keys;
    forall k | k in e ensures ee[k] == e[k] {
    }
  }

  /** The typed payloads of the three routes; `ts` is optional. */
  datatype BotoesPayload = BotoesPayload(btn1: int, btn2: int, ts: Text.Option<real>)
  datatype JoystickPayload = JoystickPayload(x: real, y: real, rosa: string, ts: Text.Option<real>)
  datatype TempPayload = TempPayload(temp: real, ts: Text.Option<real>)

  function TsValue(ts: Text.Option<real>): Value {
    match ts
    case None => VNone
    case Some(t) => VFloat(t)
  }

  /** `payload.dict()` for each model. */
  function BotoesDict(p: BotoesPayload): Dict {
    map["btn1" := VInt(p.btn1), "btn2" := VInt(p.btn2), "ts" := TsValue(p.ts)]
  }

  function JoystickDict(p: JoystickPayload): Dict {
    map["x" := VFloat(p.x), "y" := VFloat(p.y), "rosa" := VStr(p.rosa), "ts" := TsValue(p.ts)]
  }

  function TempDict(p: TempPayload): Dict {
    map["temp" := VFloat(p.temp), "ts" := TsValue(p.ts)]
  }

  /** The timestamp a message ends up with: the firmware's own when present
      and non-zero, the server's clock otherwise. */
  function EffectiveTs(ts: Text.Option<real>, now: real): real {
    if ts.Some? && ts.value != 0.0 then ts.value else now
  }

  function BotoesMessage(p: BotoesPayload, now: real): Dict {
    Envelope(BotoesDict(p), "botoes", now)
  }

  function JoystickMessage(p: JoystickPayload, now: real): Dict {
    Envelope(JoystickDict(p), "joystick", now)
  }

  function TempMessage(p: TempPayload, now: real): Dict {
    Envelope(TempDict(p), "temp", now)
  }

  /** The `/botoes` message: the two flags unchanged, tagged, timestamped. */
  lemma BotoesMessageShape(p: BotoesPayload, now: real)
    ensures BotoesMessage(p, now)
         == map["btn1" := VInt(p.btn1), "btn2" := VInt(p.btn2),
                "ts" := VFloat(EffectiveTs(p.ts, now)), "type" := VStr("botoes")]
  {
    var m := BotoesMessage(p, now);
    var want := map["btn1" := VInt(p.btn1), "btn2" := VInt(p.btn2),
                    "ts" := VFloat(EffectiveTs(p.ts, now)), "type" := VStr("botoes")];
    assert m.Keys == want.Keys;
    forall k | k in m ensures m[k] == want[k] {
    }
  }

  /** The `/joystick` message: coordinates and label unchanged, tagged,
      timestamped. */
  lemma JoystickMessageShape(p: JoystickPayload, now: real)
    ensures JoystickMessage(p, now)
         == map["x" := VFloat(p.x), "y" := VFloat(p.y), "rosa" := VStr(p.rosa),
                "ts" := VFloat(EffectiveTs(p.ts, now)), "type" := VStr("joystick")]
  {
    var m := JoystickMessage(p, now);
    var want := map["x" := VFloat(p.x), "y" := VFloat(p.y), "rosa" := VStr(p.rosa),
                    "ts" := VFloat(EffectiveTs(p.ts, now)), "type" := VStr("joystick")];
    assert m.Keys == want.Keys;
    forall k | k in m ensures m[k] == want[k] {
    }
  }

  /** The `/temp` message: the reading unchanged, tagged, timestamped. */
  lemma TempMessageShape(p: TempPayload, now: real)
    ensures TempMessage(p, now)
         == map["temp" := VFloat(p.temp), "ts" := VFloat(EffectiveTs(p.ts, now)), "type" := VStr("temp")]
  {
    var m := TempMessage(p, now);
    var want := map["temp" := VFloat(p.temp), "ts" := VFloat(EffectiveTs(p.ts, now)), "type" := VStr("temp")];
    assert m.Keys == want.Keys;
    forall k | k in m ensures m[k] == want[k] {
    }
  }

  // ---------------------------------------------------------------------
  // The client list.

  /** A connected dashboard socket. */
  type WebSocket = nat

  /** The clients, in order, whose send succeeded. */
  function Survivors(s: seq<WebSocket>, ok: WebSocket -> bool): (r: seq<WebSocket>)
    ensures |r| <= |s|
  {
    if s == [] then [] else (if ok(s[0]) then [s[0]] else []) + Survivors(s[1..], ok)
  }

  lemma {:induction false} SurvivorsAppend(a: seq<WebSocket>, b: seq<WebSocket>, ok: WebSocket -> bool)
    ensures Survivors(a + b, ok) == Survivors(a, ok) + Survivors(b, ok)
  {
    if a == [] {
      assert a + b == b;
    } else {
      var h := if ok(a[0]) then [a[0]] else [];
      assert (a + b)[0] == a[0] && (a + b)[1..] == a[1..] + b;
      assert Survivors(a + b, ok) == h + Survivors(a[1..] + b, ok);
      SurvivorsAppend(a[1..], b, ok);
      assert h + (Survivors(a[1..], ok) + Survivors(b, ok)) == (h + Survivors(a[1..], ok)) + Survivors(b, ok);
    }
  }

  /** A client survives exactly when it was registered and its send
      succeeded. */
  lemma {:induction false} SurvivorsMembers(s: seq<WebSocket>, ok: WebSocket -> bool, ws: WebSocket)
    ensures ws in Survivors(s, ok) <==> ws in s && ok(ws)
  {
    if s != [] {
      SurvivorsMembers(s[1..], ok, ws);
      assert s == [s[0]] + s[1..];
    }
  }

  /** `r` occurs in `s` in order, possibly with gaps. */
  predicate Embeds(r: seq<WebSocket>, s: seq<WebSocket>)
    decreases |s|
  {
    if r == [] then true
    else if s == [] then false
    else (r[0] == s[0] && Embeds(r[1..], s[1..])) || Embeds(r, s[1..])
  }

  /** The survivors keep their original relative order. */
  lemma {:induction false} SurvivorsInOrder(s: seq<WebSocket>, ok: WebSocket -> bool)
    ensures Embeds(Survivors(s, ok), s)
  {
    if s != [] {
      SurvivorsInOrder(s[1..], ok);
      var r := Survivors(s, ok);
      if ok(s[0]) {
        assert r[0] == s[0] && r[1..] == Survivors(s[1..], ok);
      } else {
        assert r == Survivors(s[1..], ok);
        assert Embeds(r, s);
      }
    }
  }

  /** When every send succeeds nobody is dropped. */
  lemma {:induction false} SurvivorsAllOk(s: seq<WebSocket>, ok: WebSocket -> bool)
    requires forall i :: 0 <= i < |s| ==> ok(s[i])
    ensures Survivors(s, ok) == s
  {
    if s != [] {
      assert ok(s[0]);
      SurvivorsAllOk(s[1..], ok);
    }
  }

  /** Broadcasting twice under the same outcomes drops nobody the second
      time. */
  lemma SurvivorsIdempotent(s: seq<WebSocket>, ok: WebSocket -> bool)
    ensures Survivors(Survivors(s, ok), ok) == Survivors(s, ok)
  {
    var r := Survivors(s, ok);
    forall i | 0 <= i < |r| ensures ok(r[i]) {
      SurvivorsMembers(s, ok, r[i]);
    }
    SurvivorsAllOk(r, ok);
  }

  /** One attempted `send_json`. */
  datatype Delivery = Delivery(ws: WebSocket, message: Dict, ok: bool)

  /** One attempt per client, in list order. */
  function Attempts(s: seq<WebSocket>, message: Dict, ok: WebSocket -> bool): (a: seq<Delivery>)
    ensures |a| == |s|
    ensures forall i :: 0 <= i < |s| ==> a[i] == Delivery(s[i], message, ok(s[i]))
  {
    seq(|s|, i requires 0 <= i < |s| => Delivery(s[i], message, ok(s[i])))
  }

  lemma AttemptsAppend(s: seq<WebSocket>, ws: WebSocket, message: Dict, ok: WebSocket -> bool)
    ensures Attempts(s + [ws], message, ok) == Attempts(s, message, ok) + [Delivery(ws, message, ok(ws))]
  {
    assert forall i :: 0 <= i < |s| ==> (s + [ws])[i] == s[i];
  }

  /** The first position of `ws` in `s`. */
  function FirstIndex(s: seq<WebSocket>, ws: WebSocket): (i: nat)
    requires ws in s
    ensures i < |s| && s[i] == ws && ws !in s[..i]
  {
    if s[0] == ws then 0
    else
      var j := FirstIndex(s[1..], ws);
      assert s[..j + 1] == [s[0]] + s[1..][..j];
      j + 1
  }

  /** `list.remove(ws)`: drops the first occurrence only. */
  function RemoveFirst(s: seq<WebSocket>, ws: WebSocket): (r: seq<WebSocket>)
    requires ws in s
    ensures |r| == |s| - 1
    ensures multiset(r) + multiset{ws} == multiset(s)
  {
    var i := FirstIndex(s, ws);
    assert s == s[..i] + [ws] + s[i + 1..];
    s[..i] + s[i + 1..]
  }

  /** Everything before the first occurrence stays in place, everything after
      it moves up by one. */
  lemma RemoveFirstPositions(s: seq<WebSocket>, ws: WebSocket)
    requires ws in s
    ensures var i, r := FirstIndex(s, ws), RemoveFirst(s, ws);
      && (forall j :: 0 <= j < i ==> r[j] == s[j])
      && (forall j :: i <= j < |r| ==> r[j] == s[j + 1])
  {
  }

  /** Unregistering a socket that was registered once, at the end, restores
      the list as it was before. */
  lemma AcceptThenRemove(s: seq<WebSocket>, ws: WebSocket)
    requires ws !in s
    ensures RemoveFirst(s + [ws], ws) == s
  {
    assert (s + [ws])[|s|] == ws;
    assert (s + [ws])[..|s|] == s;
    var i := FirstIndex(s + [ws], ws);
    assert i == |s|;
  }

  class Hub {
    var clients: seq<WebSocket>
    /** Every `send_json` attempted so far, in order. */
    var sent: seq<Delivery>

    constructor ()
      ensures clients == [] && sent == []
    {
      clients, sent := [], [];
    }

    /** `_broadcast(message)`; `sendOk(ws)` is whether `ws.send_json`
        returns normally. */
    method Broadcast(message: Dict, sendOk: WebSocket -> bool)
      modifies this
      ensures clients == Survivors(old(clients), sendOk)
      ensures sent == old(sent) + Attempts(old(clients), message, sendOk)
    {
      var vivos: seq<WebSocket> := [];
      var i := 0;
      while i < |clients|
        invariant 0 <= i <= |clients| && clients == old(clients)
        invariant vivos == Survivors(clients[..i], sendOk)
        invariant sent == old(sent) + Attempts(clients[..i], message, sendOk)
      {
        var ws := clients[i];
        var ok := sendOk(ws);
        sent := sent + [Delivery(ws, message, ok)];
        if ok {
          vivos := vivos + [ws];
        }
        assert clients[..i + 1] == clients[..i] + [ws];
        SurvivorsAppend(clients[..i], [ws], sendOk);
        AttemptsAppend(clients[..i], ws, message, sendOk);
        i := i + 1;
      }
      assert clients[..i] == clients;
      clients := vivos;
    }

    /** `ws.accept(); clients.append(ws)`. */
    method Accept(ws: WebSocket)
      modifies this
      ensures clients == old(clients) + [ws] && sent == old(sent)
    {
      clients := clients + [ws];
    }

    /** The `finally` of `ws_endpoint`: remove the socket if still there. */
    method Disconnect(ws: WebSocket)
      modifies this
      ensures clients == if ws in old(clients) then RemoveFirst(old(clients), ws) else old(clients)
      ensures sent == old(sent)
    {
      if ws in clients {
        clients := RemoveFirst(clients, ws);
      }
    }

    /** `POST /botoes`, answered with 204 after the broadcast. */
    method Botoes(p: BotoesPayload, now: real, sendOk: WebSocket -> bool)
      modifies this
      ensures clients == Survivors(old(clients), sendOk)
      ensures sent == old(sent) + Attempts(old(clients), BotoesMessage(p, now), sendOk)
    {
      var data := Envelope(BotoesDict(p), "botoes", now);
      Broadcast(data, sendOk);
    }

    /** `POST /joystick`. */
    method Joystick(p: JoystickPayload, now: real, sendOk: WebSocket -> bool)
      modifies this
      ensures clients == Survivors(old(clients), sendOk)
      ensures sent == old(sent) + Attempts(old(clients), JoystickMessage(p, now), sendOk)
    {
      var data := Envelope(JoystickDict(p), "joystick", now);
      Broadcast(data, sendOk);
    }

    /** `POST /temp`. */
    method Temperatura(p: TempPayload, now: real, sendOk: WebSocket -> bool)
      modifies this
      ensures clients == Survivors(old(clients), sendOk)
      ensures sent == old(sent) + Attempts(old(clients), TempMessage(p, now), sendOk)
    {
      var data := Envelope(TempDict(p), "temp", now);
      Broadcast(data, sendOk);
    }
  }
}
