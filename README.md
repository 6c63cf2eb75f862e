# Pico W telemetry agent and BitDogLab relay server, modelled in Dafny

The system has two parts.

- **The firmware** (`pico_monitor_iot.c`) runs on a Raspberry Pi Pico W.
  Once a second it toggles a heartbeat LED. It then sends three HTTP/1.1
  `POST` requests over lwIP's raw TCP API:
  - a joystick message to `/joystick`, holding the normalised coordinates
    and a compass-rose label;
  - a buttons message to `/botoes`;
  - a CPU temperature message to `/temp`.
- **The relay server** (`main.py`, FastAPI) accepts these posts. It tags each
  payload with its `type`, fills in a missing timestamp, and broadcasts the
  result to every WebSocket dashboard that is connected. Dashboards whose
  send fails are dropped.

The model follows the program's structure, one module per concern:

| module | file | what it holds |
|---|---|---|
| `Text` | `text.dfy` | `snprintf`'s bounded copy, `%d` as `Dec` with its inverse `ParseDec`, and the small splitting helpers the reference HTTP reader uses |
| `Compass` | `compass.dfy` | `rosa`, the dead zone, and a reference definition of the eight 45° arcs |
| `Joystick` | `joystick.dfy` | the 12-bit normalisation and `joystick_ler` |
| `Encoder` | `encoder.dfy` | the three JSON bodies and the buffers they are formatted into |
| `Http` | `http.dfy` | the request `enviar_json` formats, and a line-based reader standing for the receiving server; the reader takes exactly `Content-Length` bytes after the blank line as the body, as section 6.3 of RFC 9112 prescribes, and rejects a message that ends early |
| `Lwip` | `lwip.dfy` | a `Board` class that logs every lwIP and LED call in order, plus the per-pcb connection state read off that log |
| `Transmission` | `transmission.dfy` | `enviar_json` and `tcp_finish` as methods on the board |
| `Firmware` | `firmware.dfy` | the main loop's state (`t0`, `led_toggle`'s static `state`) as the `Monitor` class, and its 1-second tick |
| `Server` | `server.dfy` | the payload envelope, and the client list as the `Hub` class: `_broadcast`, accept/disconnect, and the three routes |

Hardware readings are parameters of the operations that use them:
- ADC counts and button pin levels;
- the angle `atan2f` would return;
- the `%.3f`/`%.2f` renderings of floats;
- the outcome of `tcp_connect`;
- the outcome of each WebSocket send;
- the server's clock.

`hw_config.h` (`SERVER_IP`, `SERVER_PORT`, pin numbers) is not part of this model. The address and port are the `Http.Config` parameter.

The comment on `InfoJoy.direcao` (pico_monitor_iot.c line 69) gives English labels ("north", "south", ...). `rosa` (lines 76-95) returns Portuguese strings (`"Leste"`, `"Norte"`, ..., and `"none"`), and the model follows those strings.

## Model

| member | source | states |
|---|---|---|
| Compass.Rosa | pico_monitor_iot/pico_monitor_iot.c:73-96 | the result is "none" exactly when both coordinates are strictly within 0.2 of the centre, whatever the angle |
| Compass.RosaMatchesSector | pico_monitor_iot/pico_monitor_iot.c:78-95 | outside the dead zone, for every angle in [-180, 180], `rosa` returns direction d if and only if the angle lies in d's half-open 45° arc centred on d's own bearing (West's arc wraps past ±180) |
| Compass.SectorsPartition | pico_monitor_iot/pico_monitor_iot.c:79-95 | every angle in [-180, 180] belongs to exactly one of the eight arcs |
| Compass.RosaHalfOpen | pico_monitor_iot/pico_monitor_iot.c:79-94 | with b_i = -157.5 + 45i, every angle in [b_i, b_(i+1)) is classified as sector i; each sector is closed below and open above |
| Compass.RosaWestWraps | pico_monitor_iot/pico_monitor_iot.c:79-95 | both the tail below -157.5 and the range from 157.5 up give "Oeste" |
| Compass.RosaBoundaryExamples | pico_monitor_iot/pico_monitor_iot.c:85-90 | -22.5 gives "Leste", 22.5 gives "Nordeste", and each direction's own bearing (0, 45, ..., 180, -135, -90, -45) gives that direction |
| Compass.LabelInjective | pico_monitor_iot/pico_monitor_iot.c:76-95 | the nine results are nine distinct strings |
| Joystick.Normalize | pico_monitor_iot/pico_monitor_iot.c:125-135 | with MEIO = 2047.5, every reading in 0..4095 maps into [-1, 1]; the result is -1 exactly for 0, +1 exactly for 4095, and negative exactly for readings up to 2047 |
| Joystick.NormalizeInverse | pico_monitor_iot/pico_monitor_iot.c:125-135 | scaling back by MEIO recovers the raw reading |
| Joystick.NormalizeMonotone | pico_monitor_iot/pico_monitor_iot.c:134-135 | larger readings give strictly larger values |
| Joystick.NormalizeSymmetric | pico_monitor_iot/pico_monitor_iot.c:125-135 | readings mirrored about the centre give opposite values; 2047 and 2048 give -1/4095 and +1/4095 |
| Joystick.JoystickLer | pico_monitor_iot/pico_monitor_iot.c:123-138 | both coordinates stay in [-1, 1] for 12-bit readings, and the direction is "none" exactly in the dead zone of the normalised pair |
| Joystick.DeadZoneRaw | pico_monitor_iot/pico_monitor_iot.c:123-138 | the direction is "none" if and only if both raw readings lie in 1639..2456 |
| Joystick.FullRightIsEast | pico_monitor_iot/pico_monitor_iot.c:123-138 | the readings (4095, 2048) give x = 1 and "Leste" when the angle is in East's arc; beyond `x = 1` this is `RosaHalfOpen` for sector 3, since the angle is an input |
| Encoder.Pressed | pico_monitor_iot/pico_monitor_iot.c:111-112 | the flag is 0 or 1, and it is 1 exactly when the pin reads low (active-low buttons) |
| Encoder.ButtonsJson | pico_monitor_iot/pico_monitor_iot.c:109-114 | the message is 24 characters long: `{ "btn1": ` and `, "btn2": ` and ` }` at fixed positions, with each flag digit equal to the inverted pin level |
| Encoder.ButtonsNotTruncated | pico_monitor_iot/pico_monitor_iot.c:183-184 | the 64-byte buffer never cuts the button message |
| Encoder.ButtonsRoundTrip | pico_monitor_iot/pico_monitor_iot.c:113 | a reader of the fixed format gets back exactly the two inverted pin levels |
| Encoder.ButtonsExample | pico_monitor_iot/pico_monitor_iot.c:109-114 | button 1 pressed and button 2 released give `{ "btn1": 1, "btn2": 0 }` |
| Encoder.JoystickJson | pico_monitor_iot/pico_monitor_iot.c:260-263 | the buffer keeps at most 159 bytes; the kept text is always a prefix of the full format; it is the whole format when the two renderings total at most 123 characters |
| Encoder.JoystickNotTruncated | pico_monitor_iot/pico_monitor_iot.c:260-263 | with renderings of at most six characters (`%.3f` of a value in [-1, 1]), the message is whole, at most 48 bytes, and ends with the direction's label in quotes |
| Encoder.TempJson | pico_monitor_iot/pico_monitor_iot.c:208-209 | the buffer keeps at most 63 bytes, always a prefix of `{ "temp": <t> }`, and all of it for renderings of at most 51 characters |
| Text.Dec | pico_monitor_iot/pico_monitor_iot.c:170-174 | `%d` of a non-negative number is a non-empty string of decimal digits, with a leading zero only for 0; `ParseDecDec` reads it back |
| Text.Snprintf | pico_monitor_iot/pico_monitor_iot.c:168-174 | the buffer keeps the first size-1 characters of the formatted text, or all of it when it is shorter |
| Text.ParseDecDec | pico_monitor_iot/pico_monitor_iot.c:170-174 | reading back the `%d` rendering of a non-negative number gives the number |
| Text.DecInjective | pico_monitor_iot/pico_monitor_iot.c:170-174 | distinct numbers print differently under `%d` |
| Text.DecLength | pico_monitor_iot/pico_monitor_iot.c:170-174 | a number below 10^k prints in at most k digits |
| Http.FormatRequest | pico_monitor_iot/pico_monitor_iot.c:167-174 | the request buffer holds at most 511 bytes, always a prefix of the full request text, and the whole text whenever that fits |
| Http.RequestLineRoundTrip | pico_monitor_iot/pico_monitor_iot.c:169 | for a path without spaces or CR, the request line reads back as `POST <path> HTTP/1.1` with exactly that path |
| Http.FieldsLayout | pico_monitor_iot/pico_monitor_iot.c:171-174 | after the Content-Type and Content-Length lines and the blank line, the reader takes exactly the declared number of bytes as the body, and rejects a remainder shorter than that |
| Http.FieldsRoundTrip | pico_monitor_iot/pico_monitor_iot.c:171-174 | the fields and body the firmware writes read back as the body's length and exactly the body, whatever bytes follow it |
| Http.FieldsShortBodyRejected | pico_monitor_iot/pico_monitor_iot.c:172-174 | a message whose body is shorter than its Content-Length is rejected |
| Http.RequestRoundTrip | pico_monitor_iot/pico_monitor_iot.c:168-174 | the receiver recovers the path, `host:port` and exactly the JSON body, and the declared Content-Length equals the body's length |
| Http.FirmwareRequestFits | pico_monitor_iot/pico_monitor_iot.c:167-174 | bodies of at most 159 bytes, paths of at most 9, a dotted IPv4 address and a 16-bit port produce at most 268 bytes, so `snprintf` never truncates the request |
| Lwip.Board.constructor | pico_monitor_iot/pico_monitor_iot.c:161 | a new board has an empty log and numbers its first pcb 0, so every pcb number is fresh |
| Lwip.FreshAtStart | pico_monitor_iot/pico_monitor_iot.c:161 | before any call, no pcb's state has been changed |
| Lwip.FreshNamedBelow | pico_monitor_iot/pico_monitor_iot.c:161 | while the numbers from `next` on are fresh, every pcb whose state the log has changed, a refused one among them, lies below `next` |
| Lwip.Board.NewPcb | pico_monitor_iot/pico_monitor_iot.c:161 | `tcp_new` hands out the next pcb number, advances the counter so no later call reuses it, and logs the call |
| Lwip.Board.Call | pico_monitor_iot/pico_monitor_iot.c:151-178 | `tcp_write`, `tcp_output`, `tcp_recv`, `tcp_recved`, `pbuf_free` and `tcp_close` are appended to the log as made, in order, and allocate no pcb |
| Lwip.Board.Connect | pico_monitor_iot/pico_monitor_iot.c:164 | `tcp_connect` is logged with the configured address and port, and reports the environment's outcome |
| Transmission.EnviarJson | pico_monitor_iot/pico_monitor_iot.c:159-179 | the send appends exactly one fresh `tcp_new` and one `tcp_connect`; after a refused connect nothing else is appended; otherwise the formatted request is written with its length, then flushed, then handed to `tcp_recv`; if the numbers from `nextPcb` on were fresh, those after the new pcb still are |
| Transmission.SendRefused | pico_monitor_iot/pico_monitor_iot.c:164-165 | after a refused connect nothing is written, flushed, registered or closed, and the pcb stays connecting |
| Transmission.SendAccepted | pico_monitor_iot/pico_monitor_iot.c:176-178 | after an accepted connect there are exactly five calls: the write of the buffer with `strlen(req)` bytes (a prefix of the request, at most 511 bytes), then output, then recv; the pcb ends waiting |
| Transmission.SendIsolated | pico_monitor_iot/pico_monitor_iot.c:159-179 | a send touches no other pcb and never the LED |
| Transmission.SendKeepsOthers | pico_monitor_iot/pico_monitor_iot.c:159-179 | a send leaves every other pcb in the state it was in |
| Transmission.LeakSurvivesSend | pico_monitor_iot/pico_monitor_iot.c:159-165 | a pcb left connecting by a refused connect stays connecting through any later send on another pcb |
| Transmission.FreshAfterSend | pico_monitor_iot/pico_monitor_iot.c:159-179 | a send opens pcb `next` and changes the state of no higher number, so the numbers from `next + 1` on stay fresh |
| Transmission.FreshAfterFinish | pico_monitor_iot/pico_monitor_iot.c:143-157 | `tcp_finish` on a pcb it is registered on (waiting, or already closed by an earlier call) changes no fresh number |
| Transmission.LeakSurvivesFreshSend | pico_monitor_iot/pico_monitor_iot.c:159-165 | while the numbers from `next` on are fresh, the next send's `tcp_new` gives a pcb other than any refused one, which therefore stays connecting; the numbers from `next + 1` on stay fresh |
| Transmission.LeakSurvivesFinish | pico_monitor_iot/pico_monitor_iot.c:143-157 | it also stays connecting through any `tcp_finish`, which runs only on pcbs it is registered on: waiting ones, and ones it has already closed |
| Transmission.FinishLeavesRegistered | pico_monitor_iot/pico_monitor_iot.c:148-156 | after `tcp_finish` the pcb is closed but still registered, since `tcp_close` does not unregister the callback; a repeated call, such as the one for the peer's FIN, closes it again |
| Transmission.FinishIsolated | pico_monitor_iot/pico_monitor_iot.c:143-157 | the callback touches no pcb but its own |
| Transmission.PendingUntilTouched | pico_monitor_iot/pico_monitor_iot.c:164-178 | until a later call changes its state, a sent connection stays waiting if accepted; if refused it stays connecting and is never closed, so it leaks |
| Transmission.TcpFinish | pico_monitor_iot/pico_monitor_iot.c:143-157 | on a pcb it is registered on (left waiting by line 178's `tcp_recv`, or already closed by an earlier call, since line 155 closes without unregistering), the callback returns `ERR_OK` for every buffer and error, appends exactly its calls to the log, and keeps the fresh pcb numbers fresh |
| Transmission.FinishAlwaysCloses | pico_monitor_iot/pico_monitor_iot.c:148-156 | with a buffer, the callback acknowledges `tot_len` bytes and frees the buffer, both before the close; without one, it only closes; in both cases the last call is `tcp_close` on the pcb, which ends `Closed` (meaning `tcp_close` was called on it) |
| Firmware.ToggleKeepsHeartbeat | pico_monitor_iot/pico_monitor_iot.c:225-227 | writing the stored state and flipping it keeps the LED writes alternating false, true, false, ... |
| Firmware.FinishKeepsHeartbeat | pico_monitor_iot/pico_monitor_iot.c:143-157 | the completion callback never disturbs the heartbeat |
| Firmware.SendKeepsHeartbeat | pico_monitor_iot/pico_monitor_iot.c:159-179 | a send never disturbs the heartbeat |
| Firmware.Monitor.constructor | pico_monitor_iot/pico_monitor_iot.c:244 | `t0` starts at the clock reading and the LED state starts false |
| Firmware.Monitor.LedToggle | pico_monitor_iot/pico_monitor_iot.c:223-228 | writes the old state to the LED pin and then flips the state; the heartbeat invariant is kept |
| Firmware.Monitor.Tick | pico_monitor_iot/pico_monitor_iot.c:246-273 | the tick fires exactly when at least 1 000 000 µs have elapsed since `t0`. On firing it resets `t0`, toggles the LED once, then sends to `/joystick`, `/botoes` and `/temp` in that order on three fresh pcbs. Otherwise nothing changes. The LED writes always alternate, and if the numbers from `nextPcb` on were fresh they still are |
| Firmware.Monitor.SendReadings | pico_monitor_iot/pico_monitor_iot.c:258-270 | the three sends of a tick, in source order, on consecutive pcbs, keeping the heartbeat |
| Firmware.Monitor.Send | pico_monitor_iot/pico_monitor_iot.c:159-179 | one `enviar_json` call on the next pcb; the heartbeat is kept |
| Firmware.SendDelivers | pico_monitor_iot/pico_monitor_iot.c:159-179 | for any firmware-sized body, an accepted send writes a request from which the receiver reads back that body, correctly framed |
| Firmware.LeakSurvivesTick | pico_monitor_iot/pico_monitor_iot.c:246-273 | a pcb left connecting stays connecting through a tick whose sends open pcbs above it |
| Firmware.FreshAfterTick | pico_monitor_iot/pico_monitor_iot.c:246-273 | a tick opens pcbs `next` to `next + 2` and changes the state of no higher number, so the numbers from `next + 3` on stay fresh |
| Firmware.LeakSurvivesFreshTick | pico_monitor_iot/pico_monitor_iot.c:246-273 | while the numbers from `next` on are fresh, a pcb left connecting stays connecting through the next tick, and the numbers from `next + 3` on stay fresh, so the same holds for every later tick |
| Firmware.SendsKeep | pico_monitor_iot/pico_monitor_iot.c:256-270 | three sends to `/joystick`, `/botoes` and `/temp` on pcbs other than `pcb` leave it in whatever state it was, whatever the messages and connect outcomes |
| Firmware.TickSendsInOrder | pico_monitor_iot/pico_monitor_iot.c:256-270 | when all three connects are accepted, a tick makes 16 calls: first the LED write, then the whole requests for `/joystick`, `/botoes` and `/temp`, with their own messages, on pcbs p, p+1 and p+2, each written with its exact length |
| Firmware.SendWritesWhole | pico_monitor_iot/pico_monitor_iot.c:167-176 | an accepted send of a firmware-sized body writes the whole, untruncated request text with its exact length |
| Firmware.WholeDelivers | pico_monitor_iot/pico_monitor_iot.c:168-176 | a whole request written for a path without spaces or CR, to an address without CR, reaches the receiver with that path and exactly its body, correctly framed |
| Server.Envelope | bitdoglab_server/app/main.py:47-49 | the message has the payload's keys plus `type`, with `type` set to the route's tag and every other field unchanged; `ts` is kept when truthy and replaced by the clock reading when None or 0 |
| Server.EnvelopeIdempotent | bitdoglab_server/app/main.py:48-49 | with a clock that never reads 0, the envelope leaves a truthy `ts`, and enveloping again changes nothing |
| Server.BotoesMessageShape | bitdoglab_server/app/main.py:45-50 | the `/botoes` message is exactly `btn1`, `btn2`, the effective timestamp and `type = "botoes"` |
| Server.JoystickMessageShape | bitdoglab_server/app/main.py:52-57 | the `/joystick` message is exactly `x`, `y`, `rosa`, the effective timestamp and `type = "joystick"` |
| Server.TempMessageShape | bitdoglab_server/app/main.py:59-64 | the `/temp` message is exactly `temp`, the effective timestamp and `type = "temp"` |
| Server.Survivors | bitdoglab_server/app/main.py:34-42 | the broadcast never adds clients: the surviving list is no longer than the original |
| Server.SurvivorsMembers | bitdoglab_server/app/main.py:35-42 | a client survives if and only if it was registered and its send succeeded |
| Server.SurvivorsInOrder | bitdoglab_server/app/main.py:34-42 | the survivors keep their original relative order |
| Server.SurvivorsAllOk | bitdoglab_server/app/main.py:35-38 | when every send succeeds, the list is unchanged |
| Server.SurvivorsIdempotent | bitdoglab_server/app/main.py:34-42 | a second broadcast under the same outcomes drops nobody |
| Server.FirstIndex | bitdoglab_server/app/main.py:79 | the index found holds the socket, and no earlier index does |
| Server.RemoveFirst | bitdoglab_server/app/main.py:79 | `list.remove` shortens the list by one and removes one copy of the socket, as multisets |
| Server.RemoveFirstPositions | bitdoglab_server/app/main.py:79 | elements before the first occurrence stay put; those after it move up by one |
| Server.AcceptThenRemove | bitdoglab_server/app/main.py:69-79 | accepting a new socket and then unregistering it restores the client list |
| Server.Hub.constructor | bitdoglab_server/app/main.py:31 | the client list starts empty |
| Server.Hub.Broadcast | bitdoglab_server/app/main.py:33-42 | every client is sent the message exactly once, in list order, whether or not earlier sends failed; afterwards the list holds exactly the survivors, in order |
| Server.Hub.Accept | bitdoglab_server/app/main.py:69-70 | the accepted socket is appended at the end |
| Server.Hub.Disconnect | bitdoglab_server/app/main.py:77-79 | the socket's first occurrence is removed if it is present; otherwise the list is unchanged |
| Server.Hub.Botoes | bitdoglab_server/app/main.py:45-50 | the enveloped `/botoes` payload is broadcast |
| Server.Hub.Joystick | bitdoglab_server/app/main.py:52-57 | the enveloped `/joystick` payload is broadcast |
| Server.Hub.Temperatura | bitdoglab_server/app/main.py:59-64 | the enveloped `/temp` payload is broadcast |

## Left out

- Wi-Fi bring-up (`wifi_conectar`) and the halting `check` helper (pico_monitor_iot.c lines 33-60): hardware and network I/O.
- ADC and GPIO calls: joystick counts and button pin levels are inputs. `adc_read` is assumed to return 12-bit values; `Normalize` is total over `nat` and states its range for 0..4095.
- `atan2f`: the angle of the normalised pair is an input of `Rosa` and `JoystickLer`; nothing ties it to `(x, y)`.
- `float` arithmetic: the model computes over exact reals. The firmware compares against `0.2f` and the sector bounds in single precision, and divides by `MEIO` with rounding. The model's dead zone is therefore exact, and `Normalize` gives 2047 → -1/4095 precisely.
- `%.3f` and `%.2f` formatting: the renderings of the joystick coordinates and of the temperature are inputs (`Sample.xText`, `Sample.yText`, `Sample.tempText`). `JoystickNotTruncated` assumes renderings of at most six characters, as `%.3f` gives for values in [-1, 1].
- `read_cpu_temp` (lines 192-203): the temperature calibration is floating-point numerics of a sensor reading; only its rendering enters the model.
- `printf` console output (lines 185, 210, 272): I/O only.
- `cyw43_arch_poll` (line 248): this is where lwIP runs its callbacks, `tcp_finish` among them. When a callback fires is left to the environment. `TcpFinish` may be called between ticks on any pcb it is registered on: a waiting one, or one it has already closed, when the peer's FIN follows the data. `FinishKeepsHeartbeat`, `LeakSurvivesFinish` and `FreshAfterFinish` cover whatever such calls happen.
- Bytes versus characters: `strlen`, `snprintf`'s size and `Content-Length` count bytes, and the model counts Dafny characters (`|json|`, `Snprintf`'s size - 1). The two agree because every string involved is ASCII: the labels, the digits, the `%.3f`/`%.2f` renderings and a dotted IPv4 address. Nothing in the model constrains `Sample.xText`, `Sample.yText`, `Sample.tempText` or `Config.serverIp` to ASCII.
- `ipaddr_aton`: the address string is logged as given. The model does not parse it.
- `tcp_new` returning NULL, errors from `tcp_write`/`tcp_output`, and `tcp_close` failing with `ERR_MEM` (line 155): the firmware checks none of them. `Board.NewPcb` always yields a fresh pcb, and the later calls are logged without outcomes. `Closed` therefore means "`tcp_close` was called", not that lwIP released the pcb.
- The pcb leaked after a refused `tcp_connect` is modelled as the firmware does it: it is never closed. `PendingUntilTouched` states this up to the next call that changes the pcb's state. A new board starts with every pcb number fresh (`Fresh`). `EnviarJson`, `TcpFinish` and `Monitor.Tick` keep the numbers from `nextPcb` on fresh. `LeakSurvivesFreshSend`, `LeakSurvivesFinish` and `LeakSurvivesFreshTick` then show that no later send, callback or tick changes the leaked pcb's state. No cleanup is added.
- `Board.Connect` and `Board.Call` accept any pcb, as the lwIP functions do. Only the firmware's own use of them, through `EnviarJson` and `TcpFinish`, is proved to keep the numbering fresh.
- `tcp_finish`'s `arg` and `err` parameters are ignored by the firmware. `TcpFinish` takes `err` and ignores it as well.
- Real TCP behaviour (connection establishment, pbuf chains, when lwIP invokes `tcp_finish`): the board only logs calls. The connection state is read off that log.
- The clock: `Tick` takes its two readings of `get_absolute_time` as parameters. The `1e6` comparison is modelled on integers.
- FastAPI and pydantic validation, FastAPI's response codes, and the JSON encoding of `send_json`: the routes take typed payloads and hand a `Dict` to the broadcast.
- WebSocket I/O and `receive_text`: the outcome of each send is the parameter `sendOk`. `ws_endpoint` is modelled as its two effects, `Accept` and `Disconnect`.
- `Hub.Broadcast`: the outcome of a send is a function of the socket alone, so within one broadcast a socket listed twice gets the same outcome both times.
- `datetime.utcnow().timestamp()`: the clock reading is the parameter `now`.
- Concurrency: `async` interleavings between `_broadcast` and `ws_endpoint` are left out, and each operation is atomic.
- Python dict key order: a `Dict` is an unordered map.
