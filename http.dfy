/**
 The HTTP/1.1 request `enviar_json` writes: a `POST` request line, the
 `Host`, `Content-Type` and `Content-Length` header fields, the blank line
 and the JSON body, formatted by `snprintf` into a 512-byte buffer. A small
 reader of exactly that shape stands for the receiving server: it takes as
 the body exactly `Content-Length` bytes after the header section, as
 section 6.3 of RFC 9112 prescribes, and rejects a message that ends early.
 */
module Http {
  import Text

  /** The server address and port, fixed at build time (`SERVER_IP`,
      `SERVER_PORT`). */
  datatype Config = Config(serverIp: string, serverPort: nat)

  const CRLF: string := "\r\n"

  /** The text the request format expands to, before the buffer bound: four
      lines ended by CRLF, an empty line, and the body. */
  function RequestText(cfg: Config, endpt: string, json: string): string {
    RequestLine(endpt) + CRLF
    + HostLine(cfg) + CRLF
    + ContentTypeLine + CRLF
    + ContentLengthLine(|json|) + CRLF
    + CRLF
    + json
  }

  function RequestLine(endpt: string): string {
    "POST " + endpt + " HTTP/1.1"
  }

  function HostLine(cfg: Config): string {
    "Host: " + cfg.serverIp + ":" + Text.Dec(cfg.serverPort)
  }

  const ContentTypeLine: string := "Content-Type: application/json"

  function ContentLengthLine(n: nat): string {
    "Content-Length: " + Text.Dec(n)
  }

  /** What `snprintf(req, 512, ...)` leaves in the request buffer. */
  function FormatRequest(cfg: Config, endpt: string, json: string): (req: string)
    ensures |req| <= 511
    ensures req <= RequestText(cfg, endpt, json)
    ensures |RequestText(cfg, endpt, json)| <= 511 ==> req == RequestText(cfg, endpt, json)
  {
    Text.Snprintf(RequestText(cfg, endpt, json), 512)
  }

  /** The parts of a request as the receiver sees them. */
  datatype Request = Request(path: string, host: string, contentLength: nat, body: string)

  /** One line terminated by CRLF, and what follows it. */
  function ReadLine(s: string): (r: Text.Option<(string, string)>)
    ensures r.Some? ==> '\r' !in r.value.0 && s == r.value.0 + CRLF + r.value.1
  {
    match Text.SplitAt(s, '\r')
    case None => Text.None
    case Some(p) =>
      if p.1 != [] && p.1[0] == '\n' then Text.Some((p.0, p.1[1..])) else Text.None
  }

  lemma ReadLineJoin(line: string, rest: string)
    requires '\r' !in line
    ensures ReadLine(line + CRLF + rest) == Text.Some((line, rest))
  {
    assert line + CRLF + rest == line + ['\r'] + (['\n'] + rest);
    Text.SplitAtJoin(line, '\r', ['\n'] + rest);
  }

  /** Reads a request of the firmware's shape line by line: the request line
      `POST <path> HTTP/1.1`, the `Host`, `Content-Type` and
      `Content-Length` field lines in that order, the empty line, and then
      exactly `Content-Length` bytes as the body; a message that ends
      before them is rejected. */
  function ParseRequest(req: string): (r: Text.Option<Request>)
    ensures r.Some? ==> ' ' !in r.value.path && '\r' !in r.value.host
    ensures r.Some? ==> WellFramed(r.value)
  {
    match ReadLine(req)
    case None => Text.None
    case Some(l1) =>
      match ParseRequestLine(l1.0)
      case None => Text.None
      case Some(path) =>
        match ReadLine(l1.1)
        case None => Text.None
        case Some(l2) =>
          match Text.StripPrefix(l2.0, "Host: ")
          case None => Text.None
          case Some(host) =>
            match ParseFields(l2.1)
            case None => Text.None
            case Some(f) => Text.Some(Request(path, host, f.0, f.1))
  }

  /** `POST <path> HTTP/1.1`. */
  function ParseRequestLine(line: string): (r: Text.Option<string>)
    ensures r.Some? ==> ' ' !in r.value
  {
    match Text.StripPrefix(line, "POST ")
    case None => Text.None
    case Some(target) =>
      match Text.SplitAt(target, ' ')
      case None => Text.None
      case Some(p) => if p.1 == "HTTP/1.1" then Text.Some(p.0) else Text.None
  }

  /** The `Content-Type` line, the `Content-Length` line, the empty line,
      then exactly as many bytes of body as the declared length; a message
      shorter than its declared length is rejected and bytes beyond it are
      not part of the body. */
  function ParseFields(s: string): (r: Text.Option<(nat, string)>)
    ensures r.Some? ==> |r.value.1| == r.value.0
  {
    match ReadLine(s)
    case None => Text.None
    case Some(l3) =>
      if l3.0 != "Content-Type: application/json" then Text.None
      else match ReadLine(l3.1)
        case None => Text.None
        case Some(l4) =>
          match Text.StripPrefix(l4.0, "Content-Length: ")
          case None => Text.None
          case Some(digits) =>
            if digits == [] || !Text.AllDigits(digits) then Text.None
            else match ReadLine(l4.1)
              case None => Text.None
              case Some(l5) =>
                var n := Text.ParseDec(digits);
                if l5.0 != [] || |l5.1| < n then Text.None
                else Text.Some((n, l5.1[..n]))
  }

  /** A message is framed correctly when its declared length is the length of
      the body that follows the header section. */
  predicate WellFramed(r: Request) {
    r.contentLength == |r.body|
  }

  /** The field lines declaring `n` bytes, followed by `body`: the first `n`
      bytes of `body` when there are that many, a rejection otherwise. */
  lemma FieldsLayout(n: nat, body: string)
    ensures ParseFields(ContentTypeLine + CRLF + ContentLengthLine(n) + CRLF + CRLF + body)
         == if |body| < n then Text.None else Text.Some((n, body[..n]))
  {
    var cl := ContentLengthLine(n);
    assert '\r' !in cl by {
      assert Text.AllDigits(Text.Dec(n));
      forall i | 0 <= i < |cl| ensures cl[i] != '\r' {
        if i >= 16 { assert cl[i] == Text.Dec(n)[i - 16]; }
      }
    }
    var rest3 := [] + CRLF + body;
    var rest2 := cl + CRLF + rest3;
    assert ContentTypeLine + CRLF + cl + CRLF + CRLF + body == ContentTypeLine + CRLF + rest2;
    ReadLineJoin(ContentTypeLine, rest2);
    ReadLineJoin(cl, rest3);
    ReadLineJoin([], body);
    assert Text.StripPrefix(cl, "Content-Length: ") == Text.Some(Text.Dec(n));
    Text.ParseDecDec(n);
  }

  /** The field lines declaring `|json|` bytes, then `json`, read back as
      exactly `json`, whatever follows it. */
  lemma FieldsRoundTrip(json: string, extra: string)
    ensures ParseFields(ContentTypeLine + CRLF + ContentLengthLine(|json|) + CRLF + CRLF + (json + extra))
         == Text.Some((|json|, json))
  {
    FieldsLayout(|json|, json + extra);
    assert (json + extra)[..|json|] == json;
  }

  /** A body shorter than the declared length is rejected. */
  lemma FieldsShortBodyRejected(n: nat, body: string)
    requires |body| < n
    ensures ParseFields(ContentTypeLine + CRLF + ContentLengthLine(n) + CRLF + CRLF + body) == Text.None
  {
    FieldsLayout(n, body);
  }

  lemma RequestLineRoundTrip(endpt: string)
    requires ' ' !in endpt && '\r' !in endpt
    ensures '\r' !in RequestLine(endpt)
    ensures ParseRequestLine(RequestLine(endpt)) == Text.Some(endpt)
  {
    var line := RequestLine(endpt);
    forall i | 0 <= i < |line| ensures line[i] != '\r' {
      if 5 <= i < 5 + |endpt| { assert line[i] == endpt[i - 5]; }
    }
    assert line == "POST " + (endpt + [' '] + "HTTP/1.1");
    Text.SplitAtJoin(endpt, ' ', "HTTP/1.1");
  }

  lemma HostLineNoCR(cfg: Config)
    requires '\r' !in cfg.serverIp
    ensures '\r' !in HostLine(cfg)
  {
    var ip, dp := cfg.serverIp, Text.Dec(cfg.serverPort);
    var line := HostLine(cfg);
    assert Text.AllDigits(dp);
    forall i | 0 <= i < |line| ensures line[i] != '\r' {
      if 6 <= i < 6 + |ip| { assert line[i] == ip[i - 6]; }
      else if i > 6 + |ip| { assert line[i] == dp[i - 7 - |ip|]; }
    }
  }

  lemma Regroup(a: string, crlf: string, b: string, c: string, d: string, e: string)
    ensures a + crlf + b + crlf + c + crlf + d + crlf + crlf + e
         == a + crlf + (b + crlf + (c + crlf + d + crlf + crlf + e))
  {
  }

  /** The receiver recovers the path, the `host:port` value and exactly the
      JSON body, and the declared length frames that body, provided the path
      holds no space or CR and the address no CR. */
  lemma RequestRoundTrip(cfg: Config, endpt: string, json: string)
    requires ' ' !in endpt && '\r' !in endpt && '\r' !in cfg.serverIp
    ensures ParseRequest(RequestText(cfg, endpt, json))
         == Text.Some(Request(endpt, cfg.serverIp + ":" + Text.Dec(cfg.serverPort), |json|, json))
    ensures WellFramed(ParseRequest(RequestText(cfg, endpt, json)).value)
  {
    var host := cfg.serverIp + ":" + Text.Dec(cfg.serverPort);
    var fields := ContentTypeLine + CRLF + ContentLengthLine(|json|) + CRLF + CRLF + json;
    Regroup(RequestLine(endpt), CRLF, HostLine(cfg), ContentTypeLine, ContentLengthLine(|json|), json);
    RequestLineRoundTrip(endpt);
    HostLineNoCR(cfg);
    assert HostLine(cfg) == "Host: " + host;
    FieldsLayout(|json|, json);
    assert json[..|json|] == json;
    ParseRequestOfLines(RequestLine(endpt), HostLine(cfg), fields, endpt, host, |json|, json);
  }

  /** `ParseRequest` layer by layer: two CRLF-ended lines and the fields. */
  lemma ParseRequestOfLines(requestLine: string, hostLine: string, fields: string,
                            path: string, host: string, n: nat, body: string)
    requires '\r' !in requestLine && '\r' !in hostLine
    requires ParseRequestLine(requestLine) == Text.Some(path)
    requires hostLine == "Host: " + host
    requires ParseFields(fields) == Text.Some((n, body))
    ensures ParseRequest(requestLine + CRLF + (hostLine + CRLF + fields))
         == Text.Some(Request(path, host, n, body))
  {
    ReadLineJoin(requestLine, hostLine + CRLF + fields);
    ReadLineJoin(hostLine, fields);
    assert Text.StripPrefix(hostLine, "Host: ") == Text.Some(host);
  }

  /** The buffer bound never bites for the firmware's messages: bodies of at
      most 159 bytes, paths of at most 9 (`/joystick`), a dotted IPv4 address
      and a 16-bit port make at most 268 bytes. */
  lemma FirmwareRequestFits(cfg: Config, endpt: string, json: string)
    requires |json| <= 159 && |endpt| <= 9
    requires |cfg.serverIp| <= 15 && cfg.serverPort <= 65535
    ensures |RequestText(cfg, endpt, json)| <= 268
    ensures FormatRequest(cfg, endpt, json) == RequestText(cfg, endpt, json)
  {
    assert Text.Pow10(3) == 1000 by {
      assert Text.Pow10(1) == 10;
      assert Text.Pow10(2) == 100;
    }
    assert Text.Pow10(5) == 100000 by {
      assert Text.Pow10(3) == 1000;
      assert Text.Pow10(4) == 10000;
    }
    Text.DecLength(|json|, 3);
    Text.DecLength(cfg.serverPort, 5);
  }
}
