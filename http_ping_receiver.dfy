/**
 * `HttpPingReceiver`: runs the deferred check, sends its JSON to a
 * monitoring endpoint and reports whether the endpoint answered with a 2xx
 * status. JSON encoding, the HTTP request and base64 decoding are the
 * caller's oracles (`Network`).
 */
module HttpPingReceivers {
  import opened Php
  import opened Results

  /** The deferred check handed to a receiver: it returns a result or throws. */
  type Closure = () -> Outcome<Result>

  datatype HttpPingReceiver = HttpPingReceiver(
    url: string,
    httpMethod: string,
    headers: seq<string>,
    timeout: int,
    extra: seq<(string, Value)>)

  /** `new HttpPingReceiver($url)`: POST, no headers, 5 seconds, no extra data. */
  function NewHttpPingReceiver(url: string): (p: HttpPingReceiver)
    ensures p.url == url && p.httpMethod == "POST" && p.headers == [] && p.timeout == 5 && p.extra == []
  {
    HttpPingReceiver(url, "POST", [], 5, [])
  }

  /** The `http` options of the stream context the request is sent with. */
  datatype HttpContext = HttpContext(
    ignoreErrors: bool,
    httpMethod: string,
    timeout: int,
    header: seq<string>,
    content: string)

  /**
   * The outside world of a ping: `json_encode` (None where it throws),
   * `@get_headers` (None where it gives `false` or throws) and
   * `base64_decode`.
   */
  datatype Network = Network(
    jsonEncode: Value -> Option<string>,
    getHeaders: (string, HttpContext) -> Option<seq<string>>,
    base64Decode: string -> string)

  /** The encoded document: `health_check` holding the check's JSON form and the extra data as an object. */
  function Payload(result: Result, extra: seq<(string, Value)>): (v: Value)
    ensures v.VArray? && |v.entries| == 1
  {
    VArray([("health_check", VArray([("result", JsonSerialize(result)), ("extra", CastToObject(VArray(extra)))]))])
  }

  /** The document has the one key `health_check`, holding `result` and `extra`, in that order. */
  lemma PayloadShape(result: Result, extra: seq<(string, Value)>)
    ensures var v := Payload(result, extra);
      && v.VArray? && Keys(v.entries) == ["health_check"]
      && v.entries[0].1.VArray? && Keys(v.entries[0].1.entries) == ["result", "extra"]
      && v.entries[0].1.entries[0].1 == JsonSerialize(result)
      && v.entries[0].1.entries[1].1 == VObject(extra)
  {
    assert "result"[0] != "extra"[0];
    OneEntryOfTwo("health_check", "result", JsonSerialize(result), "extra", CastToObject(VArray(extra)));
  }

  lemma OneEntryOfTwo(key: string, k0: string, v0: Value, k1: string, v1: Value)
    requires k0 != k1
    ensures Keys([(key, VArray([(k0, v0), (k1, v1)]))]) == [key]
    ensures Keys([(k0, v0), (k1, v1)]) == [k0, k1]
  {
    assert [(key, VArray([(k0, v0), (k1, v1)]))][1..] == [];
    assert [(k0, v0), (k1, v1)][1..] == [(k1, v1)];
    assert [(k1, v1)][1..] == [];
  }

  /** An endpoint given with an `http://` or `https://` scheme is used as is; anything else is base64 of the URL. */
  function TargetUrl(url: string, base64Decode: string -> string): (target: string)
    ensures StartsWith(url, "http://") || StartsWith(url, "https://") ==> target == url
    ensures !(StartsWith(url, "http://") || StartsWith(url, "https://")) ==> target == base64Decode(url)
  {
    if StartsWith(url, "http://") || StartsWith(url, "https://") then url else base64Decode(url)
  }

  /** The request headers: the configured ones in order, then the content type and the length of the body. */
  function RequestHeaders(configured: seq<string>, data: string): seq<string> {
    configured + ["Content-Type: application/json", "Content-Length: " + IntToString(|data|)]
  }

  /** The context the request for body `data` is sent with. */
  function RequestContext(p: HttpPingReceiver, data: string): HttpContext {
    HttpContext(true, p.httpMethod, p.timeout, RequestHeaders(p.headers, data), data)
  }

  // ---------------------------------------------------------------------
  // The status line, `#^HTTP/\d+\.\d+\s+(\d{3})#`
  // ---------------------------------------------------------------------

  /** `\s` of PCRE without the UTF flag: space, tab, line feed, vertical tab, form feed, carriage return. */
  predicate IsSpace(c: char) {
    c == ' ' || '\t' <= c <= '\r'
  }

  /** The length of the run of digits `s` starts with. */
  function DigitRun(s: string): (n: nat)
    ensures n <= |s| && AllDigits(s[..n])
    ensures n < |s| ==> !IsDigit(s[n])
  {
    if s == [] || !IsDigit(s[0]) then 0 else 1 + DigitRun(s[1..])
  }

  /** The length of the run of white space `s` starts with. */
  function SpaceRun(s: string): (n: nat)
    ensures n <= |s| && forall i | 0 <= i < n :: IsSpace(s[i])
    ensures n < |s| ==> !IsSpace(s[n])
  {
    if s == [] || !IsSpace(s[0]) then 0 else 1 + SpaceRun(s[1..])
  }

  /**
   * The status code the first response header announces, if it has the
   * form `HTTP/<digits>.<digits><space...><three digits>`. Each run below
   * is maximal: a digit never matches `\.` or `\s`, and white space never
   * matches `\d`, so the pattern cannot match any other way.
   */
  function StatusCode(line: string): (code: Option<nat>)
    ensures code.Some? ==> StartsWith(line, "HTTP/") && code.value <= 999
  {
    if StartsWith(line, "HTTP/") then MajorVersion(line[5..]) else None
  }

  /** After `HTTP/`: one or more digits, then a dot. */
  function MajorVersion(version: string): (code: Option<nat>)
    ensures code.Some? ==> code.value <= 999
  {
    var major := DigitRun(version);
    if major == 0 || major == |version| || version[major] != '.' then None
    else MinorVersion(version[major + 1..])
  }

  /** After the dot: one or more digits. */
  function MinorVersion(afterDot: string): (code: Option<nat>)
    ensures code.Some? ==> code.value <= 999
  {
    var minor := DigitRun(afterDot);
    if minor == 0 then None else CodeAfterSpaces(afterDot[minor..])
  }

  /** After the version: one or more white-space characters, then the three digits captured. */
  function CodeAfterSpaces(afterVersion: string): (code: Option<nat>)
    ensures code.Some? ==> code.value <= 999
  {
    var spaces := SpaceRun(afterVersion);
    var digits := afterVersion[spaces..];
    if spaces == 0 || |digits| < 3 || !AllDigits(digits[..3]) then None
    else
      ThreeDigitsValue(digits[..3]);
      Some(DigitsValue(digits[..3]))
  }

  /** Three digits read as a number below a thousand. */
  lemma ThreeDigitsValue(d: string)
    requires |d| == 3 && AllDigits(d)
    ensures DigitsValue(d) <= 999
  {
    assert DigitsValue(d[..1]) <= 9 by {
      assert d[..1][..0] == [];
    }
    assert DigitsValue(d[..2]) <= 99 by {
      assert d[..2][..1] == d[..1];
    }
    assert d[..3] == d;
  }

  /** `$responseHeaders[0] ?? ''` after `?: []`: missing or empty headers give the empty line. */
  function FirstLine(response: Option<seq<string>>): string {
    match response
    case Some(hs) => if |hs| > 0 then hs[0] else ""
    case None => ""
  }

  predicate IsSuccess(code: Option<nat>) {
    code.Some? && 200 <= code.value <= 299
  }

  /**
   * What `pingUsing` reports, given what the deferred check produced: a
   * throwing check, a failing encoder or a response without a 2xx status
   * line give `false`.
   */
  function HttpPing(p: HttpPingReceiver, produced: Outcome<Result>, net: Network): (r: PingResult)
    ensures r.ok ==> produced.Return? && net.jsonEncode(Payload(produced.value, p.extra)).Some?
  {
    match produced
    case Throw(_) => PingResult(false)
    case Return(r) =>
      match net.jsonEncode(Payload(r, p.extra))
      case None => PingResult(false)
      case Some(data) =>
        PingResult(IsSuccess(StatusCode(FirstLine(net.getHeaders(TargetUrl(p.url, net.base64Decode), RequestContext(p, data))))))
  }

  /** `pingUsing($closure)`: invokes the check once and sends its JSON. */
  method PingUsing(p: HttpPingReceiver, closure: Closure, net: Network) returns (r: PingResult)
    ensures r == HttpPing(p, closure(), net)
  {
    var produced := closure();
    if produced.Throw? {
      return PingResult(false);
    }
    var encoded := net.jsonEncode(Payload(produced.value, p.extra));
    if encoded.None? {
      return PingResult(false);
    }
    var data := encoded.value;
    var headers := p.headers;
    headers := headers + ["Content-Type: application/json"];
    headers := headers + ["Content-Length: " + IntToString(|data|)];
    AppendTwo(p.headers, "Content-Type: application/json", "Content-Length: " + IntToString(|data|));
    var context := HttpContext(true, p.httpMethod, p.timeout, headers, data);
    assert context == RequestContext(p, data);
    var response := net.getHeaders(TargetUrl(p.url, net.base64Decode), context);
    var responseHeaders := if response.Some? then response.value else [];
    var line := if |responseHeaders| > 0 then responseHeaders[0] else "";
    assert line == FirstLine(response);
    var statusCode := StatusCode(line);
    r := PingResult(statusCode.Some? && 200 <= statusCode.value <= 299);
    SentPing(p, produced.value, net, data);
  }

  lemma AppendTwo(hs: seq<string>, a: string, b: string)
    ensures hs + [a] + [b] == hs + [a, b]
  {
  }

  /** Once the payload is encoded as `data`, the ping reports the status of the response to `data`. */
  lemma SentPing(p: HttpPingReceiver, r: Result, net: Network, data: string)
    requires net.jsonEncode(Payload(r, p.extra)) == Some(data)
    ensures HttpPing(p, Return(r), net)
         == PingResult(IsSuccess(StatusCode(FirstLine(net.getHeaders(TargetUrl(p.url, net.base64Decode), RequestContext(p, data))))))
  {
  }

  // ---------------------------------------------------------------------
  // Properties
  // ---------------------------------------------------------------------

  /** A check that throws, or a payload that cannot be encoded, is reported as a failed ping. */
  lemma FailuresBeforeSendingAreNotOk(p: HttpPingReceiver, produced: Outcome<Result>, net: Network)
    requires produced.Throw? || net.jsonEncode(Payload(produced.value, p.extra)).None?
    ensures !HttpPing(p, produced, net).ok
  {
  }

  /**
   * Otherwise the ping is ok exactly when the endpoint, asked with the
   * configured method, timeout and headers plus the two content headers,
   * answers with a first header of the form `HTTP/<digits>.<digits>`,
   * white space and three digits that read as a 2xx code.
   */
  lemma PingOkIffSuccessStatus(p: HttpPingReceiver, r: Result, net: Network, data: string)
    requires net.jsonEncode(Payload(r, p.extra)) == Some(data)
    ensures var response := net.getHeaders(TargetUrl(p.url, net.base64Decode), RequestContext(p, data));
      HttpPing(p, Return(r), net).ok <==>
        response.Some? && |response.value| > 0 &&
        exists ma, mi, sp, tail :: StatusLineParts(response.value[0], ma, mi, sp, tail) && 200 <= DigitsValue(tail[..3]) <= 299
  {
    var response := net.getHeaders(TargetUrl(p.url, net.base64Decode), RequestContext(p, data));
    SentPing(p, r, net, data);
    var first := FirstLine(response);
    if HttpPing(p, Return(r), net).ok {
      var code := StatusCode(first).value;
      assert first != "" by {
        assert !StartsWith("", "HTTP/");
      }
      assert first == response.value[0];
      var ma, mi, sp, tail := SplitStatusLine(first, code);
    }
    if response.Some? && |response.value| > 0 &&
       exists ma, mi, sp, tail :: StatusLineParts(response.value[0], ma, mi, sp, tail) && 200 <= DigitsValue(tail[..3]) <= 299
    {
      var ma, mi, sp, tail :| StatusLineParts(response.value[0], ma, mi, sp, tail) && 200 <= DigitsValue(tail[..3]) <= 299;
      StatusCodeOfParts(ma, mi, sp, tail);
      assert first == response.value[0];
    }
  }

  /** The request asks with the configured method and timeout, ignores HTTP errors and adds the two content headers. */
  lemma RequestContextShape(p: HttpPingReceiver, data: string)
    ensures var ctx := RequestContext(p, data);
      && ctx.ignoreErrors && ctx.httpMethod == p.httpMethod && ctx.timeout == p.timeout && ctx.content == data
      && |ctx.header| == |p.headers| + 2 && ctx.header[..|p.headers|] == p.headers
      && ctx.header[|p.headers|] == "Content-Type: application/json"
      && ctx.header[|p.headers| + 1] == "Content-Length: " + IntToString(|data|)
  {
    var hs := RequestHeaders(p.headers, data);
    assert hs[..|p.headers|] == p.headers;
  }

  /** Leading digits are counted up to the first character that is not a digit. */
  lemma {:induction false} DigitRunOfDigits(d: string, s: string)
    requires AllDigits(d)
    requires s == [] || !IsDigit(s[0])
    ensures DigitRun(d + s) == |d|
  {
    if d != [] {
      assert (d + s)[1..] == d[1..] + s;
      DigitRunOfDigits(d[1..], s);
    } else {
      assert d + s == s;
    }
  }

  /** Leading white space is counted up to the first character that is not white space. */
  lemma {:induction false} SpaceRunOfSpaces(w: string, s: string)
    requires forall i | 0 <= i < |w| :: IsSpace(w[i])
    requires s == [] || !IsSpace(s[0])
    ensures SpaceRun(w + s) == |w|
  {
    if w != [] {
      assert (w + s)[1..] == w[1..] + s;
      SpaceRunOfSpaces(w[1..], s);
    } else {
      assert w + s == s;
    }
  }

  lemma CodeAfterSpacesOfParts(spaces: string, tail: string)
    requires |spaces| > 0 && forall i | 0 <= i < |spaces| :: IsSpace(spaces[i])
    requires |tail| >= 3 && AllDigits(tail[..3])
    ensures CodeAfterSpaces(spaces + tail) == Some(DigitsValue(tail[..3]))
  {
    assert tail[..3][0] == tail[0];
    SpaceRunOfSpaces(spaces, tail);
    assert (spaces + tail)[|spaces|..] == tail;
  }

  lemma MinorVersionOfParts(mi: string, afterVersion: string)
    requires |mi| > 0 && AllDigits(mi)
    requires afterVersion != [] && IsSpace(afterVersion[0])
    ensures MinorVersion(mi + afterVersion) == CodeAfterSpaces(afterVersion)
  {
    DigitRunOfDigits(mi, afterVersion);
    assert (mi + afterVersion)[|mi|..] == afterVersion;
  }

  lemma MajorVersionOfParts(ma: string, afterDot: string)
    requires |ma| > 0 && AllDigits(ma)
    ensures MajorVersion(ma + ("." + afterDot)) == MinorVersion(afterDot)
  {
    var version := ma + ("." + afterDot);
    assert ("." + afterDot)[0] == '.';
    DigitRunOfDigits(ma, "." + afterDot);
    assert version[|ma|] == '.';
    assert version[|ma| + 1..] == afterDot;
  }

  /** `StatusCode` on a line already split into its version digits, white space and the rest. */
  lemma StatusCodeOfParts(ma: string, mi: string, spaces: string, tail: string)
    requires |ma| > 0 && AllDigits(ma) && |mi| > 0 && AllDigits(mi)
    requires |spaces| > 0 && forall i | 0 <= i < |spaces| :: IsSpace(spaces[i])
    requires |tail| >= 3 && AllDigits(tail[..3])
    ensures StatusCode("HTTP/" + (ma + ("." + (mi + (spaces + tail))))) == Some(DigitsValue(tail[..3]))
  {
    var line := "HTTP/" + (ma + ("." + (mi + (spaces + tail))));
    assert line[..5] == "HTTP/" && line[5..] == ma + ("." + (mi + (spaces + tail)));
    CodeAfterSpacesOfParts(spaces, tail);
    assert (spaces + tail)[0] == spaces[0];
    MinorVersionOfParts(mi, spaces + tail);
    MajorVersionOfParts(ma, mi + (spaces + tail));
  }

  /**
   * `line` split as the pattern `#^HTTP/\d+\.\d+\s+(\d{3})#` reads it: the
   * major and minor version digits, the white space, and a tail whose first
   * three characters are the captured digits.
   */
  predicate StatusLineParts(line: string, ma: string, mi: string, sp: string, tail: string) {
    && line == "HTTP/" + (ma + ("." + (mi + (sp + tail))))
    && |ma| > 0 && AllDigits(ma) && |mi| > 0 && AllDigits(mi)
    && |sp| > 0 && (forall i | 0 <= i < |sp| :: IsSpace(sp[i]))
    && |tail| >= 3 && AllDigits(tail[..3])
  }

  /** A line that yields a code has the pattern's shape, and the code is the value of its three digits. */
  lemma SplitStatusLine(line: string, code: nat) returns (ma: string, mi: string, sp: string, tail: string)
    requires StatusCode(line) == Some(code)
    ensures StatusLineParts(line, ma, mi, sp, tail) && code == DigitsValue(tail[..3])
  {
    var afterDot, afterVersion;
    ma, afterDot := SplitMajor(line[5..], code);
    mi, afterVersion := SplitMinor(afterDot, code);
    sp, tail := SplitCode(afterVersion, code);
    assert line == "HTTP/" + line[5..];
  }

  lemma SplitMajor(version: string, code: nat) returns (ma: string, afterDot: string)
    requires MajorVersion(version) == Some(code)
    ensures version == ma + ("." + afterDot) && |ma| > 0 && AllDigits(ma) && MinorVersion(afterDot) == Some(code)
  {
    var major := DigitRun(version);
    ma, afterDot := version[..major], version[major + 1..];
    assert version == version[..major] + ([version[major]] + version[major + 1..]);
  }

  lemma SplitMinor(afterDot: string, code: nat) returns (mi: string, afterVersion: string)
    requires MinorVersion(afterDot) == Some(code)
    ensures afterDot == mi + afterVersion && |mi| > 0 && AllDigits(mi) && CodeAfterSpaces(afterVersion) == Some(code)
  {
    var minor := DigitRun(afterDot);
    mi, afterVersion := afterDot[..minor], afterDot[minor..];
  }

  lemma SplitCode(afterVersion: string, code: nat) returns (sp: string, tail: string)
    requires CodeAfterSpaces(afterVersion) == Some(code)
    ensures afterVersion == sp + tail && |sp| > 0 && (forall i | 0 <= i < |sp| :: IsSpace(sp[i]))
    ensures |tail| >= 3 && AllDigits(tail[..3]) && code == DigitsValue(tail[..3])
  {
    var spaces := SpaceRun(afterVersion);
    sp, tail := afterVersion[..spaces], afterVersion[spaces..];
  }

  /** Both directions: `StatusCode` yields `code` exactly for the lines of the pattern's shape whose digits read as `code`. */
  lemma StatusCodeIffParts(line: string, code: nat)
    ensures StatusCode(line) == Some(code) <==>
      exists ma, mi, sp, tail :: StatusLineParts(line, ma, mi, sp, tail) && code == DigitsValue(tail[..3])
  {
    if StatusCode(line) == Some(code) {
      var ma, mi, sp, tail := SplitStatusLine(line, code);
    }
    if exists ma, mi, sp, tail :: StatusLineParts(line, ma, mi, sp, tail) && code == DigitsValue(tail[..3]) {
      var ma, mi, sp, tail :| StatusLineParts(line, ma, mi, sp, tail) && code == DigitsValue(tail[..3]);
      StatusCodeOfParts(ma, mi, sp, tail);
    }
  }

  /**
   * Round trip: a status line written as `HTTP/<major>.<minor>`, white
   * space and a three-digit code, followed by anything, reads back as that
   * code.
   */
  lemma StatusLineRoundTrip(major: nat, minor: nat, spaces: string, code: string, rest: string)
    requires |spaces| > 0 && forall i | 0 <= i < |spaces| :: IsSpace(spaces[i])
    requires |code| == 3 && AllDigits(code)
    ensures StatusCode("HTTP/" + NatToString(major) + "." + NatToString(minor) + spaces + code + rest)
         == Some(DigitsValue(code))
  {
    var ma, mi := NatToString(major), NatToString(minor);
    var tail := code + rest;
    assert tail[..3] == code;
    StatusCodeOfParts(ma, mi, spaces, tail);
    Regroup("HTTP/", ma, ".", mi, spaces, code, rest);
  }

  lemma Regroup(a: string, b: string, c: string, d: string, e: string, f: string, g: string)
    ensures a + b + c + d + e + f + g == a + (b + (c + (d + (e + (f + g)))))
  {
  }

  /** Every three-digit number printed after a status line reads back as itself. */
  lemma StatusCodeOfRenderedLine(major: nat, minor: nat, code: nat, reason: string)
    requires 100 <= code <= 999
    ensures StatusCode("HTTP/" + NatToString(major) + "." + NatToString(minor) + " " + NatToString(code) + reason)
         == Some(code)
  {
    ThreeDigits(code);
    assert IsSpace(" "[0]);
    StatusLineRoundTrip(major, minor, " ", NatToString(code), reason);
    DigitsValueOfNatToString(code);
  }

  lemma ThreeDigits(code: nat)
    requires 100 <= code <= 999
    ensures |NatToString(code)| == 3
  {
    assert NatToString(code) == NatToString(code / 10) + [DigitChar(code % 10)];
    assert NatToString(code / 10) == NatToString(code / 100) + [DigitChar(code / 10 % 10)];
  }

  /** A header the HTTP service checker accepts announces status 200 here as well. */
  lemma OkStatusHeaderIs200(h: string)
    requires |h| >= 15 && h[..5] == "HTTP/" && IsDigit(h[5]) && h[6] == '.' && IsDigit(h[7]) && h[8..15] == " 200 OK"
    ensures StatusCode(h) == Some(200)
  {
    assert StartsWith(h, "HTTP/");
    var version := h[5..];
    assert DigitRun(version) == 1 by {
      assert version == [h[5]] + version[1..];
      DigitRunOfDigits([h[5]], version[1..]);
    }
    var afterDot := version[2..];
    assert DigitRun(afterDot) == 1 by {
      assert afterDot == [h[7]] + afterDot[1..];
      assert afterDot[1] == h[8] == ' ';
      DigitRunOfDigits([h[7]], afterDot[1..]);
    }
    var afterVersion := afterDot[1..];
    assert SpaceRun(afterVersion) == 1 by {
      assert afterVersion == [' '] + afterVersion[1..];
      assert afterVersion[1] == h[9] == '2';
      SpaceRunOfSpaces([' '], afterVersion[1..]);
    }
    var digits := afterVersion[1..];
    assert digits == h[9..];
    assert h[9..12] == h[8..15][1..4] == "200";
    assert digits[..3] == "200";
    assert DigitsValue("200") == 200 by {
      assert "200"[..2] == "20" && "20"[..1] == "2" && "2"[..0] == "";
    }
  }
}
