/** The client connection pieces of `src/lcu.rs`: parsing the lockfile the
    game client writes, the two URLs derived from it, the event-stream
    wire frames, and the socket wrapper that sends subscriptions and reads
    events. TLS, HTTP and the WebSocket handshake are not modelled; the
    socket is the sequence of items its stream still yields. */
module Lcu {
  import opened Wrappers
  import opened Text
  import opened JsonValues

  const U32_MAX: nat := 4294967295
  const USERNAME: string := "riot"
  const ADDRESS: string := "127.0.0.1"

  datatype RiotLockFile = RiotLockFile(
    process: string,
    pid: nat,
    port: nat,
    password: string,
    protocol: string,
    username: string,
    address: string)

  /** `MissingField(i)` is indexing `pieces[i]` past the end, a panic in the
      source; the two parse failures are its `?` errors. */
  datatype LockFileError = MissingField(index: nat) | InvalidPid | InvalidPort

  /** The digits after Rust's optional leading `+`. */
  function UnsignedDigits(s: string): string
  {
    if |s| > 0 && s[0] == '+' then s[1..] else s
  }

  /** `str::parse::<u32>()`: an optional `+`, then at least one decimal
      digit, with a value that fits 32 bits. */
  function ParseU32(s: string): (r: Option<nat>)
    ensures r.Some? ==> r.value <= U32_MAX
    ensures r.Some? ==> |s| >= 1 && forall i :: 0 <= i < |s| ==> IsDigit(s[i]) || (i == 0 && s[i] == '+')
    ensures s == "" || s == "+" ==> r.None?
    // the value is that of the digits, whatever leading zeros they have
    ensures r.Some? <==>
      UnsignedDigits(s) != [] && AllDigits(UnsignedDigits(s)) && DigitsValue(UnsignedDigits(s)) <= U32_MAX
    ensures r.Some? ==> r.value == DigitsValue(UnsignedDigits(s))
  {
    var digits := UnsignedDigits(s);
    if digits == [] || !AllDigits(digits) then None
    else
      var v := DigitsValue(digits);
      if v <= U32_MAX then Some(v) else None
  }

  /** What `Display` prints for a `u32` parses back to it. */
  lemma ParseDisplayed(n: nat)
    requires n <= U32_MAX
    ensures ParseU32(DecimalString(n)) == Some(n)
    ensures ParseU32("+" + DecimalString(n)) == Some(n)
  {
    DecimalStringValue(n);
    assert ("+" + DecimalString(n))[1..] == DecimalString(n);
  }

  /** A number too wide for 32 bits is refused. */
  lemma ParseRejectsWide(n: nat)
    requires n > U32_MAX
    ensures ParseU32(DecimalString(n)) == None
  {
    DecimalStringValue(n);
  }

  /** Leading zeros are accepted and do not change the value. */
  lemma ParseIgnoresLeadingZero(s: string)
    requires s != [] && AllDigits(s)
    ensures ParseU32("0" + s) == ParseU32(s)
  {
    DigitsValueLeadingZero(s);
  }

  lemma ParseLeadingZerosExample()
    ensures ParseU32("007") == Some(7)
  {
    ParseDisplayed(7);
    assert DecimalString(7) == "7";
    ParseIgnoresLeadingZero("7");
    assert "0" + "7" == "07";
    ParseIgnoresLeadingZero("07");
    assert "0" + "07" == "007";
  }

  /** On canonical digit strings parsing is the inverse of printing. */
  lemma ParseCanonical(s: string)
    requires Canonical(s) && ParseU32(s).Some?
    ensures DecimalString(ParseU32(s).value) == s
  {
    CanonicalIsDecimalString(s);
  }

  /** `RiotLockFile::read` on the file's contents. */
  function ReadLockFile(contents: string): (r: Result<RiotLockFile, LockFileError>)
    ensures var pieces := Split(contents, ':');
      && (r.Ok? <==> |pieces| >= 5 && ParseU32(pieces[1]).Some? && ParseU32(pieces[2]).Some?)
      && (r.Ok? ==> r.value == RiotLockFile(pieces[0], ParseU32(pieces[1]).value, ParseU32(pieces[2]).value,
                                            pieces[3], pieces[4], USERNAME, ADDRESS))
      && (r == Err(InvalidPid) <==> |pieces| >= 2 && ParseU32(pieces[1]).None?)
      && (r == Err(InvalidPort) <==> |pieces| >= 3 && ParseU32(pieces[1]).Some? && ParseU32(pieces[2]).None?)
      && (r.Err? && r.error.MissingField? ==> r.error.index == |pieces| < 5)
    ensures r.Ok? ==> r.value.pid <= U32_MAX && r.value.port <= U32_MAX
  {
    var pieces := Split(contents, ':');
    var process := pieces[0];
    if |pieces| < 2 then Err(MissingField(1))
    else match ParseU32(pieces[1])
      case None => Err(InvalidPid)
      case Some(pid) =>
        if |pieces| < 3 then Err(MissingField(2))
        else match ParseU32(pieces[2])
          case None => Err(InvalidPort)
          case Some(port) =>
            if |pieces| < 4 then Err(MissingField(3))
            else if |pieces| < 5 then Err(MissingField(4))
            else Ok(RiotLockFile(process, pid, port, pieces[3], pieces[4], USERNAME, ADDRESS))
  }

  /** A lockfile record the game client can have written. */
  predicate WellFormed(lf: RiotLockFile)
  {
    && ':' !in lf.process && ':' !in lf.password && ':' !in lf.protocol
    && lf.pid <= U32_MAX && lf.port <= U32_MAX
    && lf.username == USERNAME && lf.address == ADDRESS
  }

  /** The lockfile line `process:pid:port:password:protocol`. */
  function LockFileText(lf: RiotLockFile): string
  {
    Join([lf.process, DecimalString(lf.pid), DecimalString(lf.port), lf.password, lf.protocol], ':')
  }

  /** Reading a written lockfile gives back the record. */
  lemma ReadWritten(lf: RiotLockFile)
    requires WellFormed(lf)
    ensures ReadLockFile(LockFileText(lf)) == Ok(lf)
  {
    var pieces := [lf.process, DecimalString(lf.pid), DecimalString(lf.port), lf.password, lf.protocol];
    SplitJoin(pieces, ':');
    ParseDisplayed(lf.pid);
    ParseDisplayed(lf.port);
  }

  /** Pieces after the fifth are ignored. */
  lemma ReadIgnoresExtraFields(contents: string, extra: string)
    requires |Split(contents, ':')| >= 5
    ensures ReadLockFile(contents + ":" + extra) == ReadLockFile(contents)
  {
    SplitAppend(contents, ':', extra);
  }

  /** The REST base URL set in `connect`. */
  function BaseUrl(lf: RiotLockFile): (url: string)
    ensures |url| > |lf.protocol| + 3 && url[..|lf.protocol| + 3] == lf.protocol + "://"
  {
    lf.protocol + "://" + lf.address + ":" + DecimalString(lf.port)
  }

  /** The event-stream URL opened in `connect`. */
  function SocketUrl(lf: RiotLockFile): (url: string)
    ensures |url| > 6 && url[..6] == "wss://"
  {
    "wss://" + lf.address + ":" + DecimalString(lf.port)
  }

  /** The text after the last ':' of `prefix:port` is the port. */
  lemma PortAfterLastColon(prefix: string, port: nat)
    requires port <= U32_MAX
    ensures var pieces := Split(prefix + ":" + DecimalString(port), ':');
      ParseU32(pieces[|pieces| - 1]) == Some(port)
  {
    SplitWithoutSeparator(DecimalString(port), ':');
    SplitAppend(prefix, ':', DecimalString(port));
    ParseDisplayed(port);
  }

  /** Both URLs name the same host and port and differ only in their scheme. */
  lemma UrlsDifferOnlyInScheme(lf: RiotLockFile)
    ensures SocketUrl(lf) == "wss" + BaseUrl(lf)[|lf.protocol|..]
  {
    var rest := "://" + lf.address + ":" + DecimalString(lf.port);
    assert BaseUrl(lf) == lf.protocol + rest;
    assert SocketUrl(lf) == "wss" + rest;
    assert (lf.protocol + rest)[|lf.protocol|..] == rest;
  }

  /** The base URL's ':'-separated parts are the protocol, "//" and the
      host, and the port. */
  lemma BaseUrlParts(lf: RiotLockFile)
    requires ':' !in lf.protocol && ':' !in lf.address
    ensures Split(BaseUrl(lf), ':') == [lf.protocol, "//" + lf.address, DecimalString(lf.port)]
  {
    UrlParts(lf.protocol, lf.address, lf.port);
  }

  /** The socket URL's ':'-separated parts are "wss", "//" and the host,
      and the port. */
  lemma SocketUrlParts(lf: RiotLockFile)
    requires ':' !in lf.address
    ensures Split(SocketUrl(lf), ':') == ["wss", "//" + lf.address, DecimalString(lf.port)]
  {
    assert SocketUrl(lf) == "wss" + "://" + lf.address + ":" + DecimalString(lf.port);
    UrlParts("wss", lf.address, lf.port);
  }

  lemma UrlParts(scheme: string, host: string, port: nat)
    requires ':' !in scheme && ':' !in host
    ensures Split(scheme + "://" + host + ":" + DecimalString(port), ':') == [scheme, "//" + host, DecimalString(port)]
  {
    var tail := "//" + host + [':'] + DecimalString(port);
    assert scheme + "://" + host + ":" + DecimalString(port) == scheme + [':'] + tail;
    SplitAppend(scheme, ':', tail);
    SplitAppend("//" + host, ':', DecimalString(port));
    SplitWithoutSeparator(scheme, ':');
    SplitWithoutSeparator("//" + host, ':');
    SplitWithoutSeparator(DecimalString(port), ':');
  }

  /** The port is the text after the last ':' of the base URL. */
  lemma BaseUrlCarriesPort(lf: RiotLockFile)
    requires lf.port <= U32_MAX
    ensures var pieces := Split(BaseUrl(lf), ':'); ParseU32(pieces[|pieces| - 1]) == Some(lf.port)
  {
    assert BaseUrl(lf) == (lf.protocol + "://" + lf.address) + ":" + DecimalString(lf.port);
    PortAfterLastColon(lf.protocol + "://" + lf.address, lf.port);
  }

  /** The port is the text after the last ':' of the socket URL. */
  lemma SocketUrlCarriesPort(lf: RiotLockFile)
    requires lf.port <= U32_MAX
    ensures var pieces := Split(SocketUrl(lf), ':'); ParseU32(pieces[|pieces| - 1]) == Some(lf.port)
  {
    assert SocketUrl(lf) == ("wss://" + lf.address) + ":" + DecimalString(lf.port);
    PortAfterLastColon("wss://" + lf.address, lf.port);
  }

  datatype ActionCode = Subscribe | Unsubscribe | Event

  /** The `repr(u32)` discriminant each code is written as. */
  function Code(a: ActionCode): (n: nat)
    ensures n == 5 || n == 6 || n == 8
  {
    match a
    case Subscribe => 5
    case Unsubscribe => 6
    case Event => 8
  }

  /** Reading a discriminant back; other numbers are refused. */
  function CodeOf(n: int): (a: Option<ActionCode>)
    ensures a.Some? <==> n == 5 || n == 6 || n == 8
    ensures a.Some? ==> Code(a.value) == n
  {
    if n == 5 then Some(Subscribe)
    else if n == 6 then Some(Unsubscribe)
    else if n == 8 then Some(Event)
    else None
  }

  lemma CodeRoundTrip(a: ActionCode)
    ensures CodeOf(Code(a)) == Some(a)
  {
  }

  /** `Action(ActionCode, String)`, sent as `[code,"name"]`. */
  datatype Action = Action(code: ActionCode, name: string)

  datatype EventArgs = EventArgs(data: Json, eventType: string, uri: string)

  /** `Event(ActionCode, String, EventArgs)`, an inbound frame. */
  datatype EventMessage = EventMessage(code: ActionCode, name: string, args: EventArgs)

  const EVENT_PREFIX: string := "OnJsonApiEvent"

  /** The action `subscribe(endpoint)` sends: code 5 and the event name
      for the endpoint, every '/' turned into '_'. */
  function SubscribeAction(endpoint: string): (a: Action)
    ensures Code(a.code) == 5
    ensures |a.name| == |EVENT_PREFIX| + |endpoint| && a.name[..|EVENT_PREFIX|] == EVENT_PREFIX
    ensures forall i :: 0 <= i < |endpoint| ==>
      a.name[|EVENT_PREFIX| + i] == if endpoint[i] == '/' then '_' else endpoint[i]
    ensures '/' !in a.name
  {
    var name := ReplaceChar(EVENT_PREFIX + endpoint, '/', '_');
    assert forall i :: 0 <= i < |EVENT_PREFIX| ==> name[i] == EVENT_PREFIX[i];
    Action(Subscribe, name)
  }

  lemma GameflowSubscription()
    ensures SubscribeAction("/lol-gameflow" + "/v1" + "/gameflow-phase").name
      == EVENT_PREFIX + "_lol-gameflow" + "_v1" + "_gameflow-phase"
  {
    var endpoint := "/lol-gameflow" + "/v1" + "/gameflow-phase";
    ReplaceCharAppend(EVENT_PREFIX, endpoint, '/', '_');
    ReplaceCharAppend("/lol-gameflow" + "/v1", "/gameflow-phase", '/', '_');
    ReplaceCharAppend("/lol-gameflow", "/v1", '/', '_');
    assert ReplaceChar(EVENT_PREFIX, '/', '_') == EVENT_PREFIX;
    assert ReplaceChar("/lol-gameflow", '/', '_') == "_lol-gameflow";
    assert ReplaceChar("/v1", '/', '_') == "_v1";
    assert ReplaceChar("/gameflow-phase", '/', '_') == "_gameflow-phase";
  }

  const HEX: string := "0123456789abcdef"

  /** How serde_json writes one character inside a string literal. */
  function EscapeChar(c: char): (e: string)
    ensures e == [c] <==> PlainChar(c)
    ensures !PlainChar(c) ==> |e| >= 2 && e[0] == '\\'
  {
    if c == '"' then "\\\""
    else if c == '\\' then "\\\\"
    else if c == '\U{8}' then "\\b"
    else if c == '\t' then "\\t"
    else if c == '\n' then "\\n"
    else if c == '\U{C}' then "\\f"
    else if c == '\r' then "\\r"
    else if (c as int) < 0x20 then "\\u00" + [HEX[c as int / 16], HEX[c as int % 16]]
    else [c]
  }

  function Escape(s: string): string
  {
    if s == [] then "" else EscapeChar(s[0]) + Escape(s[1..])
  }

  /** `serde_json::to_string` of an action. */
  function EncodeAction(a: Action): string
  {
    "[" + DecimalString(Code(a.code)) + ",\"" + Escape(a.name) + "\"]"
  }

  function HexValue(c: char): Option<nat>
  {
    if '0' <= c <= '9' then Some(c as int - '0' as int)
    else if 'a' <= c <= 'f' then Some(c as int - 'a' as int + 10)
    else None
  }

  /** Reading back the body of a JSON string literal, up to its end. */
  function Unescape(s: string): Option<string>
  {
    if s == [] then Some([])
    else if s[0] == '"' then None
    else if s[0] != '\\' then
      match Unescape(s[1..]) case None => None case Some(rest) => Some([s[0]] + rest)
    else if |s| < 2 then None
    else
      var c := s[1];
      var simple :=
        if c == '"' then Some('"') else if c == '\\' then Some('\\') else if c == 'b' then Some('\U{8}')
        else if c == 't' then Some('\t') else if c == 'n' then Some('\n') else if c == 'f' then Some('\U{C}')
        else if c == 'r' then Some('\r') else None;
      if simple.Some? then
        match Unescape(s[2..]) case None => None case Some(rest) => Some([simple.value] + rest)
      else if c == 'u' && |s| >= 6 && s[2..4] == "00" && HexValue(s[4]).Some? && HexValue(s[5]).Some? then
        var code := HexValue(s[4]).value * 16 + HexValue(s[5]).value;
        match Unescape(s[6..]) case None => None case Some(rest) => Some([code as char] + rest)
      else None
  }

  lemma UnescapeEscapeChar(c: char, rest: string)
    ensures Unescape(EscapeChar(c) + rest) ==
      match Unescape(rest) case None => None case Some(r) => Some([c] + r)
  {
    var e := EscapeChar(c);
    var t := e + rest;
    if c == '"' || c == '\\' || c == '\U{8}' || c == '\t' || c == '\n' || c == '\U{C}' || c == '\r' {
      assert |e| == 2 && t[0] == '\\' && t[1] == e[1] && t[2..] == rest;
    } else if (c as int) < 0x20 {
      var hi, lo := c as int / 16, c as int % 16;
      assert e == "\\u00" + [HEX[hi], HEX[lo]];
      assert HexValue(HEX[hi]) == Some(hi) && HexValue(HEX[lo]) == Some(lo);
      assert t[0] == '\\' && t[1] == 'u' && t[2..4] == "00" && t[4] == HEX[hi] && t[5] == HEX[lo];
      assert t[6..] == rest;
    } else {
      assert e == [c] && t[1..] == rest;
    }
  }

  /** Escaping is undone by unescaping. */
  lemma {:induction false} UnescapeEscape(s: string)
    ensures Unescape(Escape(s)) == Some(s)
    decreases |s|
  {
    if s != [] {
      UnescapeEscape(s[1..]);
      UnescapeEscapeChar(s[0], Escape(s[1..]));
      assert s == [s[0]] + s[1..];
    }
  }

  /** The first index of `c` in `s`, or `|s|`. */
  function IndexOf(s: string, c: char): (k: nat)
    ensures k <= |s| && c !in s[..k]
    ensures k < |s| ==> s[k] == c
  {
    if s == [] then 0
    else if s[0] == c then 0
    else
      var k := IndexOf(s[1..], c) + 1;
      assert s[..k] == [s[0]] + s[1..][..k - 1];
      k
  }

  lemma IndexOfAfter(a: string, c: char, b: string)
    requires c !in a
    ensures IndexOf(a + [c] + b, c) == |a|
  {
    var s := a + [c] + b;
    assert s[|a|] == c;
  }

  /** The receiving end's reading of an action frame `[code,"name"]`. */
  function DecodeAction(t: string): Option<Action>
  {
    if |t| < 2 || t[0] != '[' || t[|t| - 1] != ']' then None
    else
      var inner := t[1..|t| - 1];
      var k := IndexOf(inner, ',');
      if k == |inner| then None else DecodeFields(inner[..k], inner[k + 1..])
  }

  /** The two fields of an action frame: a decimal code and a quoted name. */
  function DecodeFields(digits: string, quoted: string): Option<Action>
  {
    if digits == [] || !AllDigits(digits) then None
    else if |quoted| < 2 || quoted[0] != '"' || quoted[|quoted| - 1] != '"' then None
    else match (CodeOf(DigitsValue(digits)), Unescape(quoted[1..|quoted| - 1]))
      case (Some(code), Some(name)) => Some(Action(code, name))
      case _ => None
  }

  lemma DecodeEncodedFields(a: Action)
    ensures DecodeFields(DecimalString(Code(a.code)), "\"" + Escape(a.name) + "\"") == Some(a)
  {
    var quoted := "\"" + Escape(a.name) + "\"";
    assert quoted[1..|quoted| - 1] == Escape(a.name);
    DecimalStringValue(Code(a.code));
    UnescapeEscape(a.name);
  }

  /** Where the fields sit in a written frame. */
  lemma FrameParts(digits: string, escaped: string)
    ensures var t := "[" + digits + ",\"" + escaped + "\"]";
      && |t| >= 2 && t[0] == '[' && t[|t| - 1] == ']'
      && t[1..|t| - 1] == digits + [','] + ("\"" + escaped + "\"")
  {
    var t := "[" + digits + ",\"" + escaped + "\"]";
    assert t == "[" + (digits + [','] + ("\"" + escaped + "\"")) + "]";
  }

  /** Every frame `send` writes reads back as the action it encodes. */
  lemma DecodeEncodeAction(a: Action)
    ensures DecodeAction(EncodeAction(a)) == Some(a)
  {
    var digits := DecimalString(Code(a.code));
    var quoted := "\"" + Escape(a.name) + "\"";
    var inner := digits + [','] + quoted;
    FrameParts(digits, Escape(a.name));
    IndexOfAfter(digits, ',', quoted);
    assert inner[..|digits|] == digits && inner[|digits| + 1..] == quoted;
    DecodeEncodedFields(a);
  }

  /** A character serde_json writes as it is. */
  predicate PlainChar(c: char)
  {
    c != '"' && c != '\\' && c as int >= 0x20
  }

  lemma {:induction false} EscapePlain(s: string)
    requires forall i :: 0 <= i < |s| ==> PlainChar(s[i])
    ensures Escape(s) == s
    decreases |s|
  {
    if s != [] {
      EscapePlain(s[1..]);
      assert s == [s[0]] + s[1..];
    }
  }

  /** For an endpoint without characters that need escaping, the
      subscription frame is the event name between quotes. */
  lemma SubscribeFramePlain(endpoint: string)
    requires forall i :: 0 <= i < |endpoint| ==> PlainChar(endpoint[i])
    ensures EncodeAction(SubscribeAction(endpoint)) == "[5,\"" + SubscribeAction(endpoint).name + "\"]"
  {
    var name := SubscribeAction(endpoint).name;
    forall i | 0 <= i < |name| ensures PlainChar(name[i]) {
      if i >= |EVENT_PREFIX| {
        assert name[i] == if endpoint[i - |EVENT_PREFIX|] == '/' then '_' else endpoint[i - |EVENT_PREFIX|];
      } else {
        assert name[i] == EVENT_PREFIX[i];
        assert EVENT_PREFIX[i] in "OJAEnsopivte";
      }
    }
    EscapePlain(name);
  }

  /** The frame the supervisor's subscription writes. */
  lemma GameflowSubscribeFrame()
    ensures EncodeAction(SubscribeAction("/lol-gameflow" + "/v1" + "/gameflow-phase"))
      == "[5,\"" + (EVENT_PREFIX + "_lol-gameflow" + "_v1" + "_gameflow-phase") + "\"]"
  {
    var endpoint := "/lol-gameflow" + "/v1" + "/gameflow-phase";
    var name := SubscribeAction(endpoint).name;
    assert forall i :: 0 <= i < |endpoint| ==> PlainChar(endpoint[i]) by {
      forall i | 0 <= i < |endpoint| ensures PlainChar(endpoint[i]) {
        assert endpoint[i] in "/lo-gamefwv1phs";
      }
    }
    assert EncodeAction(SubscribeAction(endpoint)) == "[5,\"" + name + "\"]" by {
      SubscribeFramePlain(endpoint);
    }
    assert name == EVENT_PREFIX + "_lol-gameflow" + "_v1" + "_gameflow-phase" by {
      GameflowSubscription();
    }
  }

  /** A WebSocket message. */
  datatype Message = Text(text: string) | Binary(bytes: seq<bv8>) | Ping(ping: seq<bv8>) | Pong(pong: seq<bv8>) | Close

  /** One item of the socket's stream: a message or a transport error. */
  datatype Incoming = Received(msg: Message) | TransportError(reason: string)

  datatype ReadError = Transport(reason: string) | Malformed(text: string)

  /** `read`'s `Ok(Some((uri, data)))`, `Ok(None)` and `Err(_)`. */
  datatype ReadResult = Got(uri: string, data: Json) | Ended | Failed(error: ReadError)

  /** An item `read` passes over: a non-text message or an empty text message. */
  predicate Skippable(item: Incoming)
  {
    item.Received? && (!item.msg.Text? || item.msg.text == "")
  }

  /** How many leading items `read` passes over. */
  function SkipCount(items: seq<Incoming>): (k: nat)
    ensures k <= |items|
    ensures forall i :: 0 <= i < k ==> Skippable(items[i])
    ensures k < |items| ==> !Skippable(items[k])
  {
    if items == [] || !Skippable(items[0]) then 0 else 1 + SkipCount(items[1..])
  }

  /** What `read` returns for the first item it does not pass over;
      `decode` stands for `serde_json::from_str::<Event>`. */
  function Interpret(item: Incoming, decode: string -> Option<EventMessage>): (r: ReadResult)
    requires !Skippable(item)
    ensures !r.Ended?
    ensures item.TransportError? ==> r == Failed(Transport(item.reason))
    ensures item.Received? ==> item.msg.Text? && item.msg.text != ""
    ensures item.Received? && decode(item.msg.text).None? ==> r == Failed(Malformed(item.msg.text))
    ensures item.Received? && decode(item.msg.text).Some? ==>
      r == Got(decode(item.msg.text).value.args.uri, decode(item.msg.text).value.args.data)
  {
    match item
    case TransportError(reason) => Failed(Transport(reason))
    case Received(msg) =>
      match decode(msg.text)
      case None => Failed(Malformed(msg.text))
      case Some(event) => Got(event.args.uri, event.args.data)
  }

  /** One call of `read`: its result and what the stream still holds. */
  function NextEvent(items: seq<Incoming>, decode: string -> Option<EventMessage>): (r: (ReadResult, seq<Incoming>))
    ensures r.0.Ended? <==> forall i :: 0 <= i < |items| ==> Skippable(items[i])
    ensures r.0.Ended? ==> r.1 == []
    // otherwise the result is that of the first item not passed over, and
    // the stream resumes right after it
    ensures !r.0.Ended? ==>
      var k := |items| - |r.1| - 1;
      && 0 <= k < |items| && r.1 == items[k + 1..]
      && (forall i :: 0 <= i < k ==> Skippable(items[i]))
      && !Skippable(items[k]) && r.0 == Interpret(items[k], decode)
  {
    var k := SkipCount(items);
    if k == |items| then (Ended, [])
    else (Interpret(items[k], decode), items[k + 1..])
  }

  /** `LcuWebSocket`: the event stream of one connection. */
  class LcuWebSocket {
    /** The items the stream will still yield, in order; its end is the
        stream's end. */
    var incoming: seq<Incoming>
    /** The text frames written so far. */
    var sent: seq<string>

    constructor (stream: seq<Incoming>)
      ensures incoming == stream && sent == []
    {
      incoming, sent := stream, [];
    }

    method Send(action: Action)
      modifies this
      ensures sent == old(sent) + [EncodeAction(action)] && incoming == old(incoming)
    {
      sent := sent + [EncodeAction(action)];
    }

    /** `subscribe(endpoint)` */
    method Subscribe(endpoint: string)
      modifies this
      ensures sent == old(sent) + [EncodeAction(SubscribeAction(endpoint))] && incoming == old(incoming)
    {
      Send(SubscribeAction(endpoint));
    }

    /** `read()`: pass over empty text and non-text messages; stop at the
        stream's end, a transport error, or a non-empty text message,
        which is decoded as an event or reported malformed. */
    method Read(decode: string -> Option<EventMessage>) returns (r: ReadResult)
      modifies this
      ensures (r, incoming) == NextEvent(old(incoming), decode)
      ensures sent == old(sent)
    {
      while incoming != []
        invariant NextEvent(incoming, decode) == NextEvent(old(incoming), decode)
        invariant sent == old(sent)
        decreases |incoming|
      {
        var item := incoming[0];
        incoming := incoming[1..];
        match item {
          case TransportError(reason) =>
            return Failed(Transport(reason));
          case Received(msg) =>
            if msg.Text? && msg.text != "" {
              match decode(msg.text) {
                case None => return Failed(Malformed(msg.text));
                case Some(event) => return Got(event.args.uri, event.args.data);
              }
            }
        }
      }
      return Ended;
    }
  }
}
