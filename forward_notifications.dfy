/**
 * The `forward_event` notification handler: it classifies the event by its
 * status and the two configuration flags, resolves both channel endpoints to
 * peer names, and logs one line; every failure inside is logged as a warning
 * and swallowed.
 *
 * The pure functions (Classify, ChannelsInfo, SuccessLog, FailureLog,
 * HandlerEffect, ForwardEventOutcome) say what one dispatch does: the records
 * logged, the RPC calls issued and the caches afterwards.  The methods walk
 * through the same steps on a shared NodeNames object and a log, and are
 * proved to do exactly that.
 */
module ForwardNotifications {
  import opened Wrappers
  import opened Primitives
  import opened NodeNameCache

  /** A JSON value of the payload; `JOther` is any other value, by its JSON text. */
  datatype Json = JString(str: string) | JNumber(num: int) | JOther(text: string)

  /** The members of the `forward_event` object that the handler reads; each may be absent. */
  datatype ForwardEvent = ForwardEvent(
    status: Option<Json>,
    inChannel: Option<Json>,
    outChannel: Option<Json>,
    inMsat: Option<Json>,
    feeMsat: Option<Json>,
    failReason: Option<Json>)

  /** A notification payload, which may lack the `forward_event` object. */
  datatype Payload = Payload(forwardEvent: Option<ForwardEvent>)

  /** The two configuration flags `clog-forwards-successful` and `clog-forwards-failed`. */
  datatype Options = Options(logSuccessfulForwards: bool, logFailedForwards: bool)

  /** Both flags default to true. */
  const DEFAULT_OPTIONS: Options := Options(true, true)

  const SETTLED: string := "settled"
  const LOCAL_FAILED: string := "local_failed"

  /** A channel endpoint as it appears in a log line: the short id as given, and the peer's name. */
  datatype ChannelInfo = ChannelInfo(shortId: string, peerAlias: string)

  /** What the handler logs: an info line per resolved forward, or a warning. */
  datatype LogRecord =
    | ForwardSettled(inMsat: Json, feeMsat: Json, inChannel: ChannelInfo, outChannel: ChannelInfo)
    | ForwardFailed(inMsat: Json, inChannel: ChannelInfo, outChannel: ChannelInfo, failReason: string)
    | HandlerWarning(error: Error)

  /** The decimal digits of a natural number. */
  function Digits(n: nat): (s: string)
    ensures |s| >= 1
    ensures forall i :: 0 <= i < |s| ==> '0' <= s[i] <= '9'
    ensures n >= 10 ==> s[0] != '0'
  {
    if n < 10 then [('0' as int + n) as char] else Digits(n / 10) + [('0' as int + n % 10) as char]
  }

  /** The number a string of decimal digits denotes, most significant digit first. */
  function DecimalValue(s: string): nat
    requires forall i :: 0 <= i < |s| ==> '0' <= s[i] <= '9'
  {
    if s == [] then 0 else 10 * DecimalValue(s[..|s| - 1]) + (s[|s| - 1] as int - '0' as int)
  }

  /** Reading the digits back gives the number: the decimal display loses nothing. */
  lemma {:induction false} DigitsRoundTrip(n: nat)
    ensures DecimalValue(Digits(n)) == n
  {
    if n >= 10 {
      var s := Digits(n);
      assert s[..|s| - 1] == Digits(n / 10);
      DigitsRoundTrip(n / 10);
    }
  }

  /** Two amounts display alike only when they are equal. */
  lemma DigitsInjective(m: nat, n: nat)
    ensures Digits(m) == Digits(n) <==> m == n
  {
    DigitsRoundTrip(m);
    DigitsRoundTrip(n);
  }

  /** A JSON value as the log macros display it (string escapes are not modelled). */
  function Display(v: Json): (d: string)
    // a string is shown between double quotes, its contents verbatim
    ensures v.JString? ==> |d| == |v.str| + 2 && d[0] == '"' && d[|d| - 1] == '"' && d[1..|d| - 1] == v.str
    // a number is shown in decimal, with a leading minus sign when negative, and reads back as itself
    ensures v.JNumber? && v.num >= 0 ==>
              |d| >= 1 && (forall i :: 0 <= i < |d| ==> '0' <= d[i] <= '9') && DecimalValue(d) == v.num
    ensures v.JNumber? && v.num < 0 ==>
              |d| >= 2 && d[0] == '-' && (forall i :: 1 <= i < |d| ==> '0' <= d[i] <= '9') &&
              DecimalValue(d[1..]) == -v.num
    ensures v.JOther? ==> d == v.text
  {
    match v
    case JString(s) => "\"" + s + "\""
    case JNumber(n) =>
      DigitsRoundTrip(if n < 0 then -n else n);
      if n < 0 then "-" + Digits(-n) else Digits(n)
    case JOther(t) => t
  }

  /** The text of a log record, in the source's format. */
  function Render(r: LogRecord): (line: string)
    ensures r.ForwardSettled? ==> "Forwarded " <= line
    ensures r.ForwardFailed? ==>
              "Forward for " <= line && |line| >= |r.failReason| + 16 &&
              line[|line| - |r.failReason| - 16..] == "failed because: " + r.failReason
    ensures r.HandlerWarning? ==> line == "Could not handle forward event: " + Message(r.error)
  {
    match r
    case ForwardSettled(inMsat, feeMsat, i, o) =>
      "Forwarded " + Display(inMsat) + "msat (" + Display(feeMsat) + "msat fee) from "
      + i.shortId + " (" + i.peerAlias + ") to " + o.shortId + " (" + o.peerAlias + ")"
    case ForwardFailed(inMsat, i, o, reason) =>
      "Forward for " + Display(inMsat) + "msat from " + i.shortId + " (" + i.peerAlias + ") to "
      + o.shortId + " (" + o.peerAlias + ") " + "failed because: " + reason
    case HandlerWarning(e) => "Could not handle forward event: " + Message(e)
  }

  /** `status.as_str().unwrap()` panics on a status that is not a string. */
  predicate StatusIsString(p: Payload) {
    p.forwardEvent.Some? && p.forwardEvent.value.status.Some? ==> p.forwardEvent.value.status.value.JString?
  }

  /** The status string, when the payload has one. */
  function Status(p: Payload): Option<string> {
    if p.forwardEvent.Some? && p.forwardEvent.value.status.Some? && p.forwardEvent.value.status.value.JString?
    then Some(p.forwardEvent.value.status.value.str)
    else None
  }

  /** What the handler decides to do with a payload. */
  datatype Action = Reject(error: Error) | Ignore | LogSuccess(event: ForwardEvent) | LogFailure(event: ForwardEvent)

  function Classify(p: Payload, opts: Options): (a: Action)
    requires StatusIsString(p)
    ensures p.forwardEvent.None? ==> a == Reject(MissingForwardEvent)
    ensures p.forwardEvent.Some? && p.forwardEvent.value.status.None? ==> a == Reject(MissingStatus)
    ensures a.Reject? <==> Status(p).None?
    ensures a.LogSuccess? <==> Status(p) == Some(SETTLED) && opts.logSuccessfulForwards
    ensures a.LogFailure? <==> Status(p) == Some(LOCAL_FAILED) && opts.logFailedForwards
    ensures a.Ignore? <==>
              Status(p).Some? &&
              !(Status(p).value == SETTLED && opts.logSuccessfulForwards) &&
              !(Status(p).value == LOCAL_FAILED && opts.logFailedForwards)
    ensures a.LogSuccess? || a.LogFailure? ==> Some(a.event) == p.forwardEvent
  {
    match p.forwardEvent
    case None => Reject(MissingForwardEvent)
    case Some(event) =>
      match event.status
      case None => Reject(MissingStatus)
      case Some(s) =>
        if s.str == SETTLED then
          if opts.logSuccessfulForwards then LogSuccess(event) else Ignore
        else if s.str == LOCAL_FAILED then
          if opts.logFailedForwards then LogFailure(event) else Ignore
        else Ignore
  }

  /** Pairs a short id with its resolved name, or passes the resolution's error on. */
  function ParseChannelInfo(shortId: string, info: Result<string, Error>): (r: Result<ChannelInfo, Error>)
    ensures r.Ok? <==> info.Ok?
    ensures info.Ok? ==> r.value == ChannelInfo(shortId, info.value)
    ensures info.Err? ==> r.error == info.error
  {
    match info
    case Ok(alias) => Ok(ChannelInfo(shortId, alias))
    case Err(e) => Err(e)
  }

  /** `in_channel.as_str().unwrap()` and `out_channel.as_str().unwrap()` panic unless both are strings. */
  predicate ChannelsGiven(e: ForwardEvent) {
    e.inChannel.Some? && e.inChannel.value.JString? && e.outChannel.Some? && e.outChannel.value.JString?
  }

  /**
   * Both endpoints resolved, inbound then outbound; the outbound resolution
   * runs whatever became of the inbound one, and sees the caches it left.
   */
  function ChannelsInfo(own: PublicKey, parse: Parser, gw: Gateway, c: CacheState,
                        inId: string, outId: string, now: nat): (s: Step<(ChannelInfo, ChannelInfo)>)
    ensures var i := ChannelPeerAlias(own, parse, gw, c, inId, now);
            var o := ChannelPeerAlias(own, parse, gw, i.caches, outId, now);
            && s.calls == i.calls + o.calls
            && s.caches == o.caches
            && (s.result.Ok? <==> i.result.Ok? && o.result.Ok?)
            && (s.result.Ok? ==> s.result.value == (ChannelInfo(inId, i.result.value), ChannelInfo(outId, o.result.value)))
            && (i.result.Err? ==> s.result == Err(i.result.error))
            && (i.result.Ok? && o.result.Err? ==> s.result == Err(o.result.error))
  {
    var i := ChannelPeerAlias(own, parse, gw, c, inId, now);
    var o := ChannelPeerAlias(own, parse, gw, i.caches, outId, now);
    var result :=
      match ParseChannelInfo(inId, i.result)
      case Err(e) => Err(e)
      case Ok(inInfo) =>
        match ParseChannelInfo(outId, o.result)
        case Err(e) => Err(e)
        case Ok(outInfo) => Ok((inInfo, outInfo));
    Step(result, i.calls + o.calls, o.caches)
  }

  function InChannel(e: ForwardEvent): string
    requires ChannelsGiven(e)
  {
    e.inChannel.value.str
  }

  function OutChannel(e: ForwardEvent): string
    requires ChannelsGiven(e)
  {
    e.outChannel.value.str
  }

  /** The outcome of handling one event: the handler's result, the lines logged, the calls issued, the caches after. */
  datatype Effect = Effect(result: Result<(), Error>, lines: seq<LogRecord>, calls: nat, caches: CacheState)

  /** A settled forward can be logged without a panic: the amounts are read only once both names resolved. */
  predicate SuccessReady(own: PublicKey, parse: Parser, gw: Gateway, c: CacheState, e: ForwardEvent, now: nat) {
    ChannelsGiven(e) &&
    (ChannelsInfo(own, parse, gw, c, InChannel(e), OutChannel(e), now).result.Ok? ==>
       e.inMsat.Some? && e.feeMsat.Some?)
  }

  /** A locally failed forward can be logged without a panic; `failreason` must then be a string. */
  predicate FailureReady(own: PublicKey, parse: Parser, gw: Gateway, c: CacheState, e: ForwardEvent, now: nat) {
    ChannelsGiven(e) &&
    (ChannelsInfo(own, parse, gw, c, InChannel(e), OutChannel(e), now).result.Ok? ==>
       e.inMsat.Some? && e.failReason.Some? && e.failReason.value.JString?)
  }

  function SuccessLog(own: PublicKey, parse: Parser, gw: Gateway, c: CacheState, e: ForwardEvent, now: nat)
    : (f: Effect)
    requires SuccessReady(own, parse, gw, c, e, now)
    ensures var ci := ChannelsInfo(own, parse, gw, c, InChannel(e), OutChannel(e), now);
            && f.calls == ci.calls && f.caches == ci.caches
            && (f.result.Ok? <==> ci.result.Ok?)
            && (ci.result.Err? ==> f.result == Err(ci.result.error) && f.lines == [])
            && (ci.result.Ok? ==>
                  f.lines == [ForwardSettled(e.inMsat.value, e.feeMsat.value, ci.result.value.0, ci.result.value.1)])
  {
    var ci := ChannelsInfo(own, parse, gw, c, InChannel(e), OutChannel(e), now);
    match ci.result
    case Err(err) => Effect(Err(err), [], ci.calls, ci.caches)
    case Ok(infos) =>
      Effect(Ok(()), [ForwardSettled(e.inMsat.value, e.feeMsat.value, infos.0, infos.1)], ci.calls, ci.caches)
  }

  function FailureLog(own: PublicKey, parse: Parser, gw: Gateway, c: CacheState, e: ForwardEvent, now: nat)
    : (f: Effect)
    requires FailureReady(own, parse, gw, c, e, now)
    ensures var ci := ChannelsInfo(own, parse, gw, c, InChannel(e), OutChannel(e), now);
            && f.calls == ci.calls && f.caches == ci.caches
            && (f.result.Ok? <==> ci.result.Ok?)
            && (ci.result.Err? ==> f.result == Err(ci.result.error) && f.lines == [])
            && (ci.result.Ok? ==>
                  f.lines == [ForwardFailed(e.inMsat.value, ci.result.value.0, ci.result.value.1, e.failReason.value.str)])
  {
    var ci := ChannelsInfo(own, parse, gw, c, InChannel(e), OutChannel(e), now);
    match ci.result
    case Err(err) => Effect(Err(err), [], ci.calls, ci.caches)
    case Ok(infos) =>
      Effect(Ok(()), [ForwardFailed(e.inMsat.value, infos.0, infos.1, e.failReason.value.str)], ci.calls, ci.caches)
  }

  /** The payload and the flags are such that handling it cannot panic. */
  predicate NoPanic(own: PublicKey, parse: Parser, gw: Gateway, c: CacheState, p: Payload, opts: Options, now: nat) {
    StatusIsString(p) &&
    match Classify(p, opts)
    case LogSuccess(e) => SuccessReady(own, parse, gw, c, e, now)
    case LogFailure(e) => FailureReady(own, parse, gw, c, e, now)
    case _ => true
  }

  /** The inner handler, before its error is swallowed. */
  function HandlerEffect(own: PublicKey, parse: Parser, gw: Gateway, c: CacheState, p: Payload, opts: Options, now: nat)
    : (f: Effect)
    requires NoPanic(own, parse, gw, c, p, opts, now)
    // rejected and ignored events resolve nothing and log nothing
    ensures Classify(p, opts).Reject? ==> f == Effect(Err(Classify(p, opts).error), [], 0, c)
    ensures Classify(p, opts).Ignore? ==> f == Effect(Ok(()), [], 0, c)
    ensures Classify(p, opts).LogSuccess? ==> f == SuccessLog(own, parse, gw, c, Classify(p, opts).event, now)
    ensures Classify(p, opts).LogFailure? ==> f == FailureLog(own, parse, gw, c, Classify(p, opts).event, now)
    // at most one line, and only when handling succeeded; its kind follows the status and its flag
    ensures |f.lines| <= 1 && (f.lines != [] ==> f.result.Ok?)
    ensures f.lines != [] ==>
              (f.lines[0].ForwardSettled? && Status(p) == Some(SETTLED) && opts.logSuccessfulForwards) ||
              (f.lines[0].ForwardFailed? && Status(p) == Some(LOCAL_FAILED) && opts.logFailedForwards)
  {
    match Classify(p, opts)
    case Reject(err) => Effect(Err(err), [], 0, c)
    case Ignore => Effect(Ok(()), [], 0, c)
    case LogSuccess(e) => SuccessLog(own, parse, gw, c, e, now)
    case LogFailure(e) => FailureLog(own, parse, gw, c, e, now)
  }

  /** `forward_event`: the handler's error, if any, becomes a warning, and the result is always `Ok`. */
  function ForwardEventOutcome(own: PublicKey, parse: Parser, gw: Gateway, c: CacheState, p: Payload, opts: Options, now: nat)
    : (f: Effect)
    requires NoPanic(own, parse, gw, c, p, opts, now)
    ensures f.result == Ok(())
    ensures var h := HandlerEffect(own, parse, gw, c, p, opts, now);
            && f.lines == h.lines + (if h.result.Err? then [HandlerWarning(h.result.error)] else [])
            && f.calls == h.calls && f.caches == h.caches
    // exactly one record per event that is not ignored, none for an ignored one
    ensures |f.lines| <= 1
    ensures f.lines == [] <==> Classify(p, opts).Ignore?
  {
    var h := HandlerEffect(own, parse, gw, c, p, opts, now);
    var warnings := if h.result.Err? then [HandlerWarning(h.result.error)] else [];
    Effect(Ok(()), h.lines + warnings, h.calls, h.caches)
  }

  /** An event whose status is neither `settled` nor `local_failed` is silent, whatever the flags. */
  lemma OtherStatusIsSilent(own: PublicKey, parse: Parser, gw: Gateway, c: CacheState, p: Payload, opts: Options, now: nat)
    requires StatusIsString(p)
    requires Status(p).Some? && Status(p).value != SETTLED && Status(p).value != LOCAL_FAILED
    ensures NoPanic(own, parse, gw, c, p, opts, now)
    ensures ForwardEventOutcome(own, parse, gw, c, p, opts, now) == Effect(Ok(()), [], 0, c)
  {
  }

  /** With its flag off, a settled or locally failed forward is silent. */
  lemma DisabledStatusIsSilent(own: PublicKey, parse: Parser, gw: Gateway, c: CacheState, p: Payload, opts: Options, now: nat)
    requires StatusIsString(p)
    requires (Status(p) == Some(SETTLED) && !opts.logSuccessfulForwards) ||
             (Status(p) == Some(LOCAL_FAILED) && !opts.logFailedForwards)
    ensures NoPanic(own, parse, gw, c, p, opts, now)
    ensures ForwardEventOutcome(own, parse, gw, c, p, opts, now) == Effect(Ok(()), [], 0, c)
  {
  }

  /** A payload without `forward_event`, or without a status, yields one warning and nothing else. */
  lemma MalformedPayloadOnlyWarns(own: PublicKey, parse: Parser, gw: Gateway, c: CacheState, p: Payload, opts: Options, now: nat)
    requires p.forwardEvent.None? || p.forwardEvent.value.status.None?
    ensures NoPanic(own, parse, gw, c, p, opts, now)
    ensures var err := if p.forwardEvent.None? then MissingForwardEvent else MissingStatus;
            ForwardEventOutcome(own, parse, gw, c, p, opts, now) == Effect(Ok(()), [HandlerWarning(err)], 0, c)
  {
  }

  /**
   * When an enabled event's endpoints do not both resolve, the only record is
   * one warning carrying the inbound error if the inbound failed, the outbound
   * error otherwise.
   */
  lemma UnresolvedEndpointOnlyWarns(own: PublicKey, parse: Parser, gw: Gateway, c: CacheState, p: Payload, opts: Options, now: nat)
    requires NoPanic(own, parse, gw, c, p, opts, now)
    requires Classify(p, opts).LogSuccess? || Classify(p, opts).LogFailure?
    requires var e := Classify(p, opts).event;
             ChannelsInfo(own, parse, gw, c, InChannel(e), OutChannel(e), now).result.Err?
    ensures var e := Classify(p, opts).event;
            var i := ChannelPeerAlias(own, parse, gw, c, InChannel(e), now);
            var o := ChannelPeerAlias(own, parse, gw, i.caches, OutChannel(e), now);
            ForwardEventOutcome(own, parse, gw, c, p, opts, now).lines ==
              [HandlerWarning(if i.result.Err? then i.result.error else o.result.error)]
  {
  }

  /** The fixtures of the two worked scenarios: the local node, peer A ("Alice") and peer B (no alias). */
  const OWN: PublicKey := PublicKey([2, 0])
  const PEER_A: PublicKey := PublicKey([2, 1])
  const PEER_B: PublicKey := PublicKey([3, 2])

  function ScenarioParse(s: string): Result<ShortChannelId, string> {
    if s == "700000x1x0" then Ok(ShortChannelId(700000, 1, 0))
    else if s == "700001x2x0" then Ok(ShortChannelId(700001, 2, 0))
    else Err("malformed short channel id")
  }

  function ScenarioChannels(id: ShortChannelId): Result<seq<ChannelRecord>, string> {
    if id == ShortChannelId(700000, 1, 0) then Ok([ChannelRecord(PEER_A, OWN)])
    else if id == ShortChannelId(700001, 2, 0) then Ok([ChannelRecord(OWN, PEER_B)])
    else Ok([])
  }

  function ScenarioNodes(pk: PublicKey): Result<seq<NodeRecord>, string> {
    if pk == PEER_A then Ok([NodeRecord(Some("Alice"))])
    else if pk == PEER_B then Ok([NodeRecord(None)])
    else Ok([])
  }

  function ScenarioEvent(status: string, failReason: Option<Json>, feeMsat: Option<Json>): ForwardEvent {
    ForwardEvent(Some(JString(status)), Some(JString("700000x1x0")), Some(JString("700001x2x0")),
                 Some(JNumber(100100)), feeMsat, failReason)
  }

  const SCENARIO_GATEWAY: Gateway := Gateway(ScenarioChannels, ScenarioNodes)
  const EMPTY: CacheState := CacheState(map[], map[])

  /** The caches once the inbound endpoint of the scenarios has been resolved at `now`. */
  function AfterInbound(now: nat): CacheState {
    CacheState(map[ShortChannelId(700000, 1, 0) := PEER_A], map[PEER_A := AliasEntry("Alice", now)])
  }

  /** With empty caches the inbound channel costs two lookups and names Alice, the channel's source. */
  lemma ScenarioInbound(now: nat)
    ensures ChannelPeerAlias(OWN, ScenarioParse, SCENARIO_GATEWAY, EMPTY, "700000x1x0", now)
            == Step(Ok("Alice"), 2, AfterInbound(now))
  {
    var p := ChannelPeer(OWN, ScenarioParse, SCENARIO_GATEWAY, EMPTY, "700000x1x0");
    assert p == Step(Ok(PEER_A), 1, CacheState(map[ShortChannelId(700000, 1, 0) := PEER_A], map[]));
  }

  /** The outbound channel then costs two more lookups and names B by its key, the channel's destination. */
  lemma ScenarioOutbound(now: nat)
    ensures ChannelPeerAlias(OWN, ScenarioParse, SCENARIO_GATEWAY, AfterInbound(now), "700001x2x0", now).result
            == Ok(PubkeyString(PEER_B))
    ensures ChannelPeerAlias(OWN, ScenarioParse, SCENARIO_GATEWAY, AfterInbound(now), "700001x2x0", now).calls == 2
  {
    var p := ChannelPeer(OWN, ScenarioParse, SCENARIO_GATEWAY, AfterInbound(now), "700001x2x0");
    assert p.result == Ok(PEER_B) && p.calls == 1;
    assert PEER_B !in p.caches.names;
  }

  lemma ScenarioChannelsInfo(now: nat)
    ensures var s := ChannelsInfo(OWN, ScenarioParse, SCENARIO_GATEWAY, EMPTY, "700000x1x0", "700001x2x0", now);
            s.calls == 4 &&
            s.result == Ok((ChannelInfo("700000x1x0", "Alice"), ChannelInfo("700001x2x0", PubkeyString(PEER_B))))
  {
    ScenarioInbound(now);
    ScenarioOutbound(now);
  }

  /** A settled forward with empty caches: four lookups, one success line naming Alice and B's key. */
  lemma SettledScenario(now: nat)
    ensures var p := Payload(Some(ScenarioEvent(SETTLED, None, Some(JNumber(100)))));
            NoPanic(OWN, ScenarioParse, SCENARIO_GATEWAY, EMPTY, p, DEFAULT_OPTIONS, now) &&
            var f := ForwardEventOutcome(OWN, ScenarioParse, SCENARIO_GATEWAY, EMPTY, p, DEFAULT_OPTIONS, now);
            && f.calls == 4
            && f.lines == [ForwardSettled(JNumber(100100), JNumber(100),
                                          ChannelInfo("700000x1x0", "Alice"),
                                          ChannelInfo("700001x2x0", PubkeyString(PEER_B)))]
  {
    ScenarioChannelsInfo(now);
  }

  /** A local failure with empty caches: one failure line carrying the reason verbatim. */
  lemma LocalFailedScenario(now: nat)
    ensures var p := Payload(Some(ScenarioEvent(LOCAL_FAILED, Some(JString("WIRE_TEMPORARY_CHANNEL_FAILURE")), None)));
            NoPanic(OWN, ScenarioParse, SCENARIO_GATEWAY, EMPTY, p, DEFAULT_OPTIONS, now) &&
            ForwardEventOutcome(OWN, ScenarioParse, SCENARIO_GATEWAY, EMPTY, p, DEFAULT_OPTIONS, now).lines ==
              [ForwardFailed(JNumber(100100), ChannelInfo("700000x1x0", "Alice"),
                             ChannelInfo("700001x2x0", PubkeyString(PEER_B)), "WIRE_TEMPORARY_CHANNEL_FAILURE")]
  {
    ScenarioChannelsInfo(now);
  }

  /** The scenario's success line, field by field in the source's format. */
  lemma SettledScenarioText()
    ensures Render(ForwardSettled(JNumber(100100), JNumber(100), ChannelInfo("700000x1x0", "Alice"),
                                  ChannelInfo("700001x2x0", PubkeyString(PEER_B))))
            == "Forwarded " + "100100" + "msat (" + "100" + "msat fee) from " + "700000x1x0" + " (" + "Alice"
               + ") to " + "700001x2x0" + " (" + "0302" + ")"
  {
    assert Digits(1) == "1";
    assert Digits(10) == "10";
    assert Digits(100) == "100";
    assert Digits(1001) == "1001";
    assert Digits(10010) == "10010";
    assert Digits(100100) == "100100";
    assert PubkeyString(PEER_B) == "0302";
  }

  /** The scenario's failure line, ending with the reason verbatim. */
  lemma LocalFailedScenarioText()
    ensures Render(ForwardFailed(JNumber(100100), ChannelInfo("700000x1x0", "Alice"),
                                 ChannelInfo("700001x2x0", PubkeyString(PEER_B)), "WIRE_TEMPORARY_CHANNEL_FAILURE"))
            == "Forward for " + "100100" + "msat from " + "700000x1x0" + " (" + "Alice" + ") to "
               + "700001x2x0" + " (" + "0302" + ") " + "failed because: " + "WIRE_TEMPORARY_CHANNEL_FAILURE"
  {
    assert Digits(1) == "1";
    assert Digits(10) == "10";
    assert Digits(100) == "100";
    assert Digits(1001) == "1001";
    assert Digits(10010) == "10010";
    assert Digits(100100) == "100100";
    assert PubkeyString(PEER_B) == "0302";
  }

  /** The log stream; only its contents are modelled. */
  class Log {
    ghost var lines: seq<LogRecord>

    constructor ()
      ensures lines == []
    {
      lines := [];
    }

    /** `info!` or `warn!`: one record appended. */
    method Emit(r: LogRecord)
      modifies this
      ensures lines == old(lines) + [r]
    {
      lines := lines + [r];
    }
  }

  method GetChannelsInfo(names: NodeNames, gw: Gateway, e: ForwardEvent, now: nat)
    returns (r: Result<(ChannelInfo, ChannelInfo), Error>)
    requires ChannelsGiven(e)
    modifies names
    ensures var s := ChannelsInfo(names.ownPubkey, names.parse, gw, old(names.State()), InChannel(e), OutChannel(e), now);
            r == s.result && names.State() == s.caches && names.rpcCalls == old(names.rpcCalls) + s.calls
  {
    var inChannel := e.inChannel.value.str;
    var outChannel := e.outChannel.value.str;
    var inInfo := names.GetChannelPeerAlias(gw, inChannel, now);
    var outInfo := names.GetChannelPeerAlias(gw, outChannel, now);
    var i := ParseChannelInfo(inChannel, inInfo);
    if i.Err? {
      return Err(i.error);
    }
    var o := ParseChannelInfo(outChannel, outInfo);
    if o.Err? {
      return Err(o.error);
    }
    return Ok((i.value, o.value));
  }

  method LogForwardEventSuccess(names: NodeNames, log: Log, gw: Gateway, e: ForwardEvent, now: nat)
    returns (r: Result<(), Error>)
    requires SuccessReady(names.ownPubkey, names.parse, gw, names.State(), e, now)
    modifies names, log
    ensures var f := SuccessLog(names.ownPubkey, names.parse, gw, old(names.State()), e, now);
            && r == f.result && log.lines == old(log.lines) + f.lines
            && names.State() == f.caches && names.rpcCalls == old(names.rpcCalls) + f.calls
  {
    var channels := GetChannelsInfo(names, gw, e, now);
    if channels.Err? {
      return Err(channels.error);
    }
    log.Emit(ForwardSettled(e.inMsat.value, e.feeMsat.value, channels.value.0, channels.value.1));
    return Ok(());
  }

  method LogForwardEventFailed(names: NodeNames, log: Log, gw: Gateway, e: ForwardEvent, now: nat)
    returns (r: Result<(), Error>)
    requires FailureReady(names.ownPubkey, names.parse, gw, names.State(), e, now)
    modifies names, log
    ensures var f := FailureLog(names.ownPubkey, names.parse, gw, old(names.State()), e, now);
            && r == f.result && log.lines == old(log.lines) + f.lines
            && names.State() == f.caches && names.rpcCalls == old(names.rpcCalls) + f.calls
  {
    var channels := GetChannelsInfo(names, gw, e, now);
    if channels.Err? {
      return Err(channels.error);
    }
    log.Emit(ForwardFailed(e.inMsat.value, channels.value.0, channels.value.1, e.failReason.value.str));
    return Ok(());
  }

  /** The `async` block inside `forward_event`: classify, then log if the flag allows. */
  method HandleForwardEvent(names: NodeNames, log: Log, opts: Options, gw: Gateway, now: nat, p: Payload)
    returns (r: Result<(), Error>)
    requires NoPanic(names.ownPubkey, names.parse, gw, names.State(), p, opts, now)
    modifies names, log
    ensures var f := HandlerEffect(names.ownPubkey, names.parse, gw, old(names.State()), p, opts, now);
            && r == f.result && log.lines == old(log.lines) + f.lines
            && names.State() == f.caches && names.rpcCalls == old(names.rpcCalls) + f.calls
  {
    if p.forwardEvent.None? {
      return Err(MissingForwardEvent);
    }
    var event := p.forwardEvent.value;
    if event.status.None? {
      return Err(MissingStatus);
    }
    var status := event.status.value.str;
    if status == SETTLED {
      if opts.logSuccessfulForwards {
        r := LogForwardEventSuccess(names, log, gw, event, now);
        return;
      }
      return Ok(());
    } else if status == LOCAL_FAILED {
      if opts.logFailedForwards {
        r := LogForwardEventFailed(names, log, gw, event, now);
        return;
      }
      return Ok(());
    }
    return Ok(());
  }

  /** `forward_event`: a handler error is logged as a warning and dropped; the result is always `Ok`. */
  method ForwardEventHandler(names: NodeNames, log: Log, opts: Options, gw: Gateway, now: nat, p: Payload)
    returns (r: Result<(), Error>)
    requires NoPanic(names.ownPubkey, names.parse, gw, names.State(), p, opts, now)
    modifies names, log
    ensures r == Ok(())
    ensures var f := ForwardEventOutcome(names.ownPubkey, names.parse, gw, old(names.State()), p, opts, now);
            && log.lines == old(log.lines) + f.lines
            && names.State() == f.caches && names.rpcCalls == old(names.rpcCalls) + f.calls
  {
    var handled := HandleForwardEvent(names, log, opts, gw, now, p);
    if handled.Err? {
      log.Emit(HandlerWarning(handled.error));
    }
    return Ok(());
  }
}
