/** The session controller of main.c: a six-state machine driven by the
    transport's callbacks (tsclient_cb), by the JSON parser's callbacks
    (lejp_cb) and by the scheduled connection attempt (connect_client).

    A failure has no state of its own: it sets `interrupt` and `errorCode` and
    leaves `mainState` where it was. The transport and the JSON parser are not
    modelled; what the controller asks of them (frames written, writable
    callbacks requested, the service cancelled, the parser constructed and
    destructed) is recorded as a log of effects, and a receive event carries
    what lejp_parse returns together with the callbacks it makes on the way.

    The first half states each step as a function of the state before; the
    class Session below performs the steps in place and is proved against them. */
module TsClient {
  import opened CStrings
  import opened Errors
  import opened Frames
  import DataFile

  datatype MainState =
    | Init
    | SendAuth
    | AuthResponseAwait
    | SendButtonPressDown
    | SendButtonPressUp
    | Complete

  /** lejp_parse's result for "well-formed so far, more input needed". */
  const LEJP_CONTINUE: int := -1

  /** The reason of a lejp_cb call: a string value has ended, or anything else. */
  datatype LejpReason = ValStrEnd | OtherLejpReason

  /** Which watched path the parser is in (json_paths). */
  datatype PathMatch = NoMatch | PayloadApiKey

  /** One lejp_cb call: its reason, ctx->path_match and the string in ctx->buf. */
  datatype LejpCallback = LejpCallback(reason: LejpReason, pathMatch: PathMatch, buf: CStr)

  datatype Event =
    | ConnectInit(connected: bool)   // connect_client; whether lws_client_connect_via_info succeeded
    | ConnectionError                // LWS_CALLBACK_CLIENT_CONNECTION_ERROR
    | Established                    // LWS_CALLBACK_CLIENT_ESTABLISHED
    | Writeable                      // LWS_CALLBACK_CLIENT_WRITEABLE
    | Receive(callbacks: seq<LejpCallback>, parseResult: int)   // LWS_CALLBACK_CLIENT_RECEIVE
    | Interrupted                    // SIGINT
    | Unhandled                      // any other callback reason

  datatype Effect =
    | WriteFrame(message: Message)   // lws_write of the whole send buffer holding the message
    | RequestWritable                // lws_callback_on_writable
    | CancelService                  // lws_cancel_service
    | LejpConstruct
    | LejpDestruct
    | SaveApiKey(key: CStr)          // df_save_api_key, whose result is ignored
    | SetupInteraction               // continue_setup_trigger_process

  datatype Snapshot = Snapshot(
    mainState: MainState,
    interrupt: bool,
    errorCode: ErrorCode,
    jsonParseInProgress: bool)

  /** The globals as the process starts. */
  const Initial: Snapshot := Snapshot(Init, false, NoError, false)

  /** What stays fixed during a run: the setup flag and button id from the
      command line, and the key and key file path df_init left in df_data. */
  datatype Config = Config(setupTrigger: bool, buttonId: CStr, apiKey: CStr, dataFilePath: CStr)

  /** What tsclient_cb returns: a code of its own, or whatever
      lws_callback_http_dummy returns; the other handlers return nothing. */
  datatype CallbackReturn = Returned(code: int) | HttpDummy | NoReturn

  /** The controller's globals, the file system and every effect so far. */
  datatype Progress = Progress(session: Snapshot, fs: DataFile.FsState, effects: seq<Effect>)

  datatype Reaction = Reaction(next: Progress, ret: CallbackReturn)

  // ---------------------------------------------------------------------------
  // The JSON-path callback (lejp_cb)

  predicate IsApiKeyEnd(cb: LejpCallback)
  {
    cb.reason == ValStrEnd && cb.pathMatch == PayloadApiKey
  }

  /** lejp_cb: at the end of a payload.apiKey string it saves the key, runs the
      setup interaction in setup mode, and moves to SendButtonPressDown;
      every other callback changes nothing. */
  function OnLejpCallback(p: Progress, cfg: Config, cb: LejpCallback): Progress
  {
    if IsApiKeyEnd(cb) then
      var saved := DataFile.Save(cfg.apiKey, cb.buf, cfg.dataFilePath, p.fs);
      Progress(
        p.session.(mainState := SendButtonPressDown),
        saved.fs,
        p.effects + [SaveApiKey(cb.buf)] + (if cfg.setupTrigger then [SetupInteraction] else []))
    else p
  }

  /** The callbacks of one lejp_parse call, in order. */
  function LejpRun(p: Progress, cfg: Config, cbs: seq<LejpCallback>): Progress
  {
    if cbs == [] then p
    else OnLejpCallback(LejpRun(p, cfg, cbs[..|cbs| - 1]), cfg, cbs[|cbs| - 1])
  }

  /** The payload.apiKey values among the callbacks, in order. */
  function ApiKeyValues(cbs: seq<LejpCallback>): seq<CStr>
  {
    if cbs == [] then []
    else ApiKeyValues(cbs[..|cbs| - 1]) + (if IsApiKeyEnd(cbs[|cbs| - 1]) then [cbs[|cbs| - 1].buf] else [])
  }

  /** For each key in turn: a save, then the setup interaction in setup mode. */
  function SaveEffects(keys: seq<CStr>, setup: bool): seq<Effect>
  {
    if keys == [] then []
    else SaveEffects(keys[..|keys| - 1], setup) + [SaveApiKey(keys[|keys| - 1])]
         + (if setup then [SetupInteraction] else [])
  }

  /** The file system after saving each key in turn. */
  function SaveAll(cfg: Config, fs: DataFile.FsState, keys: seq<CStr>): DataFile.FsState
  {
    if keys == [] then fs
    else DataFile.Save(cfg.apiKey, keys[|keys| - 1], cfg.dataFilePath, SaveAll(cfg, fs, keys[..|keys| - 1])).fs
  }

  /** One parse: the state moves to SendButtonPressDown exactly when some
      callback ends a payload.apiKey string (see ApiKeyEndIffValues), and
      nothing else in the globals changes; each such key is saved, in order, with the stored key and path
      of df_data, each save followed by the setup interaction in setup mode. */
  lemma LejpRunOutcome(p: Progress, cfg: Config, cbs: seq<LejpCallback>)
    ensures var r := LejpRun(p, cfg, cbs);
      && r.session == (if ApiKeyValues(cbs) != []
                       then p.session.(mainState := SendButtonPressDown) else p.session)
      && r.effects == p.effects + SaveEffects(ApiKeyValues(cbs), cfg.setupTrigger)
      && r.fs == SaveAll(cfg, p.fs, ApiKeyValues(cbs))
  {
    LejpRunSession(p, cfg, cbs);
    LejpRunEffects(p, cfg, cbs);
    LejpRunSaves(p, cfg, cbs);
  }

  lemma {:induction false} LejpRunSession(p: Progress, cfg: Config, cbs: seq<LejpCallback>)
    ensures LejpRun(p, cfg, cbs).session
         == (if ApiKeyValues(cbs) != [] then p.session.(mainState := SendButtonPressDown) else p.session)
  {
    if cbs != [] {
      LejpRunSession(p, cfg, cbs[..|cbs| - 1]);
    }
  }

  lemma {:induction false} LejpRunEffects(p: Progress, cfg: Config, cbs: seq<LejpCallback>)
    ensures LejpRun(p, cfg, cbs).effects == p.effects + SaveEffects(ApiKeyValues(cbs), cfg.setupTrigger)
  {
    if cbs != [] {
      var front := cbs[..|cbs| - 1];
      var last := cbs[|cbs| - 1];
      LejpRunEffects(p, cfg, front);
      var keys := ApiKeyValues(front);
      var q := LejpRun(p, cfg, front);
      LejpStepEffects(q, cfg, last);
      if IsApiKeyEnd(last) {
        assert ApiKeyValues(cbs) == keys + [last.buf];
        SaveEffectsSnoc(keys, last.buf, cfg.setupTrigger);
      } else {
        assert ApiKeyValues(cbs) == keys;
      }
    }
  }

  lemma LejpStepEffects(q: Progress, cfg: Config, cb: LejpCallback)
    ensures OnLejpCallback(q, cfg, cb).effects
         == q.effects + (if IsApiKeyEnd(cb) then [SaveApiKey(cb.buf)] + (if cfg.setupTrigger then [SetupInteraction] else []) else [])
  {
  }

  lemma SaveEffectsSnoc(keys: seq<CStr>, key: CStr, setup: bool)
    ensures SaveEffects(keys + [key], setup)
         == SaveEffects(keys, setup) + [SaveApiKey(key)] + (if setup then [SetupInteraction] else [])
  {
    assert (keys + [key])[..|keys|] == keys;
  }

  lemma {:induction false} LejpRunSaves(p: Progress, cfg: Config, cbs: seq<LejpCallback>)
    ensures LejpRun(p, cfg, cbs).fs == SaveAll(cfg, p.fs, ApiKeyValues(cbs))
  {
    if cbs != [] {
      var front := cbs[..|cbs| - 1];
      var last := cbs[|cbs| - 1];
      LejpRunSaves(p, cfg, front);
      var keys := ApiKeyValues(front);
      if IsApiKeyEnd(last) {
        assert ApiKeyValues(cbs) == keys + [last.buf];
        assert (keys + [last.buf])[..|keys|] == keys;
      } else {
        assert ApiKeyValues(cbs) == keys;
      }
    }
  }

  /** Some callback ends a payload.apiKey string exactly when the parse
      reports an api key value. */
  lemma {:induction false} ApiKeyEndIffValues(cbs: seq<LejpCallback>)
    ensures ApiKeyValues(cbs) != [] <==> exists i :: 0 <= i < |cbs| && IsApiKeyEnd(cbs[i])
  {
    if cbs != [] {
      var front := cbs[..|cbs| - 1];
      ApiKeyEndIffValues(front);
      assert forall i :: 0 <= i < |front| ==> front[i] == cbs[i];
      if !IsApiKeyEnd(cbs[|cbs| - 1]) && exists i :: 0 <= i < |cbs| && IsApiKeyEnd(cbs[i]) {
        var i :| 0 <= i < |cbs| && IsApiKeyEnd(cbs[i]);
        assert i < |front| && IsApiKeyEnd(front[i]);
      }
    }
  }

  // ---------------------------------------------------------------------------
  // The transport callbacks (tsclient_cb) and the connection attempt

  /** The order in which a successful session passes through the states. */
  function Rank(ms: MainState): nat
  {
    match ms
    case Init => 0
    case SendAuth => 1
    case AuthResponseAwait => 2
    case SendButtonPressDown => 3
    case SendButtonPressUp => 4
    case Complete => 5
  }

  /** The states in which a writable callback sends a frame. */
  predicate IsSending(ms: MainState)
  {
    ms == SendAuth || ms == SendButtonPressDown || ms == SendButtonPressUp
  }

  /** The message sent from a sending state: auth with the stored key, then the
      button pressed down, then released. */
  function MessageFor(ms: MainState, cfg: Config): Message
    requires IsSending(ms)
  {
    match ms
    case SendAuth => AuthMessage(cfg.apiKey)
    case SendButtonPressDown => ButtonMessage(true, cfg.buttonId)
    case SendButtonPressUp => ButtonMessage(false, cfg.buttonId)
  }

  /** A writable callback: in a sending state it writes that state's message
      and moves one state on (see WriteableSends); in any other state it does
      nothing. */
  function OnWriteable(p: Progress, cfg: Config): (r: Reaction)
    ensures r.ret == HttpDummy && r.next.fs == p.fs
    ensures !IsSending(p.session.mainState) ==> r.next == p
  {
    var ms := p.session.mainState;
    if IsSending(ms) then
      Reaction(Progress(p.session.(mainState := NextState(ms)), p.fs, p.effects + Sent(ms, cfg)), HttpDummy)
    else Reaction(p, HttpDummy)
  }

  /** What a writable callback in a sending state logs: the frame, and a
      request for another writable callback after the press down. */
  function Sent(ms: MainState, cfg: Config): seq<Effect>
    requires IsSending(ms)
  {
    [WriteFrame(MessageFor(ms, cfg))] + (if ms == SendButtonPressDown then [RequestWritable] else [])
  }

  /** In a sending state a writable callback moves exactly one state on,
      changes nothing else in the globals, appends to the log exactly one
      message, the state's own, and asks for another writable callback
      exactly after the press down. */
  lemma WriteableSends(p: Progress, cfg: Config)
    requires IsSending(p.session.mainState)
    ensures var r := OnWriteable(p, cfg).next;
      && Rank(r.session.mainState) == Rank(p.session.mainState) + 1
      && r.session == p.session.(mainState := r.session.mainState)
      && |r.effects| > |p.effects| && r.effects[..|p.effects|] == p.effects
      && MessagesOf(r.effects) == MessagesOf(p.effects) + [MessageFor(p.session.mainState, cfg)]
      && (RequestWritable in r.effects[|p.effects|..] <==> p.session.mainState == SendButtonPressDown)
  {
    var ms := p.session.mainState;
    var sent := Sent(ms, cfg);
    MessagesOfAppend(p.effects, sent);
    MessagesOfSent(MessageFor(ms, cfg), ms == SendButtonPressDown);
    assert (p.effects + sent)[|p.effects|..] == sent;
    assert (p.effects + sent)[..|p.effects|] == p.effects;
  }

  /** The state after a sending state. */
  function NextState(ms: MainState): MainState
    requires IsSending(ms)
  {
    match ms
    case SendAuth => AuthResponseAwait
    case SendButtonPressDown => SendButtonPressUp
    case SendButtonPressUp => Complete
  }

  /** What one writable callback logs: its message, then possibly a request. */
  lemma MessagesOfSent(m: Message, more: bool)
    ensures MessagesOf([WriteFrame(m)] + (if more then [RequestWritable] else [])) == [m]
  {
    assert [WriteFrame(m)][..0] == [];
    assert MessagesOf([WriteFrame(m)]) == [m];
    if more {
      var sent := [WriteFrame(m), RequestWritable];
      assert sent[..1] == [WriteFrame(m)];
      assert [WriteFrame(m)] + [RequestWritable] == sent;
    } else {
      assert [WriteFrame(m)] + [] == [WriteFrame(m)];
    }
  }

  /** Whether lejp_parse's result is a hard parse error. */
  predicate IsParseError(parseResult: int)
  {
    parseResult < 0 && parseResult != LEJP_CONTINUE
  }

  /** A receive callback: the parser is constructed only when no parse is in
      progress; the parse's callbacks run; a hard parse error then records
      ErrJsonParse, destructs the parser and returns 0, and any other result
      asks for a writable callback. */
  function OnReceive(p: Progress, cfg: Config, cbs: seq<LejpCallback>, parseResult: int): Reaction
  {
    var constructed := if p.session.jsonParseInProgress then [] else [LejpConstruct];
    var parsing := Progress(p.session.(jsonParseInProgress := true), p.fs, p.effects + constructed);
    var parsed := LejpRun(parsing, cfg, cbs);
    if IsParseError(parseResult) then
      Reaction(Progress(
        parsed.session.(interrupt := true, errorCode := ErrJsonParse, jsonParseInProgress := false),
        parsed.fs, parsed.effects + [LejpDestruct]), Returned(0))
    else
      Reaction(Progress(parsed.session, parsed.fs, parsed.effects + [RequestWritable]), HttpDummy)
  }

  /** The controller's reaction to one event. */
  function Dispatch(p: Progress, cfg: Config, ev: Event): (r: Reaction)
    ensures ev == ConnectionError ==>
      r == Reaction(Progress(p.session.(interrupt := true, errorCode := ErrConnection), p.fs,
                             p.effects + [CancelService]), Returned(2))
    ensures ev == ConnectInit(false) ==>
      r.next == Progress(p.session.(interrupt := true, errorCode := ErrConnectionInit), p.fs,
                         p.effects + [CancelService])
    ensures ev == Established ==>
      r.next == Progress(p.session.(mainState := SendAuth), p.fs, p.effects + [RequestWritable])
  {
    var s := p.session;
    match ev
    case ConnectInit(connected) =>
      if connected then Reaction(p, NoReturn)
      else Reaction(Progress(s.(interrupt := true, errorCode := ErrConnectionInit), p.fs,
                             p.effects + [CancelService]), NoReturn)
    case ConnectionError =>
      Reaction(Progress(s.(interrupt := true, errorCode := ErrConnection), p.fs,
                        p.effects + [CancelService]), Returned(2))
    case Established =>
      Reaction(Progress(s.(mainState := SendAuth), p.fs, p.effects + [RequestWritable]), HttpDummy)
    case Writeable => OnWriteable(p, cfg)
    case Receive(cbs, parseResult) => OnReceive(p, cfg, cbs, parseResult)
    case Interrupted => Reaction(Progress(s.(interrupt := true), p.fs, p.effects), NoReturn)
    case Unhandled => Reaction(p, HttpDummy)
  }

  /** A sequence of events handled in order. */
  function Run(p: Progress, cfg: Config, evs: seq<Event>): Progress
  {
    if evs == [] then p
    else Dispatch(Run(p, cfg, evs[..|evs| - 1]), cfg, evs[|evs| - 1]).next
  }

  // ---------------------------------------------------------------------------
  // Properties of the controller

  /** A receive callback as a whole: the parser is constructed only when no
      parse was in progress; the parse's api keys are saved in order; a hard
      parse error then interrupts with ErrJsonParse, clears the in-progress
      flag, destructs the parser, requests no writable and returns 0, while any
      other result leaves the flag set and requests one writable callback. */
  lemma ReceiveOutcome(p: Progress, cfg: Config, cbs: seq<LejpCallback>, parseResult: int)
    ensures var r := OnReceive(p, cfg, cbs, parseResult);
      var advanced := exists i :: 0 <= i < |cbs| && IsApiKeyEnd(cbs[i]);
      var ms := if advanced then SendButtonPressDown else p.session.mainState;
      && r.next.effects ==
           p.effects + (if p.session.jsonParseInProgress then [] else [LejpConstruct])
           + SaveEffects(ApiKeyValues(cbs), cfg.setupTrigger)
           + (if IsParseError(parseResult) then [LejpDestruct] else [RequestWritable])
      && r.next.fs == SaveAll(cfg, p.fs, ApiKeyValues(cbs))
      && (IsParseError(parseResult) ==>
            r.ret == Returned(0) && r.next.session == Snapshot(ms, true, ErrJsonParse, false))
      && (!IsParseError(parseResult) ==>
            r.ret == HttpDummy && r.next.session == p.session.(mainState := ms, jsonParseInProgress := true))
  {
    var constructed := if p.session.jsonParseInProgress then [] else [LejpConstruct];
    LejpRunOutcome(Progress(p.session.(jsonParseInProgress := true), p.fs, p.effects + constructed), cfg, cbs);
    ApiKeyEndIffValues(cbs);
  }

  /** The error an event records, if any. */
  function FailureOf(ev: Event): Option<ErrorCode>
  {
    match ev
    case ConnectInit(connected) => if connected then None else Some(ErrConnectionInit)
    case ConnectionError => Some(ErrConnection)
    case Receive(_, parseResult) => if IsParseError(parseResult) then Some(ErrJsonParse) else None
    case _ => None
  }

  /** The error of the last failing event, or initial when none fails. */
  function LastFailure(evs: seq<Event>, initial: ErrorCode): ErrorCode
  {
    if evs == [] then initial
    else match FailureOf(evs[|evs| - 1])
      case Some(e) => e
      case None => LastFailure(evs[..|evs| - 1], initial)
  }

  predicate HasFailure(evs: seq<Event>)
  {
    exists i :: 0 <= i < |evs| && FailureOf(evs[i]).Some?
  }

  predicate Interrupts(ev: Event)
  {
    FailureOf(ev).Some? || ev == Interrupted
  }

  /** One event records its own failure, if it has one, and leaves the error
      code alone otherwise; it sets the interrupt flag exactly when it fails
      or is a SIGINT, and never clears it. */
  lemma StepFailure(p: Progress, cfg: Config, ev: Event)
    ensures Dispatch(p, cfg, ev).next.session.errorCode ==
      (match FailureOf(ev) case Some(e) => e case None => p.session.errorCode)
    ensures Dispatch(p, cfg, ev).next.session.interrupt == (p.session.interrupt || Interrupts(ev))
  {
    if ev.Receive? {
      var constructed := if p.session.jsonParseInProgress then [] else [LejpConstruct];
      LejpRunOutcome(Progress(p.session.(jsonParseInProgress := true), p.fs, p.effects + constructed),
                     cfg, ev.callbacks);
    }
  }

  /** A run ends with the error of its last failing event, or with the error
      it started with when no event fails. */
  lemma {:induction false} RunErrorCode(p: Progress, cfg: Config, evs: seq<Event>)
    ensures Run(p, cfg, evs).session.errorCode == LastFailure(evs, p.session.errorCode)
  {
    if evs != [] {
      RunErrorCode(p, cfg, evs[..|evs| - 1]);
      StepFailure(Run(p, cfg, evs[..|evs| - 1]), cfg, evs[|evs| - 1]);
    }
  }

  /** The last failure is NoError exactly when the run started without an
      error and no event failed. */
  lemma {:induction false} LastFailureNoError(evs: seq<Event>, initial: ErrorCode)
    ensures LastFailure(evs, initial) == NoError <==> initial == NoError && !HasFailure(evs)
  {
    if evs != [] {
      var front := evs[..|evs| - 1];
      LastFailureNoError(front, initial);
      assert forall i :: 0 <= i < |front| ==> front[i] == evs[i];
      if HasFailure(evs) && FailureOf(evs[|evs| - 1]).None? {
        var i :| 0 <= i < |evs| && FailureOf(evs[i]).Some?;
        assert i < |front| && FailureOf(front[i]).Some?;
      }
    }
  }

  /** A run started without an error ends with NoError, the code main returns
      for success, exactly when none of its events fails. */
  lemma ExitCodeNoError(p: Progress, cfg: Config, evs: seq<Event>)
    requires p.session.errorCode == NoError
    ensures Run(p, cfg, evs).session.errorCode == NoError <==> !HasFailure(evs)
  {
    RunErrorCode(p, cfg, evs);
    LastFailureNoError(evs, NoError);
  }

  /** The interrupt flag ends set exactly when it was set or some event failed
      or was a SIGINT. */
  lemma {:induction false} RunInterrupt(p: Progress, cfg: Config, evs: seq<Event>)
    ensures Run(p, cfg, evs).session.interrupt <==>
      p.session.interrupt || exists i :: 0 <= i < |evs| && Interrupts(evs[i])
  {
    if evs != [] {
      var front := evs[..|evs| - 1];
      RunInterrupt(p, cfg, front);
      StepFailure(Run(p, cfg, front), cfg, evs[|evs| - 1]);
      assert forall i :: 0 <= i < |front| ==> front[i] == evs[i];
      if (exists i :: 0 <= i < |evs| && Interrupts(evs[i])) && !Interrupts(evs[|evs| - 1]) {
        var i :| 0 <= i < |evs| && Interrupts(evs[i]);
        assert i < |front| && Interrupts(front[i]);
      }
    }
  }

  /** The states in which nothing is sent until something moves the session on. */
  predicate IsQuiet(ms: MainState)
  {
    ms == Init || ms == AuthResponseAwait || ms == Complete
  }

  /** Events that move a session out of a quiet state. */
  predicate Advances(ev: Event)
  {
    ev == Established || (ev.Receive? && exists i :: 0 <= i < |ev.callbacks| && IsApiKeyEnd(ev.callbacks[i]))
  }

  /** From a quiet state, events that neither establish a connection nor carry
      a payload.apiKey leave the state where it is and write no frame; in
      particular a connection error before the connection is established ends
      the run without any message sent. */
  lemma {:induction false} QuietWithoutHandshake(p: Progress, cfg: Config, evs: seq<Event>)
    requires IsQuiet(p.session.mainState)
    requires forall i :: 0 <= i < |evs| ==> !Advances(evs[i])
    ensures var r := Run(p, cfg, evs);
      && r.session.mainState == p.session.mainState
      && |r.effects| >= |p.effects| && r.effects[..|p.effects|] == p.effects
      && forall e :: e in r.effects[|p.effects|..] ==> !e.WriteFrame?
  {
    if evs != [] {
      var front := evs[..|evs| - 1];
      QuietWithoutHandshake(p, cfg, front);
      var q := Run(p, cfg, front);
      var r := Run(p, cfg, evs);
      QuietStep(q, cfg, evs[|evs| - 1]);
      assert r.effects[|p.effects|..] == q.effects[|p.effects|..] + r.effects[|q.effects|..];
    }
  }

  /** One event of the kind above, in a quiet state. */
  lemma QuietStep(q: Progress, cfg: Config, ev: Event)
    requires IsQuiet(q.session.mainState) && !Advances(ev)
    ensures var r := Dispatch(q, cfg, ev).next;
      && r.session.mainState == q.session.mainState
      && |r.effects| >= |q.effects| && r.effects[..|q.effects|] == q.effects
      && forall e :: e in r.effects[|q.effects|..] ==> !e.WriteFrame?
  {
    if ev.Receive? {
      QuietReceive(q, cfg, ev.callbacks, ev.parseResult);
    }
  }

  /** A receive whose parse ends no payload.apiKey string adds only parser
      and writable-request effects. */
  lemma QuietReceive(q: Progress, cfg: Config, cbs: seq<LejpCallback>, parseResult: int)
    requires forall i :: 0 <= i < |cbs| ==> !IsApiKeyEnd(cbs[i])
    ensures var r := OnReceive(q, cfg, cbs, parseResult).next;
      && r.session.mainState == q.session.mainState
      && exists added :: r.effects == q.effects + added && forall e :: e in added ==> !e.WriteFrame?
  {
    var constructed := if q.session.jsonParseInProgress then [] else [LejpConstruct];
    var parsing := Progress(q.session.(jsonParseInProgress := true), q.fs, q.effects + constructed);
    NoApiKeyEndNoValues(cbs);
    LejpRunSession(parsing, cfg, cbs);
    LejpRunEffects(parsing, cfg, cbs);
    assert SaveEffects([], cfg.setupTrigger) == [];
    var last := if IsParseError(parseResult) then LejpDestruct else RequestWritable;
    var r := OnReceive(q, cfg, cbs, parseResult).next;
    assert r.effects == q.effects + (constructed + [last]);
  }

  lemma {:induction false} NoApiKeyEndNoValues(cbs: seq<LejpCallback>)
    requires forall i :: 0 <= i < |cbs| ==> !IsApiKeyEnd(cbs[i])
    ensures ApiKeyValues(cbs) == []
  {
    if cbs != [] {
      NoApiKeyEndNoValues(cbs[..|cbs| - 1]);
    }
  }

  /** The session leaves AuthResponseAwait exactly on a new connection or on a
      received message whose parse ends a payload.apiKey string, whatever the
      parse returns; it then goes to SendButtonPressDown (or SendAuth). */
  lemma AwaitLeftOnlyByApiKey(p: Progress, cfg: Config, ev: Event)
    requires p.session.mainState == AuthResponseAwait
    ensures var next := Dispatch(p, cfg, ev).next.session.mainState;
      && (next != AuthResponseAwait <==> Advances(ev))
      && (ev.Receive? && Advances(ev) ==> next == SendButtonPressDown)
  {
    if ev.Receive? {
      var constructed := if p.session.jsonParseInProgress then [] else [LejpConstruct];
      var parsing := Progress(p.session.(jsonParseInProgress := true), p.fs, p.effects + constructed);
      LejpRunOutcome(parsing, cfg, ev.callbacks);
      ApiKeyEndIffValues(ev.callbacks);
    }
  }

  /** The messages a run has written, in order. */
  function MessagesOf(effects: seq<Effect>): seq<Message>
  {
    if effects == [] then []
    else MessagesOf(effects[..|effects| - 1])
         + (if effects[|effects| - 1].WriteFrame? then [effects[|effects| - 1].message] else [])
  }

  /** The configuration of the concrete runs below: key "abc123" stored,
      button "toggle.mute". */
  function HappyConfig(setup: bool, path: CStr): Config
  {
    Config(setup, "toggle.mute", "abc123", path)
  }

  /** The auth message and the press down and release of this configuration. */
  const Auth: Message := AuthMessage("abc123")
  const Down: Message := ButtonMessage(true, "toggle.mute")
  const Up: Message := ButtonMessage(false, "toggle.mute")

  /** The server's reply to auth, as lejp reports it. */
  const Reply: Event := Receive([LejpCallback(ValStrEnd, PayloadApiKey, "abc123")], 1)

  lemma Handshake(fs: DataFile.FsState, cfg: Config)
    requires cfg.apiKey == "abc123"
    ensures Run(Progress(Initial, fs, []), cfg, [ConnectInit(true), Established, Writeable])
         == Progress(Initial.(mainState := AuthResponseAwait), fs, [RequestWritable, WriteFrame(Auth)])
  {
    var p0 := Progress(Initial, fs, []);
    RunSnoc(p0, cfg, [], ConnectInit(true));
    assert [] + [ConnectInit(true)] == [ConnectInit(true)];
    RunSnoc(p0, cfg, [ConnectInit(true)], Established);
    assert [ConnectInit(true)] + [Established] == [ConnectInit(true), Established];
    var p2 := Progress(Initial.(mainState := SendAuth), fs, [RequestWritable]);
    assert Run(p0, cfg, [ConnectInit(true), Established]) == p2;
    RunSnoc(p0, cfg, [ConnectInit(true), Established], Writeable);
    assert [ConnectInit(true), Established] + [Writeable] == [ConnectInit(true), Established, Writeable];
    assert MessageFor(SendAuth, cfg) == Auth;
  }

  /** A reply whose payload.apiKey repeats the stored key, and whose parse
      is not a hard error: the file system is untouched (df_save_api_key
      returns at once), the setup interaction runs in setup mode, the state
      moves to SEND_BUTTON_PRESS_DOWN with a parse in progress, and one
      writable callback is requested. */
  lemma ReplyWithSameKey(p: Progress, cfg: Config, parseResult: int)
    requires !IsParseError(parseResult)
    ensures var r := Dispatch(p, cfg, Receive([LejpCallback(ValStrEnd, PayloadApiKey, cfg.apiKey)], parseResult));
      && r.ret == HttpDummy
      && r.next.fs == p.fs
      && r.next.session == p.session.(mainState := SendButtonPressDown, jsonParseInProgress := true)
      && r.next.effects == p.effects + (if p.session.jsonParseInProgress then [] else [LejpConstruct])
                           + [SaveApiKey(cfg.apiKey)] + (if cfg.setupTrigger then [SetupInteraction] else [])
                           + [RequestWritable]
  {
    var cbs := [LejpCallback(ValStrEnd, PayloadApiKey, cfg.apiKey)];
    var constructed := if p.session.jsonParseInProgress then [] else [LejpConstruct];
    var parsing := Progress(p.session.(jsonParseInProgress := true), p.fs, p.effects + constructed);
    assert cbs[..0] == [];
    assert LejpRun(parsing, cfg, cbs) == OnLejpCallback(parsing, cfg, cbs[0]);
  }

  /** The reply of the concrete run. */
  lemma HappyReply(p: Progress, setup: bool, path: CStr)
    requires p.session == Initial.(mainState := AuthResponseAwait)
    ensures Dispatch(p, HappyConfig(setup, path), Reply).next
         == Progress(Snapshot(SendButtonPressDown, false, NoError, true), p.fs,
                     p.effects + [LejpConstruct, SaveApiKey("abc123")]
                     + (if setup then [SetupInteraction] else []) + [RequestWritable])
  {
    ReplyWithSameKey(p, HappyConfig(setup, path), 1);
    assert p.effects + [LejpConstruct] + [SaveApiKey("abc123")] == p.effects + [LejpConstruct, SaveApiKey("abc123")];
  }

  lemma Presses(p: Progress, cfg: Config)
    requires p.session.mainState == SendButtonPressDown && cfg.buttonId == "toggle.mute"
    ensures Run(p, cfg, [Writeable, Writeable])
         == Progress(p.session.(mainState := Complete), p.fs,
                     p.effects + [WriteFrame(Down), RequestWritable, WriteFrame(Up)])
  {
    RunSnoc(p, cfg, [], Writeable);
    assert [] + [Writeable] == [Writeable];
    RunSnoc(p, cfg, [Writeable], Writeable);
    assert [Writeable] + [Writeable] == [Writeable, Writeable];
    var p1 := Progress(p.session.(mainState := SendButtonPressUp), p.fs,
                       p.effects + [WriteFrame(Down), RequestWritable]);
    assert Run(p, cfg, [Writeable]) == p1;
    assert MessageFor(SendButtonPressUp, cfg) == Up;
  }

  /** A whole successful run outside setup mode: the server's reply carries
      the stored key (so nothing is written to disk), and the run sends auth,
      press down and release, in that order, and completes with no error. */
  lemma HappyPath(fs: DataFile.FsState, path: CStr)
    ensures var evs := [ConnectInit(true), Established, Writeable, Reply, Writeable, Writeable];
      var r := Run(Progress(Initial, fs, []), HappyConfig(false, path), evs);
      && r.session == Snapshot(Complete, false, NoError, true)
      && r.fs == fs
      && MessagesOf(r.effects) == [Auth, Down, Up]
  {
    var cfg := HappyConfig(false, path);
    var p0 := Progress(Initial, fs, []);
    var hs := [ConnectInit(true), Established, Writeable];
    Handshake(fs, cfg);
    var p3 := Run(p0, cfg, hs);
    RunSnoc(p0, cfg, hs, Reply);
    HappyReply(p3, false, path);
    var p4 := Run(p0, cfg, hs + [Reply]);
    Presses(p4, cfg);
    RunAppend(p0, cfg, hs + [Reply], [Writeable, Writeable]);
    assert hs + [Reply] + [Writeable, Writeable] == [ConnectInit(true), Established, Writeable, Reply, Writeable, Writeable];
    var log := [RequestWritable, WriteFrame(Auth), LejpConstruct, SaveApiKey("abc123"), RequestWritable,
                WriteFrame(Down), RequestWritable, WriteFrame(Up)];
    assert Run(p0, cfg, hs + [Reply] + [Writeable, Writeable]).effects == log;
    MessagesOfLog(Auth, Down, Up, "abc123");
  }

  lemma MessagesOfLog(auth: Message, down: Message, up: Message, key: CStr)
    ensures MessagesOf([RequestWritable, WriteFrame(auth), LejpConstruct, SaveApiKey(key), RequestWritable,
                      WriteFrame(down), RequestWritable, WriteFrame(up)]) == [auth, down, up]
  {
    var log := [RequestWritable, WriteFrame(auth), LejpConstruct, SaveApiKey(key), RequestWritable,
                WriteFrame(down), RequestWritable, WriteFrame(up)];
    assert log[..1][..0] == [];
    assert MessagesOf(log[..1]) == [];
    assert log[..2][..1] == log[..1];
    assert MessagesOf(log[..2]) == [auth];
    assert log[..3][..2] == log[..2];
    assert MessagesOf(log[..3]) == [auth];
    assert log[..4][..3] == log[..3];
    assert MessagesOf(log[..4]) == [auth];
    assert log[..5][..4] == log[..4];
    assert MessagesOf(log[..5]) == [auth];
    assert log[..6][..5] == log[..5];
    assert MessagesOf(log[..6]) == [auth, down];
    assert log[..7][..6] == log[..6];
    assert MessagesOf(log[..7]) == [auth, down];
    assert log[..|log| - 1] == log[..7];
  }

  /** Handling events a then b is handling a + b. */
  lemma {:induction false} RunAppend(p: Progress, cfg: Config, a: seq<Event>, b: seq<Event>)
    ensures Run(p, cfg, a + b) == Run(Run(p, cfg, a), cfg, b)
  {
    if b == [] {
      assert a + b == a;
    } else {
      RunAppend(p, cfg, a, b[..|b| - 1]);
      assert (a + b)[..|a + b| - 1] == a + b[..|b| - 1];
    }
  }

  lemma RunSnoc(p: Progress, cfg: Config, evs: seq<Event>, ev: Event)
    ensures Run(p, cfg, evs + [ev]) == Dispatch(Run(p, cfg, evs), cfg, ev).next
  {
    assert (evs + [ev])[..|evs|] == evs;
  }

  /** The messages of two logs in turn are the messages of each, in turn. */
  lemma {:induction false} MessagesOfAppend(a: seq<Effect>, b: seq<Effect>)
    ensures MessagesOf(a + b) == MessagesOf(a) + MessagesOf(b)
  {
    if b != [] {
      MessagesOfAppend(a, b[..|b| - 1]);
      assert (a + b)[..|a + b| - 1] == a + b[..|b| - 1];
    } else {
      assert a + b == a;
    }
  }

  // ---------------------------------------------------------------------------
  // The controller's globals, updated in place

  class Session {
    var mainState: MainState
    var interrupt: bool
    var errorCode: ErrorCode
    var jsonParseInProgress: bool
    const setupTrigger: bool
    const buttonId: CStr
    const store: DataFile.DataFile
    const fs: DataFile.FileSystem
    ghost var effects: seq<Effect>

    ghost predicate Valid()
      reads store, store.apiKey
    {
      store.Valid()
    }

    ghost function Snap(): Snapshot
      reads this
    {
      Snapshot(mainState, interrupt, errorCode, jsonParseInProgress)
    }

    ghost function Cfg(): Config
      reads store, store.apiKey, store.apiKeyFilePath
      requires Valid()
    {
      Config(setupTrigger, buttonId, store.ApiKey(), store.FilePath())
    }

    ghost function Now(): Progress
      reads this, fs
    {
      Progress(Snap(), fs.State(), effects)
    }

    constructor (setupTrigger: bool, buttonId: CStr, store: DataFile.DataFile, fs: DataFile.FileSystem)
      requires store.Valid()
      ensures Valid() && Snap() == Initial && effects == []
      ensures this.setupTrigger == setupTrigger && this.buttonId == buttonId
      ensures this.store == store && this.fs == fs
    {
      this.setupTrigger := setupTrigger;
      this.buttonId := buttonId;
      this.store := store;
      this.fs := fs;
      mainState := Init;
      interrupt := false;
      errorCode := NoError;
      jsonParseInProgress := false;
      effects := [];
    }

    /** Handles one event as the transport, the scheduler or the signal would
        deliver it. */
    method Handle(ev: Event) returns (ret: CallbackReturn)
      requires Valid()
      modifies this, fs
      ensures Valid()
      ensures Reaction(Now(), ret) == Dispatch(old(Now()), Cfg(), ev)
    {
      match ev
      case ConnectInit(connected) =>
        ConnectClient(connected);
        ret := NoReturn;
      case ConnectionError => ret := OnConnectionError();
      case Established => ret := OnEstablished();
      case Writeable => ret := OnWriteable();
      case Receive(cbs, parseResult) => ret := OnReceive(cbs, parseResult);
      case Interrupted =>
        OnInterrupt();
        ret := NoReturn;
      case Unhandled => ret := HttpDummy;
    }

    /** connect_client: a failed connection attempt records ErrConnectionInit
        and cancels the service wait. */
    method ConnectClient(connected: bool)
      requires Valid()
      modifies this
      ensures Now() == Dispatch(old(Now()), Cfg(), ConnectInit(connected)).next
    {
      if !connected {
        interrupt := true;
        errorCode := ErrConnectionInit;
        effects := effects + [CancelService];
      }
    }

    /** sigint_handler. */
    method OnInterrupt()
      requires Valid()
      modifies this
      ensures Now() == Dispatch(old(Now()), Cfg(), Interrupted).next
    {
      interrupt := true;
    }

    method OnConnectionError() returns (ret: CallbackReturn)
      requires Valid()
      modifies this
      ensures Reaction(Now(), ret) == Dispatch(old(Now()), Cfg(), ConnectionError)
    {
      interrupt := true;
      errorCode := ErrConnection;
      effects := effects + [CancelService];
      return Returned(2);
    }

    method OnEstablished() returns (ret: CallbackReturn)
      requires Valid()
      modifies this
      ensures Reaction(Now(), ret) == Dispatch(old(Now()), Cfg(), Established)
    {
      mainState := SendAuth;
      effects := effects + [RequestWritable];
      return HttpDummy;
    }

    /** The auth message sent from a fresh send buffer (FillAuth), and the
        whole buffer handed to lws_write. */
    method WriteAuth(key: CStr)
      modifies this`effects
      ensures effects == old(effects) + [WriteFrame(AuthMessage(key))]
    {
      var sendBuf := new char[SEND_BUF_LEN];
      FillAuth(key, sendBuf);
      LwsWrite(sendBuf, AuthMessage(key));
    }

    /** send_buf zero-filled, then the auth template rendered into it with the
        key: the buffer then holds the frame of the auth message. */
    static method FillAuth(key: CStr, sendBuf: array<char>)
      requires sendBuf.Length == SEND_BUF_LEN
      modifies sendBuf
      ensures sendBuf[..] == Frame(Text(AuthMessage(key)))
    {
      Memset(sendBuf);
      var _ := Snprintf(sendBuf, 0, SEND_BUF_LEN, AuthText(key));
    }

    method OnWriteable() returns (ret: CallbackReturn)
      requires Valid()
      modifies this
      ensures Reaction(Now(), ret) == Dispatch(old(Now()), Cfg(), Writeable)
    {
      if mainState == SendAuth {
        // the setup-mode console hint is left out
        WriteAuth(store.ApiKey());
        mainState := AuthResponseAwait;
      } else if mainState == SendButtonPressDown {
        SendButtonPress(true);
        mainState := SendButtonPressUp;
        effects := effects + [RequestWritable];
      } else if mainState == SendButtonPressUp {
        SendButtonPress(false);
        mainState := Complete;
      }
      return HttpDummy;
    }

    /** A button press sent from a fresh send buffer (FillButtonPress), and
        the whole buffer handed to lws_write. */
    method SendButtonPress(isDown: bool)
      modifies this`effects
      ensures effects == old(effects) + [WriteFrame(ButtonMessage(isDown, buttonId))]
    {
      var sendBuf := new char[SEND_BUF_LEN];
      FillButtonPress(buttonId, isDown, sendBuf);
      LwsWrite(sendBuf, ButtonMessage(isDown, buttonId));
    }

    /** lws_write(wsi, &send_buf[LWS_PRE], send_buf_len, LWS_WRITE_TEXT): the
        whole buffer goes out as one text frame. The log records the message
        whose frame the buffer holds, so it can only record what is sent. */
    method LwsWrite(sendBuf: array<char>, ghost m: Message)
      requires sendBuf[..] == Frame(Text(m))
      modifies this`effects
      ensures effects == old(effects) + [WriteFrame(m)]
    {
      effects := effects + [WriteFrame(m)];
    }

    /** send_buf zero-filled, then build_button_press_lws_payload: the buffer
        then holds the frame of the button-press message. */
    static method FillButtonPress(buttonId: CStr, isDown: bool, sendBuf: array<char>)
      requires sendBuf.Length == SEND_BUF_LEN
      modifies sendBuf
      ensures sendBuf[..] == Frame(Text(ButtonMessage(isDown, buttonId)))
    {
      Memset(sendBuf);
      BuildButtonPressPayload(buttonId, isDown, sendBuf);
    }

    static method BuildButtonPressPayload(buttonId: CStr, isDown: bool, buf: array<char>)
      requires buf.Length == SEND_BUF_LEN
      modifies buf
      ensures buf[..] == Written(old(buf[..]), 0, SEND_BUF_LEN, ButtonText(isDown, buttonId))
    {
      var _ := Snprintf(buf, 0, SEND_BUF_LEN, ButtonText(isDown, buttonId));
    }

    method OnReceive(cbs: seq<LejpCallback>, parseResult: int) returns (ret: CallbackReturn)
      requires Valid()
      modifies this, fs
      ensures Valid()
      ensures Reaction(Now(), ret) == Dispatch(old(Now()), Cfg(), Receive(cbs, parseResult))
    {
      if !jsonParseInProgress {
        jsonParseInProgress := true;
        effects := effects + [LejpConstruct];
      }
      ghost var parsing := Now();
      ghost var constructed: seq<Effect> := if old(jsonParseInProgress) then [] else [LejpConstruct];
      assert old(effects) + constructed == effects;
      assert parsing == Progress(old(Snap()).(jsonParseInProgress := true), old(fs.State()), old(effects) + constructed);
      // lejp_parse makes these callbacks, in order, before it returns
      for i := 0 to |cbs|
        invariant Valid()
        invariant Now() == LejpRun(parsing, Cfg(), cbs[..i])
      {
        assert cbs[..i + 1][..i] == cbs[..i];
        var _ := LejpCb(cbs[i]);
      }
      assert cbs[..|cbs|] == cbs;
      ghost var parsed := Now();
      if IsParseError(parseResult) {
        interrupt := true;
        errorCode := ErrJsonParse;
        jsonParseInProgress := false;
        effects := effects + [LejpDestruct];
        assert Now() == Progress(
          parsed.session.(interrupt := true, errorCode := ErrJsonParse, jsonParseInProgress := false),
          parsed.fs, parsed.effects + [LejpDestruct]);
        return Returned(0);
      }
      effects := effects + [RequestWritable];
      return HttpDummy;
    }

    /** lejp_cb. */
    method LejpCb(cb: LejpCallback) returns (r: int)
      requires Valid()
      modifies this, fs
      ensures Valid()
      ensures r == 0
      ensures Now() == OnLejpCallback(old(Now()), Cfg(), cb)
    {
      if cb.reason == ValStrEnd && cb.pathMatch == PayloadApiKey {
        var _ := store.SaveApiKey(fs, cb.buf);
        effects := effects + [SaveApiKey(cb.buf)];
        if setupTrigger {
          effects := effects + [SetupInteraction];
        }
        mainState := SendButtonPressDown;
      }
      return 0;
    }
  }
}
