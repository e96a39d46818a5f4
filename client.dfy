/** main in main.c: the order of its early returns, and the service loop that
    runs the session until it is interrupted, completes or the transport
    fails. lws_service is not modelled; each call is a round holding the
    events it delivers and the value it returns. */
module Startup {
  import opened CStrings
  import opened Errors
  import opened TsClient
  import DataFile

  /** The options main reads with lws_cmdline_option: help, verbose,
      --button-id with its value, and setup. */
  datatype CmdLine = CmdLine(help: bool, verbose: bool, buttonId: Option<CStr>, setup: bool)

  /** One lws_service call: the events it delivers, in order, and its result. */
  datatype ServiceRound = ServiceRound(events: seq<Event>, result: int)

  /** The condition of main's service loop. */
  predicate KeepServing(s: Snapshot, lastResult: int)
  {
    lastResult >= 0 && !s.interrupt && s.mainState != Complete
  }

  /** Where a service loop ends: its final progress, whether the loop stopped
      (rather than running out of rounds), the last lws_service result, how
      many rounds it handled, and every event it handled. */
  datatype Served = Served(final: Progress, stopped: bool, lastResult: int, handled: nat, events: seq<Event>)

  /** The events of the given rounds, in order. */
  function EventsOf(rounds: seq<ServiceRound>): seq<Event>
  {
    if rounds == [] then [] else rounds[0].events + EventsOf(rounds[1..])
  }

  /** The lws_service result the loop condition sees before round j. */
  function ResultBefore(rounds: seq<ServiceRound>, lastResult: int, j: nat): int
    requires j <= |rounds|
  {
    if j == 0 then lastResult else rounds[j - 1].result
  }

  /** The service loop over the given rounds, starting from the result
      lastResult; stopped is false when the rounds run out while the loop
      would still go on. ServeHandlesPrefix states which rounds it handles. */
  function Serve(p: Progress, cfg: Config, rounds: seq<ServiceRound>, lastResult: int): (r: Served)
    ensures r.stopped <==> !KeepServing(r.final.session, r.lastResult)
    ensures r.final == Run(p, cfg, r.events)
    ensures r.handled <= |rounds| && (!r.stopped ==> r.handled == |rounds|)
    decreases |rounds|
  {
    if !KeepServing(p.session, lastResult) then Served(p, true, lastResult, 0, [])
    else if rounds == [] then Served(p, false, lastResult, 0, [])
    else
      var rest := Serve(Run(p, cfg, rounds[0].events), cfg, rounds[1..], rounds[0].result);
      RunAppend(p, cfg, rounds[0].events, rest.events);
      Served(rest.final, rest.stopped, rest.lastResult, rest.handled + 1, rounds[0].events + rest.events)
  }

  /** The loop handles the first `handled` rounds, whole and in order, and
      nothing else: the loop condition held before each of them, with the
      result of the round before, and lastResult is the result of the last
      round handled. With the ensures of Serve, the loop stops at the first
      point where the condition fails. */
  lemma {:induction false} ServeHandlesPrefix(p: Progress, cfg: Config, rounds: seq<ServiceRound>, lastResult: int)
    ensures var r := Serve(p, cfg, rounds, lastResult);
      && r.events == EventsOf(rounds[..r.handled])
      && r.lastResult == ResultBefore(rounds, lastResult, r.handled)
      && forall j :: 0 <= j < r.handled ==>
           KeepServing(Run(p, cfg, EventsOf(rounds[..j])).session, ResultBefore(rounds, lastResult, j))
    decreases |rounds|
  {
    var r := Serve(p, cfg, rounds, lastResult);
    if KeepServing(p.session, lastResult) && rounds != [] {
      var p1 := Run(p, cfg, rounds[0].events);
      var tail := rounds[1..];
      var rest := Serve(p1, cfg, tail, rounds[0].result);
      ServeHandlesPrefix(p1, cfg, tail, rounds[0].result);
      EventsOfFront(rounds, r.handled);
      forall j | 0 <= j < r.handled
        ensures KeepServing(Run(p, cfg, EventsOf(rounds[..j])).session, ResultBefore(rounds, lastResult, j))
      {
        if j == 0 {
          assert rounds[..0] == [];
        } else {
          EventsOfFront(rounds, j);
          RunAppend(p, cfg, rounds[0].events, EventsOf(tail[..j - 1]));
          assert ResultBefore(rounds, lastResult, j) == ResultBefore(tail, rounds[0].result, j - 1);
        }
      }
    } else {
      assert rounds[..0] == [];
    }
  }

  /** The events of a nonempty prefix: the first round's, then the rest's. */
  lemma EventsOfFront(rounds: seq<ServiceRound>, j: nat)
    requires 1 <= j <= |rounds|
    ensures EventsOf(rounds[..j]) == rounds[0].events + EventsOf(rounds[1..][..j - 1])
  {
    assert rounds[..j][0] == rounds[0];
    assert rounds[..j][1..] == rounds[1..][..j - 1];
  }

  /** A process that gets past startup exits with code NoError exactly when
      none of the events its loop handled failed, however the loop ended. */
  lemma ServedExitCode(p: Progress, cfg: Config, rounds: seq<ServiceRound>)
    requires p.session.errorCode == NoError
    ensures var r := Serve(p, cfg, rounds, 0);
      r.final.session.errorCode == NoError <==> !HasFailure(r.events)
  {
    ExitCodeNoError(p, cfg, Serve(p, cfg, rounds, 0).events);
  }

  /** A loop that stops without the session complete and without a negative
      lws_service result was interrupted: by a failure or by SIGINT. */
  lemma {:induction false} IncompleteStopIsInterrupt(p: Progress, cfg: Config, rounds: seq<ServiceRound>)
    requires !p.session.interrupt
    ensures var r := Serve(p, cfg, rounds, 0);
      r.stopped && r.final.session.mainState != Complete && r.lastResult >= 0 ==>
        exists i :: 0 <= i < |r.events| && Interrupts(r.events[i])
  {
    RunInterrupt(p, cfg, Serve(p, cfg, rounds, 0).events);
  }

  /** The configuration df_init leaves for a run: the path it resolved and
      the key it loaded into the zero-filled record. */
  function LoadedConfig(cmd: CmdLine, env: DataFile.Env, files: map<string, string>): (r: Config)
    requires cmd.buttonId.Some?
    ensures r.setupTrigger == cmd.setup && r.buttonId == cmd.buttonId.value
    ensures DataFile.IntendedFilePath(env).PathOk? ==> r.dataFilePath == DataFile.IntendedFilePath(env).path
    ensures r.dataFilePath in files && files[r.dataFilePath] != [] ==>
      r.apiKey == CString(files[r.dataFilePath][..LineLength(files[r.dataFilePath], DataFile.API_KEY_BUF_SIZE - 1)])
    ensures r.dataFilePath !in files || files[r.dataFilePath] == [] ==> r.apiKey == []
    ensures |r.apiKey| < DataFile.API_KEY_BUF_SIZE
  {
    var path := CString(DataFile.CheckedFilePath(env, Zeros(DataFile.PATH_BUF_SIZE)).buffer);
    var buf := Zeros(DataFile.API_KEY_BUF_SIZE);
    DataFile.LoadedKey(buf, path, files);
    assert CString(buf) == [] by { assert buf[0] == '\0'; }
    Config(cmd.setup, cmd.buttonId.value, CString(DataFile.LoadedKeyBuffer(buf, path, files)), path)
  }

  /** LoadedConfig field by field, as the store and the session hold them. */
  lemma LoadedConfigFields(cmd: CmdLine, env: DataFile.Env, files: map<string, string>)
    requires cmd.buttonId.Some?
    ensures var path := CString(DataFile.CheckedFilePath(env, Zeros(DataFile.PATH_BUF_SIZE)).buffer);
      LoadedConfig(cmd, env, files)
      == Config(cmd.setup, cmd.buttonId.value,
                CString(DataFile.LoadedKeyBuffer(Zeros(DataFile.API_KEY_BUF_SIZE), path, files)), path)
  {
  }

  /** A key the session saved successfully is the key the next process
      loads: with the same environment, df_init resolves the same path and
      reads back any newline-free key df_save_api_key wrote. */
  lemma NextRunLoadsSavedKey(cmd: CmdLine, env: DataFile.Env, current: CStr, key: CStr, s: DataFile.FsState)
    requires cmd.buttonId.Some? && '\n' !in key && current != key
    requires var path := LoadedConfig(cmd, env, s.files).dataFilePath;
      DataFile.Save(current, key, path, s).code == NoError
    ensures var path := LoadedConfig(cmd, env, s.files).dataFilePath;
      LoadedConfig(cmd, env, DataFile.Save(current, key, path, s).fs.files) == LoadedConfig(cmd, env, s.files).(apiKey := key)
  {
    var path := LoadedConfig(cmd, env, s.files).dataFilePath;
    DataFile.SavedKeyLoadsBack(current, key, path, s);
  }

  /** main, given whether lws_create_context succeeds and what each
      lws_service call delivers: the code the process returns, or None when
      the loop would still go on after the given rounds. */
  method RunClient(cmd: CmdLine, env: DataFile.Env, fs: DataFile.FileSystem, contextCreated: bool,
                   rounds: seq<ServiceRound>)
    returns (exit: Option<ErrorCode>)
    modifies fs
    ensures cmd.help ==> exit == Some(NoError) && fs.State() == old(fs.State())
    ensures !cmd.help && cmd.buttonId.None? ==> exit == Some(ErrParameters) && fs.State() == old(fs.State())
    ensures !cmd.help && cmd.buttonId.Some? ==>
      var init := DataFile.CheckedFilePath(env, Zeros(DataFile.PATH_BUF_SIZE));
      var loaded := old(fs.State()).(ops := old(fs.ops) + DataFile.LoadOps(CString(init.buffer), old(fs.files)));
      && (init.code != NoError ==> exit == Some(init.code) && fs.State() == old(fs.State()))
      && (init.code == NoError && !contextCreated ==> exit == Some(ErrLwsInit) && fs.State() == loaded)
      && (init.code == NoError && contextCreated ==>
            var r := Serve(Progress(Initial, loaded, []), LoadedConfig(cmd, env, old(fs.files)), rounds, 0);
            && exit == (if r.stopped then Some(r.final.session.errorCode) else None)
            && fs.State() == r.final.fs)
  {
    if cmd.help {
      return Some(NoError);
    }
    if cmd.buttonId.None? {
      return Some(ErrParameters);
    }
    // the setup banner and its ENTER prompt are left out
    var store := new DataFile.DataFile();
    var code := store.DfInit(env, fs);
    if code != NoError {
      return Some(code);
    }
    ghost var path := CString(DataFile.CheckedFilePath(env, Zeros(DataFile.PATH_BUF_SIZE)).buffer);
    assert store.FilePath() == path;
    assert store.ApiKey() == CString(DataFile.LoadedKeyBuffer(Zeros(DataFile.API_KEY_BUF_SIZE), path, old(fs.files)));
    assert fs.State() == old(fs.State()).(ops := old(fs.ops) + DataFile.LoadOps(path, old(fs.files)));
    if !contextCreated {
      return Some(ErrLwsInit);
    }
    var s := new Session(cmd.setup, cmd.buttonId.value, store, fs);
    LoadedConfigFields(cmd, env, old(fs.files));
    assert s.Cfg() == LoadedConfig(cmd, env, old(fs.files));
    exit := ServiceLoop(s, rounds);
  }

  /** main's service loop: lws_service rounds until the loop condition fails
      or the rounds run out; the process's exit code is then error_code. */
  method ServiceLoop(s: Session, rounds: seq<ServiceRound>) returns (exit: Option<ErrorCode>)
    requires s.Valid()
    modifies s, s.fs
    ensures s.Valid()
    ensures var r := Serve(old(s.Now()), s.Cfg(), rounds, 0);
      && exit == (if r.stopped then Some(r.final.session.errorCode) else None)
      && s.Now() == r.final
  {
    ghost var start := s.Now();
    var result := 0;
    var i := 0;
    while KeepServing(Snapshot(s.mainState, s.interrupt, s.errorCode, s.jsonParseInProgress), result)
          && i < |rounds|
      invariant 0 <= i <= |rounds|
      invariant s.Valid() && s.Cfg() == old(s.Cfg())
      invariant var whole := Serve(start, s.Cfg(), rounds, 0);
                var rest := Serve(s.Now(), s.Cfg(), rounds[i..], result);
                whole.final == rest.final && whole.stopped == rest.stopped
      decreases |rounds| - i
    {
      assert rounds[i..][0] == rounds[i] && rounds[i..][1..] == rounds[i + 1..];
      ServeRound(s, rounds[i]);
      result := rounds[i].result;
      i := i + 1;
    }
    var stopped := !KeepServing(Snapshot(s.mainState, s.interrupt, s.errorCode, s.jsonParseInProgress), result);
    exit := if stopped then Some(s.errorCode) else None;
  }

  /** One lws_service call: the session handles the round's events in order. */
  method ServeRound(s: Session, round: ServiceRound)
    requires s.Valid()
    modifies s, s.fs
    ensures s.Valid() && s.Cfg() == old(s.Cfg())
    ensures s.Now() == Run(old(s.Now()), s.Cfg(), round.events)
  {
    ghost var before := s.Now();
    for j := 0 to |round.events|
      invariant s.Valid() && s.Cfg() == old(s.Cfg())
      invariant s.Now() == Run(before, s.Cfg(), round.events[..j])
    {
      var _ := s.Handle(round.events[j]);
      RunSnoc(before, s.Cfg(), round.events[..j], round.events[j]);
      assert round.events[..j + 1] == round.events[..j] + [round.events[j]];
    }
    assert round.events[..|round.events|] == round.events;
  }
}
