# tshotkeytrigger — a Dafny model of the client's core

tshotkeytrigger is a small command-line client for the TeamSpeak 6 "Remote
Apps" WebSocket API. It triggers one hotkey: it connects, authenticates with a
stored API key, sends a button press down and a release for a button id given
on the command line, then exits. Along the way it saves whatever API key the
server sends back. This project models the two parts of the client that hold
its logic:

- **The session controller** (main.c). This is a six-state machine
  (`MainState`) driven by transport callbacks (`tsclient_cb`), by JSON-path
  callbacks (`lejp_cb`) and by the scheduled connection attempt
  (`connect_client`). A failure has no state of its own. It sets the
  `interrupt` and `error_code` flags and leaves the state where it was.
  - Module `TsClient` states each step as a pure function of the state before
    it (`Dispatch`, `Run`).
  - Class `TsClient.Session` performs the same steps in place, with one method
    per event, and is proved against those functions.
  - Module `Frames` models the outbound text frames. The effect log records
    each write as the message it carries (`WriteFrame(m)`). Every write goes
    through `TsClient.Session.LwsWrite`, which requires the bytes handed to
    `lws_write` to be the frame of the message it logs, and
    `Frames.FrameCarriesMessage` proves that a receiver reads the message back.
  - Module `Startup` models `main`'s early returns and its service loop.
- **The credential store** (datafile.c). Module `DataFile` models how the key
  file's path is derived from `XDG_DATA_HOME`/`HOME`, how directories are
  created, and how the key is loaded with fgets and saved.
  - The environment and file system are abstract: a set of directories, a map
    from path to contents, the paths where opening or writing fails, and a log
    of every call made.
  - `df_data_t`'s two fixed buffers are arrays in class `DataFile.DataFile`.

Module `CStrings` holds the C library behaviour these rely on:
- reading a NUL-terminated buffer;
- `lws_snprintf`: truncation, plus a return value clamped to the destination
  size;
- `fgets` (section 7.21.7.2 of ISO/IEC 9899:2011);
- `strchr` and `memset`.

Module `Errors` holds the error codes. Their numeric values live in headers
that are not part of this model. `NoError` stands for 0, and every other
constructor stands for a distinct nonzero value.

Where the behaviour described for the program and its code differ, the model
follows the code:
- After authentication, the session moves on only when a received message
  ends a `payload.apiKey` string. Other well-formed messages do not move it on.
- An over-long button id is cut to fit the 1024-byte send buffer (1023
  characters of text), not refused. The key is never over-long: the store
  holds at most 39 characters, so the auth frame always fits.
- There is no error state, only the `interrupt`/`error_code` flags.

## Model

| member | source | states |
|---|---|---|
| CStrings.Snprintf | main.c:135-147 | lws_snprintf writes the text cut to size - 1 characters plus a NUL, writes nothing for size 0, and returns the text's length clamped to the size |
| CStrings.WrittenHolds | main.c:133-135 | a buffer written by snprintf reads back as the text cut to size - 1 characters |
| CStrings.Memset | main.c:133 | memset leaves every byte of the buffer NUL |
| CStrings.LineLength | datafile.c:77 | fgets stores up to and including the first newline, never more than the room, and at least one character when the stream is not empty |
| CStrings.Fgets | datafile.c:77 | fgets returns NULL exactly at end-of-file and then leaves the buffer unchanged; otherwise it stores the line, NUL-terminated |
| CStrings.Strchr | datafile.c:45 | strchr finds the first occurrence at or after the start, or reports that there is none |
| DataFile.ResolveFilePathAsWritten | datafile.c:7-35 | as written (`DataFile.ResolveFilePath`, load_api_key_file_path), path derivation fails only for a HOME-derived base of 4095 or more characters; every other environment reports NO_ERROR, with base + "/tshotkeysctl/api_key" cut to 4095 characters |
| DataFile.LongXdgPathIsCut | datafile.c:20-30 | an XDG_DATA_HOME of 4080 characters gets NO_ERROR and a path that is not its base + suffix |
| DataFile.IntendedFilePath | datafile.c:12-25 | the base is XDG_DATA_HOME when set and non-empty, otherwise HOME + "/.local/share"; "/tshotkeysctl/api_key" follows it directly; the path is accepted exactly when it fits the buffer with room to spare |
| DataFile.IntendedAgreesWhenPathFits | datafile.c:7-35 | whenever the intended path fits, the code returns NO_ERROR with exactly that path, and both refuse exactly the same over-long HOME values |
| DataFile.CheckedFilePath | datafile.c:7-35 | with its second check comparing the whole path, path derivation succeeds exactly when the intended resolution does, with the intended path, and otherwise returns the intended error |
| DataFile.DirPrefixesShape | datafile.c:37-66 | one prefix is considered per '/', in increasing length, each a prefix of the path ending with its '/'; every prefix that ends at a '/' is considered |
| DataFile.FinalComponentNotConsidered | datafile.c:44-65 | the final component of a path not ending in '/' is never considered |
| DataFile.DirOpsMakesMissing | datafile.c:56-60 | mkdir with mode 0700 is called for exactly the considered prefixes that stat does not find; nothing but stat and mkdir is called |
| DataFile.SaveDecision | datafile.c:103-114 | an equal key is never saved again, and a key is written exactly when it differs from the stored key and has at most 39 characters |
| DataFile.Save | datafile.c:98-134 | an equal key returns NO_ERROR and touches nothing; a different key of 40 or more characters returns ERR_API_KEY_EXCEED_MAX_LEN and touches nothing; a different key of at most 39 characters first makes the directories of ensure_data_dir_present, then opens the file: ERR_DATA_FILE_OPEN with every file left as it was when the open fails, ERR_DATA_FILE_WRITE (file left empty) when fputs fails, otherwise NO_ERROR with the file holding exactly the new key; only the four listed codes occur; no other file changes |
| DataFile.LoadedKey | datafile.c:68-83 | loading (`DataFile.LoadedKeyBuffer`) gives the file's first line (newline kept if it fits), cut to 39 characters; it keeps the old key when the file is absent or empty |
| DataFile.SavedKeyLoadsBack | datafile.c:87-134 | a newline-free key that df_save_api_key saved with NO_ERROR is the key the next df_init loads |
| DataFile.FileSystem.VisitDir | datafile.c:49-60 | one considered prefix: stat is called on it, mkdir with mode 0700 follows exactly when stat does not find it, and the prefix exists afterwards |
| DataFile.FileSystem.EnsureDataDirPresent | datafile.c:37-66 | the strchr loop makes the state that `DataFile.EnsureDirs` gives: a stat per prefix and a mkdir per missing prefix, in order |
| DataFile.DataFile.constructor | datafile.h:7-10 | the record starts with both buffers zero-filled |
| DataFile.DataFile.ApiKey | datafile.c:85 | df_get_api_key returns the string in the key buffer, at most 39 characters |
| DataFile.DataFile.LoadApiKeyFilePath | datafile.c:7-35 | fills the path buffer and returns the code as the checked path derivation gives them |
| DataFile.DataFile.LoadApiKey | datafile.c:68-83 | the key buffer becomes what fgets leaves, and the file is opened and, when found, closed |
| DataFile.DataFile.DfInit | datafile.c:87-96 | a path error is returned without loading anything; otherwise the key is loaded from the resolved path |
| DataFile.DataFile.SaveApiKey | datafile.c:98-134 | the code and the new file system are those of the save specification; the record itself is not modified |
| Frames.AuthText | main.c:135-147 | the auth template around the key, from which the key is read back verbatim as content.apiKey |
| Frames.ButtonText | main.c:82-93 | build_button_press_lws_payload's template, from which "state" reads back as true exactly for a press down and the button id verbatim |
| Frames.FrameShape | main.c:133-149 | every write sends all 1024 bytes of the zero-filled buffer: the text's first 1023 characters at most, then NULs |
| Frames.FrameReadsAs | main.c:98-149 | the receiver reads the frame's text cut to 1023 characters |
| Frames.AuthFrameCarriesKey | main.c:135-147 | the auth frame carries any stored key verbatim as content.apiKey, with no escaping |
| Frames.ButtonFrameCarriesPress | main.c:82-93 | a button frame that fits reads back with "state" true exactly for a press down, and with the button id verbatim |
| Frames.LongButtonIdIsCut | main.c:85-92 | a button message too long for the buffer is cut to 1023 characters, not refused |
| Frames.FrameCarriesMessage | main.c:133-174 | every auth or button-press message whose text fits the buffer is read back from the bytes written as that same message, so different messages give different frames |
| TsClient.ApiKeyEndIffValues | main.c:65-70 | a parse reports an api key value exactly when some callback ends a payload.apiKey string |
| TsClient.LejpRunOutcome | main.c:62-80 | over one parse (`TsClient.LejpRun`, one `TsClient.OnLejpCallback` per lejp_cb call), the state becomes SEND_BUTTON_PRESS_DOWN exactly when a callback ends a payload.apiKey string, and nothing else in the globals changes; each such key is saved in order, with the setup interaction after each save in setup mode |
| TsClient.OnWriteable | main.c:122-178 | a writable event returns the dummy handler's value and never touches the file system; outside the three sending states it changes nothing |
| TsClient.WriteableSends | main.c:122-178 | a writable event in a sending state moves exactly one state on, changes no other flag, appends exactly one message (auth with the stored key, then press down, then release) and requests another writable exactly after the press down |
| TsClient.Dispatch | main.c:95-238 | a connection error interrupts with ERR_CONNECTION, cancels the service and returns 2; a failed connect interrupts with ERR_CONNECTION_INIT; neither changes the state or writes a frame; an established connection moves to SEND_AUTH and requests one writable |
| TsClient.ReceiveOutcome | main.c:180-205 | a receive (`TsClient.OnReceive`): the parser is constructed only when no parse is in progress; a hard parse error interrupts with ERR_JSON_PARSE, clears the flag, destructs the parser, requests no writable and returns 0; any other result requests one writable |
| TsClient.StepFailure | main.c:105-241 | each event sets error_code only to its own failure, and sets interrupt exactly when it fails or is a SIGINT |
| TsClient.RunErrorCode | main.c:105-202 | after any sequence of events, error_code is the error of the last failing event |
| TsClient.ExitCodeNoError | main.c:324-329 | a run ends with error_code 0 exactly when none of its events failed |
| TsClient.RunInterrupt | main.c:105-241 | interrupt ends set exactly when some event failed or was a SIGINT |
| TsClient.QuietWithoutHandshake | main.c:114-178 | from INIT, AUTH_RESPONSE_AWAIT or COMPLETE, events that neither establish a connection nor carry a payload.apiKey leave the state alone and write no frame |
| TsClient.AwaitLeftOnlyByApiKey | main.c:62-80 | AUTH_RESPONSE_AWAIT is left exactly on a new connection or on a payload.apiKey string end, which leads to SEND_BUTTON_PRESS_DOWN whatever the parse returns |
| TsClient.ReplyWithSameKey | main.c:62-80 | for any session, configuration and parse result short of a hard error, a reply that repeats the stored key leaves the files as they were, marks a parse in progress (constructing the parser only if none was), asks the store to save that key, runs the setup interaction exactly in setup mode, requests one writable callback and moves to SEND_BUTTON_PRESS_DOWN |
| TsClient.HappyReply | main.c:62-80 | the same reply in the session of the full run, with the setup interaction off |
| TsClient.HappyPath | main.c:114-178 | a full session sends auth, press down and release in that order, and completes with error code 0 |
| TsClient.Session.constructor | main.c:11-38 | the globals start at MS_INIT, with no interrupt, no error and no parse in progress |
| TsClient.Session.Handle | main.c:95-208 | each event changes the globals, the file system and the effect log as the step specification says, and returns the same value |
| TsClient.Session.ConnectClient | main.c:230-238 | a failed connection attempt sets interrupt and ERR_CONNECTION_INIT, then cancels the service |
| TsClient.Session.OnInterrupt | main.c:241 | SIGINT sets interrupt |
| TsClient.Session.OnConnectionError | main.c:105-112 | the connection-error step, returning 2 |
| TsClient.Session.OnEstablished | main.c:114-120 | the connection-established step |
| TsClient.Session.WriteAuth | main.c:133-149 | sending auth logs one write of the auth message with the given key, made through LwsWrite from the buffer FillAuth filled |
| TsClient.Session.LwsWrite | main.c:149 | a write is logged as message m only when the whole send buffer handed over is the frame of m |
| TsClient.Session.FillAuth | main.c:133-147 | the zero-filled send buffer with the auth template rendered into it holds exactly the frame of the auth message |
| TsClient.Session.OnWriteable | main.c:122-178 | the writable step, sending from a local buffer |
| TsClient.Session.SendButtonPress | main.c:156-174 | a button press logs one write of the button message for the press state and the configured id, made through LwsWrite from the buffer FillButtonPress filled |
| TsClient.Session.FillButtonPress | main.c:156-172 | the zero-filled send buffer after build_button_press_lws_payload holds exactly the frame of the button message |
| TsClient.Session.BuildButtonPressPayload | main.c:82-93 | the buffer receives the button message for the given press state and id, cut to 1023 characters |
| TsClient.Session.OnReceive | main.c:180-205 | the receive step, running lejp_cb once per callback of the parse, in order |
| TsClient.Session.LejpCb | main.c:62-80 | lejp_cb returns 0 and performs the JSON-path callback step, saving through the store |
| Startup.KeepServing | main.c:324 | the service loop's condition: the last lws_service result is not negative, interrupt is not set, and the session is not complete |
| Startup.Serve | main.c:324-325 | the service loop stops exactly when interrupt is set, the session is complete, or lws_service returned a negative value; it handles at most the rounds given, and all of them unless it stopped; its end state is the run of the events it handled |
| Startup.ServeHandlesPrefix | main.c:324-325 | the loop handles a prefix of the rounds, whole and in order: its events are those rounds' events, the loop condition held before each of them (with the previous round's lws_service result), and its last result is the last handled round's; so it stops at the first point where the condition fails |
| Startup.ServedExitCode | main.c:324-329 | a process that gets past startup exits 0 exactly when none of the events its loop handled failed |
| Startup.IncompleteStopIsInterrupt | main.c:324-325 | a loop that stops with the session incomplete and no negative lws_service result stopped because of a failure or a SIGINT |
| Startup.LoadedConfig | datafile.c:87-96 | the configuration a run holds after df_init: the command-line options, the intended path when it fits, and as key the path's file's first line cut to 39 characters, or the empty key when that file is absent or empty |
| Startup.NextRunLoadsSavedKey | datafile.c:87-134 | a key saved with NO_ERROR during one run is the key the next run loads, with the same path and options |
| Startup.RunClient | main.c:243-330 | --help returns 0 and a missing --button-id returns ERR_PARAMETERS, both before df_init and with the file system untouched; a nonzero df_init result is returned unchanged; a failed context returns ERR_LWS_INIT; otherwise the process returns error_code once the loop stops |
| Startup.ServiceLoop | main.c:324-329 | the loop ends in the state the service specification gives and returns error_code when it stops |
| Startup.ServeRound | main.c:324-325 | one lws_service call handles its events in order |

## Left out

- libwebsockets transport is not modelled: context creation, `lws_service`, `lws_write`, `lws_callback_on_writable`, `lws_cancel_service`, `lws_sul_schedule` and WebSocket framing (section 5.6 of RFC 6455). Each is a foreign call. Writes, writable requests and cancellations are recorded in a ghost effect log. Each `lws_service` call is a round of events with a result, supplied as input.
- The JSON parser (`lejp_construct`, `lejp_parse`, `lejp_destruct`) is an oracle. A receive event carries the callbacks the parse makes, in order, and its return value. Path matching, chunking of strings into `ctx->buf` and chunk boundaries are not modelled. `LEJP_CONTINUE` is taken as -1, its value in libwebsockets' lejp.h.
- `lws_snprintf` is modelled by its contract, on already rendered text. The `%s` substitution is written out as concatenation.
- Console interaction is not modelled: the help text, every `printf`, the `getchar` prompts, the setup banner and hint, and the countdown in `continue_setup_trigger_process`. The setup interaction is a single `SetupInteraction` effect.
- Logging and log-level selection are not modelled; `CmdLine.verbose` is read and not used.
- Argument parsing (`lws_cmdline_option`) is not modelled; the parsed options are the input `CmdLine`.
- SIGINT is an event, `Interrupted`. Its asynchrony is not modelled: it arrives between other events.
- The `LWS_PRE` header room in front of `send_buf` is not modelled; only the 1024 bytes that are written are.
- Real OS calls are replaced by an abstract file system: `getenv`, `stat`, `mkdir`, `strdup`/`free`, `fopen`/`fputs`/`fclose`. HOME is taken to be set. A `mkdir` always succeeds. A failed `fputs` leaves the file empty. Opening a file for reading succeeds exactly when the file exists.
- Characters are Dafny `char`s, not bytes, so multi-byte encodings are not modelled.
- The numeric values of the error codes are not modelled (see module `Errors`).
- Startup.RunClient: it handles only the rounds it is given. When they run out while the loop would go on, it returns `None` instead of serving forever.
- DataFile.DataFile.LoadApiKeyFilePath: it implements the corrected length check (see Findings), not the one written at datafile.c:27. `DataFile.ResolveFilePath` models the check as written. The two differ only when base + "/tshotkeysctl/api_key" has 4095 characters or more: the corrected check returns ERR_DATA_FILE_EXCEED_MAX_PATH, while the code as written returns NO_ERROR with the path cut to 4095 characters (whole when it has exactly 4095).
- DataFile.DataFile.DfInit: it inherits the corrected check from LoadApiKeyFilePath. For a path of 4095 characters or more it returns ERR_DATA_FILE_EXCEED_MAX_PATH and loads nothing, where df_init as written loads from the cut path and returns NO_ERROR.
- Startup.RunClient: it inherits the corrected check through DfInit. For a path of 4095 characters or more the process exits with ERR_DATA_FILE_EXCEED_MAX_PATH, where main as written carries on with the cut path.

## Findings

| source | as written | input that shows it | evidently intended | confidence | as-written member | corrected member |
|---|---|---|---|---|---|---|
| datafile.c:23-30 | The second check compares `buffer_used_len >= result_buf_len - 1`, but that variable now holds only the return of the second `lws_snprintf`, which is clamped to at most 21, the length of "/tshotkeysctl/api_key". ERR_DATA_FILE_EXCEED_MAX_PATH can never be returned, and an over-long path is silently cut. | XDG_DATA_HOME of 4080 characters: the result is NO_ERROR with a path of 4095 characters that is not XDG_DATA_HOME + "/tshotkeysctl/api_key". The same happens with a HOME of 4062 to 4081 characters. | Compare the whole path's length (base plus appended segment) with the same bound as the first check, and return ERR_DATA_FILE_EXCEED_MAX_PATH when it reaches PATH_BUF_SIZE - 1 (4095) characters, that is, when it fits without room to spare or does not fit | not executed | DataFile.LongXdgPathIsCut | DataFile.CheckedFilePath |
