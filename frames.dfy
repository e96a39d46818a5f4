/** The outbound text frames of main.c. Each is a fixed template with "%s"
    holes; the template's backslash-newline splices are removed in translation
    phase 2 (section 5.1.1.2 of ISO/IEC 9899:2011), so every rendered text keeps
    the indentation spaces of the source lines but holds no newline. The values
    put in the holes are not escaped as JSON strings (section 7 of RFC 8259). */
module Frames {
  import opened CStrings

  /** send_buf_len: the bytes of send_buf after its LWS_PRE header room, all of
      which lws_write sends. */
  const SEND_BUF_LEN: nat := 1024

  /** n spaces: the indentation a spliced source line keeps. */
  function Spaces(n: nat): CStr
  {
    Repeat(' ', n)
  }

  // The spliced lines of the auth template, up to the key's hole.
  const AUTH_TYPE: CStr := Spaces(8) + "\"type\": \"auth\", "
  const AUTH_PAYLOAD: CStr := Spaces(8) + "\"payload\": { "
  const AUTH_IDENTIFIER: CStr := Spaces(12) + "\"identifier\": " + "\"tshotkeytrigger\", "
  const AUTH_VERSION: CStr := Spaces(12) + "\"version\": \"0\", "
  const AUTH_NAME: CStr := Spaces(12) + "\"name\": " + "\"HotKey CLI Trigger\", "
  const AUTH_DESCRIPTION: CStr := Spaces(12) + "\"description\": " + "\"Triggers hotkeys via CLI\", "
  const AUTH_CONTENT: CStr := Spaces(12) + "\"content\": { "
  const AUTH_API_KEY: CStr := Spaces(16) + "\"apiKey\": \""

  const AUTH_HEAD: CStr :=
    "{ " + AUTH_TYPE + AUTH_PAYLOAD + AUTH_IDENTIFIER + AUTH_VERSION
    + AUTH_NAME + AUTH_DESCRIPTION + AUTH_CONTENT + AUTH_API_KEY
  const AUTH_TAIL: CStr :=
    "\" "
    + Spaces(12) + "} "
    + Spaces(8) + "} "
    + Spaces(4) + "}"

  const BUTTON_HEAD: CStr :=
    "{ "
    + Spaces(8) + "\"type\": \"buttonPress\", "
    + Spaces(8) + "\"payload\": { "
    + Spaces(12) + "\"state\": "
  const BUTTON_MID: CStr :=
    ", "
    + Spaces(12) + "\"button\": \""
  const BUTTON_TAIL: CStr :=
    "\" "
    + Spaces(8) + "} "
    + Spaces(4) + "}"

  /** The auth message with the stored key in content.apiKey: the key is read
      back from it verbatim. */
  function AuthText(key: CStr): (r: CStr)
    ensures AuthKeyOf(r) == Some(key)
  {
    StripAroundInverts(AUTH_HEAD, key, AUTH_TAIL);
    AUTH_HEAD + key + AUTH_TAIL
  }

  /** build_button_press_lws_payload's message: "state" reads back true for a
      press down and false for the release, and the button id verbatim. */
  function ButtonText(isDown: bool, button: CStr): (r: CStr)
    ensures ButtonPressOf(r) == Some(ButtonPress(isDown, button))
  {
    ButtonTextReadsBack(isDown, button);
    BUTTON_HEAD + (if isDown then "true" else "false") + BUTTON_MID + button + BUTTON_TAIL
  }

  lemma ButtonTextReadsBack(isDown: bool, button: CStr)
    ensures ButtonPressOf(BUTTON_HEAD + (if isDown then "true" else "false") + BUTTON_MID + button + BUTTON_TAIL)
            == Some(ButtonPress(isDown, button))
  {
    var t := BUTTON_HEAD + (if isDown then "true" else "false") + BUTTON_MID + button + BUTTON_TAIL;
    var headTrue := BUTTON_HEAD + "true" + BUTTON_MID;
    var headFalse := BUTTON_HEAD + "false" + BUTTON_MID;
    if isDown {
      assert t == headTrue + button + BUTTON_TAIL;
      StripAroundInverts(headTrue, button, BUTTON_TAIL);
    } else {
      assert t == headFalse + button + BUTTON_TAIL;
      StripAroundInverts(headFalse, button, BUTTON_TAIL);
      assert t[|BUTTON_HEAD|] == 'f' && headTrue[|BUTTON_HEAD|] == 't';
      assert StripAround(t, headTrue, BUTTON_TAIL).None?;
    }
  }

  /** The messages the client sends: auth with a key, or a button press. */
  datatype Message = AuthMessage(key: CStr) | ButtonMessage(isDown: bool, button: CStr)

  /** A message's text. */
  function Text(m: Message): CStr
  {
    match m
    case AuthMessage(key) => AuthText(key)
    case ButtonMessage(isDown, button) => ButtonText(isDown, button)
  }

  /** The bytes lws_write sends for a text: send_buf is zero-filled, the text is
      rendered into it with lws_snprintf(…, SEND_BUF_LEN, …), and the whole
      SEND_BUF_LEN bytes are written. */
  function Frame(text: string): seq<char>
  {
    Written(Zeros(SEND_BUF_LEN), 0, SEND_BUF_LEN, text)
  }

  /** A frame is SEND_BUF_LEN bytes: the text's first SEND_BUF_LEN - 1
      characters at most, then NULs to the end. */
  lemma FrameShape(text: string)
    ensures var f := Frame(text);
      && |f| == SEND_BUF_LEN
      && f[..Min(|text|, SEND_BUF_LEN - 1)] == text[..Min(|text|, SEND_BUF_LEN - 1)]
      && forall i :: Min(|text|, SEND_BUF_LEN - 1) <= i < SEND_BUF_LEN ==> f[i] == '\0'
  {
    var k := Min(|text|, SEND_BUF_LEN - 1);
    var f := Frame(text);
    assert f == text[..k] + ['\0'] + Zeros(SEND_BUF_LEN)[k + 1..];
  }

  /** The text a receiver reads from a frame: what precedes the first NUL, so
      at most SEND_BUF_LEN - 1 characters of it. */
  lemma FrameReadsAs(text: CStr)
    ensures CString(Frame(text)) == Truncate(text, SEND_BUF_LEN - 1)
  {
    WrittenHolds(Zeros(SEND_BUF_LEN), SEND_BUF_LEN, text);
  }

  // ---------------------------------------------------------------------------
  // Reading the templates back

  /** The part of t between a given head and tail, when t has both. */
  function StripAround(t: string, head: string, tail: string): (r: Option<string>)
    ensures r.Some? ==> head + r.value + tail == t
  {
    if |head| + |tail| <= |t| && t[..|head|] == head && t[|t| - |tail|..] == tail then
      var mid := t[|head|..|t| - |tail|];
      assert head + mid + tail == t[..|head|] + t[|head|..|t| - |tail|] + t[|t| - |tail|..];
      Some(mid)
    else None
  }

  lemma StripAroundInverts(head: string, mid: string, tail: string)
    ensures StripAround(head + mid + tail, head, tail) == Some(mid)
  {
    var t := head + mid + tail;
    assert t[..|head|] == head;
    assert t[|t| - |tail|..] == tail;
    assert t[|head|..|t| - |tail|] == mid;
  }

  /** The key an auth message carries. */
  function AuthKeyOf(t: string): Option<string>
  {
    StripAround(t, AUTH_HEAD, AUTH_TAIL)
  }

  datatype ButtonPress = ButtonPress(isDown: bool, button: string)

  /** The state and button a button-press message carries. */
  function ButtonPressOf(t: string): Option<ButtonPress>
  {
    match StripAround(t, BUTTON_HEAD + "true" + BUTTON_MID, BUTTON_TAIL)
    case Some(b) => Some(ButtonPress(true, b))
    case None =>
      match StripAround(t, BUTTON_HEAD + "false" + BUTTON_MID, BUTTON_TAIL)
      case Some(b) => Some(ButtonPress(false, b))
      case None => None
  }

  /** Every key df_get_api_key can return (at most 39 characters) fits the
      frame, and the receiver reads it back verbatim as content.apiKey, quotes
      and backslashes included. */
  lemma AuthFrameCarriesKey(key: CStr)
    requires |key| < 40
    ensures AuthKeyOf(CString(Frame(AuthText(key)))) == Some(key)
  {
    assert |AUTH_HEAD| + |AUTH_TAIL| < 500;
    FrameReadsAs(AuthText(key));
    StripAroundInverts(AUTH_HEAD, key, AUTH_TAIL);
  }

  /** A button frame whose text fits is read back with "state" true exactly
      for a press down, and with the button id verbatim. */
  lemma ButtonFrameCarriesPress(isDown: bool, button: CStr)
    requires |ButtonText(isDown, button)| < SEND_BUF_LEN
    ensures ButtonPressOf(CString(Frame(ButtonText(isDown, button)))) == Some(ButtonPress(isDown, button))
  {
    var t := ButtonText(isDown, button);
    FrameReadsAs(t);
    assert CString(Frame(t)) == t;
  }

  /** The message a receiver reads from a text: auth when it has the auth
      template around a key, otherwise a button press when it has that. */
  function Received(t: CStr): Option<Message>
  {
    match AuthKeyOf(t)
    case Some(key) => Some(AuthMessage(key))
    case None =>
      match ButtonPressOf(t)
      case Some(b) => Some(ButtonMessage(b.isDown, b.button))
      case None => None
  }

  /** Every message whose text fits the frame is read back from the frame's
      bytes as itself: the frames of different messages are different. */
  lemma FrameCarriesMessage(m: Message)
    requires |Text(m)| < SEND_BUF_LEN
    ensures Received(CString(Frame(Text(m)))) == Some(m)
  {
    match m
    case AuthMessage(key) => AuthFrameCarriesMessage(key);
    case ButtonMessage(isDown, button) => ButtonFrameCarriesMessage(isDown, button);
  }

  lemma AuthFrameCarriesMessage(key: CStr)
    requires |AuthText(key)| < SEND_BUF_LEN
    ensures Received(CString(Frame(AuthText(key)))) == Some(AuthMessage(key))
  {
    FrameReadsAs(AuthText(key));
    StripAroundInverts(AUTH_HEAD, key, AUTH_TAIL);
  }

  lemma ButtonFrameCarriesMessage(isDown: bool, button: CStr)
    requires |ButtonText(isDown, button)| < SEND_BUF_LEN
    ensures Received(CString(Frame(ButtonText(isDown, button)))) == Some(ButtonMessage(isDown, button))
  {
    var t := ButtonText(isDown, button);
    ButtonFrameCarriesPress(isDown, button);
    FrameReadsAs(t);
    assert CString(Frame(t)) == t;
    assert t[..|BUTTON_HEAD|] == BUTTON_HEAD;
    ButtonIsNotAuth(t);
  }

  /** A text that starts with the button-press head has no auth head: "type"
      differs at its first letter. */
  lemma ButtonIsNotAuth(t: string)
    requires |BUTTON_HEAD| <= |t| && t[..|BUTTON_HEAD|] == BUTTON_HEAD
    ensures AuthKeyOf(t) == None
  {
    assert BUTTON_HEAD[19] == 'b' && AUTH_HEAD[19] == 'a';
    assert t[19] == 'b';
  }

  /** A button id too long for the frame is cut, not refused: the receiver
      reads the first SEND_BUF_LEN - 1 characters of the message. */
  lemma LongButtonIdIsCut(isDown: bool, button: CStr)
    requires |ButtonText(isDown, button)| >= SEND_BUF_LEN
    ensures CString(Frame(ButtonText(isDown, button))) == ButtonText(isDown, button)[..SEND_BUF_LEN - 1]
  {
    FrameReadsAs(ButtonText(isDown, button));
  }
}
