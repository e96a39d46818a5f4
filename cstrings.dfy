/** The C library behaviour the client's buffers rely on: reading a
    NUL-terminated buffer as a string, lws_snprintf's truncation and clamped
    return value, fgets (section 7.21.7.2 of ISO/IEC 9899:2011), strchr and
    memset. Buffers are arrays of `char`; a C string's contents are a `CStr`. */
module CStrings {

  datatype Option<+T> = None | Some(value: T)

  /** The contents of a C string: no NUL character inside. */
  type CStr = s: string | '\0' !in s

  function Min(a: int, b: int): int { if a < b then a else b }

  /** n copies of c. */
  function Repeat(c: char, n: nat): (r: seq<char>)
    ensures |r| == n && forall i :: 0 <= i < n ==> r[i] == c
  {
    seq(n, _ => c)
  }

  /** A buffer of n NUL characters, as memset(buf, 0, n) leaves it. */
  function Zeros(n: nat): seq<char>
  {
    Repeat('\0', n)
  }

  /** The first n characters of s, or all of s when it is shorter. */
  function Truncate(s: string, n: nat): (r: string)
    ensures |r| == Min(|s|, n) && r == s[..|r|]
  {
    if |s| <= n then s else s[..n]
  }

  /** The string a buffer holds: everything before its first NUL, or the whole
      buffer when it holds none. */
  function CString(s: seq<char>): (r: CStr)
    ensures |r| <= |s| && r == s[..|r|]
    ensures |r| < |s| ==> s[|r|] == '\0'
  {
    if s == [] || s[0] == '\0' then [] else [s[0]] + CString(s[1..])
  }

  /** A NUL-free prefix t of s that is followed by a NUL (or ends s) is the
      string s holds. */
  lemma {:induction false} CStringIs(s: seq<char>, t: string)
    requires '\0' !in t && |t| <= |s| && s[..|t|] == t
    requires |t| < |s| ==> s[|t|] == '\0'
    ensures CString(s) == t
  {
    if t != [] {
      assert s[0] == t[0] && t[0] != '\0';
      assert s[1..][..|t| - 1] == t[1..];
      CStringIs(s[1..], t[1..]);
    }
  }

  /** Number of characters snprintf stores, before its terminating NUL, when
      the rendered text has len characters and the destination size bytes. */
  function Stored(len: nat, size: nat): nat
  {
    if size == 0 then 0 else Min(len, size - 1)
  }

  /** lws_snprintf's return value: 0 for a destination of size 0, otherwise the
      length of the rendered text clamped to the destination size. */
  function SnprintfResult(len: nat, size: nat): nat
  {
    if size == 0 then 0 else Min(len, size)
  }

  /** The buffer s after an snprintf of text into s[off..off + size]: the text
      cut to size - 1 characters and a terminating NUL; nothing for size 0. */
  function Written(s: seq<char>, off: nat, size: nat, text: string): (r: seq<char>)
    requires off + size <= |s|
    ensures |r| == |s|
  {
    if size == 0 then s
    else
      var k := Stored(|text|, size);
      s[..off] + text[..k] + ['\0'] + s[off + k + 1..]
  }

  /** What snprintf leaves readable: the NUL-free text written at the start of
      a buffer whose destination is not empty is exactly what the buffer holds,
      cut to size - 1 characters. */
  lemma WrittenHolds(s: seq<char>, size: nat, text: CStr)
    requires 0 < size <= |s|
    ensures CString(Written(s, 0, size, text)) == Truncate(text, size - 1)
  {
    var k := Stored(|text|, size);
    var w := Written(s, 0, size, text);
    assert w[..k] == text[..k];
    CStringIs(w, text[..k]);
  }

  /** A text that fits is stored whole at the start, followed by a NUL. */
  lemma WrittenStarts(s: seq<char>, size: nat, text: string)
    requires |text| < size <= |s|
    ensures var w := Written(s, 0, size, text);
      w[..|text|] == text && w[|text|] == '\0'
  {
    var w := Written(s, 0, size, text);
    assert w == text + ['\0'] + s[|text| + 1..];
  }

  /** lws_snprintf of an already rendered text into buf[off..off + size]. */
  method Snprintf(buf: array<char>, off: nat, size: nat, text: string) returns (n: nat)
    requires off + size <= buf.Length
    modifies buf
    ensures buf[..] == Written(old(buf[..]), off, size, text)
    ensures n == SnprintfResult(|text|, size)
  {
    if size == 0 {
      return 0;
    }
    var k := Stored(|text|, size);
    forall i | off <= i < off + k {
      buf[i] := text[i - off];
    }
    buf[off + k] := '\0';
    n := Min(|text|, size);
    assert buf[..] == old(buf[..])[..off] + text[..k] + ['\0'] + old(buf[..])[off + k + 1..];
  }

  /** memset(buf, 0, sizeof buf). */
  method Memset(buf: array<char>)
    modifies buf
    ensures buf[..] == Zeros(buf.Length)
  {
    forall i | 0 <= i < buf.Length {
      buf[i] := '\0';
    }
  }

  /** How many characters fgets stores from a stream whose unread text is
      rest, when at most room characters fit: up to and including the first
      newline, and no more than room. */
  function LineLength(rest: string, room: nat): (k: nat)
    ensures k <= room && k <= |rest|
    ensures room > 0 && rest != [] ==> k > 0
    ensures forall i :: 0 <= i < k - 1 ==> rest[i] != '\n'
    ensures k == room || k == |rest| || (k > 0 && rest[k - 1] == '\n')
  {
    if room == 0 || rest == [] then 0
    else if rest[0] == '\n' then 1
    else 1 + LineLength(rest[1..], room - 1)
  }

  /** The buffer after fgets(buf, n, stream) on a stream holding rest: when
      end-of-file comes before any character the buffer is left as it was,
      otherwise the line read is stored and NUL-terminated. */
  function FgetsBuffer(buf: seq<char>, n: nat, rest: string): (r: seq<char>)
    requires 1 <= n <= |buf|
    ensures |r| == |buf|
  {
    if rest == [] then buf
    else Written(buf, 0, n, rest[..LineLength(rest, n - 1)])
  }

  /** fgets(buf, n, stream) where the stream's unread text is rest; read is
      false when fgets returns NULL at end-of-file. */
  method Fgets(buf: array<char>, n: nat, rest: string) returns (read: bool)
    requires 1 <= n <= buf.Length
    modifies buf
    ensures read == (rest != [])
    ensures buf[..] == FgetsBuffer(old(buf[..]), n, rest)
  {
    if rest == [] {
      return false;
    }
    var line := rest[..LineLength(rest, n - 1)];
    var _ := Snprintf(buf, 0, n, line);
    read := true;
  }

  /** strchr(&s[from], c): the index of the first c at or after from. */
  function Strchr(s: string, from: nat, c: char): (r: Option<nat>)
    requires from <= |s|
    ensures r.Some? ==> from <= r.value < |s| && s[r.value] == c
    ensures r.Some? ==> forall i :: from <= i < r.value ==> s[i] != c
    ensures r.None? ==> forall i :: from <= i < |s| ==> s[i] != c
    decreases |s| - from
  {
    if from == |s| then None
    else if s[from] == c then Some(from)
    else Strchr(s, from + 1, c)
  }
}
