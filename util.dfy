/** Types shared by every module of the firmware model: bytes, optional and
    fallible results, ESP-IDF error codes and NUL-terminated C strings. */
module Util {

  /** An unsigned 8-bit value (`uint8_t`). */
  type byte = x: int | 0 <= x < 256

  datatype Option<+T> = None | Some(value: T)

  datatype Result<+T, +E> = Ok(value: T) | Err(error: E)

  /** The `esp_err_t` codes the modelled code returns or propagates
      (ESP_OK is the `Ok` side of a `Result`). */
  datatype EspErr = InvalidArg | InvalidSize | NotFound | NoMem | Fail | Timeout

  /** True when no character of `s` is the C string terminator. */
  predicate NoNul(s: seq<char>)
  {
    forall i :: 0 <= i < |s| ==> s[i] != '\0'
  }

  /** The characters of a C string before its terminating NUL.  Every
      `char` of a C buffer in this model stands for one byte of the C
      array (a value below 256), so lengths, `size - 1` limits and
      truncations count bytes as the C code does; text that is UTF-8 in
      the firmware is given here as its sequence of bytes. */
  type CString = s: seq<char> | NoNul(s)

  function Min(a: int, b: int): int
  {
    if a <= b then a else b
  }

  /** The first `n` characters of `s`, or all of `s` when it is shorter:
      what `strncpy(dst, s, n)` leaves readable as a C string when `dst`
      is terminated right after. */
  function Truncate(s: seq<char>, n: nat): (r: seq<char>)
    ensures |r| == Min(|s|, n)
    ensures r == s[..|r|]
  {
    if |s| <= n then s else s[..n]
  }

  /** The C string stored in a character buffer: everything before the
      first NUL, or the whole buffer when it holds none. */
  function CStr(buf: seq<char>): (r: seq<char>)
    ensures NoNul(r)
    ensures r <= buf
    ensures |r| < |buf| ==> buf[|r|] == '\0'
  {
    if buf == [] || buf[0] == '\0' then [] else [buf[0]] + CStr(buf[1..])
  }

  /** True for the decimal digit characters '0'..'9'. */
  predicate IsDigit(c: char)
  {
    '0' <= c <= '9'
  }

  /** The text `snprintf(buf, size, "%02d", n)` writes for `0 <= n < 100`. */
  function TwoDigits(n: nat): (r: string)
    requires n < 100
    ensures |r| == 2 && IsDigit(r[0]) && IsDigit(r[1])
  {
    [('0' as int + n / 10) as char, ('0' as int + n % 10) as char]
  }

  /** The number two decimal digit characters spell. */
  function DecimalValue(s: string): (n: nat)
    requires |s| == 2 && IsDigit(s[0]) && IsDigit(s[1])
    ensures n < 100
  {
    10 * (s[0] as int - '0' as int) + (s[1] as int - '0' as int)
  }

  /** "%02d" formatting and reading two digits back are inverse. */
  lemma TwoDigitsRoundTrip(n: nat)
    requires n < 100
    ensures DecimalValue(TwoDigits(n)) == n
  {
  }

  /** Every two-digit decimal string is the "%02d" rendering of the number
      it spells: the length field of an EMVCo data object reads back and
      re-renders to the same two characters. */
  lemma DecimalValueRoundTrip(s: string)
    requires |s| == 2 && IsDigit(s[0]) && IsDigit(s[1])
    ensures TwoDigits(DecimalValue(s)) == s
  {
  }

  /** `strlen(buf)`: the number of characters before the first NUL. */
  method Strlen(buf: array<char>) returns (n: nat)
    requires exists k :: 0 <= k < buf.Length && buf[k] == '\0'
    ensures n < buf.Length && buf[n] == '\0'
    ensures n == |CStr(buf[..])|
  {
    n := 0;
    while buf[n] != '\0'
      invariant n < buf.Length
      invariant forall k :: 0 <= k < n ==> buf[k] != '\0'
      invariant exists k :: n <= k < buf.Length && buf[k] == '\0'
      decreases buf.Length - n
    {
      n := n + 1;
    }
    assert buf[..][..n] == buf[..n];
    CStrOfTerminated(buf[..], buf[..n]);
  }

  lemma NoNulAppend(a: seq<char>, b: seq<char>)
    requires NoNul(a) && NoNul(b)
    ensures NoNul(a + b)
  {
  }

  /** `strcpy(buf, s)`: the characters of `s` and a terminating NUL. */
  method Strcpy(buf: array<char>, s: seq<char>)
    requires NoNul(s) && |s| < buf.Length
    modifies buf
    ensures buf[..|s|] == s && buf[|s|] == '\0'
    ensures buf[|s| + 1..] == old(buf[|s| + 1..])
    ensures CStr(buf[..]) == s
  {
    var i := 0;
    while i < |s|
      invariant i <= |s|
      invariant buf[..i] == s[..i]
      invariant buf[|s| + 1..] == old(buf[|s| + 1..])
    {
      buf[i] := s[i];
      i := i + 1;
    }
    buf[|s|] := '\0';
    CStrOfTerminated(buf[..], s);
  }

  /** `s` followed by NULs up to length `n`: a buffer after `strncpy`
      has padded it. */
  function Padded(s: seq<char>, n: nat): (r: seq<char>)
    requires |s| <= n
    ensures |r| == n && r[..|s|] == s
    ensures forall k :: |s| <= k < n ==> r[k] == '\0'
  {
    s + seq(n - |s|, _ => '\0')
  }

  /** A padded buffer with room for at least one NUL reads back as the
      string it was padded from. */
  lemma CStrPadded(s: seq<char>, n: nat)
    requires NoNul(s) && |s| < n
    ensures CStr(Padded(s, n)) == s
  {
    CStrOfTerminated(Padded(s, n), s);
  }

  /** `strncpy(dst, s, n)`: at most `n` characters of `s`, the rest of the
      first `n` positions filled with NULs, nothing written beyond. */
  method Strncpy(dst: array<char>, s: seq<char>, n: nat)
    requires NoNul(s) && n <= dst.Length
    modifies dst
    ensures dst[..n] == Padded(Truncate(s, n), n)
    ensures dst[n..] == old(dst[n..])
  {
    ghost var want := Padded(Truncate(s, n), n);
    var i := 0;
    while i < n
      invariant i <= n
      invariant dst[..i] == want[..i]
      invariant dst[n..] == old(dst[n..])
    {
      dst[i] := if i < |s| then s[i] else '\0';
      i := i + 1;
    }
  }

  /** A NUL-free prefix followed by a NUL reads back as that prefix. */
  lemma {:induction false} CStrOfTerminated(buf: seq<char>, s: seq<char>)
    requires NoNul(s)
    requires |s| < |buf| && buf[..|s|] == s && buf[|s|] == '\0'
    ensures CStr(buf) == s
  {
    if s != [] {
      assert buf[0] == s[0];
      CStrOfTerminated(buf[1..], s[1..]);
    }
  }
}

/** The board configuration constants of `app_config.h`. */
module AppConfig {
  const LCD_H_RES: int := 480
  const LCD_V_RES: int := 480
  const WIFI_MAX_RETRY: int := 10
  const MQTT_TOPIC_RESULT: string := "pos/qr/result"
}
