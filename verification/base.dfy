/** Small shared vocabulary: optional values standing for C pointers that may
    be NULL, bytes of C buffers, and NUL-terminated text. */
module Base {

  /** A value or nothing; the model's stand-in for a pointer that may be NULL. */
  datatype Option<+T> = None | Some(value: T) {

    /** The held value, or `default` when there is none. */
    function GetOr(default: T): T {
      match this
      case Some(v) => v
      case None => default
    }
  }

  /** One unsigned 8-bit value, as held in a `uint8_t` or `char` buffer. */
  type byte = b: int | 0 <= b < 0x100

  /** The NUL byte that terminates a C string. */
  const NUL: byte := 0

  /** True when every character of `s` is 7-bit ASCII. */
  predicate IsAscii(s: string) {
    forall i :: 0 <= i < |s| ==> s[i] as int < 0x80
  }

  /** The bytes a C string literal stores for an ASCII text (terminator not included). */
  function Ascii(s: string): (r: seq<byte>)
    requires IsAscii(s)
    ensures |r| == |s|
    ensures forall i :: 0 <= i < |r| ==> r[i] == s[i] as int
  {
    seq(|s|, i requires 0 <= i < |s| => s[i] as int)
  }

  /** The text a C string function sees in a NUL-terminated buffer: every byte
      before the first NUL, or the whole buffer when it holds no NUL. */
  function CStr(buf: seq<byte>): (r: seq<byte>)
    ensures |r| <= |buf| && r == buf[..|r|]
    ensures NUL !in r
    ensures |r| < |buf| ==> buf[|r|] == NUL
  {
    if buf == [] || buf[0] == NUL then [] else [buf[0]] + CStr(buf[1..])
  }

  /** A buffer that holds `text` followed by its terminator reads back as `text`
      whenever `text` itself holds no NUL. */
  lemma {:induction false} CStrOfTerminated(text: seq<byte>, rest: seq<byte>)
    requires NUL !in text
    ensures CStr(text + [NUL] + rest) == text
  {
    if text != [] {
      assert (text + [NUL] + rest)[1..] == text[1..] + [NUL] + rest;
      CStrOfTerminated(text[1..], rest);
    }
  }

  /** The C string of `data` followed by a terminator does not depend on what
      follows the terminator. */
  lemma {:induction false} TerminatedPrefix(data: seq<byte>, rest: seq<byte>)
    ensures CStr(data + [NUL] + rest) == CStr(data + [NUL])
    decreases |data|
  {
    if data != [] {
      assert (data + [NUL] + rest)[1..] == data[1..] + [NUL] + rest;
      assert (data + [NUL])[1..] == data[1..] + [NUL];
      TerminatedPrefix(data[1..], rest);
    }
  }

  /** A sequence is its prefix, the element at `i`, and its suffix. */
  lemma SplitAt<T>(s: seq<T>, i: nat)
    requires i < |s|
    ensures s == s[..i] + [s[i]] + s[i + 1..]
  {
  }

  /** The part of `x + y` past `x` is `y`. */
  lemma Suffix<T>(x: seq<T>, y: seq<T>)
    ensures (x + y)[..|x|] == x && (x + y)[|x|..] == y
  {
  }

  /** Regrouping a four-part concatenation. */
  lemma Regroup<T>(w: seq<T>, x: seq<T>, y: seq<T>, z: seq<T>)
    ensures ((w + x) + y) + z == w + (x + y + z)
  {
  }
}
