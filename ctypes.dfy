/**
 * The fixed-width integers and NUL-terminated strings of the firmware's C code.
 * Dafny integers are unbounded, so each width is a subset type and every
 * conversion that wraps in C is written out.
 */
module CTypes {
  type byte = x: int | 0 <= x < 0x100
  type uint8 = x: int | 0 <= x < 0x100
  type uint16 = x: int | 0 <= x < 0x1_0000
  type uint32 = x: int | 0 <= x < 0x1_0000_0000
  type int32 = x: int | -0x8000_0000 <= x < 0x8000_0000

  const Uint32Modulus: int := 0x1_0000_0000
  const Uint32Max: uint32 := 0xFFFF_FFFF

  /** C's conversion of a signed value to uint32_t: the value modulo 2^32. */
  function ToUint32(x: int): (r: uint32)
    ensures 0 <= x < Uint32Modulus ==> r == x
    ensures -Uint32Modulus <= x < 0 ==> r == x + Uint32Modulus
    ensures (x - r) % Uint32Modulus == 0
  {
    x % Uint32Modulus
  }

  /**
   * What a C string function sees in a buffer: the elements before the first
   * terminator, or the whole buffer when it holds none.
   */
  function TakeUntil<T(==)>(buf: seq<T>, terminator: T): (s: seq<T>)
    ensures |s| <= |buf| && s == buf[..|s|]
    ensures terminator !in s
    ensures |s| < |buf| ==> buf[|s|] == terminator
  {
    if |buf| == 0 || buf[0] == terminator then []
    else [buf[0]] + TakeUntil(buf[1..], terminator)
  }

  /** The bytes of a NUL-terminated byte buffer. */
  function CBytes(buf: seq<byte>): seq<byte> { TakeUntil(buf, 0) }

  /** The characters of a NUL-terminated char buffer (what strcpy and strlen see). */
  function CChars(buf: seq<char>): seq<char> { TakeUntil(buf, '\0') }

  /** The number of bytes one character takes in UTF-8, the encoding the firmware's C strings carry. */
  function Utf8Width(c: char): (n: nat)
    ensures 1 <= n <= 4
    ensures n == 1 <==> c as int < 0x80
  {
    if c as int < 0x80 then 1
    else if c as int < 0x800 then 2
    else if c as int < 0x1_0000 then 3
    else 4
  }

  /**
   * The number of C bytes a string occupies: at least one per character, and
   * exactly one per character when the string is ASCII.
   */
  function Utf8Length(s: string): (n: nat)
    ensures n >= |s|
    ensures n == |s| <==> forall k :: 0 <= k < |s| ==> s[k] as int < 0x80
  {
    if s == [] then 0 else Utf8Width(s[0]) + Utf8Length(s[1..])
  }

  /** A buffer that holds no terminator is its own C string. */
  lemma {:induction false} TakeUntilNoTerminator<T>(buf: seq<T>, terminator: T)
    requires terminator !in buf
    ensures TakeUntil(buf, terminator) == buf
  {
    if |buf| > 0 {
      assert terminator !in buf[1..];
      TakeUntilNoTerminator(buf[1..], terminator);
    }
  }

  /** Only the part before the first terminator matters: what follows it is never read. */
  lemma {:induction false} TakeUntilPrefix<T>(s: seq<T>, terminator: T, rest: seq<T>)
    requires terminator !in s
    ensures TakeUntil(s + [terminator] + rest, terminator) == s
  {
    if |s| == 0 {
      assert (s + [terminator] + rest)[0] == terminator;
    } else {
      assert (s + [terminator] + rest)[1..] == s[1..] + [terminator] + rest;
      TakeUntilPrefix(s[1..], terminator, rest);
    }
  }

  /** A terminator written after a buffer hides whatever follows it, but not what precedes it. */
  lemma {:induction false} TakeUntilTerminated<T>(s: seq<T>, terminator: T, rest: seq<T>)
    ensures TakeUntil(s + [terminator] + rest, terminator) == TakeUntil(s, terminator)
  {
    if |s| == 0 {
      assert (s + [terminator] + rest)[0] == terminator;
    } else if s[0] != terminator {
      assert (s + [terminator] + rest)[1..] == s[1..] + [terminator] + rest;
      TakeUntilTerminated(s[1..], terminator, rest);
    }
  }

  /**
   * C's strcpy into a char array: the characters of `src` before its first
   * NUL, then a NUL; the rest of the array is untouched. strcpy does not check
   * the room, so the caller must guarantee it.
   */
  method StrCpy(dst: array<char>, src: string)
    requires |CChars(src)| < dst.Length
    modifies dst
    ensures dst[..|CChars(src)|] == CChars(src)
    ensures dst[|CChars(src)|] == '\0'
    ensures dst[|CChars(src)| + 1..] == old(dst[|CChars(src)| + 1..])
    ensures CChars(dst[..]) == CChars(src)
  {
    ghost var s := CChars(src);
    var i := 0;
    while i < |src| && src[i] != '\0'
      invariant 0 <= i <= |s|
      invariant dst[..i] == s[..i]
      invariant dst[i..] == old(dst[i..])
    {
      dst[i] := src[i];
      i := i + 1;
    }
    assert dst[i + 1..] == old(dst[i + 1..]) by {
      assert dst[i + 1..] == dst[i..][1..];
      assert old(dst[i + 1..]) == old(dst[i..])[1..];
    }
    dst[i] := '\0';
    assert dst[..] == s + ['\0'] + dst[i + 1..];
    TakeUntilPrefix(s, '\0', dst[i + 1..]);
  }

  /** Appending nothing, on either side, changes nothing. */
  lemma AppendEmpty<T>(a: seq<T>)
    ensures [] + a == a && a + [] == a
  {
  }

  /** Sequence concatenation is associative. */
  lemma AppendAssoc<T>(a: seq<T>, b: seq<T>, c: seq<T>)
    ensures a + (b + c) == (a + b) + c
  {
  }

  /** A sequence is its prefix followed by the rest. */
  lemma SliceJoin<T>(s: seq<T>, i: nat)
    requires i <= |s|
    ensures s[..i] + s[i..] == s
  {
  }
}
