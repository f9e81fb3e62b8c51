/** The C language and library rules that the lab routines rely on:
    bytes, the `int` range, NUL-terminated strings, `strlen`, string
    literals and the initialisation of a `char` array from a literal. */
module CLang {

  /** A C `char` as stored in memory: one byte. */
  newtype Byte = b: int | 0 <= b < 256

  /** The largest value of a 32-bit C `int`. */
  const INT_MAX := 0x7fff_ffff

  /** The byte that ends a C string. */
  const NUL: Byte := 0

  /** `s` holds a terminator somewhere, so `strlen` on it stays inside `s`. */
  predicate HasNul(s: seq<Byte>) {
    NUL in s
  }

  /** `s` holds no terminator at all. */
  predicate NoNul(s: seq<Byte>) {
    NUL !in s
  }

  /** `strlen`: the number of bytes before the first NUL. */
  function StrLen(s: seq<Byte>): (n: nat)
    requires HasNul(s)
    ensures n < |s| && s[n] == NUL
    ensures NoNul(s[..n])
  {
    if s[0] == NUL then 0
    else
      assert HasNul(s[1..]) by { assert s == [s[0]] + s[1..]; }
      var m := StrLen(s[1..]);
      assert s[..m + 1] == [s[0]] + s[1..][..m];
      1 + m
  }

  /** A string is the bytes before its terminator: putting a NUL-free prefix
      in front of a terminated string lengthens it by exactly that prefix. */
  lemma {:induction false} StrLenAppend(p: seq<Byte>, t: seq<Byte>)
    requires NoNul(p) && HasNul(t)
    ensures HasNul(p + t)
    ensures StrLen(p + t) == |p| + StrLen(t)
  {
    if p == [] {
      assert p + t == t;
    } else {
      assert (p + t)[0] == p[0] && (p + t)[1..] == p[1..] + t;
      assert NoNul(p[1..]) by { assert p == [p[0]] + p[1..]; }
      StrLenAppend(p[1..], t);
    }
  }

  /** The bytes of the text `s`, one byte per character (the lab's texts are ASCII). */
  function Chars(s: string): (r: seq<Byte>)
    requires forall i | 0 <= i < |s| :: s[i] as int < 256
    ensures |r| == |s|
    ensures forall i | 0 <= i < |s| :: r[i] as int == s[i] as int
  {
    seq(|s|, i requires 0 <= i < |s| => s[i] as int as Byte)
  }

  /** The object a string literal denotes: its characters followed by one NUL
      (section 6.4.5 of the C11 standard). */
  function Literal(chars: seq<Byte>): (r: seq<Byte>)
    requires NoNul(chars)
    ensures HasNul(r) && StrLen(r) == |chars| && |r| == |chars| + 1
    ensures r[..StrLen(r)] == chars
  {
    StrLenAppend(chars, [NUL]);
    chars + [NUL]
  }

  /** `char a[size] = "<chars>";` -- the literal's characters fill the front of
      the array, and every element after them, the terminator included, is
      zero (section 6.7.9 of the C11 standard). A literal longer than the
      array is refused by the compiler, hence the requires. */
  function InitCharArray(chars: seq<Byte>, size: nat): (a: seq<Byte>)
    requires |chars| <= size
    ensures |a| == size
    ensures a[..|chars|] == chars
    ensures forall k | |chars| <= k < size :: a[k] == NUL
  {
    chars + seq(size - |chars|, _ => NUL)
  }

  /** `char a[] = "<chars>";` -- an array of unknown size takes exactly the
      literal's storage: its characters plus the terminator. */
  function UnsizedCharArray(chars: seq<Byte>): (a: seq<Byte>)
    ensures |a| == |chars| + 1
    ensures a[..|chars|] == chars && a[|chars|] == NUL
    ensures NoNul(chars) ==> a == Literal(chars)
  {
    InitCharArray(chars, |chars| + 1)
  }

  /** Storage size versus string length: an array initialised from a NUL-free
      literal with room to spare holds a string exactly as long as the literal,
      so its size exceeds its length by at least the terminator. */
  lemma CharArrayStrLen(chars: seq<Byte>, size: nat)
    requires NoNul(chars) && |chars| < size
    ensures HasNul(InitCharArray(chars, size))
    ensures StrLen(InitCharArray(chars, size)) == |chars|
    ensures |InitCharArray(chars, size)| - StrLen(InitCharArray(chars, size)) >= 1
  {
    var a := InitCharArray(chars, size);
    var tail := a[|chars|..];
    assert a == chars + tail;
    assert tail[0] == NUL;
    StrLenAppend(chars, tail);
  }

  /** Duplicating a string keeps its bytes up to and including the first NUL. */
  function Dup(s: seq<Byte>): (d: seq<Byte>)
    requires HasNul(s)
    ensures |d| == StrLen(s) + 1
    ensures HasNul(d) && StrLen(d) == StrLen(s)
    ensures forall i | 0 <= i < StrLen(s) :: d[i] == s[i]
    ensures d[StrLen(s)] == NUL
    ensures d[..StrLen(d)] == s[..StrLen(s)]
  {
    Literal(s[..StrLen(s)])
  }
}
