/** lab1/main3.c: a hand-written `strdup` that walks two pointers, a function
    with a static call counter, and the `main` that uses the duplicate. */
module Main3 {
  import opened CLang

  /** A `char *`: a byte buffer and an offset into it. */
  datatype Ptr = Ptr(buf: array<Byte>, off: nat)
  {
    /** The pointer lies inside its buffer or one past its end. */
    ghost predicate InBounds() {
      off <= buf.Length
    }

    /** The bytes from the pointer to the end of its buffer. */
    ghost function Rest(): seq<Byte>
      requires InBounds()
      reads buf
    {
      buf[off..]
    }
  }

  /** `mystrdup(str)`: measure `str` with `strlen`, allocate `len + 1` bytes,
      copy while the source byte is not NUL, advancing both pointers, write the
      terminator at the destination pointer and return that pointer moved back
      by `len`. The allocation is a fresh array (`malloc` is taken to succeed);
      `len` is a C `int`, so the length must leave room for `len + 1`.
      `iterations` counts the passes through the copy loop and `writes` the
      bytes stored into the new buffer. */
  method MyStrDup(str: Ptr) returns (r: Ptr, ghost iterations: nat, ghost writes: nat)
    requires str.InBounds() && HasNul(str.Rest())
    requires StrLen(str.Rest()) < INT_MAX
    ensures fresh(r.buf)
    ensures r.off == 0
    ensures r.buf.Length == StrLen(str.Rest()) + 1
    ensures r.buf[..] == Dup(str.Rest())
    ensures iterations == StrLen(str.Rest())
    ensures writes == r.buf.Length
    ensures str.buf[..] == old(str.buf[..])
  {
    ghost var s := str.Rest();
    var len: int := StrLen(str.buf[str.off..]);
    var dst := new Byte[len + 1];
    var src := str.off;   // the pointer `str`
    var pch := 0;         // the pointer `pch`, as an offset into `dst`
    iterations, writes := 0, 0;
    assert forall k | 0 <= k < len :: s[k] == s[..len][k];
    while str.buf[src] != NUL
      invariant str.off <= src <= str.off + len
      invariant pch == src - str.off == iterations == writes
      invariant forall k | 0 <= k < pch :: dst[k] == s[k]
      decreases str.off + len - src
    {
      assert s[pch] == str.buf[src];
      dst[pch] := str.buf[src];
      src := src + 1;
      pch := pch + 1;
      iterations, writes := iterations + 1, writes + 1;
    }
    dst[pch] := NUL;
    writes := writes + 1;
    r := Ptr(dst, pch - len);
    assert dst[..] == Dup(s);
  }

  /** The function `fn` and its block-scope `static int sx = 1;`. The one
      counter lives as long as the program; `calls` counts the calls made. */
  class FnStatic {
    var sx: int
    ghost var calls: nat

    /** Every call has raised `sx` by one from its initial value. */
    ghost predicate Valid()
      reads this
    {
      sx == 1 + calls
    }

    /** Static storage is initialised once, before the first call. */
    constructor ()
      ensures Valid() && calls == 0 && sx == 1
    {
      sx := 1;
      calls := 0;
    }

    /** `fn()`: `sx++` then print it; `printed` is the number printed. A
        signed `int` overflow is undefined, so `sx` must be below `INT_MAX`. */
    method Fn() returns (printed: int)
      requires Valid() && sx < INT_MAX
      modifies this
      ensures Valid()
      ensures calls == old(calls) + 1
      ensures sx == old(sx) + 1
      ensures printed == sx
    {
      sx := sx + 1;
      calls := calls + 1;
      printed := sx;
    }
  }

  /** A hypothetical caller of `fn`: the program never calls `fn` (the only
      calls are commented out in `main33`, which nothing calls). Were it
      called `k` times, starting from the static initial value, it would
      print 2, 3, ..., `k + 1` in turn and leave `sx` at `1 + k`. */
  method SxAfter(k: nat) returns (sx: int, printed: seq<int>)
    requires k < INT_MAX
    ensures sx == 1 + k
    ensures |printed| == k
    ensures forall c | 0 <= c < k :: printed[c] == c + 2
  {
    var f := new FnStatic();
    printed := [];
    while |printed| < k
      invariant |printed| <= k
      invariant f.Valid() && f.calls == |printed|
      invariant forall c | 0 <= c < |printed| :: printed[c] == c + 2
    {
      var n := f.Fn();
      printed := printed + [n];
    }
    sx := f.sx;
  }

  /** The storage of a string literal, as a fresh array holding `bytes`. */
  method NewBuffer(bytes: seq<Byte>) returns (a: array<Byte>)
    ensures fresh(a) && a[..] == bytes
  {
    a := new Byte[|bytes|](i requires 0 <= i < |bytes| => bytes[i]);
  }

  /** `main`: duplicate the literal "234567890o" and print the copy; `printed`
      is the text `%s` prints, the bytes before the copy's terminator. */
  method DemoMain() returns (printed: seq<Byte>)
    ensures printed == Chars("234567890o")
    ensures |printed| == 10
  {
    var text := Chars("234567890o");
    assert NoNul(text);
    var lit := Literal(text);
    var buf := NewBuffer(lit);
    assert Ptr(buf, 0).Rest() == lit;
    var dup, _, _ := MyStrDup(Ptr(buf, 0));
    assert dup.buf[..] == Dup(lit) == Literal(text);
    printed := dup.buf[..StrLen(dup.buf[..])];
  }
}
