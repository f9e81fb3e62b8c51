/** lab1/main.c: the routines of the memory lab whose outcome is a value rather
    than an address -- recursion, an accumulator, call by value versus call by
    pointer, aliasing, a contiguous 2D array, a jagged array, and string
    length versus storage size. */
module MemLab {
  import opened CLang

  /* ---------- 9) Recursion ---------- */

  /** `part9_recurse(n)`: the local `100 + n`, plus the result for `n - 1`
      while `n` is positive. Without recursion the result is the local alone;
      with it, each of the `n + 1` frames adds a local of at least 100. */
  function Recurse(n: int): (r: int)
    ensures n <= 0 ==> r == 100 + n
    ensures n > 0 ==> r >= 100 * (n + 1) + n
    decreases if n <= 0 then 0 else n
  {
    var local := 100 + n;
    if n <= 0 then local else local + Recurse(n - 1)
  }

  /** The recursion sums the locals of every frame: `100 + k` for each `k`
      from `n` down to `0`, i.e. `100 * (n + 1) + n * (n + 1) / 2` for a
      positive `n`, and just `100 + n` otherwise. */
  lemma {:induction false} RecurseClosedForm(n: int)
    ensures n <= 0 ==> Recurse(n) == 100 + n
    ensures n > 0 ==> 2 * Recurse(n) == 200 * (n + 1) + n * (n + 1)
  {
    if n > 1 {
      RecurseClosedForm(n - 1);
      assert 2 * Recurse(n) == 2 * (100 + n) + 2 * Recurse(n - 1);
      assert (n - 1) * n + 2 * n == n * (n + 1);
    }
  }

  /** The driver's call `part9_recurse(3)` yields 103 + 102 + 101 + 100. */
  lemma DriverRecurse()
    ensures Recurse(3) == 406
  {
    RecurseClosedForm(3);
  }

  /* ---------- 8) Watchpoints ---------- */

  /** `part8_watchpoints`: `counter` starts at 0 and receives `+= 1`, `+= 2`,
      `+= 3`; `history` records every value a watchpoint on it would see. */
  method Watchpoints() returns (counter: int, ghost history: seq<int>)
    ensures history == [0, 1, 3, 6]
    ensures counter == 6
  {
    counter := 0;
    history := [counter];
    counter := counter + 1;
    history := history + [counter];
    counter := counter + 2;
    history := history + [counter];
    counter := counter + 3;
    history := history + [counter];
  }

  /* ---------- 12) and 14) Objects reached through pointers ---------- */

  /** An `int` object whose address is taken: `&v` in the source. */
  class IntCell {
    var val: int

    constructor (v: int)
      ensures val == v
    {
      val := v;
    }
  }

  /** `inc_by_value(x)`: the callee raises its own copy of the argument;
      `copy` is that parameter's value when the callee returns. It has no
      access to the caller's object, so it modifies nothing. */
  method IncByValue(x: int) returns (ghost copy: int)
    requires x < INT_MAX
    ensures copy == x + 1
  {
    copy := x;
    copy := copy + 1;
  }

  /** `inc_by_ptr(x)`: `(*x) += 1` -- the pointee goes up by exactly one and
      no other object changes. */
  method IncByPtr(x: IntCell)
    requires x.val < INT_MAX
    modifies x
    ensures x.val == old(x.val) + 1
  {
    x.val := x.val + 1;
  }

  /** `part14_calls`: `v = 5`, then `inc_by_value(v)` leaves it 5 and
      `inc_by_ptr(&v)` makes it 6; `afterByValue` is `v` between the calls. */
  method Part14Calls() returns (afterByValue: int, v: int)
    ensures afterByValue == 5
    ensures v == 6
  {
    var cell := new IntCell(5);
    var _ := IncByValue(cell.val);
    afterByValue := cell.val;
    IncByPtr(cell);
    v := cell.val;
  }

  /** `*p = x`: a store through a pointer. Another pointer `q` sees the stored
      value exactly when it points to the same object. */
  method Store(p: IntCell, q: IntCell, x: int)
    modifies p
    ensures p.val == x
    ensures q.val == if p == q then x else old(q.val)
  {
    p.val := x;
  }

  /** `part12_alias`: `p` and `q` both take `&value`; after `*p = 99` both
      `*p` and `*q` read 99. */
  method Part12Alias() returns (viaP: int, viaQ: int)
    ensures viaP == 99 && viaQ == 99
  {
    var value := new IntCell(10);
    var p := value;
    var q := value;
    Store(p, q, 99);
    viaP, viaQ := p.val, q.val;
  }

  /* ---------- 27-28) Contiguous 2D array ---------- */

  /** The macros `R` and `C`: a grid of 3 rows of 4 `int`s. */
  const R := 3
  const C := 4

  /** `a[i][j]` of an `int a[][C]` lives at flat position `i * C + j`: row
      and column are recovered from the position by division by `C`. */
  function Index(i: nat, j: nat): (p: nat)
    requires j < C
    ensures p / C == i && p % C == j
  {
    i * C + j
  }

  /** Row-major placement is one-to-one, and a grid of `R` rows fills exactly
      the positions `0 .. R * C - 1`. */
  lemma IndexRowMajor(i: nat, j: nat, i': nat, j': nat)
    requires j < C && j' < C
    ensures Index(i, j) == Index(i', j') <==> i == i' && j == j'
    ensures Index(i, j) < R * C <==> i < R
  {
    if i < i' {
      assert Index(i, j) < (i + 1) * C <= Index(i', j');
    } else if i' < i {
      assert Index(i', j') < (i' + 1) * C <= Index(i, j);
    }
    if i >= R {
      assert Index(i, j) >= R * C;
    }
  }

  /** `takes_2d(a)`: `a[2][3] += 1` on a grid of at least three rows. That
      element goes up by one; every other element keeps its value. */
  method TakesTwoD(a: array<int>)
    requires Index(2, 3) < a.Length
    requires a[Index(2, 3)] < INT_MAX
    modifies a
    ensures a[..] == old(a[..])[Index(2, 3) := old(a[Index(2, 3)]) + 1]
    ensures forall i: nat, j: nat | j < C && Index(i, j) < a.Length ::
              a[Index(i, j)] == old(a[Index(i, j)]) + (if i == 2 && j == 3 then 1 else 0)
  {
    a[Index(2, 3)] := a[Index(2, 3)] + 1;
    forall i: nat, j: nat | j < C && Index(i, j) < a.Length
      ensures a[Index(i, j)] == old(a[Index(i, j)]) + (if i == 2 && j == 3 then 1 else 0)
    {
      IndexRowMajor(i, j, 2, 3);
    }
  }

  /** The storage of an `int` array initialised from `vals`. */
  method NewInts(vals: seq<int>) returns (a: array<int>)
    ensures fresh(a) && a[..] == vals
  {
    a := new int[|vals|](i requires 0 <= i < |vals| => vals[i]);
  }

  /** `part27_2d_contig`: the 3x4 grid 1..12, passed to `takes_2d`; it prints
      `a[2][3]`, which went from 12 to 13, and `grid` is the whole array
      afterwards, in row-major order. */
  method Part27TwoDContig() returns (printed: int, grid: seq<int>)
    ensures printed == 13
    ensures grid == [1, 2, 3, 4, 5, 6, 7, 8, 9, 10, 11, 13]
  {
    var a := NewInts([1, 2, 3, 4, 5, 6, 7, 8, 9, 10, 11, 12]);
    TakesTwoD(a);
    printed := a[Index(2, 3)];
    grid := a[..];
  }

  /* ---------- 29) Jagged array ---------- */

  /** The loops of `part29_jagged`: `rows[i]` gets its own fresh block of `C`
      ints, and `rows[i][j] = 100 * i + j`. */
  method FillJagged() returns (rows: array<array?<int>>)
    ensures fresh(rows) && rows.Length == R
    ensures forall i | 0 <= i < R :: rows[i] != null && fresh(rows[i]) && rows[i].Length == C
    ensures forall i, i' | 0 <= i < i' < R :: rows[i] != rows[i']
    ensures forall i, j | 0 <= i < R && 0 <= j < C :: rows[i][j] == 100 * i + j
  {
    rows := new array?<int>[R];
    var i := 0;
    while i < R
      invariant 0 <= i <= R
      invariant forall k | 0 <= k < i :: rows[k] != null && fresh(rows[k]) && rows[k].Length == C
      invariant forall k, k' | 0 <= k < k' < i :: rows[k] != rows[k']
      invariant forall k, j | 0 <= k < i && 0 <= j < C :: rows[k][j] == 100 * k + j
    {
      rows[i] := new int[C];
      var j := 0;
      while j < C
        invariant 0 <= j <= C
        invariant rows[i] != null && fresh(rows[i]) && rows[i].Length == C
        invariant forall k | 0 <= k < i :: rows[k] != null && fresh(rows[k]) && rows[k].Length == C
        invariant forall k | 0 <= k < i :: rows[k] != rows[i]
        invariant forall k, k' | 0 <= k < k' < i :: rows[k] != rows[k']
        invariant forall k, l | 0 <= k < i && 0 <= l < C :: rows[k][l] == 100 * k + l
        invariant forall l | 0 <= l < j :: rows[i][l] == 100 * i + l
      {
        rows[i][j] := 100 * i + j;
        j := j + 1;
      }
      i := i + 1;
    }
  }

  /** `part29_jagged`: after the fill it prints `rows[2][3]`. */
  method Part29Jagged() returns (printed: int)
    ensures printed == 203
  {
    var rows := FillJagged();
    printed := rows[2][3];
  }

  /* ---------- 20) and 26) String length versus storage size ---------- */

  /** `part26_strlen_sizeof`: `char s[] = "hello"` takes six bytes of storage
      but holds a five-character string, and `strlen` of the literal itself
      is five as well. */
  method Part26StrlenSizeof() returns (sizeofS: nat, strlenS: nat, strlenP: nat)
    ensures sizeofS == 6 && strlenS == 5 && strlenP == 5
  {
    var hello := Chars("hello");
    assert NoNul(hello);
    var s := UnsizedCharArray(hello);
    var p := Literal(hello);
    CharArrayStrLen(hello, |hello| + 1);
    sizeofS := |s|;
    strlenS := StrLen(s);
    strlenP := StrLen(p);
  }

  /** `part20_string_buffer`: `char buf[16] = "ABCDEFGHIJKLMNO"` fills fifteen
      bytes and the NUL after them; `%s` prints those fifteen characters. */
  method Part20StringBuffer() returns (sizeofBuf: nat, printed: seq<Byte>)
    ensures sizeofBuf == 16
    ensures printed == Chars("ABCDEFGHIJKLMNO") && |printed| == 15
  {
    var text := Chars("ABCDEFGHIJKLMNO");
    assert NoNul(text);
    var buf := InitCharArray(text, 16);
    CharArrayStrLen(text, 16);
    assert |text| == 15 && StrLen(buf) == 15;
    sizeofBuf := |buf|;
    printed := buf[..StrLen(buf)];
    assert printed == text;
  }
}
