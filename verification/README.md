# Memory lab routines, modelled in Dafny

The lab (`lab1/main.c` and `lab1/main3.c`) is a set of small C routines.
Students step through them in a debugger. Many of them print fixed constants
and compute nothing; their lesson is where those values are placed, which is
seen only in the debugger. A few print raw addresses. This project models the
routines that compute a value, and proves what each of them produces.

- `clang.dfy`, module `CLang`: the C rules the routines depend on. A `char` is
  a byte (`Byte`), and `INT_MAX` is the top of a 32-bit `int`. `StrLen` models
  `strlen` on NUL-terminated strings. `Literal` is the storage of a string
  literal. `InitCharArray` and `UnsizedCharArray` model `char a[n] = "…"` and
  `char a[] = "…"`. `Dup` is the specification of a string duplicate.
- `main3.dfy`, module `Main3`: `mystrdup` is a method over arrays. Its copy
  loop walks a source offset and a destination offset together, as the two
  pointers do in C. The function `fn` and its `static int sx` become the class
  `FnStatic`. `main` duplicates `"234567890o"`.
- `memlab.dfy`, module `MemLab`: from `main.c`, the recursion (`part9`), the
  watched accumulator (`part8`), call by value versus call by pointer
  (`part14`), aliasing (`part12`), the contiguous 3×4 grid and `takes_2d`
  (`part27`), the jagged array (`part29`), and string length versus storage
  size (`part20`, `part26`).

A `char *` is a `Ptr`, an array plus an offset. An `int` whose address is taken
becomes an `IntCell` object. A contiguous `int a[R][C]` becomes one flat
`array<int>` in row-major order. `int *rows[R]` becomes an array of
separately allocated row arrays. `malloc` becomes `new` and is taken to
succeed. Each `printf` becomes an out-parameter holding the value printed.

The model follows the code. The source has no simulator of storage regions,
frames or allocation errors, so the model has none either.

## Model

| member | source | states |
|---|---|---|
| `CLang.StrLen` | lab1/main3.c:16 | `strlen` returns the index of the first NUL: the byte there is NUL and no byte before it is |
| `CLang.Literal` | lab1/main.c:233 | a string literal's storage is its characters plus one NUL; its length is the number of characters, and it is one byte longer than that length |
| `CLang.InitCharArray` | lab1/main.c:224 | `char a[size] = "…"` has exactly `size` bytes: the literal's characters first, then zeros up to the end |
| `CLang.UnsizedCharArray` | lab1/main.c:232 | `char a[] = "…"` is sized to the characters plus one terminator; it holds the characters and then a NUL, i.e. exactly the literal's storage |
| `CLang.CharArrayStrLen` | lab1/main.c:231-235 | an array initialised from a NUL-free literal with room to spare holds a string exactly as long as the literal, so its size exceeds its length by at least one |
| `CLang.Dup` | lab1/main3.c:14-26 | a duplicate is `strlen(s)+1` bytes: `s[i]` at every index `i < strlen(s)`, then a NUL; it has the same length and the same text as `s` |
| `Main3.MyStrDup` | lab1/main3.c:14-26 | returns a fresh `len+1`-byte buffer equal to `Dup` of the source; the returned pointer is the start of the buffer (offset 0 after moving back `len`); the loop runs exactly `strlen` times; exactly `len+1` bytes are written; the source is unchanged |
| `Main3.FnStatic.constructor` | lab1/main3.c:9 | `sx` starts at 1 before any call |
| `Main3.FnStatic.Fn` | lab1/main3.c:7-12 | each call raises `sx` by exactly 1 and prints the new value; `sx == 1 + calls` is kept |
| `Main3.SxAfter` | lab1/main3.c:41-43 | a hypothetical caller (the calls of `fn` in `main33` are commented out, and nothing calls `main33`): `k` calls on fresh storage would print `2, 3, …, k+1` and leave `sx == 1 + k` |
| `Main3.DemoMain` | lab1/main3.c:28-34 | `main` prints the duplicate of `"234567890o"`: the same 10 characters |
| `MemLab.Recurse` | lab1/main.c:97-102 | for `n <= 0` the result is the local `100 + n` alone; for `n > 0` each of the `n + 1` frames adds at least 100, so the result is at least `100(n+1) + n` |
| `MemLab.RecurseClosedForm` | lab1/main.c:97-102 | `part9_recurse(n)` is `100 + n` when `n <= 0`; otherwise it is the sum of `100 + k` for `k = 0..n`, i.e. `100(n+1) + n(n+1)/2` |
| `MemLab.DriverRecurse` | lab1/main.c:293 | the driver's `part9_recurse(3)` yields 406 |
| `MemLab.Watchpoints` | lab1/main.c:85-93 | `counter` takes the values 0, 1, 3, 6 and ends at 6 |
| `MemLab.IncByPtr` | lab1/main.c:157 | the pointee goes up by exactly 1; nothing else changes |
| `MemLab.IncByValue` | lab1/main.c:155 | the callee's own copy of the argument ends at `x + 1`; with no `modifies` clause, no object of the caller changes |
| `MemLab.Part14Calls` | lab1/main.c:155-167 | `v` reads 5 after `inc_by_value(v)` and 6 after `inc_by_ptr(&v)` |
| `MemLab.Store` | lab1/main.c:138 | after `*p = x`, `*p == x`; another pointer `q` reads `x` if it aliases `p` and keeps its old value if it does not |
| `MemLab.Part12Alias` | lab1/main.c:133-141 | after `*p = 99`, both `*p` and `*q` read 99, because both point to `value` |
| `MemLab.Index` | lab1/main.c:242 | `a[i][j]` of `int a[][C]` sits at a flat position whose quotient by `C` is the row `i` and whose remainder is the column `j` |
| `MemLab.IndexRowMajor` | lab1/main.c:239-242 | row-major position `i*C + j` is one-to-one over `(i, j)`, and it is below `R*C` exactly when `i < R` |
| `MemLab.TakesTwoD` | lab1/main.c:242 | `a[2][3]` (flat index 11) goes up by 1, and every other element of the grid is unchanged |
| `MemLab.Part27TwoDContig` | lab1/main.c:245-255 | the grid becomes 1..11, 13, and 13 is printed |
| `MemLab.FillJagged` | lab1/main.c:260-264 | `R` distinct fresh rows of `C` ints with `rows[i][j] == 100*i + j` |
| `MemLab.Part29Jagged` | lab1/main.c:259-268 | `rows[2][3]` prints 203 |
| `MemLab.Part26StrlenSizeof` | lab1/main.c:231-236 | `sizeof(s)` is 6, `strlen(s)` is 5 and `strlen(p)` is 5 for `"hello"` |
| `MemLab.Part20StringBuffer` | lab1/main.c:223-227 | `buf[16]` holds the 15-character string followed by its NUL, and `%s` prints those 15 characters |

## Left out

- Output: `printf` and `marker` (lab1/main.c:19-22). Printed numbers and texts become out-parameters. The text formatting is not modelled.
- Routines that print raw addresses with `%p` are not modelled, because the values depend on the platform and the allocator. These are `part10_growth`, `part13_decay` and `part30_dynamic2d_compare` in lab1/main.c, the driver's print of `addr` (lab1/main.c:303), and `main33` in lab1/main3.c.
- Routines that print fixed constants and compute nothing are not modelled. These are `part1_locations`, `part7_not_stack`, `part16_str_literal_vs_array`, `part17_pc_sp` and `part18_array1d` in lab1/main.c. Their lesson is where the values live (stack, static storage, literal storage, heap), which is observed only in the debugger.
- `part11_struct` (padding of `Padded`) and `part5_endianness` are not modelled. Both are fixed by the ABI and the compiler, not by this code.
- `part2_stack_measure` and `part3_reorder` are not modelled. They hold `double` locals, lay out a stack frame, and compute nothing.
- `bad_return_addr`/`reuse_stack_slot` (use after return) and `part19_oob_controlled` (write one past the end) are not modelled. Their behaviour is undefined under sections 6.2.4 and 6.5.6 of the C11 standard, so they are given no semantics.
- `free` is not modelled, and `malloc` is assumed to succeed. `mystrdup` does not check for a null result.
- `sizeof(p)` in `part26_strlen_sizeof` is not modelled, because it is the platform's pointer size.
- `MemLab.Recurse` computes with unbounded integers. It does not model 32-bit `int` overflow or stack exhaustion for large `n`.
- `MemLab.Watchpoints`: the `marker` calls between the updates are not modelled, so the model does not capture where a debugger stops.
- Signed `int` overflow is undefined in C, so it becomes a precondition rather than wrap-around. This applies to `sx++` (`FnStatic.Fn`), `(*x) += 1` (`IncByPtr`, `IncByValue`) and `a[2][3] += 1` (`TakesTwoD`).
- `MyStrDup` requires `strlen(str) < INT_MAX`, because `len` is an `int` and `len + 1` must not overflow.
- Only ASCII text is modelled. `Chars` maps each character to the byte of the same code, which covers the lab's literals.
