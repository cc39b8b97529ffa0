# xchainer dtype registry in Dafny

This project models the dtype registry of xchainer (`xchainer/dtype.cc`). The
registry is a closed set of eight scalar element kinds: `bool`, `int8`, `int16`,
`int32`, `int64`, `uint8`, `float32` and `float64`. It provides four operations
and one formatting helper:

- `GetDtypeName` maps a kind to its canonical lower-case name.
- `GetDtype` maps a name back to a kind. It scans a fixed 16-entry table: the
  eight canonical names, then eight single-character codes (the format
  characters of Python's `struct` module: `?`, `b`, `h`, `i`, `q`, `B`, `f`,
  `d`). It returns the first exact, case-sensitive match. With no match it
  raises `DtypeError` with the message `unknown dtype name: "<name>"`.
- `GetAllDtypes` lists every kind in declaration order.
- `CheckEqual` raises `DtypeError` with the message
  `dtype mismatched: <lhs> != <rhs>` when the two kinds differ.
- Stream insertion of a kind writes its canonical name.

Files:

- `outcomes.dfy` (module `Outcomes`): `DtypeError`, plus `Result` and `Outcome`
  values that stand in for raising it.
- `cstrings.dfy` (module `CStrings`): `CStr`, the part of a string that a
  NUL-terminated comparison reads.
- `dtype.dfy` (module `Dtypes`): the `Dtype` datatype, the lookup table
  `Mapping`, and the operations.
- `dtype_laws.dfy` (module `DtypeLaws`): the laws relating the operations.

The lookup compares keys with `strcmp` against `name.c_str()`, so only the part
of the input before its first NUL character takes part in matching. The model
follows the code here rather than whole-string equality. For example,
`"f\0xyz"` resolves to `float32` (`DtypeLaws.NulTruncation`). On failure, the
message passed to `DtypeError` still quotes the whole input, NUL and tail
included, because it is built from the `std::string` (`DtypeLaws.NotAKey`).
For inputs without NUL the two readings agree (`DtypeLaws.NulFreeLookup`).

## Model

| member | source | states |
|---|---|---|
| `Dtypes.GetDtypeName` | xchainer/dtype.cc:11-31 | The name of a kind is the full-name key the lookup table pairs with that kind, at the kind's declaration position. It has at least two characters, all lower-case letters or digits. |
| `Dtypes.ShortCode` | xchainer/dtype.cc:51-59 | The single-character code of a kind is the code-section key the table pairs with that kind, eight entries after its full name. It is one character and is not NUL. |
| `Dtypes.WriteDtype` | xchainer/dtype.cc:9 | Inserting a kind into a stream keeps the earlier contents and appends exactly the canonical name. |
| `Dtypes.FirstMatch` | xchainer/dtype.cc:63-68 | The result is the index of the first entry whose key equals the searched string. Every earlier entry differs from it. No index is returned only when no entry matches. |
| `Dtypes.UnknownNameMessage` | xchainer/dtype.cc:69 | The unknown-name message is exactly `unknown dtype name: "`, then the input verbatim with nothing dropped, then a closing `"`. |
| `Dtypes.GetDtype` | xchainer/dtype.cc:33-70 | Lookup succeeds exactly when the pre-NUL part of the input is a table key. On success the table pairs that key with the result. On failure the error is `unknown dtype name: "<name>"` with the whole input. |
| `Dtypes.GetDtypeScan` | xchainer/dtype.cc:63-69 | The linear scan returns the kind of the first matching entry; all earlier entries differ. It fails exactly when no entry matches. It agrees with `GetDtype` on every input. |
| `Dtypes.GetAllDtypes` | xchainer/dtype.cc:72-76 | The list has eight elements. The element at position i is the kind declared i-th. Every kind sits at its declaration position. |
| `Dtypes.MismatchMessage` | xchainer/dtype.cc:80-81 | Chaining stream insertions gives `dtype mismatched: ` + name(lhs) + ` != ` + name(rhs). |
| `Dtypes.CheckEqual` | xchainer/dtype.cc:78-84 | The guard passes if and only if the two kinds are equal. Otherwise it fails with `dtype mismatched: ` + name(lhs) + ` != ` + name(rhs). |
| `CStrings.CStr` | xchainer/dtype.cc:63-65 | A NUL-terminated reader sees a prefix of the input that contains no NUL. It stops only at the input's end or at a NUL. |
| `CStrings.CStrOfNulFree` | xchainer/dtype.cc:63-65 | A string without NUL is read whole. |
| `CStrings.CStrIgnoresTail` | xchainer/dtype.cc:63-65 | Whatever follows the first NUL is not read. |
| `DtypeLaws.TableLayout` | xchainer/dtype.cc:41-59 | The table has 16 entries. Entry i < 8 pairs the i-th kind with its canonical name. Entry 8 + i pairs the i-th kind with its code. |
| `DtypeLaws.KeysUnique` | xchainer/dtype.cc:41-59 | No key occurs twice, so no key names two kinds. |
| `DtypeLaws.GetDtypeOkIff` | xchainer/dtype.cc:41-68 | Lookup yields d exactly when some table entry pairs the pre-NUL input with d. So the first match is the only match. |
| `DtypeLaws.RoundTrip` | xchainer/dtype.cc:11-68 | Looking up the canonical name of any kind gives back that kind. |
| `DtypeLaws.ShortCodeRoundTrip` | xchainer/dtype.cc:43-59 | Looking up a kind's code gives back that kind, the same result as its full name. |
| `DtypeLaws.ShortCodes` | xchainer/dtype.cc:43-59 | `?` and `bool` give Bool; `b`/`int8` give Int8; `h`/`int16` give Int16; `i`/`int32` give Int32; `q`/`int64` give Int64; `B`/`uint8` give UInt8; `f`/`float32` give Float32; `d`/`float64` give Float64. |
| `DtypeLaws.NamesTotalAndInjective` | xchainer/dtype.cc:12-30 | Every kind has a name among the eight canonical names, and distinct kinds have distinct names. So the `invalid dtype` fallback is never reached. |
| `DtypeLaws.AcceptedNames` | xchainer/dtype.cc:41-68 | Any accepted input is, before its first NUL, the canonical name or the code of the kind it yields. |
| `DtypeLaws.NulFreeLookup` | xchainer/dtype.cc:41-69 | For an input without NUL, lookup succeeds exactly on the 16 keys. Equivalently, it succeeds exactly when the input is some kind's name or code. |
| `DtypeLaws.NulTruncation` | xchainer/dtype.cc:63-66 | A NUL-free string followed by NUL and any tail resolves exactly as the string alone. |
| `DtypeLaws.LongNamesUnknown` | xchainer/dtype.cc:41-69 | A NUL-free input longer than seven characters is rejected. |
| `DtypeLaws.UnknownComplex128` | xchainer/dtype.cc:69 | `complex128` fails with `unknown dtype name: "complex128"`. |
| `DtypeLaws.CapitalisedNamesUnknown` | xchainer/dtype.cc:63-69 | A NUL-free input of two or more characters that contains a capital letter is rejected. No case folding happens. |
| `DtypeLaws.UnknownCapitalised` | xchainer/dtype.cc:63-69 | `Float32` fails with `unknown dtype name: "Float32"`. |
| `DtypeLaws.UnknownEmpty` | xchainer/dtype.cc:63-69 | The empty name fails with `unknown dtype name: ""`. |
| `DtypeLaws.NotAKey` | xchainer/dtype.cc:63-69 | Any input whose part before the first NUL equals no key fails with `unknown dtype name: "<name>"`, quoting the whole input including any NUL and tail. |
| `DtypeLaws.AllDtypesDistinct` | xchainer/dtype.cc:72-76 | The enumeration has no repeated kind and contains every kind. |
| `DtypeLaws.CheckEqualExamples` | xchainer/dtype.cc:78-84 | `CheckEqual(Int32, Int32)` passes. `CheckEqual(Int32, Float32)` fails with `dtype mismatched: int32 != float32`. |
| `DtypeLaws.MismatchMessageDeterminesOperands` | xchainer/dtype.cc:78-84 | Two failing checks with the same message were given the same two kinds, in the same order. |

## Left out

- The `invalid dtype` failure of the forward mapping is not modelled. `Dtype` is a closed datatype, so no out-of-range value exists. The raw integer values of the enumeration are declared in `xchainer/dtype.h`, which is not part of this model. `DtypeLaws.NamesTotalAndInjective` states that the mapping is total.
- C++ exceptions are modelled as values: `Result.Err` and `Outcome.Fail` carry the `DtypeError` message.
- `std::ostream` and `std::ostringstream` are modelled as strings; insertion is concatenation. Stream state and flags are not modelled.
- The `Pair` struct and the `static_assert` that the table is POD have no behaviour and are not modelled.
- Thread-safe initialisation of the function-local static table is not modelled. The table is the immutable constant `Mapping`.
- `strcmp` is modelled as equality between a table key and the input's part before its first NUL. The keys need no truncation: they contain no NUL, by the ensures of `Dtypes.GetDtypeName` and `Dtypes.ShortCode`.
- A Dafny `char` stands for one byte (`char`) of the `std::string`; encodings and multi-byte characters are not modelled.
