/** The dtype registry: a closed set of scalar element kinds, their canonical
    names and single-character codes, reverse lookup by name, enumeration of
    all kinds, and an equality guard.
 */
module Dtypes {
  import opened Outcomes
  import opened CStrings

  /** The scalar element kinds, in declaration order. */
  datatype Dtype = Bool | Int8 | Int16 | Int32 | Int64 | UInt8 | Float32 | Float64

  /** Number of element kinds. */
  const DtypeCount: nat := 8

  /** Position of a kind in declaration order. */
  function DeclIndex(d: Dtype): (i: nat)
    ensures i < DtypeCount
  {
    match d
    case Bool => 0
    case Int8 => 1
    case Int16 => 2
    case Int32 => 3
    case Int64 => 4
    case UInt8 => 5
    case Float32 => 6
    case Float64 => 7
  }

  /** Canonical names use lower-case letters and digits only. */
  predicate IsNameChar(c: char) {
    ('a' <= c <= 'z') || ('0' <= c <= '9')
  }

  /** The lookup table: the eight canonical names in declaration order, then the
      eight format characters of Python's `struct` module in the same order. */
  const Mapping: seq<(string, Dtype)> := [
    ("bool", Bool),
    ("int8", Int8),
    ("int16", Int16),
    ("int32", Int32),
    ("int64", Int64),
    ("uint8", UInt8),
    ("float32", Float32),
    ("float64", Float64),
    ("?", Bool),
    ("b", Int8),
    ("h", Int16),
    ("i", Int32),
    ("q", Int64),
    ("B", UInt8),
    ("f", Float32),
    ("d", Float64)
  ]

  /** The canonical name of a kind. It is the full-name entry of the lookup
      table at the kind's declaration position, and it is a non-empty word of
      lower-case letters and digits (so in particular free of NUL). */
  function GetDtypeName(d: Dtype): (r: string)
    ensures Mapping[DeclIndex(d)] == (r, d)
    ensures |r| > 1
    ensures forall i :: 0 <= i < |r| ==> IsNameChar(r[i])
  {
    match d
    case Bool => "bool"
    case Int8 => "int8"
    case Int16 => "int16"
    case Int32 => "int32"
    case Int64 => "int64"
    case UInt8 => "uint8"
    case Float32 => "float32"
    case Float64 => "float64"
  }

  /** The single-character code of a kind: the code-section entry of the lookup
      table at the kind's declaration position. */
  function ShortCode(d: Dtype): (r: string)
    ensures Mapping[DtypeCount + DeclIndex(d)] == (r, d)
    ensures |r| == 1 && r[0] != NUL
  {
    match d
    case Bool => "?"
    case Int8 => "b"
    case Int16 => "h"
    case Int32 => "i"
    case Int64 => "q"
    case UInt8 => "B"
    case Float32 => "f"
    case Float64 => "d"
  }

  /** Stream insertion of a kind: the stream's previous contents are kept and
      exactly the canonical name is appended after them. */
  function WriteDtype(os: string, d: Dtype): (r: string)
    ensures |r| == |os| + |GetDtypeName(d)|
    ensures r[..|os|] == os
    ensures r[|os|..] == GetDtypeName(d)
  {
    os + GetDtypeName(d)
  }

  /** Index of the first table entry whose key is exactly `key`, if any. */
  function FirstMatch(table: seq<(string, Dtype)>, key: string, from: nat): (r: Option<nat>)
    requires from <= |table|
    ensures r.Some? ==> from <= r.value < |table| && table[r.value].0 == key
    ensures r.Some? ==> forall j :: from <= j < r.value ==> table[j].0 != key
    ensures r.None? ==> forall j :: from <= j < |table| ==> table[j].0 != key
    decreases |table| - from
  {
    if from == |table| then None
    else if table[from].0 == key then Some(from)
    else FirstMatch(table, key, from + 1)
  }

  /** True when `key` is one of the table's keys. */
  predicate IsKey(key: string) {
    exists i :: 0 <= i < |Mapping| && Mapping[i].0 == key
  }

  /** The fixed head of the unknown-name message, opening quote included. */
  const UnknownNamePrefix: string := "unknown dtype name: \""

  /** The message raised for a name that matches no table key: the fixed head,
      then the name verbatim, then a closing double quote. */
  function UnknownNameMessage(name: string): (m: string)
    ensures |m| == |UnknownNamePrefix| + |name| + 1
    ensures m[..|UnknownNamePrefix|] == "unknown dtype name: \""
    ensures m[|UnknownNamePrefix|..|m| - 1] == name
    ensures m[|m| - 1] == '"'
  {
    UnknownNamePrefix + name + "\""
  }

  /** Reverse lookup. The input is compared as a NUL-terminated string, so only
      its part before the first NUL takes part in matching; the first table
      entry whose key equals that part gives the result. When no key matches,
      the error message quotes the whole input. */
  function GetDtype(name: string): (r: Result<Dtype>)
    ensures r.Ok? <==> IsKey(CStr(name))
    ensures r.Ok? ==> exists i :: 0 <= i < |Mapping| && Mapping[i] == (CStr(name), r.value)
    ensures r.Err? ==> r.error == DtypeError(UnknownNameMessage(name))
  {
    match FirstMatch(Mapping, CStr(name), 0)
    case Some(i) => Ok(Mapping[i].1)
    case None => Err(DtypeError(UnknownNameMessage(name)))
  }

  /** Reverse lookup as the linear scan over the table: it returns at the
      first entry whose key matches, and raises when the scan runs off the end. */
  method GetDtypeScan(name: string) returns (r: Result<Dtype>)
    ensures r == GetDtype(name)
    ensures r.Ok? ==> exists i :: 0 <= i < |Mapping| && Mapping[i] == (CStr(name), r.value)
                                  && forall j :: 0 <= j < i ==> Mapping[j].0 != CStr(name)
    ensures r.Err? <==> forall i :: 0 <= i < |Mapping| ==> Mapping[i].0 != CStr(name)
  {
    var cname := CStr(name);
    var i := 0;
    while i < |Mapping|
      invariant 0 <= i <= |Mapping|
      invariant forall j :: 0 <= j < i ==> Mapping[j].0 != cname
    {
      if Mapping[i].0 == cname {
        return Ok(Mapping[i].1);
      }
      i := i + 1;
    }
    return Err(DtypeError(UnknownNameMessage(name)));
  }

  /** Every kind, each exactly once, in declaration order. */
  function GetAllDtypes(): (r: seq<Dtype>)
    ensures |r| == DtypeCount
    ensures forall i :: 0 <= i < |r| ==> DeclIndex(r[i]) == i
    ensures forall d: Dtype :: r[DeclIndex(d)] == d
  {
    [Bool, Int8, Int16, Int32, Int64, UInt8, Float32, Float64]
  }

  /** The fixed head of the mismatch message. */
  const MismatchPrefix: string := "dtype mismatched: "

  /** The message raised for two different kinds: both canonical names, as
      written through stream insertion, around " != ". */
  function MismatchMessage(lhs: Dtype, rhs: Dtype): (m: string)
    ensures m == "dtype mismatched: " + GetDtypeName(lhs) + " != " + GetDtypeName(rhs)
  {
    WriteDtype(WriteDtype(MismatchPrefix, lhs) + " != ", rhs)
  }

  /** Equality guard: returns normally exactly when both kinds are the same,
      and otherwise raises with a message naming both. */
  function CheckEqual(lhs: Dtype, rhs: Dtype): (r: Outcome)
    ensures r.Pass? <==> lhs == rhs
    ensures r.Fail? ==> r.error.message == "dtype mismatched: " + GetDtypeName(lhs) + " != " + GetDtypeName(rhs)
  {
    if lhs != rhs then Fail(DtypeError(MismatchMessage(lhs, rhs))) else Pass
  }
}
