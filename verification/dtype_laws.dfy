/** Laws of the dtype registry: the layout of the lookup table, the round trip
    between kinds and names, equivalence of short codes and full names, exact
    matching, and the diagnostics of both failure sites.
 */
module DtypeLaws {
  import opened Outcomes
  import opened CStrings
  import opened Dtypes

  /** The table holds every kind twice: first its canonical name at its
      declaration position, then its short code eight entries later. */
  lemma TableLayout()
    ensures |Mapping| == 2 * DtypeCount
    ensures forall i :: 0 <= i < DtypeCount ==>
      Mapping[i] == (GetDtypeName(GetAllDtypes()[i]), GetAllDtypes()[i])
    ensures forall i :: DtypeCount <= i < |Mapping| ==>
      Mapping[i] == (ShortCode(GetAllDtypes()[i - DtypeCount]), GetAllDtypes()[i - DtypeCount])
  {
  }

  /** No key appears twice in the table, so no key names two kinds. */
  lemma KeysUnique()
    ensures forall i, j :: 0 <= i < |Mapping| && 0 <= j < |Mapping| && Mapping[i].0 == Mapping[j].0 ==> i == j
  {
  }

  /** A lookup yields `d` exactly when the table pairs the visible part of the
      name with `d`: the first match is the only match. */
  lemma GetDtypeOkIff(name: string, d: Dtype)
    ensures GetDtype(name) == Ok(d) <==> exists i :: 0 <= i < |Mapping| && Mapping[i] == (CStr(name), d)
  {
    if i :| 0 <= i < |Mapping| && Mapping[i] == (CStr(name), d) {
      var r := GetDtype(name);
      assert IsKey(CStr(name));
      var k :| 0 <= k < |Mapping| && Mapping[k] == (CStr(name), r.value);
      KeysUnique();
      assert k == i;
    }
  }

  /** Round trip: looking up the canonical name of a kind gives that kind. */
  lemma RoundTrip(d: Dtype)
    ensures GetDtype(GetDtypeName(d)) == Ok(d)
  {
    var n := GetDtypeName(d);
    assert forall k :: 0 <= k < |n| ==> n[k] != NUL by {
      forall k | 0 <= k < |n| ensures n[k] != NUL {
        assert IsNameChar(n[k]);
      }
    }
    CStrOfNulFree(n);
    GetDtypeOkIff(n, d);
    assert Mapping[DeclIndex(d)] == (CStr(n), d);
  }

  /** Looking up the short code of a kind gives that kind, the same result as
      looking up its canonical name. */
  lemma ShortCodeRoundTrip(d: Dtype)
    ensures GetDtype(ShortCode(d)) == Ok(d)
    ensures GetDtype(ShortCode(d)) == GetDtype(GetDtypeName(d))
  {
    var c := ShortCode(d);
    assert NUL !in c;
    CStrOfNulFree(c);
    GetDtypeOkIff(c, d);
    assert Mapping[DtypeCount + DeclIndex(d)] == (CStr(c), d);
    RoundTrip(d);
  }

  /** The format characters of Python's `struct` module, one by one. */
  lemma ShortCodes()
    ensures GetDtype("?") == GetDtype("bool") == Ok(Bool)
    ensures GetDtype("b") == GetDtype("int8") == Ok(Int8)
    ensures GetDtype("h") == GetDtype("int16") == Ok(Int16)
    ensures GetDtype("i") == GetDtype("int32") == Ok(Int32)
    ensures GetDtype("q") == GetDtype("int64") == Ok(Int64)
    ensures GetDtype("B") == GetDtype("uint8") == Ok(UInt8)
    ensures GetDtype("f") == GetDtype("float32") == Ok(Float32)
    ensures GetDtype("d") == GetDtype("float64") == Ok(Float64)
  {
    ShortCodeRoundTrip(Bool);
    ShortCodeRoundTrip(Int8);
    ShortCodeRoundTrip(Int16);
    ShortCodeRoundTrip(Int32);
    ShortCodeRoundTrip(Int64);
    ShortCodeRoundTrip(UInt8);
    ShortCodeRoundTrip(Float32);
    ShortCodeRoundTrip(Float64);
  }

  /** The eight canonical names. */
  const CanonicalNames: set<string> :=
    {"bool", "int8", "int16", "int32", "int64", "uint8", "float32", "float64"}

  /** The canonical-name mapping is total onto the eight names and injective,
      so no kind lacks a name and the "invalid dtype" failure of the forward
      mapping has nothing to guard against. */
  lemma NamesTotalAndInjective()
    ensures forall d :: GetDtypeName(d) in CanonicalNames
    ensures forall a, b :: GetDtypeName(a) == GetDtypeName(b) ==> a == b
  {
    forall a, b | GetDtypeName(a) == GetDtypeName(b) ensures a == b {
      RoundTrip(a);
      RoundTrip(b);
    }
  }

  /** Every accepted name is, up to its first NUL, the canonical name or the
      short code of the kind it yields. */
  lemma AcceptedNames(name: string, d: Dtype)
    requires GetDtype(name) == Ok(d)
    ensures CStr(name) == GetDtypeName(d) || CStr(name) == ShortCode(d)
  {
    GetDtypeOkIff(name, d);
    TableLayout();
    var i :| 0 <= i < |Mapping| && Mapping[i] == (CStr(name), d);
    if i < DtypeCount {
      assert GetAllDtypes()[i] == d;
    } else {
      assert GetAllDtypes()[i - DtypeCount] == d;
    }
  }

  /** For a name without NUL, lookup succeeds exactly on the sixteen keys,
      compared whole and case-sensitively. */
  lemma NulFreeLookup(name: string)
    requires NUL !in name
    ensures GetDtype(name).Ok? <==> IsKey(name)
    ensures GetDtype(name).Ok? <==>
      exists d :: name == GetDtypeName(d) || name == ShortCode(d)
  {
    CStrOfNulFree(name);
    if GetDtype(name).Ok? {
      AcceptedNames(name, GetDtype(name).value);
    }
    if d :| name == GetDtypeName(d) || name == ShortCode(d) {
      if name == GetDtypeName(d) {
        RoundTrip(d);
      } else {
        ShortCodeRoundTrip(d);
      }
    }
  }

  /** Matching stops at the first NUL: a key followed by NUL and anything at
      all resolves like the key itself. */
  lemma NulTruncation(prefix: string, tail: string)
    requires NUL !in prefix
    ensures GetDtype(prefix + [NUL] + tail).Ok? == GetDtype(prefix).Ok?
    ensures GetDtype(prefix).Ok? ==> GetDtype(prefix + [NUL] + tail) == GetDtype(prefix)
  {
    CStrIgnoresTail(prefix, tail);
    CStrOfNulFree(prefix);
  }

  /** No key is longer than seven characters, so longer names are unknown. */
  lemma LongNamesUnknown(name: string)
    requires NUL !in name && |name| > 7
    ensures GetDtype(name).Err?
  {
    NulFreeLookup(name);
    assert forall i :: 0 <= i < |Mapping| ==> |Mapping[i].0| <= 7;
  }

  /** An unknown name is rejected with the whole input quoted. */
  lemma UnknownComplex128()
    ensures GetDtype("complex128") == Err(DtypeError("unknown dtype name: \"complex128\""))
  {
    LongNamesUnknown("complex128");
    Complex128Message();
  }

  /** The text of the message for "complex128". */
  lemma Complex128Message()
    ensures UnknownNameMessage("complex128") == "unknown dtype name: \"complex128\""
  {
  }

  /** Matching is case-sensitive: a name of two or more characters with a
      capital letter in it is never accepted. */
  lemma CapitalisedNamesUnknown(name: string, k: nat)
    requires NUL !in name && |name| > 1
    requires k < |name| && 'A' <= name[k] <= 'Z'
    ensures GetDtype(name).Err?
  {
    NulFreeLookup(name);
    assert !IsNameChar(name[k]);
  }

  /** "Float32" is unknown: no case folding. */
  lemma UnknownCapitalised()
    ensures GetDtype("Float32") == Err(DtypeError("unknown dtype name: \"Float32\""))
  {
    CapitalisedNamesUnknown("Float32", 0);
    Float32CapitalisedMessage();
  }

  /** The text of the message for "Float32". */
  lemma Float32CapitalisedMessage()
    ensures UnknownNameMessage("Float32") == "unknown dtype name: \"Float32\""
  {
  }

  /** The empty name is unknown. */
  lemma UnknownEmpty()
    ensures GetDtype("") == Err(DtypeError("unknown dtype name: \"\""))
  {
    CStrOfNulFree("");
    NotAKey("");
    assert "unknown dtype name: \"" + "" + "\"" == "unknown dtype name: \"\"";
  }

  /** A name whose part before the first NUL equals no key is rejected with
      the whole name, NUL and tail included, quoted in the message. */
  lemma NotAKey(name: string)
    requires !IsKey(CStr(name))
    ensures GetDtype(name) == Err(DtypeError("unknown dtype name: \"" + name + "\""))
  {
  }

  /** The enumeration holds each kind exactly once. */
  lemma AllDtypesDistinct()
    ensures forall i, j :: 0 <= i < j < |GetAllDtypes()| ==> GetAllDtypes()[i] != GetAllDtypes()[j]
    ensures forall d :: d in GetAllDtypes()
  {
    var all := GetAllDtypes();
    forall d ensures d in all {
      assert all[DeclIndex(d)] == d;
    }
  }

  /** The equality guard on two concrete pairs. */
  lemma CheckEqualExamples()
    ensures CheckEqual(Int32, Int32) == Pass
    ensures CheckEqual(Int32, Float32) == Fail(DtypeError("dtype mismatched: int32 != float32"))
  {
  }

  /** Where two splittings of one string disagree, the longer left part holds
      the separator's first character at the end of the shorter one. */
  lemma SeparatorAtShorterPrefix(x: string, y: string, x': string, y': string, sep: string)
    requires |sep| > 0 && |x| < |x'|
    requires x + sep + y == x' + sep + y'
    ensures x'[|x|] == sep[0]
  {
    var s := x + sep + y;
    assert s[|x|] == sep[0];
    assert s == x' + sep + y';
  }

  /** Cutting a string at a separator that cannot occur in the left part is
      unambiguous. */
  lemma {:induction false} SplitAtSeparator(x: string, y: string, x': string, y': string, sep: string)
    requires |sep| > 0
    requires sep[0] !in x && sep[0] !in x'
    requires x + sep + y == x' + sep + y'
    ensures x == x' && y == y'
  {
    var s := x + sep + y;
    if |x| < |x'| {
      SeparatorAtShorterPrefix(x, y, x', y', sep);
      assert false;
    } else if |x'| < |x| {
      SeparatorAtShorterPrefix(x', y', x, y, sep);
      assert false;
    }
    assert x == s[..|x|] == x';
    assert y == s[|x| + |sep|..] == y';
  }

  /** Canonical names contain no blank. */
  lemma NameHasNoBlank(d: Dtype)
    ensures ' ' !in GetDtypeName(d)
  {
    var n := GetDtypeName(d);
    forall k | 0 <= k < |n| ensures n[k] != ' ' {
      assert IsNameChar(n[k]);
    }
  }

  /** After its fixed head, the mismatch message is the two names around " != ". */
  lemma MismatchMessageTail(a: Dtype, b: Dtype)
    ensures MismatchMessage(a, b)[|MismatchPrefix|..] == GetDtypeName(a) + " != " + GetDtypeName(b)
  {
    var rest := GetDtypeName(a) + " != " + GetDtypeName(b);
    assert MismatchMessage(a, b) == MismatchPrefix + rest;
    assert (MismatchPrefix + rest)[|MismatchPrefix|..] == rest;
  }

  /** The mismatch message names both operands recoverably: two failing checks
      with the same message were given the same kinds in the same order. */
  lemma MismatchMessageDeterminesOperands(a: Dtype, b: Dtype, c: Dtype, d: Dtype)
    requires a != b && c != d
    requires CheckEqual(a, b) == CheckEqual(c, d)
    ensures a == c && b == d
  {
    assert MismatchMessage(a, b) == MismatchMessage(c, d);
    MismatchMessageTail(a, b);
    MismatchMessageTail(c, d);
    NameHasNoBlank(a);
    NameHasNoBlank(c);
    SplitAtSeparator(GetDtypeName(a), GetDtypeName(b), GetDtypeName(c), GetDtypeName(d), " != ");
    NamesTotalAndInjective();
  }
}
