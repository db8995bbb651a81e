/**
 * The backend-independent helpers of the FSR 3.1 adapter
 * (OptiScaler/upscalers/fsr31/FSR31Feature.h): typeless surface-format
 * resolution, the version-string scanner `parse_version`, and the defaults of
 * `Version()` and `Name()`.
 */
module Fsr31Feature {
  import opened Wrappers
  import opened SysUtils

  // ---------------------------------------------------------------------------
  // ffxResolveTypelessFormat
  // ---------------------------------------------------------------------------

  /**
   * The FidelityFX surface formats the resolver names; `OtherFormat` stands
   * for every other value of the FidelityFX surface-format enumeration.
   */
  datatype SurfaceFormat =
    | R10G10B10A2_Typeless | R32G32B32A32_Typeless | R16G16B16A16_Typeless
    | R32G32_Typeless | R8G8B8A8_Typeless | B8G8R8A8_Typeless | R16G16_Typeless
    | R32_Typeless | R8G8_Typeless | R16_Typeless | R8_Typeless
    | R10G10B10A2_Unorm | R32G32B32A32_Float | R16G16B16A16_Float
    | R32G32_Float | R8G8B8A8_Unorm | B8G8R8A8_Unorm | R16G16_Float
    | R32_Float | R8G8_Unorm | R16_Float | R8_Unorm
    | OtherFormat(code: nat)

  /** The eleven `*_TYPELESS` formats the resolver has a case for. */
  predicate IsTypeless(f: SurfaceFormat) {
    f.R10G10B10A2_Typeless? || f.R32G32B32A32_Typeless? || f.R16G16B16A16_Typeless?
    || f.R32G32_Typeless? || f.R8G8B8A8_Typeless? || f.B8G8R8A8_Typeless?
    || f.R16G16_Typeless? || f.R32_Typeless? || f.R8G8_Typeless?
    || f.R16_Typeless? || f.R8_Typeless?
  }

  /** The channel layout of a named format: what a typeless format and its typed form share. */
  function Layout(f: SurfaceFormat): Option<string> {
    match f
    case R10G10B10A2_Typeless | R10G10B10A2_Unorm => Some("R10G10B10A2")
    case R32G32B32A32_Typeless | R32G32B32A32_Float => Some("R32G32B32A32")
    case R16G16B16A16_Typeless | R16G16B16A16_Float => Some("R16G16B16A16")
    case R32G32_Typeless | R32G32_Float => Some("R32G32")
    case R8G8B8A8_Typeless | R8G8B8A8_Unorm => Some("R8G8B8A8")
    case B8G8R8A8_Typeless | B8G8R8A8_Unorm => Some("B8G8R8A8")
    case R16G16_Typeless | R16G16_Float => Some("R16G16")
    case R32_Typeless | R32_Float => Some("R32")
    case R8G8_Typeless | R8G8_Unorm => Some("R8G8")
    case R16_Typeless | R16_Float => Some("R16")
    case R8_Typeless | R8_Unorm => Some("R8")
    case OtherFormat(_) => None
  }

  /**
   * `ffxResolveTypelessFormat`: a typeless format becomes the typed format of
   * the same channel layout; every other format is left as it is.
   */
  function ResolveTypelessFormat(f: SurfaceFormat): (r: SurfaceFormat)
    ensures !IsTypeless(r)
    ensures IsTypeless(f) ==> Layout(r) == Layout(f) && Layout(r).Some?
    ensures !IsTypeless(f) ==> r == f
  {
    match f
    case R10G10B10A2_Typeless => R10G10B10A2_Unorm
    case R32G32B32A32_Typeless => R32G32B32A32_Float
    case R16G16B16A16_Typeless => R16G16B16A16_Float
    case R32G32_Typeless => R32G32_Float
    case R8G8B8A8_Typeless => R8G8B8A8_Unorm
    case B8G8R8A8_Typeless => B8G8R8A8_Unorm
    case R16G16_Typeless => R16G16_Float
    case R32_Typeless => R32_Float
    case R8G8_Typeless => R8G8_Unorm
    case R16_Typeless => R16_Float
    case R8_Typeless => R8_Unorm
    case _ => f
  }

  /** Resolving twice is resolving once: no output is a typeless case. */
  lemma ResolveTypelessFormatIdempotent(f: SurfaceFormat)
    ensures ResolveTypelessFormat(ResolveTypelessFormat(f)) == ResolveTypelessFormat(f)
  {
  }

  /** Two different typeless formats never resolve to the same typed format. */
  lemma ResolveTypelessFormatInjective(f: SurfaceFormat, g: SurfaceFormat)
    requires IsTypeless(f) && IsTypeless(g) && f != g
    ensures ResolveTypelessFormat(f) != ResolveTypelessFormat(g)
  {
  }

  // ---------------------------------------------------------------------------
  // sscanf(p, "%u.%u.%u", ...)
  // ---------------------------------------------------------------------------

  predicate IsDigit(c: char) {
    '0' <= c <= '9'
  }

  /** Length of the run of decimal digits at the front of `s`. */
  function DigitRun(s: string): (n: nat)
    ensures n <= |s|
    ensures n < |s| ==> !IsDigit(s[n])
  {
    if s == [] || !IsDigit(s[0]) then 0 else 1 + DigitRun(s[1..])
  }

  lemma {:induction false} DigitRunIsDigits(s: string)
    ensures forall i :: 0 <= i < DigitRun(s) ==> IsDigit(s[i])
  {
    if s != [] && IsDigit(s[0]) {
      DigitRunIsDigits(s[1..]);
      assert forall i :: 1 <= i < DigitRun(s) ==> s[i] == s[1..][i - 1];
    }
  }

  /** The value of the run of digits at the front of `s`. */
  function LeadingValue(s: string): nat {
    DigitRunIsDigits(s);
    DecimalValue(s[..DigitRun(s)])
  }

  /** The value of a string of decimal digits, most significant first. */
  function DecimalValue(d: string): nat
    requires forall i :: 0 <= i < |d| ==> IsDigit(d[i])
  {
    if d == [] then 0
    else
      assert IsDigit(d[|d| - 1]);
      DecimalValue(d[..|d| - 1]) * 10 + (d[|d| - 1] as int - '0' as int)
  }

  /** `isspace` in the C locale: the space and the controls `\t` to `\r`. */
  predicate IsSpace(c: char) {
    c == ' ' || (9 <= c as int <= 13)
  }

  /** The length of the white space `%u` skips before its number. */
  function SpaceRun(s: string): (n: nat)
    ensures n <= |s|
    ensures n < |s| ==> !IsSpace(s[n])
  {
    if s == [] || !IsSpace(s[0]) then 0 else 1 + SpaceRun(s[1..])
  }

  /** `unsigned int` holds values below 2^32. */
  const UintRange: nat := 0x1_0000_0000

  /** A value below 2^32 that differs from `n` by a multiple of 2^32. */
  function WrapNat(n: nat): (r: nat)
    ensures r < UintRange
    ensures n < UintRange ==> r == n
    decreases n
  {
    if n < UintRange then n else WrapNat(n - UintRange)
  }

  /** The store into an `unsigned int`: the value modulo 2^32, negative values included. */
  function Wrap32(x: int): (r: nat)
    ensures r < UintRange
    ensures 0 <= x < UintRange ==> r == x
  {
    if x < 0 then UintRange - 1 - WrapNat(-x - 1) else WrapNat(x)
  }

  lemma {:induction false} WrapNatIsModulo(n: nat)
    ensures WrapNat(n) == n % UintRange
    decreases n
  {
    if n >= UintRange {
      WrapNatIsModulo(n - UintRange);
      assert (n - UintRange) % UintRange == n % UintRange;
    }
  }

  /** `Wrap32` is the Euclidean remainder modulo 2^32, which is C's conversion to `unsigned int`. */
  lemma Wrap32IsModulo(x: int)
    ensures Wrap32(x) == x % UintRange
  {
    if x < 0 {
      WrapNatIsModulo(-x - 1);
      var q := (-x - 1) / UintRange;
      assert -x - 1 == q * UintRange + (-x - 1) % UintRange;
      assert x == (-q - 1) * UintRange + (UintRange - 1 - (-x - 1) % UintRange);
    } else {
      WrapNatIsModulo(x);
    }
  }

  /** One `%u` conversion: its value and how many characters it consumed. */
  datatype Conversion = Conversion(value: nat, length: nat)

  /**
   * `%u`: skip white space, take an optional sign and at least one digit,
   * and store the number, negated for '-', modulo 2^32 into the `unsigned
   * int` field.
   */
  function ScanUint(s: string): (r: Option<Conversion>)
    ensures r.Some? ==> 0 < r.value.length <= |s| && r.value.value < UintRange
  {
    var ws := SpaceRun(s);
    match ScanSigned(s[ws..])
    case None => None
    case Some(c) => Some(Conversion(c.value, ws + c.length))
  }

  /** The sign and digits of a `%u` conversion, once the white space is skipped. */
  function ScanSigned(t: string): (r: Option<Conversion>)
    ensures r.Some? ==> 0 < r.value.length <= |t| && r.value.value < UintRange
  {
    var sign := if t != [] && (t[0] == '+' || t[0] == '-') then 1 else 0;
    match ScanDigits(t[sign..])
    case None => None
    case Some(c) =>
      var signed: int := if sign == 1 && t[0] == '-' then -(c.value as int) else c.value;
      Some(Conversion(Wrap32(signed), sign + c.length))
  }

  /** The run of digits a conversion needs at least one of, and its value. */
  function ScanDigits(u: string): (r: Option<Conversion>)
    ensures r.Some? ==> 0 < r.value.length <= |u|
  {
    var n := DigitRun(u);
    if n == 0 then None else Some(Conversion(LeadingValue(u), n))
  }

  /** Text starting with a digit: no white space, no sign, just the digit run. */
  lemma ScanUintDigitsFirst(s: string)
    requires s != [] && IsDigit(s[0])
    ensures ScanUint(s) == Some(Conversion(Wrap32(LeadingValue(s)), DigitRun(s)))
  {
    assert !IsSpace(s[0]);
    var ws := SpaceRun(s);
    assert ws == 0;
    assert s[ws..] == s;
    ScanSignedDigitsFirst(s);
  }

  /** The sign-free case of a conversion: its value is the digit run's, wrapped. */
  lemma ScanSignedDigitsFirst(t: string)
    requires t != [] && IsDigit(t[0])
    ensures ScanSigned(t) == Some(Conversion(Wrap32(LeadingValue(t)), DigitRun(t)))
  {
    assert t[0..] == t;
  }

  /** Text starting with anything but white space, a sign or a digit converts nothing. */
  lemma ScanUintRejects(s: string)
    requires s != [] && !IsSpace(s[0]) && !IsDigit(s[0]) && s[0] != '+' && s[0] != '-'
    ensures ScanUint(s) == None
  {
    assert SpaceRun(s) == 0;
    assert s[0..] == s;
  }

  /**
   * The values of the conversions of "%u.%u..." (k of them at most) that
   * succeed before the first mismatch, in order; `sscanf` assigns these. The
   * dots of the format match only a literal '.', while each `%u` skips the
   * white space in front of its number.
   */
  function ScanFields(s: string, k: nat): (r: seq<nat>)
    ensures |r| <= k
    decreases k
  {
    if k == 0 then []
    else match ScanUint(s)
      case None => []
      case Some(x) =>
        var rest := s[x.length..];
        if k > 1 && rest != [] && rest[0] == '.' then [x.value] + ScanFields(rest[1..], k - 1)
        else [x.value]
  }

  /** `sscanf(p, "%u.%u.%u", ...)`: the fields it assigns; it returns their number. */
  function ScanTriple(s: string): (r: seq<nat>)
    ensures |r| <= 3
  {
    ScanFields(s, 3)
  }

  /** The components that a partial or full match overwrites, in order. */
  function AssignFields(v: FeatureVersion, vals: seq<nat>): FeatureVersion
    requires |vals| <= 3
  {
    var v1 := if |vals| >= 1 then v.(major := vals[0]) else v;
    var v2 := if |vals| >= 2 then v1.(minor := vals[1]) else v1;
    if |vals| >= 3 then v2.(patch := vals[2]) else v2
  }

  /** True when a complete triple can be read at position `p`. */
  predicate TripleAt(s: string, p: nat)
    requires p < |s|
  {
    IsDigit(s[p]) && |ScanTriple(s[p..])| == 3
  }

  /** The value of a single digit. */
  function DigitValue(d: char): nat
    requires IsDigit(d)
  {
    d as int - '0' as int
  }

  /** `%u` on one digit at `ws`, with one blank or nothing in front of it. */
  lemma ScanUintOneDigit(s: string, ws: nat)
    requires ws <= 1 && ws < |s| && (ws == 1 ==> s[0] == ' ')
    requires IsDigit(s[ws]) && (ws + 1 == |s| || !IsDigit(s[ws + 1]))
    ensures ScanUint(s) == Some(Conversion(DigitValue(s[ws]), ws + 1))
  {
    var t := s[ws..];
    assert t[0] == s[ws];
    assert SpaceRun(s) == ws by {
      if ws == 1 {
        assert !IsSpace(t[0]);
        assert s[1..] == t;
      } else {
        assert !IsSpace(s[0]);
      }
    }
    assert DigitRun(t) == 1 by {
      assert t[1..] == [] || !IsDigit(t[1..][0]);
    }
    assert LeadingValue(t) == DigitValue(s[ws]) by {
      var d := t[..1];
      assert t[..DigitRun(t)] == d && d[..0] == [] && d[0] == s[ws];
      assert DecimalValue(d) == DecimalValue(d[..0]) * 10 + DigitValue(d[0]);
    }
    ScanSignedDigitsFirst(t);
  }

  /** A converted field followed by a dot: the scan goes on after the dot. */
  lemma ScanFieldsDotAfter(s: string, k: nat, x: Conversion)
    requires k > 1 && ScanUint(s) == Some(x)
    requires x.length < |s| && s[x.length] == '.'
    ensures ScanFields(s, k) == [x.value] + ScanFields(s[x.length + 1..], k - 1)
  {
    var rest := s[x.length..];
    assert rest[1..] == s[x.length + 1..];
  }

  /** One digit at `ws`, then a dot: one field, then the fields after the dot. */
  lemma ScanFieldsOneDigitDot(s: string, ws: nat, k: nat)
    requires ws <= 1 && ws + 1 < |s| && (ws == 1 ==> s[0] == ' ')
    requires IsDigit(s[ws]) && s[ws + 1] == '.' && k > 1
    ensures ScanFields(s, k) == [DigitValue(s[ws])] + ScanFields(s[ws + 2..], k - 1)
  {
    ScanUintOneDigit(s, ws);
    ScanFieldsDotAfter(s, k, Conversion(DigitValue(s[ws]), ws + 1));
  }

  /** One digit at `ws` that ends the text: the last field. */
  lemma ScanFieldsOneDigitLast(s: string, ws: nat, k: nat)
    requires ws <= 1 && ws + 1 == |s| && (ws == 1 ==> s[0] == ' ')
    requires IsDigit(s[ws]) && k > 0
    ensures ScanFields(s, k) == [DigitValue(s[ws])]
  {
    assert s[ws + 1..] == [];
    ScanUintOneDigit(s, ws);
  }

  /** " d. d": two fields, each after a blank. */
  lemma ScanFieldsBlankPair(t: string)
    requires |t| == 5 && t[0] == ' ' && IsDigit(t[1]) && t[2] == '.'
    requires t[3] == ' ' && IsDigit(t[4])
    ensures ScanFields(t, 2) == [DigitValue(t[1]), DigitValue(t[4])]
  {
    ScanFieldsOneDigitLast(t[3..], 1, 1);
    ScanFieldsOneDigitDot(t, 1, 2);
  }

  /**
   * "d. d. d": the blanks after the dots are skipped by `%u`, so all three
   * fields convert, as `sscanf` does on "3. 1. 2".
   */
  lemma ScanTripleSpacedDigits(t: string)
    requires |t| == 7 && IsDigit(t[0]) && t[1] == '.' && t[2] == ' ' && IsDigit(t[3])
    requires t[4] == '.' && t[5] == ' ' && IsDigit(t[6])
    ensures ScanTriple(t) == [DigitValue(t[0]), DigitValue(t[3]), DigitValue(t[6])]
  {
    var u := t[2..];
    assert |u| == 5 && u[0] == ' ' && u[1] == t[3] && u[2] == '.' && u[3] == ' ' && u[4] == t[6];
    assert ScanFields(u, 2) == [DigitValue(t[3]), DigitValue(t[6])] by { ScanFieldsBlankPair(u); }
    assert ScanFields(t, 3) == [DigitValue(t[0])] + ScanFields(u, 2) by { ScanFieldsOneDigitDot(t, 0, 3); }
  }

  /** `%u` skips leading white space: after a blank it converts what follows, one character longer. */
  lemma ScanUintSkipsSpace(s: string)
    requires s != [] && IsSpace(s[0])
    ensures ScanUint(s).Some? <==> ScanUint(s[1..]).Some?
    ensures ScanUint(s).Some? ==>
      ScanUint(s).value == Conversion(ScanUint(s[1..]).value.value, ScanUint(s[1..]).value.length + 1)
  {
    var ws := SpaceRun(s[1..]);
    assert SpaceRun(s) == ws + 1;
    assert s[ws + 1..] == s[1..][ws..];
  }

  /** `%u` on '-' and digits stores the negated value of the digits modulo 2^32. */
  lemma ScanUintNegates(s: string)
    requires |s| > 1 && s[0] == '-' && IsDigit(s[1])
    ensures ScanUint(s) == Some(Conversion(Wrap32(-(LeadingValue(s[1..]) as int)), 1 + DigitRun(s[1..])))
  {
    assert !IsSpace(s[0]);
    var ws := SpaceRun(s);
    assert ws == 0;
    assert s[ws..] == s;
    var u := s[1..];
    assert u[0] == s[1];
    assert ScanDigits(u) == Some(Conversion(LeadingValue(u), DigitRun(u)));
  }

  /** `%u` accepts a minus sign and stores the negated number modulo 2^32. */
  lemma ScanUintWrapsNegative(s: string)
    requires s == "-1"
    ensures ScanUint(s) == Some(Conversion(0xFFFF_FFFF, 2))
  {
    var one := s[1..];
    assert one == "1" && one[1..] == [] && one[..1] == one;
    assert DigitRun(one) == 1 by { assert DigitRun(one[1..]) == 0; }
    assert LeadingValue(one) == 1 by {
      assert one[..DigitRun(one)] == one && one[..0] == [];
      assert DecimalValue(one) == DecimalValue(one[..0]) * 10 + DigitValue(one[0]);
    }
    ScanUintNegates(s);
  }


  // ---------------------------------------------------------------------------
  // parse_version, as written
  // ---------------------------------------------------------------------------

  /**
   * `parse_version` as written, from position `p` on: at every position that
   * starts with a digit, `sscanf` runs and overwrites the components it did
   * convert, even when it converts fewer than three; the scan stops only on a
   * complete triple or at the end of the string. (`s` is the text before the
   * terminating NUL.)
   */
  function ParseFromAsWritten(s: string, p: nat, v: FeatureVersion): FeatureVersion
    decreases |s| - p
  {
    if p >= |s| then v
    else if IsDigit(s[p]) then
      var vals := ScanTriple(s[p..]);
      var v' := AssignFields(v, vals);
      if |vals| == 3 then v' else ParseFromAsWritten(s, p + 1, v')
    else ParseFromAsWritten(s, p + 1, v)
  }

  /** `parse_version` as written. */
  function ParseVersionAsWritten(s: string, v: FeatureVersion): FeatureVersion {
    ParseFromAsWritten(s, 0, v)
  }

  /** The scan as written changes the version only from a position holding a digit. */
  lemma {:induction false} ParseFromAsWrittenNeedsDigit(s: string, p: nat, v: FeatureVersion)
    ensures ParseFromAsWritten(s, p, v) == v || exists q :: p <= q < |s| && IsDigit(s[q])
    decreases |s| - p
  {
    if p < |s| && !IsDigit(s[p]) {
      ParseFromAsWrittenNeedsDigit(s, p + 1, v);
    }
  }

  /** `parse_version` as written: only a string holding a digit can change the version. */
  lemma ParseVersionAsWrittenNeedsDigit(s: string, v: FeatureVersion)
    ensures ParseVersionAsWritten(s, v) == v || exists q :: 0 <= q < |s| && IsDigit(s[q])
  {
    ParseFromAsWrittenNeedsDigit(s, 0, v);
  }

  /**
   * The code logs "can't parse" for "v3.1", which holds no complete triple,
   * yet it has changed any version M.m.p into 1.1.p (the default 3.1.2 into
   * 1.1.2): the match "3.1" wrote major and minor, then the match "1" wrote
   * major again.
   */
  lemma ParseVersionAsWrittenOverwritesOnFailure(s: string, v: FeatureVersion)
    requires s == "v3.1"
    ensures forall p :: 0 <= p < |s| ==> !TripleAt(s, p)
    ensures ParseVersionAsWritten(s, v) == FeatureVersion(1, 1, v.patch)
  {
    ScanTriplesOfV31(s);
    NoTripleInV31(s);
    var v1, v2 := FeatureVersion(3, 1, v.patch), FeatureVersion(1, 1, v.patch);
    assert ParseFromAsWritten(s, 3, v1) == v2 by {
      assert ParseFromAsWritten(s, 4, v2) == v2;
    }
    assert ParseFromAsWritten(s, 1, v) == v2 by {
      assert ParseFromAsWritten(s, 2, v1) == v2;
    }
  }

  /** No position of "v3.1" starts a complete triple. */
  lemma NoTripleInV31(s: string)
    requires s == "v3.1"
    ensures forall p :: 0 <= p < |s| ==> !TripleAt(s, p)
  {
    ScanTriplesOfV31(s);
    assert !IsDigit(s[0]) && !IsDigit(s[2]);
  }

  /** The two matches in "v3.1": "3.1" reads two fields, the final "1" one. */
  lemma ScanTriplesOfV31(s: string)
    requires s == "v3.1"
    ensures ScanTriple(s[1..]) == [3, 1] && ScanTriple(s[3..]) == [1]
  {
    ScanFieldsOneDigitLast(s[3..], 0, 3);
    ScanFieldsDigitPair(s[1..], 3);
  }

  /** "d.d": two fields, and the scan stops at the end of the text. */
  lemma ScanFieldsDigitPair(t: string, k: nat)
    requires |t| == 3 && IsDigit(t[0]) && t[1] == '.' && IsDigit(t[2]) && k > 1
    ensures ScanFields(t, k) == [DigitValue(t[0]), DigitValue(t[2])]
  {
    ScanFieldsOneDigitLast(t[2..], 0, k - 1);
    ScanFieldsOneDigitDot(t, 0, k);
  }


  // ---------------------------------------------------------------------------
  // parse_version, as evidently intended
  // ---------------------------------------------------------------------------

  /**
   * The version is set from the first position where a complete triple
   * reads, and is left untouched when there is none.
   */
  function ParseFrom(s: string, p: nat, v: FeatureVersion): FeatureVersion
    decreases |s| - p
  {
    if p >= |s| then v
    else if TripleAt(s, p) then AssignFields(v, ScanTriple(s[p..]))
    else ParseFrom(s, p + 1, v)
  }

  function ParseVersionIntended(s: string, v: FeatureVersion): FeatureVersion {
    ParseFrom(s, 0, v)
  }

  /** The intended scan changes the version only from a position where a complete triple reads. */
  lemma {:induction false} ParseFromNeedsTriple(s: string, p: nat, v: FeatureVersion)
    ensures ParseFrom(s, p, v) == v || exists q :: p <= q < |s| && TripleAt(s, q)
    decreases |s| - p
  {
    if p < |s| && !TripleAt(s, p) {
      ParseFromNeedsTriple(s, p + 1, v);
    }
  }

  /** The intended `parse_version`: only a string holding a complete triple can change the version. */
  lemma ParseVersionIntendedNeedsTriple(s: string, v: FeatureVersion)
    ensures ParseVersionIntended(s, v) == v || exists q :: 0 <= q < |s| && TripleAt(s, q)
  {
    ParseFromNeedsTriple(s, 0, v);
  }

  /** The triple read at a position where a complete one reads. */
  function TripleValue(s: string, p: nat): FeatureVersion
    requires p < |s| && TripleAt(s, p)
  {
    var vals := ScanTriple(s[p..]);
    FeatureVersion(vals[0], vals[1], vals[2])
  }

  /**
   * Without a complete triple the version is unchanged; otherwise it becomes
   * the triple at the first position that holds one.
   */
  lemma {:induction false} ParseFromNoTriple(s: string, p: nat, v: FeatureVersion)
    requires forall q :: p <= q < |s| ==> !TripleAt(s, q)
    ensures ParseFrom(s, p, v) == v
    decreases |s| - p
  {
    if p < |s| {
      assert !TripleAt(s, p);
      ParseFromNoTriple(s, p + 1, v);
    }
  }

  lemma {:induction false} ParseFromFirstTriple(s: string, p: nat, q: nat, v: FeatureVersion)
    requires p <= q < |s| && TripleAt(s, q)
    requires forall q' :: p <= q' < q ==> !TripleAt(s, q')
    ensures ParseFrom(s, p, v) == TripleValue(s, q)
    decreases q - p
  {
    if p < q {
      assert !TripleAt(s, p);
      ParseFromFirstTriple(s, p + 1, q, v);
    } else {
      assert ParseFrom(s, p, v) == AssignFields(v, ScanTriple(s[q..]));
    }
  }

  lemma ParseVersionOutcome(s: string, v: FeatureVersion)
    ensures (forall q :: 0 <= q < |s| ==> !TripleAt(s, q)) ==> ParseVersionIntended(s, v) == v
    ensures forall q :: 0 <= q < |s| && TripleAt(s, q) && (forall q' :: 0 <= q' < q ==> !TripleAt(s, q')) ==>
      ParseVersionIntended(s, v) == TripleValue(s, q)
  {
    if forall q :: 0 <= q < |s| ==> !TripleAt(s, q) {
      ParseFromNoTriple(s, 0, v);
    }
    forall q | 0 <= q < |s| && TripleAt(s, q) && (forall q' :: 0 <= q' < q ==> !TripleAt(s, q'))
      ensures ParseVersionIntended(s, v) == TripleValue(s, q)
    {
      ParseFromFirstTriple(s, 0, q, v);
    }
  }

  /** On the "v3.1" of the finding, the intended parse keeps the default. */
  lemma ParseVersionKeepsDefaultOnFailure()
    ensures ParseVersionIntended("v3.1", FeatureVersion(3, 1, 2)) == FeatureVersion(3, 1, 2)
  {
    ParseVersionAsWrittenOverwritesOnFailure("v3.1", FeatureVersion(3, 1, 2));
    ParseVersionOutcome("v3.1", FeatureVersion(3, 1, 2));
  }

  // ---------------------------------------------------------------------------
  // Round trip: a version printed as "%u.%u.%u" parses back to itself
  // ---------------------------------------------------------------------------

  function DigitChar(d: nat): char
    requires d < 10
  {
    ('0' as int + d) as char
  }

  /** Decimal rendering of a natural number, as `%u` prints it. */
  function Decimal(n: nat): (r: string)
    ensures |r| > 0
    ensures forall i :: 0 <= i < |r| ==> IsDigit(r[i])
    decreases n
  {
    if n < 10 then [DigitChar(n)] else Decimal(n / 10) + [DigitChar(n % 10)]
  }

  lemma {:induction false} DecimalValueOfDecimal(n: nat)
    ensures DecimalValue(Decimal(n)) == n
    decreases n
  {
    var d := Decimal(n);
    if n < 10 {
      assert d[..|d| - 1] == [];
    } else {
      assert d[..|d| - 1] == Decimal(n / 10);
      DecimalValueOfDecimal(n / 10);
    }
  }

  lemma {:induction false} DigitRunOfDigits(d: string, rest: string)
    requires forall i :: 0 <= i < |d| ==> IsDigit(d[i])
    requires rest == [] || !IsDigit(rest[0])
    ensures DigitRun(d + rest) == |d|
    decreases |d|
  {
    if d != [] {
      assert (d + rest)[1..] == d[1..] + rest;
      DigitRunOfDigits(d[1..], rest);
    } else {
      assert d + rest == rest;
    }
  }

  /** `%u` reads back a rendered number followed by a non-digit. */
  lemma ScanUintOfDecimal(n: nat, rest: string)
    requires n < UintRange
    requires rest == [] || !IsDigit(rest[0])
    ensures ScanUint(Decimal(n) + rest) == Some(Conversion(n, |Decimal(n)|))
  {
    var d := Decimal(n);
    assert (d + rest)[0] == d[0];
    ScanUintDigitsFirst(d + rest);
    DigitRunOfDigits(d, rest);
    assert (d + rest)[..|d|] == d;
    assert LeadingValue(d + rest) == DecimalValue(d);
    DecimalValueOfDecimal(n);
  }

  /** Every field of `v` fits the `unsigned int` it is stored in. */
  predicate Fits(v: FeatureVersion) {
    v.major < UintRange && v.minor < UintRange && v.patch < UintRange
  }

  /** "major.minor.patch" in decimal. */
  function FormatVersion(v: FeatureVersion): string {
    Decimal(v.major) + "." + Decimal(v.minor) + "." + Decimal(v.patch)
  }

  /** A rendered number followed by "." and more text: one field, then the rest. */
  lemma ScanFieldsDotStep(n: nat, t: string, k: nat)
    requires n < UintRange && k > 1
    ensures ScanFields(Decimal(n) + ("." + t), k) == [n] + ScanFields(t, k - 1)
  {
    var d := Decimal(n);
    var s := d + ("." + t);
    assert s[|d|] == '.' && s[|d| + 1..] == t;
    ScanUintOfDecimal(n, "." + t);
    ScanFieldsDotAfter(s, k, Conversion(n, |d|));
  }

  /** A rendered number at the very end: the last field. */
  lemma ScanFieldsLast(n: nat)
    requires n < UintRange
    ensures ScanFields(Decimal(n), 1) == [n]
  {
    ScanUintOfDecimal(n, []);
    assert Decimal(n) + [] == Decimal(n);
    assert Decimal(n)[|Decimal(n)|..] == [];
  }

  lemma ScanTripleOfFormat(v: FeatureVersion)
    requires Fits(v)
    ensures ScanTriple(FormatVersion(v)) == [v.major, v.minor, v.patch]
  {
    var a, b, c := Decimal(v.major), Decimal(v.minor), Decimal(v.patch);
    assert FormatVersion(v) == a + ("." + (b + ("." + c)));
    ScanFieldsDotStep(v.major, b + ("." + c), 3);
    ScanFieldsDotStep(v.minor, c, 2);
    ScanFieldsLast(v.patch);
  }

  /**
   * A version printed after a prefix without digits ("FSR "), as the FidelityFX
   * runtime reports it, parses back to that version whatever was cached.
   */
  lemma ParseVersionRoundTrip(prefix: string, v: FeatureVersion, prev: FeatureVersion)
    requires Fits(v)
    requires forall i :: 0 <= i < |prefix| ==> !IsDigit(prefix[i])
    ensures ParseVersionIntended(prefix + FormatVersion(v), prev) == v
  {
    var s := prefix + FormatVersion(v);
    var p := |prefix|;
    assert s[p..] == FormatVersion(v) + [];
    ScanTripleOfFormat(v);
    assert IsDigit(Decimal(v.major)[0]);
    assert s[p] == Decimal(v.major)[0];
    assert TripleAt(s, p);
    forall q | 0 <= q < p ensures !TripleAt(s, q) {
      assert s[q] == prefix[q];
    }
    ParseVersionOutcome(s, prev);
  }

  /** The code as written agrees with the intended parse on such strings. */
  lemma ParseFromAsWrittenSkipsLabel(s: string, p: nat, q: nat, v: FeatureVersion)
    requires p <= q < |s| && TripleAt(s, q)
    requires forall i :: p <= i < q ==> !IsDigit(s[i])
    ensures ParseFromAsWritten(s, p, v) == TripleValue(s, q)
  {
    ParseFromAsWrittenSkipsNonDigits(s, p, q, v);
    var vals := ScanTriple(s[q..]);
    assert AssignFields(v, vals) == FeatureVersion(vals[0], vals[1], vals[2]);
  }

  /** Positions without a digit leave the scan as written, and the version, as they were. */
  lemma {:induction false} ParseFromAsWrittenSkipsNonDigits(s: string, p: nat, q: nat, v: FeatureVersion)
    requires p <= q <= |s|
    requires forall i :: p <= i < q ==> !IsDigit(s[i])
    ensures ParseFromAsWritten(s, p, v) == ParseFromAsWritten(s, q, v)
    decreases q - p
  {
    if p < q {
      assert ParseFromAsWritten(s, p, v) == ParseFromAsWritten(s, p + 1, v) by {
        assert !IsDigit(s[p]);
      }
      ParseFromAsWrittenSkipsNonDigits(s, p + 1, q, v);
    }
  }

  lemma ParseVersionAsWrittenRoundTrip(prefix: string, v: FeatureVersion, prev: FeatureVersion)
    requires Fits(v)
    requires forall i :: 0 <= i < |prefix| ==> !IsDigit(prefix[i])
    ensures ParseVersionAsWritten(prefix + FormatVersion(v), prev) == v
  {
    var s := prefix + FormatVersion(v);
    var p := |prefix|;
    assert s[p..] == FormatVersion(v) + [];
    ScanTripleOfFormat(v);
    assert s[p] == Decimal(v.major)[0];
    forall i | 0 <= i < p ensures !IsDigit(s[i]) {
      assert s[i] == prefix[i];
    }
    ParseFromAsWrittenSkipsLabel(s, 0, p, prev);
  }

  // ---------------------------------------------------------------------------
  // FSR31Feature: the shared static version and the per-instance name
  // ---------------------------------------------------------------------------

  /** The class-wide static `_version` of FSR31Feature. */
  class Fsr31Version {
    var version: FeatureVersion

    /** The static initialiser `_version { 3, 1, 2 }`. */
    constructor ()
      ensures version == FeatureVersion(3, 1, 2)
    {
      version := FeatureVersion(3, 1, 2);
    }

    /** `parse_version`, as written: a loop that advances over the string. */
    method ParseVersion(s: string)
      modifies this
      ensures version == ParseVersionAsWritten(s, old(version))
    {
      var p := 0;
      while p < |s|
        invariant 0 <= p <= |s|
        invariant ParseFromAsWritten(s, p, version) == ParseFromAsWritten(s, 0, old(version))
        decreases |s| - p
      {
        if IsDigit(s[p]) {
          var vals := ScanTriple(s[p..]);
          version := AssignFields(version, vals);
          if |vals| == 3 {
            return;
          }
        }
        p := p + 1;
      }
    }
  }

  /** An FSR 3.1 feature's identity: its own `_name`, and the shared version. */
  class Fsr31Identity {
    var name: string
    const shared: Fsr31Version

    constructor (shared: Fsr31Version)
      ensures name == "FSR" && this.shared == shared
    {
      name := "FSR";
      this.shared := shared;
    }

    /** `Version()`: whatever the shared static holds. */
    method Version() returns (v: FeatureVersion)
      ensures v == shared.version
    {
      v := shared.version;
    }

    /** `Name()`. */
    method Name() returns (n: string)
      ensures n == name
    {
      n := name;
    }
  }

  /** Before any parse, a new feature reports version 3.1.2 and name "FSR". */
  method DefaultIdentity() returns (v: FeatureVersion, n: string)
    ensures v == FeatureVersion(3, 1, 2) && n == "FSR"
  {
    var shared := new Fsr31Version();
    var feature := new Fsr31Identity(shared);
    v := feature.Version();
    n := feature.Name();
  }
}
