/**
 * Small shared utilities of OptiScaler/SysUtils.h: the `feature_version`
 * triple and its comparison operators, `to_lower_in_place`, and the
 * `OptiKeys` identifiers used as backend names and table keys.
 */
module SysUtils {

  /** `feature_version`: a backend's semantic version (unsigned components). */
  datatype FeatureVersion = FeatureVersion(major: nat, minor: nat, patch: nat)

  // ---------------------------------------------------------------------------
  // feature_version operators
  // ---------------------------------------------------------------------------

  /** `operator==`: componentwise equality. */
  predicate VersionEq(a: FeatureVersion, b: FeatureVersion): (r: bool)
    ensures r <==> a == b
  {
    a.major == b.major && a.minor == b.minor && a.patch == b.patch
  }

  /** `operator!=`: the negation of `operator==`. */
  predicate VersionNe(a: FeatureVersion, b: FeatureVersion): (r: bool)
    ensures r <==> a != b
  {
    !VersionEq(a, b)
  }

  /** `operator<`: decided by the first component that differs. */
  predicate VersionLt(a: FeatureVersion, b: FeatureVersion): (r: bool)
    ensures r ==> a != b && a.major <= b.major
    ensures a.major < b.major ==> r
  {
    if a.major != b.major then a.major < b.major
    else if a.minor != b.minor then a.minor < b.minor
    else a.patch < b.patch
  }

  /** `operator>`: `other < *this`. */
  predicate VersionGt(a: FeatureVersion, b: FeatureVersion): (r: bool)
    ensures r ==> a != b && a.major >= b.major
    ensures a.major > b.major ==> r
  {
    VersionLt(b, a)
  }

  /** `operator<=`: `!(other < *this)`. */
  predicate VersionLe(a: FeatureVersion, b: FeatureVersion): (r: bool)
    ensures r <==> VersionLt(a, b) || a == b
  {
    !VersionLt(b, a)
  }

  /** `operator>=`: `!(*this < other)`. */
  predicate VersionGe(a: FeatureVersion, b: FeatureVersion): (r: bool)
    ensures r <==> VersionLt(b, a) || a == b
  {
    !VersionLt(a, b)
  }

  /** The components of a version, most significant first. */
  function Components(v: FeatureVersion): seq<nat> {
    [v.major, v.minor, v.patch]
  }

  /**
   * Reference definition of lexicographic order on equally long sequences of
   * naturals, independent of the three-way `if` chain of `operator<`.
   */
  predicate LexLess(s: seq<nat>, t: seq<nat>)
    requires |s| == |t|
  {
    if s == [] then false
    else s[0] < t[0] || (s[0] == t[0] && LexLess(s[1..], t[1..]))
  }

  /** `operator<` is exactly the lexicographic order on (major, minor, patch). */
  lemma {:induction false} VersionLtIsLexicographic(a: FeatureVersion, b: FeatureVersion)
    ensures VersionLt(a, b) <==> LexLess(Components(a), Components(b))
  {
    var s, t := Components(a), Components(b);
    assert s[1..] == [a.minor, a.patch] && t[1..] == [b.minor, b.patch];
    assert [a.minor, a.patch][1..] == [a.patch] && [b.minor, b.patch][1..] == [b.patch];
    assert [a.patch][1..] == [] && [b.patch][1..] == [];
    assert LexLess([a.patch], [b.patch]) <==> a.patch < b.patch;
    assert LexLess([a.minor, a.patch], [b.minor, b.patch])
      <==> a.minor < b.minor || (a.minor == b.minor && a.patch < b.patch);
    assert LexLess(s, t)
      <==> a.major < b.major || (a.major == b.major && LexLess([a.minor, a.patch], [b.minor, b.patch]));
  }

  /** `==` on versions is equality of the triples, and `!=` is its negation. */
  lemma VersionEqIsEquality(a: FeatureVersion, b: FeatureVersion)
    ensures VersionEq(a, b) <==> a == b
    ensures VersionNe(a, b) <==> a != b
  {
  }

  /** Exactly one of `a < b`, `a == b`, `b < a` holds. */
  lemma VersionTrichotomy(a: FeatureVersion, b: FeatureVersion)
    ensures VersionLt(a, b) || VersionEq(a, b) || VersionLt(b, a)
    ensures !(VersionLt(a, b) && VersionEq(a, b))
    ensures !(VersionLt(a, b) && VersionLt(b, a))
    ensures !(VersionEq(a, b) && VersionLt(b, a))
  {
  }

  /** `operator<` is transitive, so with trichotomy it is a strict total order. */
  lemma VersionLtTransitive(a: FeatureVersion, b: FeatureVersion, c: FeatureVersion)
    requires VersionLt(a, b) && VersionLt(b, c)
    ensures VersionLt(a, c)
  {
  }

  /** The derived operators agree with the order they are built from. */
  lemma DerivedOperators(a: FeatureVersion, b: FeatureVersion)
    ensures VersionGt(a, b) <==> VersionLt(b, a)
    ensures VersionLe(a, b) <==> VersionLt(a, b) || a == b
    ensures VersionGe(a, b) <==> VersionLt(b, a) || a == b
    ensures VersionLe(a, b) && VersionLe(b, a) ==> a == b
  {
  }

  /** The FSR 3.1.0 threshold the evaluate path tests with `>=`. */
  const Fsr31Threshold := FeatureVersion(3, 1, 0)

  /** `v >= {3, 1, 0}` holds exactly for 3.1.x and later versions. */
  lemma Fsr31Threshold_Ge(v: FeatureVersion)
    ensures VersionGe(v, Fsr31Threshold) <==> v.major > 3 || (v.major == 3 && v.minor >= 1)
  {
  }

  // ---------------------------------------------------------------------------
  // to_lower_in_place
  // ---------------------------------------------------------------------------

  /** `::tolower` in the "C" locale: only 'A'..'Z' change. */
  function ToLower(c: char): (r: char)
    ensures !('A' <= r <= 'Z')
    ensures 'A' <= c <= 'Z' ==> 'a' <= r <= 'z' && r as int - 'a' as int == c as int - 'A' as int
    ensures !('A' <= c <= 'Z') ==> r == c
  {
    if 'A' <= c <= 'Z' then (c as int + 32) as char else c
  }

  /** The string `to_lower_in_place` leaves behind. */
  function LowerString(s: string): (r: string)
    ensures |r| == |s|
    ensures forall i :: 0 <= i < |s| ==> r[i] == ToLower(s[i])
  {
    if s == [] then [] else [ToLower(s[0])] + LowerString(s[1..])
  }

  /** Lowering changes only the upper-case letters, each to its lower-case form. */
  lemma LowerStringChangesOnlyUpper(s: string, i: int)
    requires 0 <= i < |s|
    ensures LowerString(s)[i] != s[i] <==> 'A' <= s[i] <= 'Z'
    ensures 'A' <= s[i] <= 'Z' ==> LowerString(s)[i] == (s[i] as int + 32) as char
  {
  }

  /** Lowering twice is lowering once. */
  lemma LowerStringIdempotent(s: string)
    ensures LowerString(LowerString(s)) == LowerString(s)
  {
  }

  /** `to_lower_in_place`: `std::transform` of the buffer through `::tolower`. */
  method ToLowerInPlace(a: array<char>)
    modifies a
    ensures a[..] == LowerString(old(a[..]))
  {
    var i := 0;
    while i < a.Length
      invariant 0 <= i <= a.Length
      invariant forall k :: 0 <= k < i ==> a[k] == ToLower(old(a[k]))
      invariant forall k :: i <= k < a.Length ==> a[k] == old(a[k])
    {
      a[i] := ToLower(a[i]);
      i := i + 1;
    }
  }

  // ---------------------------------------------------------------------------
  // OptiKeys
  // ---------------------------------------------------------------------------

  /** Sentinel key, and name given to upscalers (`OptiKeys::ProjectID`). */
  const ProjectID: string := "OptiScaler"
  /** Names of the scratch parameter tables of the three input providers. */
  const VkProvider: string := "OptiVk"
  const Dx11Provider: string := "OptiDx11"
  const Dx12Provider: string := "OptiDx12"

  /** Upscaler backend identifiers. */
  const XeSS: string := "xess"
  const XeSS_11on12: string := "xess_12"
  const FSR21: string := "fsr21"
  const FSR21_11on12: string := "fsr21_12"
  const FSR22: string := "fsr22"
  const FSR22_11on12: string := "fsr22_12"
  const FSR31: string := "fsr31"
  const FSR31_11on12: string := "fsr31_12"
  const DLSS: string := "dlss"
  const DLSSD: string := "dlssd"

  /** All backend identifiers; no two name the same backend. */
  function BackendKeys(): (r: seq<string>)
    ensures |r| == 10
    ensures forall i, j :: 0 <= i < j < |r| ==> r[i] != r[j]
  {
    var r := [XeSS, XeSS_11on12, FSR21, FSR21_11on12, FSR22, FSR22_11on12, FSR31, FSR31_11on12, DLSS, DLSSD];
    assert forall i :: 0 <= i < |r| ==> r[i][0] in "xfd";
    r
  }
}
