/** The protocol versions a connection can target (the `Version` enum of
    client/mod.rs), their text codec, the list of all of them, the default one
    and the declaration order the derived `Ord` uses. */
module Versions {
  import opened Wrappers

  datatype Version =
    V1_16
    | V1_16_1
    | V1_16_2
    | V1_16_3
    | V1_16_4
    | V1_16_5
    | V1_17
    | V1_17_1
    | V1_18
    | V1_18_1
    | V1_18_2
    | V1_19
    | V1_19_1
    | V1_19_2
    | V1_20
    | V1_20_1
    | V1_20_2
    | V1_20_3
    | V1_20_4
    | V1_20_5
    | V1_21
    | V1_21_1
    | V1_21_2
    | V1_21_3
    | V1_21_4
    | V1_21_5
    | V1_21_6
    | V1_21_7

  /** `Display for Version`: the dotted release number. */
  function ToString(v: Version): (s: string)
    ensures FromString(s) == Some(v)
  {
    match v
    case V1_16 => "1.16"
    case V1_16_1 => "1.16.1"
    case V1_16_2 => "1.16.2"
    case V1_16_3 => "1.16.3"
    case V1_16_4 => "1.16.4"
    case V1_16_5 => "1.16.5"
    case V1_17 => "1.17"
    case V1_17_1 => "1.17.1"
    case V1_18 => "1.18"
    case V1_18_1 => "1.18.1"
    case V1_18_2 => "1.18.2"
    case V1_19 => "1.19"
    case V1_19_1 => "1.19.1"
    case V1_19_2 => "1.19.2"
    case V1_20 => "1.20"
    case V1_20_1 => "1.20.1"
    case V1_20_2 => "1.20.2"
    case V1_20_3 => "1.20.3"
    case V1_20_4 => "1.20.4"
    case V1_20_5 => "1.20.5"
    case V1_21 => "1.21"
    case V1_21_1 => "1.21.1"
    case V1_21_2 => "1.21.2"
    case V1_21_3 => "1.21.3"
    case V1_21_4 => "1.21.4"
    case V1_21_5 => "1.21.5"
    case V1_21_6 => "1.21.6"
    case V1_21_7 => "1.21.7"
  }

  /** `Version::from_string`: the inverse of `ToString` on the 28 literals, `None` elsewhere. */
  function FromString(s: string): (r: Option<Version>)
    ensures r.Some? ==> 4 <= |s| <= 6
  {
    match s
    case "1.16" => Some(V1_16)
    case "1.16.1" => Some(V1_16_1)
    case "1.16.2" => Some(V1_16_2)
    case "1.16.3" => Some(V1_16_3)
    case "1.16.4" => Some(V1_16_4)
    case "1.16.5" => Some(V1_16_5)
    case "1.17" => Some(V1_17)
    case "1.17.1" => Some(V1_17_1)
    case "1.18" => Some(V1_18)
    case "1.18.1" => Some(V1_18_1)
    case "1.18.2" => Some(V1_18_2)
    case "1.19" => Some(V1_19)
    case "1.19.1" => Some(V1_19_1)
    case "1.19.2" => Some(V1_19_2)
    case "1.20" => Some(V1_20)
    case "1.20.1" => Some(V1_20_1)
    case "1.20.2" => Some(V1_20_2)
    case "1.20.3" => Some(V1_20_3)
    case "1.20.4" => Some(V1_20_4)
    case "1.20.5" => Some(V1_20_5)
    case "1.21" => Some(V1_21)
    case "1.21.1" => Some(V1_21_1)
    case "1.21.2" => Some(V1_21_2)
    case "1.21.3" => Some(V1_21_3)
    case "1.21.4" => Some(V1_21_4)
    case "1.21.5" => Some(V1_21_5)
    case "1.21.6" => Some(V1_21_6)
    case "1.21.7" => Some(V1_21_7)
    case _ => None
  }

  /** Position in the declaration, which is what the derived `PartialOrd`/`Ord` compare. */
  function Index(v: Version): nat {
    match v
    case V1_16 => 0
    case V1_16_1 => 1
    case V1_16_2 => 2
    case V1_16_3 => 3
    case V1_16_4 => 4
    case V1_16_5 => 5
    case V1_17 => 6
    case V1_17_1 => 7
    case V1_18 => 8
    case V1_18_1 => 9
    case V1_18_2 => 10
    case V1_19 => 11
    case V1_19_1 => 12
    case V1_19_2 => 13
    case V1_20 => 14
    case V1_20_1 => 15
    case V1_20_2 => 16
    case V1_20_3 => 17
    case V1_20_4 => 18
    case V1_20_5 => 19
    case V1_21 => 20
    case V1_21_1 => 21
    case V1_21_2 => 22
    case V1_21_3 => 23
    case V1_21_4 => 24
    case V1_21_5 => 25
    case V1_21_6 => 26
    case V1_21_7 => 27
  }

  /** `Version::all()`: every variant, in declaration order. */
  function All(): (r: seq<Version>)
    ensures |r| == 28
    ensures forall v :: Index(v) < |r| && r[Index(v)] == v
  {
    [
      V1_16, V1_16_1, V1_16_2, V1_16_3, V1_16_4, V1_16_5, V1_17,
      V1_17_1, V1_18, V1_18_1, V1_18_2, V1_19, V1_19_1, V1_19_2,
      V1_20, V1_20_1, V1_20_2, V1_20_3, V1_20_4, V1_20_5, V1_21,
      V1_21_1, V1_21_2, V1_21_3, V1_21_4, V1_21_5, V1_21_6, V1_21_7
    ]
  }

  /** `Default for Version`. */
  function Default(): (r: Version)
    ensures r == All()[|All()| - 1]
  {
    V1_21_7
  }

  /** The derived order: `a < b` exactly when `a` is declared before `b`. */
  predicate Less(a: Version, b: Version) {
    Index(a) < Index(b)
  }

  /** `FromStr for Version`: `from_string`, with the error text of the failure case. */
  function Parse(s: string): (r: Result<Version, string>)
    ensures r.Ok? <==> FromString(s).Some?
    ensures r.Ok? ==> ToString(r.value) == s
    ensures r.Err? ==> r.error == "Invalid version: " + s && forall v :: ToString(v) != s
  {
    FromStringSound(s);
    FromStringComplete(s);
    match FromString(s)
    case Some(v) => Ok(v)
    case None => Err("Invalid version: " + s)
  }

  /** Whatever `from_string` accepts, it accepts as the text of the variant it returns. */
  lemma FromStringSound(s: string)
    ensures FromString(s).Some? ==> ToString(FromString(s).value) == s
  {
  }

  /** `from_string` rejects exactly the strings that are no variant's text. */
  lemma FromStringComplete(s: string)
    ensures FromString(s).None? <==> forall v :: ToString(v) != s
  {
    if FromString(s).None? {
      forall v ensures ToString(v) != s {
        assert FromString(ToString(v)) == Some(v);
      }
    } else {
      FromStringSound(s);
    }
  }

  /** Distinct variants render as distinct texts, so the codec is a bijection
      between the 28 variants and the 28 literals. */
  lemma ToStringInjective(a: Version, b: Version)
    ensures ToString(a) == ToString(b) ==> a == b
  {
    assert FromString(ToString(a)) == Some(a);
    assert FromString(ToString(b)) == Some(b);
  }

  /** `all()` has 28 entries and the entry at position `Index(v)` is `v`: every
      variant is listed, in declaration order. */
  lemma AllListsEveryVersion(v: Version)
    ensures |All()| == 28
    ensures Index(v) < |All()| && All()[Index(v)] == v
  {
  }

  /** The entry at position `i` of `all()` is the variant declared at position `i`. */
  lemma AllIsInDeclarationOrder()
    ensures forall i :: 0 <= i < |All()| ==> Index(All()[i]) == i
  {
  }

  /** No variant is listed twice, and the listing is strictly increasing in the derived order. */
  lemma AllIsStrictlyIncreasing()
    ensures forall i, j :: 0 <= i < j < |All()| ==> Less(All()[i], All()[j])
    ensures forall i, j :: 0 <= i < j < |All()| ==> All()[i] != All()[j]
  {
    AllIsInDeclarationOrder();
  }

  /** The default is the newest variant: no version is greater in the derived order. */
  lemma DefaultIsNewest(v: Version)
    ensures !Less(Default(), v)
    ensures v != Default() ==> Less(v, Default())
  {
  }

  /** The checks of the source's tests `version_string_conversion` and `versions_count`. */
  lemma SourceExamples()
    ensures Parse("1.20.5") == Ok(V1_20_5)
    ensures ToString(V1_16_5) == "1.16.5"
    ensures |All()| == 28
  {
  }
}
