/**
 Versions and their precedence, section 11 of Semantic Versioning 2.0.0. Build metadata takes no part
 in it and is not kept.
 */
module Semver {

  datatype Identifier = Numeric(value: nat) | Alphanumeric(text: string)

  datatype Version = Version(major: nat, minor: nat, patch: nat, prerelease: seq<Identifier>)

  function CompareNat(a: nat, b: nat): int {
    if a < b then -1 else if a > b then 1 else 0
  }

  /** Byte by byte; a proper prefix comes first. */
  function CompareText(a: string, b: string): int {
    if a == "" then (if b == "" then 0 else -1)
    else if b == "" then 1
    else if a[0] != b[0] then (if a[0] < b[0] then -1 else 1)
    else CompareText(a[1..], b[1..])
  }

  function CompareIdentifier(a: Identifier, b: Identifier): int {
    match (a, b)
    case (Numeric(x), Numeric(y)) => CompareNat(x, y)
    case (Numeric(_), Alphanumeric(_)) => -1
    case (Alphanumeric(_), Numeric(_)) => 1
    case (Alphanumeric(x), Alphanumeric(y)) => CompareText(x, y)
  }

  /** Field by field; when all earlier fields agree the longer list wins. */
  function CompareIdentifiers(a: seq<Identifier>, b: seq<Identifier>): int {
    if a == [] then (if b == [] then 0 else -1)
    else if b == [] then 1
    else if CompareIdentifier(a[0], b[0]) != 0 then CompareIdentifier(a[0], b[0])
    else CompareIdentifiers(a[1..], b[1..])
  }

  /** A version without a pre-release comes after every pre-release of it. */
  function ComparePrerelease(a: seq<Identifier>, b: seq<Identifier>): int {
    if a == [] then (if b == [] then 0 else 1)
    else if b == [] then -1
    else CompareIdentifiers(a, b)
  }

  function Compare(a: Version, b: Version): int {
    if a.major != b.major then CompareNat(a.major, b.major)
    else if a.minor != b.minor then CompareNat(a.minor, b.minor)
    else if a.patch != b.patch then CompareNat(a.patch, b.patch)
    else ComparePrerelease(a.prerelease, b.prerelease)
  }

  predicate LessThan(a: Version, b: Version) {
    Compare(a, b) < 0
  }

  lemma {:induction false} TextTransitive(a: string, b: string, c: string)
    requires CompareText(a, b) <= 0 && CompareText(b, c) <= 0
    ensures CompareText(a, c) <= 0
    ensures CompareText(a, c) == 0 ==> CompareText(a, b) == 0 && CompareText(b, c) == 0
  {
    if a != "" && b != "" && c != "" && a[0] == b[0] == c[0] {
      TextTransitive(a[1..], b[1..], c[1..]);
    }
  }

  lemma IdentifierTransitive(a: Identifier, b: Identifier, c: Identifier)
    requires CompareIdentifier(a, b) <= 0 && CompareIdentifier(b, c) <= 0
    ensures CompareIdentifier(a, c) <= 0
    ensures CompareIdentifier(a, c) == 0 ==> CompareIdentifier(a, b) == 0 && CompareIdentifier(b, c) == 0
  {
    if a.Alphanumeric? && b.Alphanumeric? && c.Alphanumeric? {
      TextTransitive(a.text, b.text, c.text);
    }
  }

  lemma {:induction false} TextZero(a: string, b: string)
    ensures CompareText(a, b) == 0 <==> a == b
  {
    if a != "" && b != "" && a[0] == b[0] {
      TextZero(a[1..], b[1..]);
      assert a == [a[0]] + a[1..] && b == [b[0]] + b[1..];
    }
  }

  /** Identifiers of equal precedence are the same identifier. */
  lemma IdentifierZero(a: Identifier, b: Identifier)
    ensures CompareIdentifier(a, b) == 0 <==> a == b
  {
    if a.Alphanumeric? && b.Alphanumeric? {
      TextZero(a.text, b.text);
    }
  }

  lemma {:induction false} IdentifiersTransitive(a: seq<Identifier>, b: seq<Identifier>, c: seq<Identifier>)
    requires CompareIdentifiers(a, b) <= 0 && CompareIdentifiers(b, c) <= 0
    ensures CompareIdentifiers(a, c) <= 0
  {
    if a != [] && b != [] && c != [] {
      IdentifierTransitive(a[0], b[0], c[0]);
      IdentifierZero(a[0], b[0]);
      IdentifierZero(b[0], c[0]);
      IdentifierZero(a[0], c[0]);
      if a[0] == b[0] == c[0] {
        IdentifiersTransitive(a[1..], b[1..], c[1..]);
      }
    }
  }

  /** Precedence is transitive over pre-release lists of any length. */
  lemma PrecedenceTransitive(a: Version, b: Version, c: Version)
    requires Compare(a, b) <= 0 && Compare(b, c) <= 0
    ensures Compare(a, c) <= 0
  {
    if a.prerelease != [] && b.prerelease != [] && c.prerelease != [] &&
       CompareIdentifiers(a.prerelease, b.prerelease) <= 0 && CompareIdentifiers(b.prerelease, c.prerelease) <= 0 {
      IdentifiersTransitive(a.prerelease, b.prerelease, c.prerelease);
    }
  }

  lemma {:induction false} TextAntisymmetric(a: string, b: string)
    ensures CompareText(a, b) == -CompareText(b, a)
  {
    if a != "" && b != "" && a[0] == b[0] {
      TextAntisymmetric(a[1..], b[1..]);
    }
  }

  lemma {:induction false} IdentifiersAntisymmetric(a: seq<Identifier>, b: seq<Identifier>)
    ensures CompareIdentifiers(a, b) == -CompareIdentifiers(b, a)
  {
    if a != [] && b != [] {
      if a[0].Alphanumeric? && b[0].Alphanumeric? {
        TextAntisymmetric(a[0].text, b[0].text);
      }
      if CompareIdentifier(a[0], b[0]) == 0 {
        IdentifiersAntisymmetric(a[1..], b[1..]);
      }
    }
  }

  /** Swapping the arguments flips the sign, so precedence is total. */
  lemma PrecedenceAntisymmetric(a: Version, b: Version)
    ensures Compare(a, b) == -Compare(b, a)
  {
    IdentifiersAntisymmetric(a.prerelease, b.prerelease);
  }

  lemma {:induction false} IdentifiersZero(a: seq<Identifier>, b: seq<Identifier>)
    ensures CompareIdentifiers(a, b) == 0 <==> a == b
  {
    if a != [] && b != [] {
      IdentifierZero(a[0], b[0]);
      if a[0] == b[0] {
        IdentifiersZero(a[1..], b[1..]);
        assert a == [a[0]] + a[1..] && b == [b[0]] + b[1..];
      }
    }
  }

  /** Only equal versions tie: with the two lemmas above, precedence is a total order. */
  lemma PrecedenceZero(a: Version, b: Version)
    ensures Compare(a, b) == 0 <==> a == b
  {
    IdentifiersZero(a.prerelease, b.prerelease);
  }

  /** The core decides first: major, then minor, then patch; and a pre-release lies below its release. */
  lemma PrecedenceByCore(a: Version, b: Version)
    ensures a.major < b.major ==> LessThan(a, b) && !LessThan(b, a)
    ensures a.major == b.major && a.minor < b.minor ==> LessThan(a, b) && !LessThan(b, a)
    ensures a.major == b.major && a.minor == b.minor && a.patch < b.patch ==> LessThan(a, b) && !LessThan(b, a)
    ensures a == b.(prerelease := a.prerelease) && a.prerelease != [] && b.prerelease == [] ==>
              LessThan(a, b) && !LessThan(b, a)
  {
  }

  /** Texts are ordered by their first difference, and a text comes before its extensions. */
  predicate TextBefore(a: string, b: string) {
    exists i :: 0 <= i <= |a| && i < |b| && a[..i] == b[..i] && (i < |a| ==> a[i] < b[i])
  }

  /** Numbers by value, and before texts. */
  predicate IdentifierBefore(a: Identifier, b: Identifier) {
    match (a, b)
    case (Numeric(x), Numeric(y)) => x < y
    case (Numeric(_), Alphanumeric(_)) => true
    case (Alphanumeric(_), Numeric(_)) => false
    case (Alphanumeric(x), Alphanumeric(y)) => TextBefore(x, y)
  }

  lemma {:induction false} TextByFirstDifference(a: string, b: string, i: nat)
    requires i <= |a| && i < |b| && a[..i] == b[..i] && (i < |a| ==> a[i] < b[i])
    ensures CompareText(a, b) < 0
  {
    if i > 0 {
      assert a[0] == a[..i][0] == b[..i][0] == b[0];
      assert a[1..][..i - 1] == a[..i][1..] == b[..i][1..] == b[1..][..i - 1];
      TextByFirstDifference(a[1..], b[1..], i - 1);
    }
  }

  lemma IdentifierOrder(a: Identifier, b: Identifier)
    requires IdentifierBefore(a, b)
    ensures CompareIdentifier(a, b) < 0
  {
    if a.Alphanumeric? && b.Alphanumeric? {
      var i :| 0 <= i <= |a.text| && i < |b.text| && a.text[..i] == b.text[..i] && (i < |a.text| ==> a.text[i] < b.text[i]);
      TextByFirstDifference(a.text, b.text, i);
    }
  }

  lemma {:induction false} IdentifiersByFirstDifference(a: seq<Identifier>, b: seq<Identifier>, i: nat)
    requires i <= |a| && i < |b| && a[..i] == b[..i] && (i < |a| ==> IdentifierBefore(a[i], b[i]))
    ensures CompareIdentifiers(a, b) < 0
  {
    if i > 0 {
      assert a[0] == a[..i][0] == b[..i][0] == b[0];
      assert a[1..][..i - 1] == a[..i][1..] == b[..i][1..] == b[1..][..i - 1];
      IdentifierZero(a[0], b[0]);
      IdentifiersByFirstDifference(a[1..], b[1..], i - 1);
    } else if |a| > 0 {
      IdentifierOrder(a[0], b[0]);
    }
  }

  /** Between pre-releases of one version the first identifier that differs decides, and a list comes before its extensions. */
  lemma PrecedenceByIdentifiers(a: Version, b: Version, i: nat)
    requires a.major == b.major && a.minor == b.minor && a.patch == b.patch && a.prerelease != []
    requires i <= |a.prerelease| && i < |b.prerelease| && a.prerelease[..i] == b.prerelease[..i]
    requires i < |a.prerelease| ==> IdentifierBefore(a.prerelease[i], b.prerelease[i])
    ensures LessThan(a, b) && !LessThan(b, a)
  {
    IdentifiersByFirstDifference(a.prerelease, b.prerelease, i);
    PrecedenceAntisymmetric(a, b);
  }

  /** The ordered example that closes section 11 of Semantic Versioning 2.0.0. */
  lemma SpecificationExample()
    ensures var v := (p: seq<Identifier>) => Version(1, 0, 0, p);
            var alpha, beta := Alphanumeric("alpha"), Alphanumeric("beta");
            && LessThan(v([alpha]), v([alpha, Numeric(1)]))
            && LessThan(v([alpha, Numeric(1)]), v([alpha, beta]))
            && LessThan(v([alpha, beta]), v([beta]))
            && LessThan(v([beta]), v([beta, Numeric(2)]))
            && LessThan(v([beta, Numeric(2)]), v([beta, Numeric(11)]))
            && LessThan(v([beta, Numeric(11)]), v([Alphanumeric("rc"), Numeric(1)]))
            && LessThan(v([Alphanumeric("rc"), Numeric(1)]), v([]))
  {
    var alpha, beta := Alphanumeric("alpha"), Alphanumeric("beta");
    CommonHead(alpha, [], [Numeric(1)]);
    CommonHead(alpha, [Numeric(1)], [beta]);
    CommonHead(beta, [], [Numeric(2)]);
    CommonHead(beta, [Numeric(2)], [Numeric(11)]);
    assert [alpha] + [] == [alpha] && [alpha] + [Numeric(1)] == [alpha, Numeric(1)] && [alpha] + [beta] == [alpha, beta];
    assert [beta] + [] == [beta] && [beta] + [Numeric(2)] == [beta, Numeric(2)] && [beta] + [Numeric(11)] == [beta, Numeric(11)];
  }

  lemma CommonHead(head: Identifier, a: seq<Identifier>, b: seq<Identifier>)
    ensures CompareIdentifiers([head] + a, [head] + b) == CompareIdentifiers(a, b)
  {
    IdentifierZero(head, head);
    assert ([head] + a)[1..] == a && ([head] + b)[1..] == b;
  }
}
