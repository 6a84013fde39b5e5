/**
 Versions as the semver crate orders them, and the precedence that section 11 of
 Semantic Versioning 2.0.0 defines. Parsing is a library's: it is a parameter of
 everything that uses it.
 */
module SemVer {
  import opened Common
  import opened Order

  /** A pre-release identifier; section 9 of Semantic Versioning 2.0.0 forbids leading zeros in numeric ones. */
  datatype Identifier = Numeric(value: nat) | Alphanumeric(text: string)

  /** A build identifier; here leading zeros are allowed and told apart. */
  datatype BuildIdentifier = Digits(value: nat, zeros: nat) | Letters(text: string)

  datatype Version = Version(major: nat, minor: nat, patch: nat, pre: seq<Identifier>, build: seq<BuildIdentifier>)

  type Parser = string -> Option<Version>

  function CompareIdentifier(a: Identifier, b: Identifier): int {
    match (a, b)
    case (Numeric(x), Numeric(y)) => CompareInt(x, y)
    case (Numeric(_), Alphanumeric(_)) => -1
    case (Alphanumeric(_), Numeric(_)) => 1
    case (Alphanumeric(s), Alphanumeric(t)) => CompareString(s, t)
  }

  function CompareBuildIdentifier(a: BuildIdentifier, b: BuildIdentifier): int {
    match (a, b)
    case (Digits(x, n), Digits(y, m)) => if x != y then CompareInt(x, y) else CompareInt(n, m)
    case (Digits(_, _), Letters(_)) => -1
    case (Letters(_), Digits(_, _)) => 1
    case (Letters(s), Letters(t)) => CompareString(s, t)
  }

  /** A version without pre-release identifiers comes after every one with some. */
  function ComparePre(a: seq<Identifier>, b: seq<Identifier>): int {
    if a == [] || b == [] then (if a == b then 0 else if a == [] then 1 else -1)
    else CompareSeq(CompareIdentifier, a, b)
  }

  function CompareBuild(a: seq<BuildIdentifier>, b: seq<BuildIdentifier>): int {
    CompareSeq(CompareBuildIdentifier, a, b)
  }

  function CompareVersion(a: Version, b: Version): int {
    if a.major != b.major then CompareInt(a.major, b.major)
    else if a.minor != b.minor then CompareInt(a.minor, b.minor)
    else if a.patch != b.patch then CompareInt(a.patch, b.patch)
    else if ComparePre(a.pre, b.pre) != 0 then ComparePre(a.pre, b.pre)
    else CompareBuild(a.build, b.build)
  }

  lemma IdentifierOrders()
    ensures TotalOrder(CompareIdentifier) && TotalOrder(CompareBuildIdentifier)
  {
    StringTotalOrder();
    hide CompareString;
  }

  lemma PreOrder()
    ensures TotalOrder(ComparePre) && TotalOrder(CompareBuild)
  {
    IdentifierOrders();
    hide CompareIdentifier, CompareBuildIdentifier;
    SeqTotalOrder(CompareIdentifier);
    SeqTotalOrder(CompareBuildIdentifier);
    var f := (a: seq<Identifier>, b: seq<Identifier>) => CompareSeq(CompareIdentifier, a, b);
    var g := (a: seq<BuildIdentifier>, b: seq<BuildIdentifier>) => CompareSeq(CompareBuildIdentifier, a, b);
    assert forall a, b :: CompareBuild(a, b) == g(a, b);
    assert forall a, b :: a != [] && b != [] ==> ComparePre(a, b) == f(a, b);
    hide CompareSeq;
  }

  /** Versions are totally ordered: two that compare equal are the same, build metadata included. */
  lemma VersionTotalOrder()
    ensures TotalOrder(CompareVersion)
  {
    PreOrder();
    hide ComparePre, CompareBuild;
  }

  /** A numeric identifier is below every other kind; numeric ones compare as numbers, others in ASCII order. */
  ghost predicate IdentifierBelow(a: Identifier, b: Identifier) {
    || (a.Numeric? && b.Numeric? && a.value < b.value)
    || (a.Numeric? && b.Alphanumeric?)
    || (a.Alphanumeric? && b.Alphanumeric? && TextBelow(a.text, b.text))
  }

  ghost predicate TextBelow(a: string, b: string) {
    exists k: nat :: FirstDifference(a, b, k) && (k == |a| || a[k] < b[k])
  }

  /** `a` and `b` agree up to `k`, where `b` goes on and `a` ends or differs. */
  ghost predicate FirstDifference<T>(a: seq<T>, b: seq<T>, k: nat) {
    k <= |a| && k < |b| && a[..k] == b[..k] && (k < |a| ==> a[k] != b[k])
  }

  /** Precedence as section 11 of Semantic Versioning 2.0.0 words it; build metadata plays no part. */
  ghost predicate Precedes(a: Version, b: Version) {
    || a.major < b.major
    || (a.major == b.major && a.minor < b.minor)
    || (a.major == b.major && a.minor == b.minor && a.patch < b.patch)
    || ((a.major, a.minor, a.patch) == (b.major, b.minor, b.patch) && PreBelow(a.pre, b.pre))
  }

  ghost predicate PreBelow(a: seq<Identifier>, b: seq<Identifier>) {
    || (a != [] && b == [])
    || (a != [] && b != [] && exists k: nat :: FirstDifference(a, b, k) && (k == |a| || IdentifierBelow(a[k], b[k])))
  }

  /** A lexicographic comparison is decided at the first difference. */
  lemma {:induction false} DecidedAtFirstDifference<T(!new)>(cmp: (T, T) -> int, a: seq<T>, b: seq<T>) returns (k: nat)
    requires TotalOrder(cmp) && CompareSeq(cmp, a, b) < 0
    ensures FirstDifference(a, b, k) && (k == |a| || cmp(a[k], b[k]) < 0)
  {
    if a == [] || a[0] != b[0] {
      k := 0;
    } else {
      var j := DecidedAtFirstDifference(cmp, a[1..], b[1..]);
      k := j + 1;
      assert a[..k] == [a[0]] + a[1..][..j] && b[..k] == [b[0]] + b[1..][..j];
    }
  }

  lemma {:induction false} FirstDifferenceDecides<T(!new)>(cmp: (T, T) -> int, a: seq<T>, b: seq<T>, k: nat)
    requires TotalOrder(cmp) && FirstDifference(a, b, k) && (k == |a| || cmp(a[k], b[k]) < 0)
    ensures CompareSeq(cmp, a, b) < 0
  {
    if k > 0 {
      assert a[0] == a[..k][0] == b[..k][0] == b[0];
      assert a[1..][..k - 1] == a[..k][1..] == b[..k][1..] == b[1..][..k - 1];
      FirstDifferenceDecides(cmp, a[1..], b[1..], k - 1);
    }
  }

  lemma TextBelowIsCompare(a: string, b: string)
    ensures TextBelow(a, b) <==> CompareString(a, b) < 0
  {
    if CompareString(a, b) < 0 {
      var k := DecidedAtFirstDifference(CompareChar, a, b);
    } else if TextBelow(a, b) {
      var k: nat :| FirstDifference(a, b, k) && (k == |a| || a[k] < b[k]);
      FirstDifferenceDecides(CompareChar, a, b, k);
    }
  }

  lemma IdentifierBelowIsCompare(a: Identifier, b: Identifier)
    ensures IdentifierBelow(a, b) <==> CompareIdentifier(a, b) < 0
  {
    if a.Alphanumeric? && b.Alphanumeric? {
      TextBelowIsCompare(a.text, b.text);
    }
  }

  lemma PreBelowIsCompare(a: seq<Identifier>, b: seq<Identifier>)
    ensures PreBelow(a, b) <==> ComparePre(a, b) < 0
  {
    IdentifierOrders();
    if a != [] && b != [] {
      hide CompareIdentifier, IdentifierBelow;
      if CompareSeq(CompareIdentifier, a, b) < 0 {
        var k := DecidedAtFirstDifference(CompareIdentifier, a, b);
        if k < |a| {
          IdentifierBelowIsCompare(a[k], b[k]);
        }
      } else if PreBelow(a, b) {
        var k: nat :| FirstDifference(a, b, k) && (k == |a| || IdentifierBelow(a[k], b[k]));
        if k < |a| {
          IdentifierBelowIsCompare(a[k], b[k]);
        }
        FirstDifferenceDecides(CompareIdentifier, a, b, k);
      }
    }
  }

  /** The order is the precedence of section 11, with build metadata breaking its ties. */
  lemma OrderRefinesPrecedence(a: Version, b: Version)
    ensures CompareVersion(a, b) < 0 <==>
            Precedes(a, b) || (a.(build := b.build) == b && CompareBuild(a.build, b.build) < 0)
  {
    PreBelowIsCompare(a.pre, b.pre);
    PreOrder();
    hide ComparePre, PreBelow, CompareBuild;
  }
}
