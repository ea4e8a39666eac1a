/**
  Version precedence as section 11 of Semantic Versioning 2.0.0 defines it, which decides
  the windows of the values migration and the upgrade gate.
 */
module Semver {

  datatype Ordering = Less | Equal | Greater {
    function Then(next: Ordering): Ordering {
      if Equal? then next else this
    }
  }

  ghost predicate TotalOrder<T(!new)>(cmp: (T, T) -> Ordering) {
    && (forall x, y :: cmp(x, y) == Equal <==> x == y)
    && (forall x, y :: cmp(x, y) == Less <==> cmp(y, x) == Greater)
    && (forall x, y, z :: cmp(x, y) == Less && cmp(y, z) == Less ==> cmp(x, z) == Less)
  }

  function Lexicographic<T>(cmp: (T, T) -> Ordering, a: seq<T>, b: seq<T>): Ordering {
    if a == [] then (if b == [] then Equal else Less)
    else if b == [] then Greater
    else if cmp(a[0], b[0]) == Equal then Lexicographic(cmp, a[1..], b[1..])
    else cmp(a[0], b[0])
  }

  lemma {:induction false} LexicographicPair<T(!new)>(cmp: (T, T) -> Ordering, a: seq<T>, b: seq<T>)
    requires TotalOrder(cmp)
    ensures Lexicographic(cmp, a, b) == Equal <==> a == b
    ensures Lexicographic(cmp, a, b) == Less <==> Lexicographic(cmp, b, a) == Greater
  {
    if a != [] && b != [] {
      LexicographicPair(cmp, a[1..], b[1..]);
      assert a == [a[0]] + a[1..] && b == [b[0]] + b[1..];
    }
  }

  lemma {:induction false} LexicographicTransitive<T(!new)>(cmp: (T, T) -> Ordering, a: seq<T>, b: seq<T>, c: seq<T>)
    requires TotalOrder(cmp)
    requires Lexicographic(cmp, a, b) == Less && Lexicographic(cmp, b, c) == Less
    ensures Lexicographic(cmp, a, c) == Less
  {
    if a != [] && b != [] && c != [] && cmp(a[0], b[0]) == Equal && cmp(b[0], c[0]) == Equal {
      LexicographicTransitive(cmp, a[1..], b[1..], c[1..]);
    }
  }

  // ---------------------------------------------------------------- identifiers

  function CompareInt(a: int, b: int): Ordering {
    if a < b then Less else if a == b then Equal else Greater
  }

  function CompareChar(a: char, b: char): Ordering {
    CompareInt(a as int, b as int)
  }

  /** A dot-separated part of a pre-release. */
  datatype Identifier = Numeric(n: nat) | Alphanumeric(text: string)

  /** Numeric identifiers come before alphanumeric ones, which compare by their characters. */
  function CompareIdentifier(a: Identifier, b: Identifier): Ordering {
    match (a, b)
    case (Numeric(m), Numeric(n)) => CompareInt(m, n)
    case (Numeric(_), Alphanumeric(_)) => Less
    case (Alphanumeric(_), Numeric(_)) => Greater
    case (Alphanumeric(s), Alphanumeric(t)) => Lexicographic(CompareChar, s, t)
  }

  lemma {:induction false} CharsAreOrdered()
    ensures TotalOrder(CompareChar) && forall a, b :: CompareChar(a, b) == Less <==> a < b
  {
  }

  lemma {:induction false} IdentifiersAreOrdered()
    ensures TotalOrder(CompareIdentifier)
  {
    CharsAreOrdered();
    forall a, b
      ensures CompareIdentifier(a, b) == Equal <==> a == b
      ensures CompareIdentifier(a, b) == Less <==> CompareIdentifier(b, a) == Greater
    {
      if a.Alphanumeric? && b.Alphanumeric? {
        LexicographicPair(CompareChar, a.text, b.text);
      }
    }
    forall a, b, c | CompareIdentifier(a, b) == Less && CompareIdentifier(b, c) == Less
      ensures CompareIdentifier(a, c) == Less
    {
      if a.Alphanumeric? && b.Alphanumeric? && c.Alphanumeric? {
        LexicographicTransitive(CompareChar, a.text, b.text, c.text);
      }
    }
  }

  // ---------------------------------------------------------------- versions

  datatype Version = Version(major: nat, minor: nat, patch: nat, pre: seq<Identifier>)

  /** A version without pre-release comes after every pre-release of it. */
  function ComparePre(a: seq<Identifier>, b: seq<Identifier>): Ordering {
    if a == [] && b == [] then Equal
    else if a == [] then Greater
    else if b == [] then Less
    else Lexicographic(CompareIdentifier, a, b)
  }

  function Compare(v: Version, w: Version): Ordering {
    CompareInt(v.major, w.major)
      .Then(CompareInt(v.minor, w.minor))
      .Then(CompareInt(v.patch, w.patch))
      .Then(ComparePre(v.pre, w.pre))
  }

  predicate AtLeast(v: Version, bound: Version) {
    Compare(v, bound) != Less
  }

  predicate Below(v: Version, bound: Version) {
    Compare(v, bound) == Less
  }

  lemma {:induction false} PreReleasesAreOrdered()
    ensures TotalOrder(ComparePre)
  {
    IdentifiersAreOrdered();
    forall a, b
      ensures ComparePre(a, b) == Equal <==> a == b
      ensures ComparePre(a, b) == Less <==> ComparePre(b, a) == Greater
    {
      LexicographicPair(CompareIdentifier, a, b);
    }
    forall a, b, c | ComparePre(a, b) == Less && ComparePre(b, c) == Less
      ensures ComparePre(a, c) == Less
    {
      if a != [] && b != [] && c != [] {
        LexicographicTransitive(CompareIdentifier, a, b, c);
      }
    }
  }

  /** Precedence is a total order on versions, pre-releases included. */
  lemma {:induction false} VersionsAreOrdered()
    ensures TotalOrder(Compare)
  {
    PreReleasesAreOrdered();
  }

  lemma {:induction false} PrefixIsLess<T(!new)>(cmp: (T, T) -> Ordering, a: seq<T>, b: seq<T>)
    requires TotalOrder(cmp) && b != []
    ensures Lexicographic(cmp, a, a + b) == Less
    decreases |a|
  {
    if a == [] {
      assert a + b == b;
    } else {
      assert (a + b)[1..] == a[1..] + b;
      PrefixIsLess(cmp, a[1..], b);
    }
  }

  lemma {:induction false} FirstDifferenceDecides<T(!new)>(cmp: (T, T) -> Ordering, a: seq<T>, x: T, y: T, b: seq<T>, c: seq<T>)
    requires TotalOrder(cmp) && cmp(x, y) == Less
    ensures Lexicographic(cmp, a + [x] + b, a + [y] + c) == Less
    decreases |a|
  {
    var p, q := a + [x] + b, a + [y] + c;
    if a == [] {
      assert p[0] == x && q[0] == y;
    } else {
      assert p[1..] == a[1..] + [x] + b && q[1..] == a[1..] + [y] + c;
      FirstDifferenceDecides(cmp, a[1..], x, y, b, c);
    }
  }

  /**
    The rules of precedence: a pre-release comes before its release; identifiers are compared
    from left to right, numbers as numbers, numbers before texts, and texts character by
    character; and of two pre-releases that agree as far as they go the longer one is higher.
   */
  lemma {:induction false} PrecedenceRules(v: Version, pre: seq<Identifier>, x: Identifier, y: Identifier, b: seq<Identifier>, c: seq<Identifier>)
    ensures v.pre != [] ==> Below(v, v.(pre := []))
    ensures b != [] && pre != [] ==> Below(v.(pre := pre), v.(pre := pre + b))
    ensures (x.Numeric? && y.Numeric? && x.n < y.n)
            || (x.Numeric? && y.Alphanumeric?)
            || (x.Alphanumeric? && y.Alphanumeric? && Lexicographic(CompareChar, x.text, y.text) == Less) ==>
              Below(v.(pre := pre + [x] + b), v.(pre := pre + [y] + c))
  {
    IdentifiersAreOrdered();
    if b != [] {
      PrefixIsLess(CompareIdentifier, pre, b);
    }
    if CompareIdentifier(x, y) == Less {
      FirstDifferenceDecides(CompareIdentifier, pre, x, y, b, c);
    }
  }

  /** Versions of different numbers: the major number decides first, then the minor one, then the patch. */
  lemma {:induction false} NumbersDecide(v: Version, w: Version)
    requires (v.major, v.minor, v.patch) != (w.major, w.minor, w.patch)
    ensures Below(v, w) <==>
            v.major < w.major || (v.major == w.major && (v.minor < w.minor || (v.minor == w.minor && v.patch < w.patch)))
  {
  }

  /** What lies below a release X.Y.0: everything with a smaller X.Y, and the pre-releases of X.Y.0 itself. */
  lemma {:induction false} BelowRelease(v: Version, major: nat, minor: nat)
    ensures Below(v, Version(major, minor, 0, [])) <==>
            || v.major < major
            || (v.major == major && v.minor < minor)
            || (v.major == major && v.minor == minor && v.patch == 0 && v.pre != [])
  {
    if v.pre == [] {
      assert ComparePre(v.pre, []) == Equal;
    }
  }

  // ---------------------------------------------------------------- the bounds in use

  function Release(major: nat, minor: nat): Version {
    Version(major, minor, 0, [])
  }

  /** 2.0.0-rc.1, the earliest version that the migration knows. */
  const TWO_DOT_O_RC_ONE := Version(2, 0, 0, [Alphanumeric("rc"), Numeric(1)])
  const TWO_DOT_ONE := Release(2, 1)
  const TWO_DOT_TWO := Release(2, 2)
  const TWO_DOT_THREE := Release(2, 3)
  const TWO_DOT_FOUR := Release(2, 4)
  const TWO_DOT_FIVE := Release(2, 5)
  const TWO_DOT_SIX := Release(2, 6)

  /** The window from 2.0.0-rc.1 up to, but not including, release 2.`minor`.0. */
  predicate FromTwoDotOUpTo(v: Version, minor: nat) {
    AtLeast(v, TWO_DOT_O_RC_ONE) && Below(v, Release(2, minor))
  }

  /** The window in plain terms. A pre-release of the upper bound falls inside it. */
  lemma {:induction false} WindowExplained(v: Version, minor: nat)
    requires minor > 0
    ensures FromTwoDotOUpTo(v, minor) <==>
            && v.major == 2
            && (v.minor < minor || (v.minor == minor && v.patch == 0 && v.pre != []))
            && (v.minor == 0 && v.patch == 0 && v.pre != [] ==>
                  Lexicographic(CompareIdentifier, v.pre, [Alphanumeric("rc"), Numeric(1)]) != Less)
  {
    BelowRelease(v, 2, minor);
  }
}
