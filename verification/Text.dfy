/** Strings as the programs in this project use them: the order of `strings.Compare`,
    sorted key lists, and the white-space trimming that precedes most comparisons. */
module Text {

  newtype byte = x: int | 0 <= x < 256

  /** Byte order of two strings.  On valid UTF-8 it coincides with the order of code points. */
  predicate Less(a: string, b: string) {
    if a == [] then b != []
    else b != [] && (a[0] < b[0] || (a[0] == b[0] && Less(a[1..], b[1..])))
  }

  /** At the first difference the smaller character decides; a proper prefix comes first. */
  ghost predicate DiffersAt(a: string, b: string, k: nat) {
    k <= |a| && k < |b| && a[..k] == b[..k] && (k == |a| || a[k] < b[k])
  }

  lemma {:induction false} LessMeans(a: string, b: string)
    ensures Less(a, b) <==> exists k :: DiffersAt(a, b, k)
  {
    if a == [] {
      if b != [] { assert DiffersAt(a, b, 0); }
    } else if b != [] {
      LessMeans(a[1..], b[1..]);
      if a[0] == b[0] {
        forall k: nat | DiffersAt(a[1..], b[1..], k) ensures DiffersAt(a, b, k + 1) {
          assert a[..k + 1] == [a[0]] + a[1..][..k] && b[..k + 1] == [b[0]] + b[1..][..k];
        }
        forall k: nat | DiffersAt(a, b, k) ensures k > 0 && DiffersAt(a[1..], b[1..], k - 1) {
          assert k > 0;
          assert a[1..][..k - 1] == a[..k][1..] && b[1..][..k - 1] == b[..k][1..];
        }
      } else {
        if a[0] < b[0] { assert DiffersAt(a, b, 0); }
        forall k: nat | DiffersAt(a, b, k) ensures k == 0 {

        }
      }
    }
  }

  lemma {:induction false} LessIrreflexive(a: string)
    ensures !Less(a, a)
  {
    if a != [] { LessIrreflexive(a[1..]); }
  }

  lemma {:induction false} LessTotal(a: string, b: string)
    ensures Less(a, b) || a == b || Less(b, a)
  {
    if a != [] && b != [] && a[0] == b[0] {
      LessTotal(a[1..], b[1..]);
      assert a == [a[0]] + a[1..] && b == [b[0]] + b[1..];
    }
  }

  lemma {:induction false} LessTransitive(a: string, b: string, c: string)
    requires Less(a, b) && Less(b, c)
    ensures Less(a, c)
  {
    if a != [] && a[0] == b[0] == c[0] { LessTransitive(a[1..], b[1..], c[1..]); }
  }

  ghost predicate Ascending(xs: seq<string>) {
    forall i, j :: 0 <= i < j < |xs| ==> Less(xs[i], xs[j])
  }

  ghost function Elements<T>(xs: seq<T>): set<T> { set x | x in xs }

  ghost predicate SortedBy<T(!new)>(xs: seq<T>, less: (T, T) -> bool) {
    forall i, j :: 0 <= i < j < |xs| ==> less(xs[i], xs[j])
  }

  /** Lists sorted by an asymmetric order are determined by their elements. */
  lemma {:induction false} SortedUnique<T(!new)>(xs: seq<T>, ys: seq<T>, less: (T, T) -> bool)
    requires SortedBy(xs, less) && SortedBy(ys, less) && Elements(xs) == Elements(ys)
    requires forall a, b :: a in Elements(xs) && b in Elements(xs) && less(a, b) ==> !less(b, a)
    ensures xs == ys
  {
    assert xs != [] ==> xs[0] in Elements(xs);
    assert ys != [] ==> ys[0] in Elements(ys);
    if xs != [] && ys != [] {
      assert xs[0] in Elements(ys) && ys[0] in Elements(xs);
      assert xs[0] == ys[0];
      assert Elements(xs[1..]) == Elements(xs) - {xs[0]};
      assert Elements(ys[1..]) == Elements(ys) - {ys[0]};
      SortedUnique(xs[1..], ys[1..], less);
      assert xs == [xs[0]] + xs[1..] && ys == [ys[0]] + ys[1..];
    }
  }

  lemma SubsetSize<T>(a: set<T>, b: set<T>)
    requires a <= b
    ensures |a| <= |b|
  {
    assert b == a + (b - a);
  }

  lemma InsertFirst(x: string, xs: seq<string>)
    requires xs != [] && Ascending(xs) && Less(x, xs[0])
    ensures Ascending([x] + xs)
  {
    forall j | 0 < j < |xs| ensures Less(x, xs[j]) { LessTransitive(x, xs[0], xs[j]); }
  }

  lemma InsertLater(x: string, xs: seq<string>, rest: seq<string>)
    requires xs != [] && Ascending(xs) && x !in xs && !Less(x, xs[0])
    requires Ascending(rest) && Elements(rest) == Elements(xs[1..]) + {x}
    ensures Ascending([xs[0]] + rest) && Elements([xs[0]] + rest) == Elements(xs) + {x}
  {
    hide Less;
    LessTotal(x, xs[0]);
    assert xs == [xs[0]] + xs[1..];
    forall j | 0 <= j < |rest| ensures Less(xs[0], rest[j]) { assert rest[j] in Elements(rest); }
  }

  /** `slices.Sort` on distinct strings: insertion keeps the list ascending. */
  function Insert(x: string, xs: seq<string>): (ys: seq<string>)
    requires Ascending(xs) && x !in xs
    ensures Ascending(ys) && Elements(ys) == Elements(xs) + {x} && |ys| == |xs| + 1
  {
    if xs == [] then [x]
    else if Less(x, xs[0]) then
      InsertFirst(x, xs);
      [x] + xs
    else
      var rest := Insert(x, xs[1..]);
      InsertLater(x, xs, rest);
      [xs[0]] + rest
  }

  function Sort(xs: seq<string>): (ys: seq<string>)
    requires forall i, j :: 0 <= i < j < |xs| ==> xs[i] != xs[j]
    ensures Ascending(ys) && Elements(ys) == Elements(xs) && |ys| == |xs|
  {
    if xs == [] then [] else
      var rest := Sort(xs[1..]);
      assert xs == [xs[0]] + xs[1..];
      assert xs[0] !in Elements(rest);
      Insert(xs[0], rest)
  }

  /** An ascending list is determined by its elements, so sorting erases map iteration order. */
  lemma AscendingUnique(xs: seq<string>, ys: seq<string>)
    requires Ascending(xs) && Ascending(ys) && Elements(xs) == Elements(ys)
    ensures xs == ys
  {
    forall a, b | Less(a, b) ensures !Less(b, a) {
      if Less(b, a) {
        LessTransitive(a, b, a);
        LessIrreflexive(a);
        assert false;
      }
    }
    SortedUnique(xs, ys, (a, b) => Less(a, b));
  }

  /** The ascending list of a finite set. */
  ghost function SortedSet(s: set<string>): (xs: seq<string>)
    ensures Ascending(xs) && Elements(xs) == s
  {
    if s == {} then [] else
      var x :| x in s;
      Insert(x, SortedSet(s - {x}))
  }

  // ---- white space -------------------------------------------------------

  predicate IsSpace(c: char) {
    var n := c as int;
    (9 <= n <= 13) || n == 32 || n == 0x85 || n == 0xA0 || n == 0x1680 || (0x2000 <= n <= 0x200A)
    || n == 0x2028 || n == 0x2029 || n == 0x202F || n == 0x205F || n == 0x3000
  }

  function TrimLeft(s: string): string {
    if s != [] && IsSpace(s[0]) then TrimLeft(s[1..]) else s
  }

  function TrimRight(s: string): string {
    if s != [] && IsSpace(s[|s| - 1]) then TrimRight(s[..|s| - 1]) else s
  }

  /** `strings.TrimSpace`. */
  function TrimSpace(s: string): string { TrimRight(TrimLeft(s)) }

  /** Trimming takes away nothing but white space at the two ends, and all of it. */
  lemma TrimSpaceMeans(s: string) returns (i: nat, j: nat)
    ensures i <= j <= |s| && TrimSpace(s) == s[i..j]
    ensures forall k :: 0 <= k < i || j <= k < |s| ==> IsSpace(s[k])
    ensures i < j ==> !IsSpace(s[i]) && !IsSpace(s[j - 1])
  {
    hide IsSpace;
    i := TrimLeftMeans(s);
    var n := TrimRightMeans(s[i..]);
    j := i + n;
    assert s[i..][..n] == s[i..j];
    forall k | j <= k < |s| ensures IsSpace(s[k]) { assert s[k] == s[i..][k - i]; }
    if i < j { assert s[i] == s[i..][0] && s[j - 1] == s[i..][n - 1]; }
  }

  lemma {:induction false} TrimLeftMeans(s: string) returns (i: nat)
    ensures i <= |s| && TrimLeft(s) == s[i..] && (forall k :: 0 <= k < i ==> IsSpace(s[k])) && (i < |s| ==> !IsSpace(s[i]))
  {
    hide IsSpace;
    if s != [] && IsSpace(s[0]) {
      var j := TrimLeftMeans(s[1..]);
      i := j + 1;
      assert s[1..][j..] == s[i..];
      forall k | 0 <= k < i ensures IsSpace(s[k]) { if k > 0 { assert s[k] == s[1..][k - 1]; } }
    } else {
      i := 0;
      assert s[0..] == s;
    }
  }

  lemma {:induction false} TrimRightMeans(s: string) returns (n: nat)
    ensures n <= |s| && TrimRight(s) == s[..n] && (forall k :: n <= k < |s| ==> IsSpace(s[k])) && (n > 0 ==> !IsSpace(s[n - 1]))
  {
    hide IsSpace;
    if s != [] && IsSpace(s[|s| - 1]) {
      n := TrimRightMeans(s[..|s| - 1]);
      assert s[..|s| - 1][..n] == s[..n];
    } else {
      n := |s|;
      assert s[..n] == s;
    }
  }
}
