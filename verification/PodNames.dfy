/** Pod names and the priority order the plugin derives from them. */
module PodNames {

  type PodName = string

  /** Go's `a > b` on strings: the first differing character decides, and a
      proper extension is greater than its prefix. */
  predicate Greater(a: PodName, b: PodName) {
    if a == [] then false
    else if b == [] then true
    else if a[0] != b[0] then a[0] > b[0]
    else Greater(a[1..], b[1..])
  }

  /** Of two different pods exactly one has the higher priority. */
  lemma {:induction false} ExactlyOneIsGreater(a: PodName, b: PodName)
    requires a != b
    ensures Greater(a, b) != Greater(b, a)
  {
    if a != [] && b != [] && a[0] == b[0] {
      assert a == [a[0]] + a[1..] && b == [b[0]] + b[1..];
      ExactlyOneIsGreater(a[1..], b[1..]);
    }
  }

  /** The names agree before position i, and there a goes on with a greater character, or
      b has ended and a has not. */
  predicate WinsAt(a: PodName, b: PodName, i: nat) {
    && i < |a| && i <= |b| && a[..i] == b[..i]
    && (i < |b| ==> a[i] > b[i])
  }

  lemma FirstStays(a: PodName, b: PodName, i: nat)
    requires i <= |a| && i <= |b| && a[..i] == b[..i]
    ensures i > 0 ==> a[0] == b[0]
  {
    if i > 0 { assert a[..i][0] == a[0] && b[..i][0] == b[0]; }
  }

  /** The priority goes to the greater name at the first difference. */
  lemma {:induction false} GreaterIff(a: PodName, b: PodName)
    ensures Greater(a, b) <==> exists i: nat :: WinsAt(a, b, i)
  {
    if a != [] && b == [] {
      assert WinsAt(a, b, 0);
    } else if a != [] && a[0] != b[0] {
      assert a[0] > b[0] ==> WinsAt(a, b, 0);
      forall i: nat | WinsAt(a, b, i) ensures i == 0 { FirstStays(a, b, i); }
    } else if a != [] {
      GreaterIff(a[1..], b[1..]);
      forall i: nat | WinsAt(a[1..], b[1..], i) ensures WinsAt(a, b, i + 1) {
        assert a[..i + 1] == [a[0]] + a[1..][..i] && b[..i + 1] == [b[0]] + b[1..][..i];
      }
      forall i: nat | WinsAt(a, b, i) ensures i > 0 && WinsAt(a[1..], b[1..], i - 1) {
        assert a[1..][..i - 1] == a[..i][1..] && b[1..][..i - 1] == b[..i][1..];
      }
    }
  }

  lemma {:induction false} GreaterIsTransitive(a: PodName, b: PodName, c: PodName)
    requires Greater(a, b) && Greater(b, c)
    ensures Greater(a, c)
  {
    if c != [] && a[0] == b[0] == c[0] {
      GreaterIsTransitive(a[1..], b[1..], c[1..]);
    }
  }
}
