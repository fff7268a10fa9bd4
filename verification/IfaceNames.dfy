/** Names for the node end of a veth pair: `<5 of pod><5 of interface>-<4 digits>`. */
module IfaceNames {
  import opened Options

  const WINDOW := 10000

  function Digit(n: nat): char
    requires n < 10
  {
    '0' + n as char
  }

  predicate IsDigit(c: char) {
    '0' <= c <= '9'
  }

  function DigitValue(c: char): (v: nat)
    requires IsDigit(c)
    ensures v < 10
  {
    (c - '0') as nat
  }

  /** `%04d` */
  function FourDigits(n: nat): string
    requires n < WINDOW
  {
    [Digit(n / 1000), Digit(n / 100 % 10), Digit(n / 10 % 10), Digit(n % 10)]
  }

  /** `%.5s` */
  function Cut(s: string): string {
    if |s| <= 5 then s else s[..5]
  }

  function Name(pod: string, iface: string, id: nat): string {
    Cut(pod) + Cut(iface) + "-" + FourDigits(id % WINDOW)
  }

  /** The regular expression `-(\d{4})$`. */
  function Suffix(name: string): Option<nat> {
    var n := |name|;
    if n >= 5 && name[n - 5] == '-' && IsDigit(name[n - 4]) && IsDigit(name[n - 3]) && IsDigit(name[n - 2]) && IsDigit(name[n - 1]) then
      Some(1000 * DigitValue(name[n - 4]) + 100 * DigitValue(name[n - 3]) + 10 * DigitValue(name[n - 2]) + DigitValue(name[n - 1]))
    else None
  }

  /** The highest suffix on the host, or 0. */
  function MaxSuffix(names: seq<string>): nat {
    if names == [] then 0
    else
      var m := MaxSuffix(names[..|names| - 1]);
      var s := Suffix(names[|names| - 1]);
      if s.Some? && s.value > m then s.value else m
  }

  /** A Linux interface name has at most 15 characters. */
  lemma NameFits(pod: string, iface: string, id: nat)
    ensures |Name(pod, iface, id)| <= 15
  {
    assert |FourDigits(id % WINDOW)| == 4;
  }

  function Shorter(a: nat, b: nat): nat {
    if a < b then a else b
  }

  /** It starts with as much of the pod's name as there is room for, then as much of the
      interface's, and ends with a hyphen and four digits. */
  lemma NameReads(pod: string, iface: string, id: nat)
    ensures var name, p, q := Name(pod, iface, id), Shorter(|pod|, 5), Shorter(|iface|, 5);
      && |name| == p + q + 5 && name[p + q] == '-'
      && (forall i :: 0 <= i < p ==> name[i] == pod[i])
      && (forall i :: 0 <= i < q ==> name[p + i] == iface[i])
      && (forall i :: p + q < i < |name| ==> IsDigit(name[i]))
  {
    assert |FourDigits(id % WINDOW)| == 4;
  }

  lemma FourDigitsRead(n: nat)
    requires n < WINDOW
    ensures 1000 * (n / 1000) + 100 * (n / 100 % 10) + 10 * (n / 10 % 10) + n % 10 == n
  {
    assert n / 100 == 10 * (n / 1000) + n / 100 % 10;
    assert n / 10 == 10 * (n / 100) + n / 10 % 10;
  }

  /** The restart's parser reads back the index of every generated name. */
  lemma SuffixRecovers(pod: string, iface: string, id: nat)
    ensures Suffix(Name(pod, iface, id)) == Some(id % 10000)
  {
    var name := Name(pod, iface, id);
    var n := |name|;
    var k := id % WINDOW;
    var head := Cut(pod) + Cut(iface);
    assert name == head + ("-" + FourDigits(k)) && n == |head| + 5;
    assert name[n - 5] == '-' && name[n - 4] == FourDigits(k)[0] && name[n - 3] == FourDigits(k)[1];
    assert name[n - 2] == FourDigits(k)[2] && name[n - 1] == FourDigits(k)[3];
    FourDigitsRead(k);
  }

  lemma DigitsRead(a: nat, b: nat, c: nat, d: nat)
    requires a < 10 && b < 10 && c < 10 && d < 10
    ensures var v := 1000 * a + 100 * b + 10 * c + d;
      v < 10000 && v / 1000 == a && v / 100 % 10 == b && v / 10 % 10 == c && v % 10 == d
  {
    var v := 1000 * a + 100 * b + 10 * c + d;
    assert v / 10 == 100 * a + 10 * b + c && v / 100 == 10 * a + b;
  }

  /** The parser accepts exactly the names that end with a hyphen and four digits, and reads
      what these say. */
  lemma SuffixIff(name: string, v: nat)
    ensures Suffix(name) == Some(v) <==> v < 10000 && |name| >= 5 && name[|name| - 5..] == "-" + FourDigits(v)
  {
    var n := |name|;
    if Suffix(name).Some? {
      DigitsRead(DigitValue(name[n - 4]), DigitValue(name[n - 3]), DigitValue(name[n - 2]), DigitValue(name[n - 1]));
      assert name[n - 5..] == ['-', name[n - 4], name[n - 3], name[n - 2], name[n - 1]];
      assert name[n - 5..] == "-" + FourDigits(Suffix(name).value);
    }
    if v < 10000 && n >= 5 && name[n - 5..] == "-" + FourDigits(v) {
      FourDigitsRead(v);
      forall k | 0 <= k < 5 ensures name[n - 5 + k] == ("-" + FourDigits(v))[k] { assert name[n - 5..][k] == name[n - 5 + k]; }
    }
  }

  lemma ResiduesDiffer(i: nat, j: nat)
    requires i < j < i + WINDOW
    ensures i % WINDOW != j % WINDOW
  {
    var a, b := i / WINDOW, j / WINDOW;
    assert i == WINDOW * a + i % WINDOW && j == WINDOW * b + j % WINDOW;
  }

  /** Any 10000 consecutive names are pairwise different, whatever pods and
      interfaces they are for. */
  lemma ConsecutiveNamesDiffer(pod: string, iface: string, i: nat, pod': string, iface': string, j: nat)
    requires i < j < i + 10000
    ensures Name(pod, iface, i) != Name(pod', iface', j)
  {
    SuffixRecovers(pod, iface, i);
    SuffixRecovers(pod', iface', j);
    ResiduesDiffer(i, j);
  }

  /** The window is exact: the next one repeats the name. */
  lemma NamesRepeatAfterWindow(pod: string, iface: string, i: nat)
    ensures Name(pod, iface, i + 10000) == Name(pod, iface, i)
  {
    assert (i + WINDOW) % WINDOW == i % WINDOW;
  }

  lemma {:induction false} MaxSuffixBounds(names: seq<string>, k: nat)
    requires k < |names|
    ensures Suffix(names[k]).Some? ==> Suffix(names[k]).value <= MaxSuffix(names)
  {
    if k < |names| - 1 {
      MaxSuffixBounds(names[..|names| - 1], k);
    }
  }

  /** Unless no name has a suffix, it is the suffix of one of them. */
  lemma {:induction false} MaxSuffixIsOne(names: seq<string>) returns (k: nat)
    ensures MaxSuffix(names) == 0 || (k < |names| && Suffix(names[k]) == Some(MaxSuffix(names)))
  {
    k := 0;
    if names != [] {
      var n := |names| - 1;
      k := MaxSuffixIsOne(names[..n]);
      if Suffix(names[n]) == Some(MaxSuffix(names)) { k := n; }
    }
  }

  /** After seeding, no name is on the host until the counter reaches the window. */
  lemma SeededNamesAreNew(names: seq<string>, seed: nat, pod: string, iface: string, id: nat)
    requires MaxSuffix(names) <= seed < id < 10000
    ensures Name(pod, iface, id) !in names
  {
    SuffixRecovers(pod, iface, id);
    forall k | 0 <= k < |names| ensures names[k] != Name(pod, iface, id) {
      MaxSuffixBounds(names, k);
    }
  }

  class IndexGen {
    var currId: nat

    constructor ()
      ensures currId == 0
    {
      currId := 0;
    }

    method NextIndex() returns (id: nat)
      modifies this
      ensures id == currId == old(currId) + 1
    {
      currId := currId + 1;
      id := currId;
    }

    /** Moves the counter to the highest suffix on the host, never back. */
    method SeedIndexFromHost(names: seq<string>)
      modifies this
      ensures currId == if MaxSuffix(names) > old(currId) then MaxSuffix(names) else old(currId)
      ensures currId >= old(currId) && forall k :: 0 <= k < |names| && Suffix(names[k]).Some? ==> Suffix(names[k]).value <= currId
      ensures currId == old(currId) || exists k :: 0 <= k < |names| && Suffix(names[k]) == Some(currId)
    {
      var maxId := 0;
      for i := 0 to |names|
        invariant maxId == MaxSuffix(names[..i])
      {
        assert names[..i + 1][..i] == names[..i];
        var s := Suffix(names[i]);
        if s.Some? && s.value > maxId {
          maxId := s.value;
        }
      }
      assert names[..|names|] == names;
      forall k | 0 <= k < |names| && Suffix(names[k]).Some? ensures Suffix(names[k]).value <= maxId { MaxSuffixBounds(names, k); }
      ghost var top := MaxSuffixIsOne(names);
      if maxId > currId {
        currId := maxId;
      }
    }

    method GenNodeIfaceName(pod: string, iface: string) returns (name: string)
      modifies this
      ensures currId == old(currId) + 1
      ensures |name| <= 15 && Suffix(name) == Some(currId % 10000)
      ensures forall p, f, i :: currId - 10000 < i < currId && i >= 0 ==> name != Name(p, f, i)
      ensures name == Name(pod, iface, currId)
    {
      var id := NextIndex();
      name := Name(pod, iface, id);
      NameFits(pod, iface, id);
      SuffixRecovers(pod, iface, id);
      forall p, f, i: nat | i < id < i + 10000 ensures name != Name(p, f, i) {
        ConsecutiveNamesDiffer(p, f, i, pod, iface, id);
      }
    }
  }
}
