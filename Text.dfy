/** Sequence and character helpers shared by the Python and the JavaScript generators:
    filtering a string against an exclusion set, ASCII character classes, and
    reordering a sequence by an index permutation. */
module Text {

  /** ASCII character classes (Python's str.islower/isupper/isdigit and the JavaScript
      regular-expression classes [a-z], [A-Z] and \d, restricted to ASCII). */
  predicate IsLower(c: char) { 'a' <= c <= 'z' }
  predicate IsUpper(c: char) { 'A' <= c <= 'Z' }
  predicate IsDigit(c: char) { '0' <= c <= '9' }
  predicate IsAlphanumeric(c: char) { IsLower(c) || IsUpper(c) || IsDigit(c) }

  /** Whether some character of `p` is in the class (Python's `any(...)`, a regular-expression
      `test`). */
  predicate HasLower(p: string) { exists c :: c in p && IsLower(c) }
  predicate HasUpper(p: string) { exists c :: c in p && IsUpper(c) }
  predicate HasDigit(p: string) { exists c :: c in p && IsDigit(c) }

  /** One point for a condition that holds. */
  function Credit(b: bool): nat { if b then 1 else 0 }

  /** The `n` consecutive characters starting at `first`. */
  function CharRange(first: char, n: nat): (r: string)
    requires first as int + n <= 0xD800
    ensures |r| == n
    ensures forall i :: 0 <= i < n ==> r[i] == (first as int + i) as char
  {
    seq(n, i requires 0 <= i < n => (first as int + i) as char)
  }

  /** The characters of `s` that do not occur in `excluded`, in their original order. */
  function Without(s: string, excluded: string): (r: string)
    ensures |r| <= |s|
    ensures forall c :: c in r <==> c in s && c !in excluded
  {
    if s == [] then []
    else
      assert s == [s[0]] + s[1..];
      if s[0] in excluded then Without(s[1..], excluded)
      else [s[0]] + Without(s[1..], excluded)
  }

  /** Filtering distributes over concatenation. */
  lemma {:induction false} WithoutAppend(a: string, b: string, excluded: string)
    ensures Without(a + b, excluded) == Without(a, excluded) + Without(b, excluded)
  {
    if a == [] {
      assert a + b == b;
    } else {
      assert (a + b)[0] == a[0];
      assert (a + b)[1..] == a[1..] + b;
      WithoutAppend(a[1..], b, excluded);
    }
  }

  /** Removing one more character from an already filtered string is filtering by the
      extended exclusion set. */
  lemma {:induction false} WithoutOneMore(s: string, excluded: string, c: char)
    ensures Without(Without(s, excluded), [c]) == Without(s, excluded + [c])
  {
    if s != [] {
      WithoutOneMore(s[1..], excluded, c);
      if s[0] !in excluded {
        assert Without([s[0]] + Without(s[1..], excluded), [c])
            == Without([s[0]], [c]) + Without(Without(s[1..], excluded), [c]) by {
          WithoutAppend([s[0]], Without(s[1..], excluded), [c]);
        }
      }
    }
  }

  /** Filtering a string none of whose characters is excluded changes nothing. */
  lemma {:induction false} WithoutNoneExcluded(s: string, excluded: string)
    requires forall c :: c in s ==> c !in excluded
    ensures Without(s, excluded) == s
  {
    if s != [] {
      assert forall c :: c in s[1..] ==> c in s;
      WithoutNoneExcluded(s[1..], excluded);
    }
  }

  /** The indices 0, 1, ..., n - 1 in increasing order. */
  function Iota(n: nat): (r: seq<nat>)
    ensures |r| == n
    ensures forall i :: 0 <= i < n ==> r[i] == i
  {
    seq(n, i => i)
  }

  /** `order` lists each index below `n` exactly once. */
  predicate IsPermutation(order: seq<nat>, n: nat) {
    multiset(order) == multiset(Iota(n))
  }

  predicate InRange(order: seq<nat>, n: nat) {
    forall i :: 0 <= i < |order| ==> order[i] < n
  }

  lemma PermutationInRange(order: seq<nat>, n: nat)
    requires IsPermutation(order, n)
    ensures |order| == n && InRange(order, n)
  {
    assert |order| == |multiset(order)| == |multiset(Iota(n))| == n;
    forall i | 0 <= i < |order| ensures order[i] < n {
      assert order[i] in multiset(Iota(n));
    }
  }

  /** The elements of `s` at the positions listed by `order`. */
  function Pick<T>(s: seq<T>, order: seq<nat>): (r: seq<T>)
    requires InRange(order, |s|)
    ensures |r| == |order|
    ensures forall i :: 0 <= i < |order| ==> r[i] == s[order[i]]
  {
    seq(|order|, i requires 0 <= i < |order| => s[order[i]])
  }

  lemma PickAppend<T>(s: seq<T>, a: seq<nat>, b: seq<nat>)
    requires InRange(a, |s|) && InRange(b, |s|)
    ensures InRange(a + b, |s|)
    ensures Pick(s, a + b) == Pick(s, a) + Pick(s, b)
  {
  }

  /** Dropping the index at position `j` drops one copy of the element it picks. */
  lemma PickRemoveAt<T>(s: seq<T>, o: seq<nat>, j: nat)
    requires InRange(o, |s|) && j < |o|
    ensures InRange(o[..j] + o[j + 1..], |s|)
    ensures multiset(o[..j] + o[j + 1..]) == multiset(o) - multiset{o[j]}
    ensures multiset(Pick(s, o)) == multiset(Pick(s, o[..j] + o[j + 1..])) + multiset{s[o[j]]}
  {
    assert o == o[..j] + [o[j]] + o[j + 1..];
    PickAppend(s, o[..j], o[j + 1..]);
    assert Pick(s, o) == Pick(s, o[..j]) + [s[o[j]]] + Pick(s, o[j + 1..]);
  }

  /** Removing from `o2` one occurrence of the first index of `o1`. */
  lemma RemoveFirstIndex<T>(s: seq<T>, o1: seq<nat>, o2: seq<nat>) returns (rest: seq<nat>)
    requires InRange(o1, |s|) && InRange(o2, |s|) && o1 != []
    requires multiset(o1) == multiset(o2)
    ensures InRange(rest, |s|) && multiset(o1[1..]) == multiset(rest)
    ensures multiset(Pick(s, o1)) == multiset(Pick(s, o1[1..])) + multiset{s[o1[0]]}
    ensures multiset(Pick(s, o2)) == multiset(Pick(s, rest)) + multiset{s[o1[0]]}
  {
    var x := o1[0];
    assert x in multiset(o2);
    assert x in o2;
    var j :| 0 <= j < |o2| && o2[j] == x;
    rest := o2[..j] + o2[j + 1..];
    PickRemoveAt(s, o1, 0);
    assert o1[..0] + o1[1..] == o1[1..];
    PickRemoveAt(s, o2, j);
  }

  /** Two index lists holding the same indices pick the same multiset of elements. */
  lemma {:induction false} PickSameIndices<T>(s: seq<T>, o1: seq<nat>, o2: seq<nat>)
    requires InRange(o1, |s|) && InRange(o2, |s|)
    requires multiset(o1) == multiset(o2)
    ensures multiset(Pick(s, o1)) == multiset(Pick(s, o2))
  {
    if o1 == [] {
      assert |o2| == |multiset(o2)| == 0;
    } else {
      var rest := RemoveFirstIndex(s, o1, o2);
      PickSameIndices(s, o1[1..], rest);
    }
  }

  /** Reordering by a permutation keeps the multiset of elements. */
  lemma PermutedMultiset<T>(s: seq<T>, order: seq<nat>)
    requires IsPermutation(order, |s|)
    ensures |order| == |s| && InRange(order, |s|)
    ensures multiset(Pick(s, order)) == multiset(s)
  {
    PermutationInRange(order, |s|);
    PickSameIndices(s, order, Iota(|s|));
    assert Pick(s, Iota(|s|)) == s;
  }

  /** An element of a multiset-equal sequence is an element of the sequence. */
  lemma MultisetMembers<T>(a: seq<T>, b: seq<T>)
    requires multiset(a) == multiset(b)
    ensures forall x :: x in a <==> x in b
  {
    forall x ensures x in a <==> x in b {
      assert x in a <==> x in multiset(a);
      assert x in b <==> x in multiset(b);
    }
  }
}
