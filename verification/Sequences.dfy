/** Facts about sequences that the verifier is better given than left to find. */
module Sequences {

  lemma Associates<T>(a: seq<T>, b: seq<T>, c: seq<T>)
    ensures a + b + c == a + (b + c)
  {
  }

  lemma CutInTwo<T>(a: seq<T>, n: nat)
    requires n <= |a|
    ensures a[..n] + a[n..] == a
    ensures n == |a| ==> a[..n] == a && a[n..] == []
  {
  }

  lemma AppendsNothing<T>(a: seq<T>)
    ensures a + [] == a
  {
  }
}
