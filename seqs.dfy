/** Sequence searches shared by the engine, the store and the wizard: the
    model of JavaScript's Array.prototype.find and findIndex with a
    predicate of the form `x => key(x) === k`. */
module Seqs {

  datatype Option<T> = None | Some(value: T)

  /** arr.findIndex(x => key(x) === k): the first index whose key is k, or -1. */
  function FindIndex<T>(s: seq<T>, key: T -> string, k: string): (i: int)
    ensures -1 <= i < |s|
    ensures i == -1 <==> forall j :: 0 <= j < |s| ==> key(s[j]) != k
    ensures 0 <= i ==> key(s[i]) == k && forall j :: 0 <= j < i ==> key(s[j]) != k
  {
    if |s| == 0 then -1
    else if key(s[0]) == k then 0
    else
      var i := FindIndex(s[1..], key, k);
      if i == -1 then -1 else i + 1
  }

  /** arr.find(x => key(x) === k): the first element whose key is k, if any. */
  function Find<T>(s: seq<T>, key: T -> string, k: string): (r: Option<T>)
    ensures r.None? <==> forall j :: 0 <= j < |s| ==> key(s[j]) != k
    ensures r.Some? ==> r.value in s && key(r.value) == k
    ensures r.Some? ==> 0 <= FindIndex(s, key, k) && r.value == s[FindIndex(s, key, k)]
  {
    var i := FindIndex(s, key, k);
    if i == -1 then None else Some(s[i])
  }

  /** arr.some(x => key(x) === k). */
  predicate HasKey<T>(s: seq<T>, key: T -> string, k: string) {
    exists j :: 0 <= j < |s| && key(s[j]) == k
  }

  /** arr.filter(x => key(x) !== k), kept in order. */
  function Without<T>(s: seq<T>, key: T -> string, k: string): (r: seq<T>)
    ensures |r| <= |s|
    ensures forall i :: 0 <= i < |r| ==> r[i] in s && key(r[i]) != k
    ensures forall i :: 0 <= i < |s| && key(s[i]) != k ==> s[i] in r
  {
    if |s| == 0 then []
    else if key(s[0]) == k then Without(s[1..], key, k)
    else [s[0]] + Without(s[1..], key, k)
  }

  /** Filtering a concatenation filters each part, in order. */
  lemma {:induction false} WithoutAppend<T>(s: seq<T>, t: seq<T>, key: T -> string, k: string)
    ensures Without(s + t, key, k) == Without(s, key, k) + Without(t, key, k)
  {
    if |s| == 0 {
      assert s + t == t;
    } else {
      assert (s + t)[0] == s[0];
      assert (s + t)[1..] == s[1..] + t;
      WithoutAppend(s[1..], t, key, k);
    }
  }

  /** Filtering out a key nothing carries changes nothing. */
  lemma {:induction false} WithoutAbsent<T>(s: seq<T>, key: T -> string, k: string)
    requires forall j :: 0 <= j < |s| ==> key(s[j]) != k
    ensures Without(s, key, k) == s
  {
    if |s| > 0 {
      WithoutAbsent(s[1..], key, k);
    }
  }

  /** No two elements carry the same key. */
  predicate DistinctKeys<T>(s: seq<T>, key: T -> string) {
    forall i, j :: 0 <= i < j < |s| ==> key(s[i]) != key(s[j])
  }

  /** Filtering keeps distinct keys distinct. */
  lemma {:induction false} WithoutKeepsDistinct<T>(s: seq<T>, key: T -> string, k: string)
    requires DistinctKeys(s, key)
    ensures DistinctKeys(Without(s, key, k), key)
  {
    if |s| > 0 {
      WithoutKeepsDistinct(s[1..], key, k);
      var rest := Without(s[1..], key, k);
      if key(s[0]) != k {
        forall i | 0 <= i < |rest| ensures key(rest[i]) != key(s[0]) {
          var j :| 0 <= j < |s[1..]| && s[1..][j] == rest[i];
          assert s[j + 1] == rest[i];
        }
      }
    }
  }
}
