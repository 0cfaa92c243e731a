// Shared vocabulary: optional values and the few counting facts about finite
// maps that several components use.
module Common {
  datatype Option<+T> = None | Some(value: T)

  ghost predicate NoRepeats<T>(s: seq<T>) {
    forall i, j :: 0 <= i < j < |s| ==> s[i] != s[j]
  }

  lemma NoRepeatsAppend<T>(s: seq<T>, x: T)
    requires NoRepeats(s) && x !in s
    ensures NoRepeats(s + [x])
  {
  }

  lemma NoRepeatsFront<T>(s: seq<T>)
    requires NoRepeats(s) && s != []
    ensures NoRepeats(s[..|s| - 1]) && s[|s| - 1] !in s[..|s| - 1]
  {
  }

  lemma RemoveKeySize<K, V>(m: map<K, V>, k: K)
    requires k in m
    ensures |m - {k}| == |m| - 1
  {
    assert (m - {k}).Keys == m.Keys - {k};
    assert |m.Keys - {k}| == |m.Keys| - 1;
  }

  lemma AddKeySize<K, V>(m: map<K, V>, k: K, v: V)
    requires k !in m
    ensures |m[k := v]| == |m| + 1
  {
    assert m[k := v].Keys == m.Keys + {k};
    assert |m.Keys + {k}| == |m.Keys| + 1;
  }

  // Remainders by subtraction, so that facts about them are plain inductions.
  function Mod(a: nat, n: nat): (r: nat)
    requires 0 < n
    ensures r < n
  {
    if a < n then a else Mod(a - n, n)
  }

  lemma {:induction false} ModUnique(a: nat, n: nat, q: nat, r: nat)
    requires 0 < n && r < n && a == n * q + r
    ensures Mod(a, n) == r
    decreases q
  {
    if q > 0 {
      assert n * q == n * (q - 1) + n;
      assert n * (q - 1) >= 0;
      ModUnique(a - n, n, q - 1, r);
    }
  }

  lemma ModIsRemainder(a: nat, n: nat)
    requires 0 < n
    ensures Mod(a, n) == a % n
  {
    ModUnique(a, n, a / n, a % n);
  }

  lemma {:induction false} ModSucc(a: nat, n: nat)
    requires 0 < n
    ensures Mod(a + 1, n) == if Mod(a, n) + 1 == n then 0 else Mod(a, n) + 1
  {
    if a >= n {
      ModSucc(a - n, n);
    }
  }

  lemma {:induction false} ModAdd(a: nat, k: nat, n: nat)
    requires k < n
    ensures Mod(a + k, n) == if Mod(a, n) + k < n then Mod(a, n) + k else Mod(a, n) + k - n
  {
    if k > 0 {
      ModAdd(a, k - 1, n);
      ModSucc(a + k - 1, n);
    }
  }
}
