/** Removal by key from a list kept in view state: `list.filter((x) => x.id !== id)`. */
module Lists {

  /** The elements of `s` whose key differs from `k`, in their original order. */
  function DropKey<T>(s: seq<T>, key: T -> string, k: string): (r: seq<T>)
    ensures |r| <= |s|
  {
    if s == [] then []
    else (if key(s[0]) == k then [] else [s[0]]) + DropKey(s[1..], key, k)
  }

  /** What is kept: every element whose key differs from `k`, and nothing else. */
  lemma {:induction false} DropKeyMembers<T>(s: seq<T>, key: T -> string, k: string)
    ensures forall i :: 0 <= i < |DropKey(s, key, k)| ==> DropKey(s, key, k)[i] in s && key(DropKey(s, key, k)[i]) != k
    ensures forall i :: 0 <= i < |s| && key(s[i]) != k ==> s[i] in DropKey(s, key, k)
  {
    if s != [] {
      DropKeyMembers(s[1..], key, k);
      var r := DropKey(s, key, k);
      var rest := DropKey(s[1..], key, k);
      assert r == (if key(s[0]) == k then [] else [s[0]]) + rest;
      forall i | 0 <= i < |r|
        ensures r[i] in s && key(r[i]) != k
      {
        var j := if key(s[0]) == k then i else i - 1;
        if j >= 0 {
          assert 0 <= j < |rest|;
          assert r[i] == rest[j];
          assert rest[j] in s[1..];
          var n :| 0 <= n < |s[1..]| && s[1..][n] == rest[j];
          assert s[n + 1] == r[i];
        }
      }
      forall i | 0 <= i < |s| && key(s[i]) != k
        ensures s[i] in r
      {
        if i > 0 {
          assert s[i] == s[1..][i - 1];
        }
      }
    }
  }

  /** How many elements of `s` carry key `k`. */
  function CountKey<T>(s: seq<T>, key: T -> string, k: string): nat {
    if s == [] then 0 else (if key(s[0]) == k then 1 else 0) + CountKey(s[1..], key, k)
  }

  /** Removal keeps order: filtering a concatenation filters each part. */
  lemma {:induction false} DropKeyConcat<T>(a: seq<T>, b: seq<T>, key: T -> string, k: string)
    ensures DropKey(a + b, key, k) == DropKey(a, key, k) + DropKey(b, key, k)
  {
    if a == [] {
      assert a + b == b;
    } else {
      assert (a + b)[0] == a[0];
      assert (a + b)[1..] == a[1..] + b;
      DropKeyConcat(a[1..], b, key, k);
    }
  }

  /** Exactly the elements with key `k` disappear. */
  lemma {:induction false} DropKeyLength<T>(s: seq<T>, key: T -> string, k: string)
    ensures |DropKey(s, key, k)| + CountKey(s, key, k) == |s|
  {
    if s != [] {
      DropKeyLength(s[1..], key, k);
    }
  }

  /** When no element carries key `k`, nothing is removed. */
  lemma {:induction false} DropKeyAbsent<T>(s: seq<T>, key: T -> string, k: string)
    requires forall i :: 0 <= i < |s| ==> key(s[i]) != k
    ensures DropKey(s, key, k) == s
  {
    if s != [] {
      DropKeyAbsent(s[1..], key, k);
      assert [s[0]] + s[1..] == s;
    }
  }

  /** Appending counts: the count of a key in `s + t` is the sum of its counts. */
  lemma {:induction false} CountKeyConcat<T>(a: seq<T>, b: seq<T>, key: T -> string, k: string)
    ensures CountKey(a + b, key, k) == CountKey(a, key, k) + CountKey(b, key, k)
  {
    if a == [] {
      assert a + b == b;
    } else {
      assert (a + b)[0] == a[0];
      assert (a + b)[1..] == a[1..] + b;
      CountKeyConcat(a[1..], b, key, k);
    }
  }
}
