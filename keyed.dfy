/**
  Ordered lists whose elements carry a string key (a product id), and the three
  ways the storefront rewrites them: `find` (HasKey), `filter(x => x.id !== id)`
  (RemoveKey) and `map(x => x.id === id ? f(x) : x)` (UpdateKey). The cart, the demo
  catalog and the product list loaded from the backend all use them.
*/
module Keyed {
  import Seqs

  /** Some element of `s` has key `id`. */
  predicate HasKey<T>(s: seq<T>, key: T -> string, id: string)
  {
    exists i :: 0 <= i < |s| && key(s[i]) == id
  }

  /** At most one element per key. */
  predicate UniqueKeys<T>(s: seq<T>, key: T -> string)
  {
    forall i, j :: 0 <= i < j < |s| ==> key(s[i]) != key(s[j])
  }

  /** The elements of `s` whose key is not `id`, in their original order. */
  function RemoveKey<T>(s: seq<T>, key: T -> string, id: string): (r: seq<T>)
    ensures |r| <= |s|
    ensures !HasKey(r, key, id)
  {
    if s == [] then []
    else if key(s[0]) == id then RemoveKey(s[1..], key, id)
    else [s[0]] + RemoveKey(s[1..], key, id)
  }

  /** `s` with `f` applied to every element whose key is `id`; the rest are kept as they are. */
  function UpdateKey<T>(s: seq<T>, key: T -> string, id: string, f: T -> T): (r: seq<T>)
    ensures |r| == |s|
  {
    if s == [] then [] else [if key(s[0]) == id then f(s[0]) else s[0]] + UpdateKey(s[1..], key, id, f)
  }

  /** Position by position: `f` is applied exactly where the key is `id`. */
  lemma {:induction false} UpdateKeyIndex<T>(s: seq<T>, key: T -> string, id: string, f: T -> T)
    ensures forall i :: 0 <= i < |s| ==>
      UpdateKey(s, key, id, f)[i] == if key(s[i]) == id then f(s[i]) else s[i]
  {
    if s != [] {
      UpdateKeyIndex(s[1..], key, id, f);
      var r := UpdateKey(s, key, id, f);
      forall i | 1 <= i < |s| ensures r[i] == if key(s[i]) == id then f(s[i]) else s[i] {
        assert r[i] == UpdateKey(s[1..], key, id, f)[i - 1];
        assert s[1..][i - 1] == s[i];
      }
    }
  }

  /** An element survives the filter exactly when it was there and its key is not `id`. */
  lemma {:induction false} RemoveKeyMember<T>(s: seq<T>, key: T -> string, id: string, x: T)
    ensures x in RemoveKey(s, key, id) <==> x in s && key(x) != id
  {
    if s != [] {
      RemoveKeyMember(s[1..], key, id, x);
      assert x in s <==> x == s[0] || x in s[1..] by {
        assert s == [s[0]] + s[1..];
      }
    }
  }

  /** Filtering distributes over concatenation: the survivors keep their relative order. */
  lemma {:induction false} RemoveKeyAppend<T>(a: seq<T>, b: seq<T>, key: T -> string, id: string)
    ensures RemoveKey(a + b, key, id) == RemoveKey(a, key, id) + RemoveKey(b, key, id)
  {
    if a == [] {
      assert a + b == b;
    } else {
      assert (a + b)[1..] == a[1..] + b;
      RemoveKeyAppend(a[1..], b, key, id);
    }
  }

  /** Removing a key that is absent leaves the list unchanged. */
  lemma {:induction false} RemoveKeyAbsent<T>(s: seq<T>, key: T -> string, id: string)
    requires !HasKey(s, key, id)
    ensures RemoveKey(s, key, id) == s
  {
    if s != [] {
      assert key(s[0]) != id;
      assert !HasKey(s[1..], key, id) by {
        forall i | 0 <= i < |s| - 1 ensures key(s[1..][i]) != id {
          assert s[1..][i] == s[i + 1];
        }
      }
      RemoveKeyAbsent(s[1..], key, id);
      assert [s[0]] + s[1..] == s;
    }
  }

  /** In a list with unique keys, removing the key at index k removes exactly that element. */
  lemma RemoveKeyAt<T>(s: seq<T>, key: T -> string, k: nat)
    requires UniqueKeys(s, key) && k < |s|
    ensures RemoveKey(s, key, key(s[k])) == s[..k] + s[k + 1..]
  {
    KeyOnlyAt(s, key, k);
    RemoveKeyAbsent(s[..k], key, key(s[k]));
    RemoveKeyAbsent(s[k + 1..], key, key(s[k]));
    Seqs.SplitAt(s, k);
    RemoveKeySkip(s[..k], s[k], s[k + 1..], key);
  }

  /** With unique keys, the key at index k occurs neither before nor after it. */
  lemma KeyOnlyAt<T>(s: seq<T>, key: T -> string, k: nat)
    requires UniqueKeys(s, key) && k < |s|
    ensures !HasKey(s[..k], key, key(s[k])) && !HasKey(s[k + 1..], key, key(s[k]))
  {
    forall i | 0 <= i < k ensures key(s[..k][i]) != key(s[k]) {
      KeyDiffers(s, key, i, k);
    }
    var b := s[k + 1..];
    forall i | 0 <= i < |b| ensures key(b[i]) != key(s[k]) {
      KeyDiffers(s, key, k + 1 + i, k);
    }
  }

  lemma RemoveKeySkip<T>(a: seq<T>, x: T, b: seq<T>, key: T -> string)
    requires RemoveKey(a, key, key(x)) == a && RemoveKey(b, key, key(x)) == b
    ensures RemoveKey(a + [x] + b, key, key(x)) == a + b
  {
    RemoveKeyHead(x, b, key);
    Seqs.Assoc(a, [x], b);
    RemoveKeyAppend(a, [x] + b, key, key(x));
  }

  lemma RemoveKeyHead<T>(x: T, b: seq<T>, key: T -> string)
    ensures RemoveKey([x] + b, key, key(x)) == RemoveKey(b, key, key(x))
  {
    assert ([x] + b)[1..] == b;
  }

  /** Filtering keeps keys unique. */
  lemma {:induction false} RemoveKeyKeepsUnique<T>(s: seq<T>, key: T -> string, id: string)
    requires UniqueKeys(s, key)
    ensures UniqueKeys(RemoveKey(s, key, id), key)
  {
    if s != [] {
      var rest := RemoveKey(s[1..], key, id);
      assert UniqueKeys(s[1..], key) by {
        forall i, j | 0 <= i < j < |s| - 1 ensures key(s[1..][i]) != key(s[1..][j]) {
          assert s[1..][i] == s[i + 1] && s[1..][j] == s[j + 1];
        }
      }
      RemoveKeyKeepsUnique(s[1..], key, id);
      if key(s[0]) != id {
        forall j | 0 <= j < |rest| ensures key(s[0]) != key(rest[j]) {
          RemoveKeyMember(s[1..], key, id, rest[j]);
          var m :| 0 <= m < |s[1..]| && s[1..][m] == rest[j];
          assert s[m + 1] == rest[j];
        }
        var r := [s[0]] + rest;
        forall i, j | 0 <= i < j < |r| ensures key(r[i]) != key(r[j]) {
          if i == 0 {
            assert r[j] == rest[j - 1];
          } else {
            assert r[i] == rest[i - 1] && r[j] == rest[j - 1];
          }
        }
      }
    }
  }

  /** Updating with a key-preserving `f` keeps keys unique. */
  lemma UpdateKeyKeepsUnique<T>(s: seq<T>, key: T -> string, id: string, f: T -> T)
    requires UniqueKeys(s, key)
    requires forall x :: key(f(x)) == key(x)
    ensures UniqueKeys(UpdateKey(s, key, id, f), key)
  {
    var r := UpdateKey(s, key, id, f);
    UpdateKeyIndex(s, key, id, f);
    forall i | 0 <= i < |s| ensures key(r[i]) == key(s[i]) {
      assert r[i] == if key(s[i]) == id then f(s[i]) else s[i];
    }
  }

  /** Updating a key that is absent leaves the list unchanged. */
  lemma UpdateKeyAbsent<T>(s: seq<T>, key: T -> string, id: string, f: T -> T)
    requires !HasKey(s, key, id)
    ensures UpdateKey(s, key, id, f) == s
  {
    var r := UpdateKey(s, key, id, f);
    UpdateKeyIndex(s, key, id, f);
    forall i | 0 <= i < |s| ensures r[i] == s[i] {
      assert key(s[i]) != id;
    }
  }

  /** Updating distributes over concatenation. */
  lemma {:induction false} UpdateKeyAppend<T>(a: seq<T>, b: seq<T>, key: T -> string, id: string, f: T -> T)
    ensures UpdateKey(a + b, key, id, f) == UpdateKey(a, key, id, f) + UpdateKey(b, key, id, f)
  {
    if a == [] {
      assert a + b == b;
    } else {
      assert (a + b)[1..] == a[1..] + b;
      UpdateKeyAppend(a[1..], b, key, id, f);
    }
  }

  /** In a list with unique keys, updating the key at index k changes exactly that element. */
  lemma UpdateKeyAt<T>(s: seq<T>, key: T -> string, k: nat, f: T -> T)
    requires UniqueKeys(s, key) && k < |s|
    ensures UpdateKey(s, key, key(s[k]), f) == s[..k] + [f(s[k])] + s[k + 1..]
  {
    KeyOnlyAt(s, key, k);
    UpdateKeyAbsent(s[..k], key, key(s[k]), f);
    UpdateKeyAbsent(s[k + 1..], key, key(s[k]), f);
    Seqs.SplitAt(s, k);
    UpdateKeySplit(s[..k], s[k], s[k + 1..], key, f);
  }

  lemma UpdateKeySplit<T>(a: seq<T>, x: T, b: seq<T>, key: T -> string, f: T -> T)
    requires UpdateKey(a, key, key(x), f) == a && UpdateKey(b, key, key(x), f) == b
    ensures UpdateKey(a + [x] + b, key, key(x), f) == a + [f(x)] + b
  {
    UpdateKeyHead(x, b, key, f);
    Seqs.Assoc(a, [x], b);
    Seqs.Assoc(a, [f(x)], b);
    UpdateKeyAppend(a, [x] + b, key, key(x), f);
  }

  lemma UpdateKeyHead<T>(x: T, b: seq<T>, key: T -> string, f: T -> T)
    ensures UpdateKey([x] + b, key, key(x), f) == [f(x)] + UpdateKey(b, key, key(x), f)
  {
    assert ([x] + b)[1..] == b;
  }

  /** Two positions of a list with unique keys hold different keys. */
  lemma KeyDiffers<T>(s: seq<T>, key: T -> string, i: nat, j: nat)
    requires UniqueKeys(s, key) && i < |s| && j < |s| && i != j
    ensures key(s[i]) != key(s[j])
  {
    if i > j {
      assert key(s[j]) != key(s[i]);
    }
  }
}
