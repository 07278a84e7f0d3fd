/** The ordered custom-header list of a websocket-sharp request
    (`List<KeyValuePair<string, string>>`) and its replace-style updates. */
module Headers {
  import opened Wrappers

  datatype Header = Header(key: string, value: string)

  /** The entries whose key is not in `keys`, in their original order. */
  function WithoutKeys(hs: seq<Header>, keys: set<string>): (r: seq<Header>)
    ensures |r| <= |hs|
  {
    if |hs| == 0 then []
    else
      (if hs[0].key in keys then [] else [hs[0]]) + WithoutKeys(hs[1..], keys)
  }

  /** The entries whose key is `k`, in their original order. */
  function OnlyKey(hs: seq<Header>, k: string): (r: seq<Header>)
    ensures forall i :: 0 <= i < |r| ==> r[i].key == k
  {
    if |hs| == 0 then []
    else (if hs[0].key == k then [hs[0]] else []) + OnlyKey(hs[1..], k)
  }

  /** Some entry of `hs` has key `k`. */
  predicate HasKey(hs: seq<Header>, k: string) {
    exists i :: 0 <= i < |hs| && hs[i].key == k
  }

  /** The header list after setting `k` to `v`: every entry with key `k`
      removed, then the new pair appended. */
  function Replace(hs: seq<Header>, k: string, v: string): seq<Header> {
    WithoutKeys(hs, {k}) + [Header(k, v)]
  }

  /** `SetHeader`: walks the list from the back, removing each entry with key
      `k`, then appends the new pair. */
  method SetHeader(hs: seq<Header>, k: string, v: string) returns (r: seq<Header>)
    ensures r == Replace(hs, k, v)
    ensures |r| > 0 && r[|r| - 1] == Header(k, v)
  {
    r := hs;
    var i := |hs| - 1;
    while i >= 0
      invariant -1 <= i < |hs|
      invariant r == hs[..i + 1] + WithoutKeys(hs[i + 1..], {k})
    {
      ghost var tail := WithoutKeys(hs[i + 1..], {k});
      WithoutKeysStep(hs, i, k);
      assert r == hs[..i] + [hs[i]] + tail;
      if r[i].key == k {
        assert r[..i] == hs[..i] && r[i + 1..] == tail;
        r := r[..i] + r[i + 1..];
      }
      i := i - 1;
    }
    assert hs[..0] == [] && hs[0..] == hs;
    r := r + [Header(k, v)];
  }

  /** One step of the backward walk: the suffix from `i` filters to the
      filtered entry `i` followed by the filtered suffix after it. */
  lemma WithoutKeysStep(hs: seq<Header>, i: int, k: string)
    requires 0 <= i < |hs|
    ensures hs[..i + 1] + WithoutKeys(hs[i + 1..], {k})
         == hs[..i] + [hs[i]] + WithoutKeys(hs[i + 1..], {k})
    ensures hs[..i] + WithoutKeys(hs[i..], {k})
         == hs[..i] + (if hs[i].key == k then [] else [hs[i]]) + WithoutKeys(hs[i + 1..], {k})
  {
    assert hs[i..][1..] == hs[i + 1..];
    assert hs[..i + 1] == hs[..i] + [hs[i]];
  }

  lemma {:induction false} WithoutKeysAppend(a: seq<Header>, b: seq<Header>, keys: set<string>)
    ensures WithoutKeys(a + b, keys) == WithoutKeys(a, keys) + WithoutKeys(b, keys)
  {
    if |a| > 0 {
      assert (a + b)[1..] == a[1..] + b;
      WithoutKeysAppend(a[1..], b, keys);
    } else {
      assert a + b == b;
    }
  }

  lemma {:induction false} OnlyKeyAppend(a: seq<Header>, b: seq<Header>, k: string)
    ensures OnlyKey(a + b, k) == OnlyKey(a, k) + OnlyKey(b, k)
  {
    if |a| > 0 {
      assert (a + b)[1..] == a[1..] + b;
      OnlyKeyAppend(a[1..], b, k);
    } else {
      assert a + b == b;
    }
  }

  lemma {:induction false} WithoutKeysTwice(hs: seq<Header>, a: set<string>, b: set<string>)
    ensures WithoutKeys(WithoutKeys(hs, a), b) == WithoutKeys(hs, a + b)
  {
    if |hs| > 0 {
      WithoutKeysTwice(hs[1..], a, b);
      var head := if hs[0].key in a then [] else [hs[0]];
      WithoutKeysAppend(head, WithoutKeys(hs[1..], a), b);
    }
  }

  lemma {:induction false} OnlyKeyOfWithout(hs: seq<Header>, keys: set<string>, k: string)
    ensures OnlyKey(WithoutKeys(hs, keys), k) == if k in keys then [] else OnlyKey(hs, k)
  {
    if |hs| > 0 {
      OnlyKeyOfWithout(hs[1..], keys, k);
      var head := if hs[0].key in keys then [] else [hs[0]];
      OnlyKeyAppend(head, WithoutKeys(hs[1..], keys), k);
    }
  }

  /** The replace-style update leaves exactly one `k` entry, last, and keeps
      every other entry in order. */
  lemma ReplaceProperties(hs: seq<Header>, k: string, v: string)
    ensures OnlyKey(Replace(hs, k, v), k) == [Header(k, v)]
    ensures WithoutKeys(Replace(hs, k, v), {k}) == WithoutKeys(hs, {k})
    ensures forall j :: j != k ==> OnlyKey(Replace(hs, k, v), j) == OnlyKey(hs, j)
  {
    var w := WithoutKeys(hs, {k});
    OnlyKeyAppend(w, [Header(k, v)], k);
    OnlyKeyOfWithout(hs, {k}, k);
    assert OnlyKey([Header(k, v)], k) == [Header(k, v)];
    WithoutKeysAppend(w, [Header(k, v)], {k});
    WithoutKeysTwice(hs, {k}, {k});
    assert {k} + {k} == {k};
    assert WithoutKeys([Header(k, v)], {k}) == [];
    forall j | j != k
      ensures OnlyKey(Replace(hs, k, v), j) == OnlyKey(hs, j)
    {
      OnlyKeyAppend(w, [Header(k, v)], j);
      OnlyKeyOfWithout(hs, {k}, j);
      assert OnlyKey([Header(k, v)], j) == [];
    }
  }

  /** `GetHeader`: the value of the first entry with key `k`, or null. */
  function GetHeader(hs: seq<Header>, k: string): (r: Option<string>)
    ensures r.None? <==> !HasKey(hs, k)
    ensures r.Some? ==> |OnlyKey(hs, k)| > 0 && r.value == OnlyKey(hs, k)[0].value
  {
    if |hs| == 0 then None
    else if hs[0].key == k then Some(hs[0].value)
    else
      var r := GetHeader(hs[1..], k);
      assert HasKey(hs, k) <==> HasKey(hs[1..], k) by {
        if HasKey(hs, k) {
          var i :| 0 <= i < |hs| && hs[i].key == k;
          assert hs[1..][i - 1].key == k;
        }
        if HasKey(hs[1..], k) {
          var i :| 0 <= i < |hs[1..]| && hs[1..][i].key == k;
          assert hs[i + 1].key == k;
        }
      }
      r
  }

  /** A header just set is read back. */
  lemma GetAfterReplace(hs: seq<Header>, k: string, v: string)
    ensures GetHeader(Replace(hs, k, v), k) == Some(v)
  {
    ReplaceProperties(hs, k, v);
    var r := Replace(hs, k, v);
    assert r[|r| - 1].key == k;
    assert HasKey(r, k);
  }

  /** `SetRequestHeaders` after its null check: `SetHeader` for each entry of
      the dictionary, in enumeration order. */
  function SetHeaders(hs: seq<Header>, entries: seq<Header>): seq<Header>
    decreases entries
  {
    if |entries| == 0 then hs
    else SetHeaders(Replace(hs, entries[0].key, entries[0].value), entries[1..])
  }

  /** The value the last entry with key `k` carries. */
  function LastValue(entries: seq<Header>, k: string): string
    requires HasKey(entries, k)
  {
    var ks := OnlyKey(entries, k);
    OnlyKeyNonEmpty(entries, k);
    ks[|ks| - 1].value
  }

  lemma {:induction false} OnlyKeyNonEmpty(hs: seq<Header>, k: string)
    ensures HasKey(hs, k) <==> |OnlyKey(hs, k)| > 0
  {
    if |hs| > 0 {
      OnlyKeyNonEmpty(hs[1..], k);
      assert HasKey(hs, k) <==> hs[0].key == k || HasKey(hs[1..], k) by {
        if HasKey(hs, k) && hs[0].key != k {
          var i :| 0 <= i < |hs| && hs[i].key == k;
          assert hs[1..][i - 1].key == k;
        }
        if HasKey(hs[1..], k) {
          var i :| 0 <= i < |hs[1..]| && hs[1..][i].key == k;
          assert hs[i + 1].key == k;
        }
      }
    }
  }

  /** Entries whose key none of `entries` sets keep their values and order. */
  lemma {:induction false} SetHeadersKeepsOthers(hs: seq<Header>, entries: seq<Header>, keys: set<string>)
    requires forall i :: 0 <= i < |entries| ==> entries[i].key in keys
    ensures WithoutKeys(SetHeaders(hs, entries), keys) == WithoutKeys(hs, keys)
    decreases entries
  {
    if |entries| > 0 {
      var k := entries[0].key;
      var v := entries[0].value;
      SetHeadersKeepsOthers(Replace(hs, k, v), entries[1..], keys);
      WithoutKeysAppend(WithoutKeys(hs, {k}), [Header(k, v)], keys);
      WithoutKeysTwice(hs, {k}, keys);
      assert {k} + keys == keys;
      assert WithoutKeys([Header(k, v)], keys) == [];
    }
  }

  /** A key no entry sets keeps exactly its entries. */
  lemma {:induction false} SetHeadersKeepsKey(hs: seq<Header>, entries: seq<Header>, k: string)
    requires !HasKey(entries, k)
    ensures OnlyKey(SetHeaders(hs, entries), k) == OnlyKey(hs, k)
    decreases entries
  {
    if |entries| > 0 {
      assert entries[0].key != k;
      ReplaceProperties(hs, entries[0].key, entries[0].value);
      SetHeadersKeepsKey(Replace(hs, entries[0].key, entries[0].value), entries[1..], k);
    }
  }

  /** Every key that `entries` sets ends up in exactly one entry, holding the
      value of the key's last occurrence: a later value wins. */
  lemma {:induction false} SetHeadersLastWins(hs: seq<Header>, entries: seq<Header>, k: string)
    requires HasKey(entries, k)
    ensures OnlyKey(SetHeaders(hs, entries), k) == [Header(k, LastValue(entries, k))]
    decreases entries
  {
    var head, rest := entries[0], entries[1..];
    var next := Replace(hs, head.key, head.value);
    assert entries == [head] + rest;
    OnlyKeyAppend([head], rest, k);
    if HasKey(rest, k) {
      SetHeadersLastWins(next, rest, k);
      OnlyKeyNonEmpty(rest, k);
    } else {
      assert head.key == k;
      SetHeadersKeepsKey(next, rest, k);
      ReplaceProperties(hs, k, head.value);
      OnlyKeyNonEmpty(rest, k);
    }
  }
}
