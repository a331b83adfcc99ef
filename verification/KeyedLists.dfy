/** Lists that keep the first item of each key: the `seen` loops, and `dict.fromkeys`. */
module KeyedLists {

  function Itself(s: string): string { s }

  function Keys<T, K(==)>(items: seq<T>, key: T -> K): set<K> {
    set i | 0 <= i < |items| :: key(items[i])
  }

  /** Appends, in order, the items whose key is not there yet: the `seen` loops. */
  function Merged<T, K(==)>(out: seq<T>, items: seq<T>, key: T -> K): seq<T>
    decreases |items|
  {
    if items == [] then out
    else if key(items[0]) in Keys(out, key) then Merged(out, items[1..], key)
    else Merged(out + [items[0]], items[1..], key)
  }

  ghost predicate Distinct<T, K>(items: seq<T>, key: T -> K) {
    forall i, j :: 0 <= i < j < |items| ==> key(items[i]) != key(items[j])
  }

  lemma KeysOfAppend<T, K>(out: seq<T>, item: T, key: T -> K)
    ensures Keys(out + [item], key) == Keys(out, key) + {key(item)}
  {
    var after := out + [item];
    assert after[|out|] == item && forall i :: 0 <= i < |out| ==> after[i] == out[i];
  }

  lemma MergedStep<T, K>(out: seq<T>, item: T, items: seq<T>, key: T -> K)
    ensures Merged(out, [item] + items, key) ==
            Merged(if key(item) in Keys(out, key) then out else out + [item], items, key)
  {
    assert ([item] + items)[1..] == items;
  }

  /** It keeps what was there, adds every key once, and takes nothing from elsewhere. */
  lemma {:induction false} MergedKeys<T, K>(out: seq<T>, items: seq<T>, key: T -> K)
    requires Distinct(out, key)
    ensures var m := Merged(out, items, key);
            out <= m && Distinct(m, key) && Keys(m, key) == Keys(out, key) + Keys(items, key)
    ensures forall x :: x in Merged(out, items, key) ==> x in out || x in items
    decreases |items|
  {
    if items != [] {
      assert items == [items[0]] + items[1..];
      KeysOfPrepend(items, key);
      KeysOfAppend(out, items[0], key);
      var next := if key(items[0]) in Keys(out, key) then out else out + [items[0]];
      MergedKeys(next, items[1..], key);
    }
  }

  lemma {:induction false} MergedInParts<T, K>(out: seq<T>, a: seq<T>, b: seq<T>, key: T -> K)
    ensures Merged(out, a + b, key) == Merged(Merged(out, a, key), b, key)
    decreases |a|
  {
    if a == [] {
      assert a + b == b;
    } else {
      assert (a + b)[0] == a[0] && (a + b)[1..] == a[1..] + b;
      MergedInParts(if key(a[0]) in Keys(out, key) then out else out + [a[0]], a[1..], b, key);
    }
  }

  /** An item whose key was there before is one that was there before. */
  lemma {:induction false} EarlierWins<T, K>(out: seq<T>, items: seq<T>, key: T -> K, x: T)
    requires x in Merged(out, items, key) && key(x) in Keys(out, key)
    ensures x in out
    decreases |items|
  {
    if items != [] {
      if key(items[0]) in Keys(out, key) {
        EarlierWins(out, items[1..], key, x);
      } else {
        KeysOfAppend(out, items[0], key);
        EarlierWins(out + [items[0]], items[1..], key, x);
      }
    }
  }

  lemma KeysOfPrepend<T, K>(items: seq<T>, key: T -> K)
    requires items != []
    ensures Keys(items, key) == {key(items[0])} + Keys(items[1..], key)
  {
    assert forall i :: 1 <= i < |items| ==> items[i] == items[1..][i - 1];
  }

  /** Merging what is already there changes nothing. */
  lemma {:induction false} MergedAgain<T, K>(out: seq<T>, items: seq<T>, key: T -> K)
    requires Keys(items, key) <= Keys(out, key)
    ensures Merged(out, items, key) == out
    decreases |items|
  {
    if items != [] {
      KeysOfPrepend(items, key);
      MergedAgain(out, items[1..], key);
    }
  }

  /** Nothing is dropped exactly when no key repeats. */
  lemma {:induction false} MergedIsAppend<T, K>(out: seq<T>, items: seq<T>, key: T -> K)
    requires Distinct(out, key)
    ensures Merged(out, items, key) == out + items <==> Distinct(out + items, key)
    ensures |Merged(out, items, key)| <= |out| + |items|
    ensures |Merged(out, items, key)| == |out| + |items| ==> Merged(out, items, key) == out + items
    decreases |items|
  {
    if items == [] {
      assert out + items == out;
    } else {
      var whole := out + items;
      assert whole[|out|] == items[0];
      assert (out + [items[0]]) + items[1..] == whole;
      if key(items[0]) in Keys(out, key) {
        var i :| 0 <= i < |out| && key(out[i]) == key(items[0]);
        assert whole[i] == out[i];
        MergedIsAppend(out, items[1..], key);
      } else {
        MergedIsAppend(out + [items[0]], items[1..], key);
      }
    }
  }
}
