/** Folding a sequence into another one, and splitting a tagged sequence by tag. */
module Sequences {

  /** Replaces every element by what `f` makes of it. */
  function Collect<T, U>(f: T -> seq<U>, s: seq<T>): seq<U>
  {
    if s == [] then [] else Collect(f, s[..|s| - 1]) + f(s[|s| - 1])
  }

  lemma CollectLast<T, U>(f: T -> seq<U>, s: seq<T>, x: T)
    ensures Collect(f, s + [x]) == Collect(f, s) + f(x)
  {
    assert (s + [x])[..|s|] == s;
  }

  lemma {:induction false} CollectAppend<T, U>(f: T -> seq<U>, a: seq<T>, b: seq<T>)
    ensures Collect(f, a + b) == Collect(f, a) + Collect(f, b)
  {
    if b == [] {
      assert a + b == a;
    } else {
      var init, last := b[..|b| - 1], b[|b| - 1];
      assert a + b == (a + init) + [last];
      CollectAppend(f, a, init);
      CollectLast(f, a + init, last);
    }
  }

  lemma LastApart<T>(a: seq<T>, b: seq<T>)
    requires b != []
    ensures a + b == (a + b[..|b| - 1]) + [b[|b| - 1]]
  {
  }

  /** The values carrying tag `t`, in order. */
  function Tagged<U>(items: seq<(nat, U)>, t: nat): seq<U>
  {
    if items == [] then []
    else
      var last := items[|items| - 1];
      Tagged(items[..|items| - 1], t) + if last.0 == t then [last.1] else []
  }

  /** The values with tags 0, 1, ..., k-1, one tag after the other. */
  function ByTag<U>(items: seq<(nat, U)>, k: nat): seq<U>
  {
    if k == 0 then [] else ByTag(items, k - 1) + Tagged(items, k - 1)
  }

  /** The first `k` parts, one after the other. */
  function Concat<U>(parts: seq<seq<U>>, k: nat): seq<U>
    requires k <= |parts|
  {
    if k == 0 then [] else Concat(parts, k - 1) + parts[k - 1]
  }

  lemma {:induction false} ConcatByTag<U>(parts: seq<seq<U>>, items: seq<(nat, U)>, k: nat)
    requires k <= |parts| && forall c :: 0 <= c < k ==> parts[c] == Tagged(items, c)
    ensures Concat(parts, k) == ByTag(items, k)
  {
    if k > 0 {
      ConcatByTag(parts, items, k - 1);
    }
  }

  function Values<U>(items: seq<(nat, U)>): seq<U>
  {
    if items == [] then [] else Values(items[..|items| - 1]) + [items[|items| - 1].1]
  }

  ghost predicate Rising<U>(items: seq<(nat, U)>, k: nat)
  {
    && (forall i :: 0 <= i < |items| ==> items[i].0 < k)
    && (forall i, j :: 0 <= i < j < |items| ==> items[i].0 <= items[j].0)
  }

  lemma {:induction false} NoTag<U>(items: seq<(nat, U)>, t: nat)
    requires forall i :: 0 <= i < |items| ==> items[i].0 != t
    ensures Tagged(items, t) == []
  {
    if items != [] {
      NoTag(items[..|items| - 1], t);
    }
  }

  lemma TaggedLast<U>(items: seq<(nat, U)>, x: (nat, U), t: nat)
    ensures Tagged(items + [x], t) == Tagged(items, t) + if x.0 == t then [x.1] else []
  {
    assert (items + [x])[..|items|] == items;
  }

  lemma {:induction false} ByTagLast<U>(items: seq<(nat, U)>, x: (nat, U), k: nat)
    requires forall i :: 0 <= i < |items| ==> items[i].0 <= x.0
    ensures ByTag(items + [x], k) == ByTag(items, k) + if x.0 < k then [x.1] else []
  {
    if k > 0 {
      ByTagLast(items, x, k - 1);
      TaggedLast(items, x, k - 1);
      if x.0 < k - 1 {
        NoTag(items, k - 1);
      }
    }
  }

  /** When tags never decrease, reading tag after tag gives back the whole sequence. */
  lemma {:induction false} SplitByTag<U>(items: seq<(nat, U)>, k: nat)
    requires Rising(items, k)
    ensures ByTag(items, k) == Values(items)
  {
    if items == [] {
      NothingTagged<U>(k);
    } else {
      var init := items[..|items| - 1];
      assert items == init + [items[|items| - 1]];
      SplitByTag(init, k);
      ByTagLast(init, items[|items| - 1], k);
    }
  }

  lemma {:induction false} NothingTagged<U>(k: nat)
    ensures ByTag<U>([], k) == []
  {
    if k > 0 {
      NothingTagged<U>(k - 1);
    }
  }
}
