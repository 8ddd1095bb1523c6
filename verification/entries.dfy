/** Ledger entries and the two list operations the ledger is built from:
    the amount total (`reduce`) and removal by id (`filter`). */
module Entries {

  /** One income or expense line. `id` is the `Date.now()` value at creation
      time; nothing makes it unique within a list. */
  datatype Entry = Entry(id: int, description: string, amount: real)

  // ---------------------------------------------------------------------
  // Totals

  /** Reference definition of the sum of the amounts, by structural
      recursion from the right. */
  function Sum(items: seq<Entry>): real
    decreases |items|
  {
    if |items| == 0 then 0.0 else items[0].amount + Sum(items[1..])
  }

  /** `items.reduce((sum, item) => sum + item.amount, acc)`: a left fold
      that adds the amounts to `acc` from the first entry to the last. Started
      at any accumulator, it adds exactly the reference sum to it. */
  function FoldAmounts(acc: real, items: seq<Entry>): (r: real)
    ensures r == acc + Sum(items)
    decreases |items|
  {
    if |items| == 0 then acc else FoldAmounts(acc + items[0].amount, items[1..])
  }

  /** The total of a list as the application computes it: the fold above
      started at 0. It equals the reference sum; the empty list totals 0. */
  function Total(items: seq<Entry>): (r: real)
    ensures r == Sum(items)
    ensures items == [] ==> r == 0.0
  {
    FoldAmounts(0.0, items)
  }

  /** The sum of a concatenation is the sum of the parts. */
  lemma {:induction false} SumAppend(a: seq<Entry>, b: seq<Entry>)
    ensures Sum(a + b) == Sum(a) + Sum(b)
    decreases |a|
  {
    if |a| == 0 {
      assert a + b == b;
    } else {
      assert (a + b)[1..] == a[1..] + b;
      SumAppend(a[1..], b);
    }
  }

  /** Appending one entry raises the total by exactly its amount. */
  lemma TotalAppendOne(items: seq<Entry>, e: Entry)
    ensures Total(items + [e]) == Total(items) + e.amount
  {
    SumAppend(items, [e]);
  }

  // ---------------------------------------------------------------------
  // Removal by id

  /** `items.filter(item => item.id !== id)`: keeps the entries whose id
      differs from `id` and drops every entry that carries it. */
  function Without(items: seq<Entry>, id: int): (r: seq<Entry>)
    ensures |r| <= |items|
    ensures forall e :: e in r <==> e in items && e.id != id
    decreases |items|
  {
    if |items| == 0 then []
    else if items[0].id == id then Without(items[1..], id)
    else [items[0]] + Without(items[1..], id)
  }

  /** The entries that `Without(items, id)` drops, in their original order. */
  function Matching(items: seq<Entry>, id: int): (r: seq<Entry>)
    ensures |r| <= |items|
    ensures forall e :: e in r <==> e in items && e.id == id
    decreases |items|
  {
    if |items| == 0 then []
    else if items[0].id == id then [items[0]] + Matching(items[1..], id)
    else Matching(items[1..], id)
  }

  /** Removal keeps relative order: filtering a concatenation filters each
      part and concatenates the results. */
  lemma {:induction false} WithoutAppend(a: seq<Entry>, b: seq<Entry>, id: int)
    ensures Without(a + b, id) == Without(a, id) + Without(b, id)
    decreases |a|
  {
    if |a| == 0 {
      assert a + b == b;
    } else {
      assert (a + b)[0] == a[0];
      assert (a + b)[1..] == a[1..] + b;
      WithoutAppend(a[1..], b, id);
    }
  }

  /** `a` is `b` with some elements left out: the elements of `a` occur in
      `b` in the same relative order. */
  predicate IsSubsequence<T(==)>(a: seq<T>, b: seq<T>)
    decreases |b|
  {
    || |a| == 0
    || (&& |b| > 0
        && ((a[0] == b[0] && IsSubsequence(a[1..], b[1..])) || IsSubsequence(a, b[1..])))
  }

  /** Removal only leaves entries out; the kept ones stay in their original
      relative order. */
  lemma {:induction false} WithoutIsSubsequence(items: seq<Entry>, id: int)
    ensures IsSubsequence(Without(items, id), items)
    decreases |items|
  {
    if |items| > 0 {
      WithoutIsSubsequence(items[1..], id);
      if items[0].id != id {
        assert ([items[0]] + Without(items[1..], id))[1..] == Without(items[1..], id);
      }
    }
  }

  /** The kept and the dropped entries together are a permutation of the
      original list: nothing is lost or duplicated, counting repeats. */
  lemma {:induction false} WithoutMatchingPartition(items: seq<Entry>, id: int)
    ensures multiset(Without(items, id)) + multiset(Matching(items, id)) == multiset(items)
    decreases |items|
  {
    if |items| > 0 {
      WithoutMatchingPartition(items[1..], id);
      assert items == [items[0]] + items[1..];
    }
  }

  /** The old total is the new total plus the amounts of the removed
      entries. */
  lemma {:induction false} SumPartition(items: seq<Entry>, id: int)
    ensures Sum(items) == Sum(Without(items, id)) + Sum(Matching(items, id))
    decreases |items|
  {
    if |items| > 0 {
      SumPartition(items[1..], id);
      if items[0].id != id {
        assert ([items[0]] + Without(items[1..], id))[1..] == Without(items[1..], id);
      } else {
        assert ([items[0]] + Matching(items[1..], id))[1..] == Matching(items[1..], id);
      }
    }
  }

  /** Removal is the identity exactly when no entry carries the id; when one
      does, the list gets strictly shorter. */
  lemma {:induction false} WithoutIdentityIffAbsent(items: seq<Entry>, id: int)
    ensures Without(items, id) == items <==> forall e :: e in items ==> e.id != id
    ensures (exists e :: e in items && e.id == id) ==> |Without(items, id)| < |items|
    decreases |items|
  {
    if |items| > 0 {
      WithoutIdentityIffAbsent(items[1..], id);
      assert items == [items[0]] + items[1..];
      if items[0].id != id && Without(items[1..], id) != items[1..] {
        assert Without(items, id)[1..] == Without(items[1..], id);
      }
    }
  }

  /** Appending an entry whose id no earlier entry carries, then removing
      that id, gives back the original list. */
  lemma WithoutFreshAppend(items: seq<Entry>, e: Entry)
    requires forall x :: x in items ==> x.id != e.id
    ensures Without(items + [e], e.id) == items
  {
    WithoutAppend(items, [e], e.id);
    WithoutIdentityIffAbsent(items, e.id);
  }

  /** Removing the same id twice equals removing it once. */
  lemma WithoutIdempotent(items: seq<Entry>, id: int)
    ensures Without(Without(items, id), id) == Without(items, id)
  {
    WithoutIdentityIffAbsent(Without(items, id), id);
  }

  /** Removals by two ids commute. */
  lemma {:induction false} WithoutCommutes(items: seq<Entry>, a: int, b: int)
    ensures Without(Without(items, a), b) == Without(Without(items, b), a)
    decreases |items|
  {
    if |items| > 0 {
      WithoutCommutes(items[1..], a, b);
      var x := items[0];
      var rest := items[1..];
      if x.id != a {
        WithoutAppend([x], Without(rest, a), b);
      }
      if x.id != b {
        WithoutAppend([x], Without(rest, b), a);
      }
    }
  }
}
