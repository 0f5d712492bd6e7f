/** The list expressions the pages use on category selections: `filter(c => c !== x)`,
    "append if absent", and the toggle `includes(x) ? filter(...) : [...xs, x]`. */
module Lists {

  /** A category name. */
  type Category = string

  /** No entry occurs twice. */
  predicate NoDup(xs: seq<Category>) {
    forall i, j :: 0 <= i < j < |xs| ==> xs[i] != xs[j]
  }

  /** A list is duplicate-free exactly when its head is absent from its duplicate-free tail. */
  lemma NoDupUncons(xs: seq<Category>)
    requires |xs| > 0
    ensures NoDup(xs) <==> NoDup(xs[1..]) && xs[0] !in xs[1..]
  {
    if NoDup(xs) {
      forall i, j | 0 <= i < j < |xs[1..]| ensures xs[1..][i] != xs[1..][j] {
        assert xs[1..][i] == xs[i + 1] && xs[1..][j] == xs[j + 1];
      }
      forall i | 0 <= i < |xs[1..]| ensures xs[1..][i] != xs[0] {
        assert xs[1..][i] == xs[i + 1];
      }
    }
    if NoDup(xs[1..]) && xs[0] !in xs[1..] {
      forall i, j | 0 <= i < j < |xs| ensures xs[i] != xs[j] {
        assert xs[j] == xs[1..][j - 1];
        if i > 0 {
          assert xs[i] == xs[1..][i - 1];
        }
      }
    }
  }

  /** `xs.filter(c => c !== x)`: every occurrence of `x` dropped, every other entry
      kept (as often as it was, by `WithoutCounts`, and in order, by `WithoutAppend`). */
  function Without(xs: seq<Category>, x: Category): (r: seq<Category>)
    ensures x !in r
    ensures forall y :: y != x ==> (y in r <==> y in xs)
    ensures x !in xs ==> r == xs
    ensures NoDup(xs) ==> NoDup(r)
  {
    if |xs| == 0 then []
    else
      NoDupUncons(xs);
      (if xs[0] == x then [] else [xs[0]]) + Without(xs[1..], x)
  }

  /** The filter drops the copies of `x` and keeps every other entry as often as it
      occurs. */
  lemma {:induction false} WithoutCounts(xs: seq<Category>, x: Category)
    ensures multiset(Without(xs, x)) == multiset(xs)[x := 0]
    decreases |xs|
  {
    if |xs| > 0 {
      WithoutCounts(xs[1..], x);
      assert xs == [xs[0]] + xs[1..];
      assert multiset(xs) == multiset([xs[0]]) + multiset(xs[1..]);
    }
  }

  /** The filter works entry by entry, so the kept entries stay in their order:
      filtering a concatenation filters each part. */
  lemma {:induction false} WithoutAppend(a: seq<Category>, b: seq<Category>, x: Category)
    ensures Without(a + b, x) == Without(a, x) + Without(b, x)
    decreases |a|
  {
    if |a| == 0 {
      assert a + b == b;
    } else {
      assert (a + b)[0] == a[0] && (a + b)[1..] == a[1..] + b;
      WithoutAppend(a[1..], b, x);
    }
  }

  /** `xs.includes(x) ? xs : [...xs, x]`. */
  function AddIfAbsent(xs: seq<Category>, x: Category): (r: seq<Category>)
    ensures x in r
    ensures forall y :: y != x ==> (y in r <==> y in xs)
    ensures NoDup(xs) ==> NoDup(r)
    ensures xs <= r && |r| <= |xs| + 1
    ensures x in xs ==> r == xs
    ensures x !in xs ==> r == xs + [x]
  {
    if x in xs then xs else xs + [x]
  }

  /** `xs.includes(x) ? xs.filter(c => c !== x) : [...xs, x]`: flips the membership
      of `x` and of nothing else. */
  function Toggle(xs: seq<Category>, x: Category): (r: seq<Category>)
    ensures x in r <==> x !in xs
    ensures x !in xs ==> r == xs + [x]
    ensures x in xs ==> r == Without(xs, x)
    ensures forall y :: y != x ==> (y in r <==> y in xs)
    ensures NoDup(xs) ==> NoDup(r)
  {
    if x in xs then Without(xs, x) else xs + [x]
  }

  /** In a duplicate-free list, removing an entry cuts out exactly its position. */
  lemma WithoutAt(xs: seq<Category>, k: nat)
    requires NoDup(xs) && k < |xs|
    ensures Without(xs, xs[k]) == xs[..k] + xs[k + 1..]
  {
    OnlyAt(xs, k);
    assert xs == xs[..k] + [xs[k]] + xs[k + 1..];
    WithoutCut(xs[..k], xs[k], xs[k + 1..]);
  }

  /** Removing the one occurrence of an entry cuts it out and joins the two sides. */
  lemma WithoutCut(before: seq<Category>, x: Category, after: seq<Category>)
    requires x !in before && x !in after
    ensures Without(before + [x] + after, x) == before + after
  {
    var front := before + [x];
    WithoutAppend(front, after, x);
    assert Without(after, x) == after;
    WithoutAppend(before, [x], x);
    assert Without(before, x) == before;
    assert Without([x], x) == [] by {
      assert [x][1..] == [];
    }
    assert Without(front, x) == before;
  }

  /** In a duplicate-free list an entry occurs neither before nor after its position. */
  lemma OnlyAt(xs: seq<Category>, k: nat)
    requires NoDup(xs) && k < |xs|
    ensures xs[k] !in xs[..k] && xs[k] !in xs[k + 1..]
  {
    forall i | 0 <= i < k ensures xs[..k][i] != xs[k] {
      assert xs[..k][i] == xs[i];
    }
    var after := xs[k + 1..];
    forall i | 0 <= i < |after| ensures after[i] != xs[k] {
      assert after[i] == xs[k + 1 + i];
    }
  }

  /** Removing an entry that was just appended gives back the list it was appended to. */
  lemma {:induction false} WithoutAppended(xs: seq<Category>, x: Category)
    ensures Without(xs + [x], x) == Without(xs, x)
    decreases |xs|
  {
    if |xs| == 0 {
      assert Without([x], x) == [] + Without([x][1..], x);
    } else {
      assert (xs + [x])[1..] == xs[1..] + [x];
      WithoutAppended(xs[1..], x);
    }
  }

  /** Toggling an absent entry twice gives back the very same list. */
  lemma ToggleTwiceAbsent(xs: seq<Category>, x: Category)
    requires x !in xs
    ensures Toggle(Toggle(xs, x), x) == xs
  {
    WithoutAppended(xs, x);
  }

  /** Cutting one position out and putting its entry at the end keeps the multiset. */
  lemma MoveToEnd(xs: seq<Category>, k: nat)
    requires k < |xs|
    ensures multiset(xs[..k] + xs[k + 1..] + [xs[k]]) == multiset(xs)
  {
    assert xs == xs[..k] + [xs[k]] + xs[k + 1..];
  }

  /** Toggling a present entry twice, in a duplicate-free list, moves it to the end:
      the same entries are there, each as often as before. */
  lemma ToggleTwicePresent(xs: seq<Category>, x: Category)
    requires NoDup(xs) && x in xs
    ensures Toggle(Toggle(xs, x), x) == Without(xs, x) + [x]
    ensures multiset(Toggle(Toggle(xs, x), x)) == multiset(xs)
  {
    var k :| 0 <= k < |xs| && xs[k] == x;
    var once := Without(xs, x);
    assert Toggle(xs, x) == once;
    assert Toggle(once, x) == once + [x];
    WithoutAt(xs, k);
    MoveToEnd(xs, k);
  }
}
