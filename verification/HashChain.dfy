// Lists whose every item names the digest of the item before it.
module HashChain {
  import opened Wrappers

  function Before<T, D>(items: seq<T>, i: nat, digest: T -> D): Option<D>
    requires i <= |items|
  {
    if i == 0 then None else Some(digest(items[i - 1]))
  }

  predicate Linked<T, D(==)>(items: seq<T>, n: nat, link: T -> Option<D>, digest: T -> D)
    requires n <= |items|
  {
    forall i | 0 <= i < n :: link(items[i]) == Before(items, i, digest)
  }

  ghost predicate Injective<T(!new), D>(digest: T -> D) {
    forall x, y | digest(x) == digest(y) :: x == y
  }

  // With a digest that never repeats, the last item determines everything before it.
  lemma {:induction false} LastDetermines<T(!new), D>(a: seq<T>, n: nat, b: seq<T>, m: nat,
                                                      link: T -> Option<D>, digest: T -> D)
    requires Injective(digest) && 0 < n <= |a| && 0 < m <= |b|
    requires Linked(a, n, link, digest) && Linked(b, m, link, digest) && a[n - 1] == b[m - 1]
    ensures n == m && forall i | 0 <= i < n :: a[i] == b[i]
  {
    assert Before(a, n - 1, digest) == Before(b, m - 1, digest);
    if n > 1 && m > 1 {
      LastDetermines(a, n - 1, b, m - 1, link, digest);
    }
  }
}
