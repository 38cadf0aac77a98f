/**
  Growable arrays of deps/ev/ev.c: array_nextsize and array_needsize.
 */
module Arrays {

  const MALLOC_ROUND: nat := 4096
  const SLACK: nat := 32  // four pointers, on a 64-bit machine

  // the capacity that the doubling loop settles on
  function Doubled(ncur: nat, cnt: int): (r: nat)
    requires ncur > 0
    ensures r >= cnt && r >= ncur
    decreases cnt - ncur
  {
    if cnt > ncur then Doubled(2 * ncur, cnt) else ncur
  }

  // the malloc-friendly capacity of at least ncur elements
  function Rounded(elem: nat, ncur: nat): int
    requires elem > 0
  {
    if elem * ncur > MALLOC_ROUND - SLACK then
      var bytes := ncur * elem + elem + (MALLOC_ROUND - 1) + SLACK;
      (bytes - bytes % MALLOC_ROUND - SLACK) / elem
    else
      ncur
  }

  function NextSize(elem: nat, cur: nat, cnt: int): int
    requires elem > 0
  {
    Rounded(elem, Doubled(2 * (cur + 1), cnt))
  }

  lemma TimesOrder(elem: nat, a: int, b: int)
    requires elem * a < elem * b
    ensures a < b
  {
    assert elem * (b - a) == elem * b - elem * a;
  }

  lemma DivideBack(elem: nat, n: nat, x: int)
    requires elem > 0 && x >= elem * n
    ensures x / elem >= n
  {
    var q := x / elem;
    assert x == elem * q + x % elem;
    assert elem * (q + 1) == elem * q + elem;
    TimesOrder(elem, n, q + 1);
  }

  lemma RoundingNeverShrinks(elem: nat, ncur: nat)
    requires elem > 0
    ensures Rounded(elem, ncur) >= ncur
  {
    if elem * ncur > MALLOC_ROUND - SLACK {
      var bytes := ncur * elem + elem + (MALLOC_ROUND - 1) + SLACK;
      DivideBack(elem, ncur, bytes - bytes % MALLOC_ROUND - SLACK);
    }
  }

  // The new capacity covers the request and is at least double the old one.
  lemma NextSizeGrows(elem: nat, cur: nat, cnt: int)
    requires elem > 0
    ensures NextSize(elem, cur, cnt) >= cnt
    ensures NextSize(elem, cur, cnt) >= 2 * (cur + 1)
  {
    RoundingNeverShrinks(elem, Doubled(2 * (cur + 1), cnt));
  }

  lemma {:induction false} DoubledBound(ncur: nat, cnt: int)
    requires ncur > 0
    ensures Doubled(ncur, cnt) == ncur || Doubled(ncur, cnt) < 2 * cnt
    decreases cnt - ncur
  {
    if cnt > ncur {
      DoubledBound(2 * ncur, cnt);
    }
  }

  // A large array fills whole pages, but for the slack and less than one element.
  lemma RoundedFits(elem: nat, ncur: nat)
    requires elem > 0 && elem * ncur > MALLOC_ROUND - SLACK
    ensures exists pages: nat :: pages * MALLOC_ROUND - elem < elem * Rounded(elem, ncur) + SLACK <= pages * MALLOC_ROUND
    ensures elem * Rounded(elem, ncur) < elem * ncur + elem + MALLOC_ROUND
  {
    var bytes := ncur * elem + elem + (MALLOC_ROUND - 1) + SLACK;
    var pages, room := bytes / MALLOC_ROUND, bytes - bytes % MALLOC_ROUND - SLACK;
    assert room == pages * MALLOC_ROUND - SLACK;
    assert room == elem * (room / elem) + room % elem;
  }

  // It is no larger than it has to be: less than twice the request or just double the old one, and less than one
  // element and one page more if that is large.
  lemma NextSizeBound(elem: nat, cur: nat, cnt: int)
    requires elem > 0
    ensures var n := Doubled(2 * (cur + 1), cnt);
            && (n == 2 * (cur + 1) || n < 2 * cnt)
            && (if elem * n > MALLOC_ROUND - SLACK then elem * NextSize(elem, cur, cnt) < elem * n + elem + MALLOC_ROUND
                else NextSize(elem, cur, cnt) == n)
  {
    var n := Doubled(2 * (cur + 1), cnt);
    DoubledBound(2 * (cur + 1), cnt);
    if elem * n > MALLOC_ROUND - SLACK {
      RoundedFits(elem, n);
    }
  }

  // elements copied while an empty array grows to n elements one at a time
  function Copies(elem: nat, cur: nat, n: nat): nat
    requires elem > 0
    decreases n - cur
  {
    if cur >= n then 0
    else
      NextSizeGrows(elem, cur, cur + 1);
      cur + Copies(elem, NextSize(elem, cur, cur + 1), n)
  }

  lemma {:induction false} CopiesBelow(elem: nat, cur: nat, n: nat)
    requires elem > 0 && cur < n
    ensures cur + Copies(elem, cur, n) < 2 * n
    decreases n - cur
  {
    NextSizeGrows(elem, cur, cur + 1);
    var next := NextSize(elem, cur, cur + 1);
    if next < n {
      CopiesBelow(elem, next, n);
    }
  }

  // Growth is amortised: fewer than two copies per element.
  lemma AmortisedGrowth(elem: nat, n: nat)
    requires elem > 0 && n > 0
    ensures Copies(elem, 0, n) < 2 * n
  {
    CopiesBelow(elem, 0, n);
  }

  // array_nextsize
  method ArrayNextSize(elem: nat, cur: nat, cnt: int) returns (ncur: int)
    requires elem > 0
    ensures ncur == NextSize(elem, cur, cnt)
  {
    ncur := cur + 1;
    ncur := ncur * 2;
    while cnt > ncur
      invariant ncur > 0 && Doubled(ncur, cnt) == Doubled(2 * (cur + 1), cnt)
      decreases cnt - ncur
    {
      ncur := ncur * 2;
    }
    ncur := Rounded(elem, ncur);
  }

  // array_needsize: the first cnt slots become usable, old elements keep their place
  method NeedSize<T>(elem: nat, base: array<T>, cnt: nat, init: T) returns (a: array<T>)
    requires elem > 0
    ensures a.Length >= cnt && a.Length >= base.Length && a[..base.Length] == base[..]
    ensures forall i :: base.Length <= i < a.Length ==> a[i] == init
    ensures if cnt > base.Length then fresh(a) && a.Length == NextSize(elem, base.Length, cnt) else a == base
  {
    if cnt > base.Length {
      var cur := ArrayNextSize(elem, base.Length, cnt);
      NextSizeGrows(elem, base.Length, cnt);
      a := new T[cur](i requires 0 <= i reads base => if i < base.Length then base[i] else init);
    } else {
      a := base;
    }
  }
}
