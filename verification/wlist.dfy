/**
  The singly linked watcher lists of deps/ev/ev.c.
 */
module WatcherLists {
  import opened Basics
  import opened Watchers

  ghost function At(l: seq<Watcher>, i: nat): Watcher? {
    if i < |l| then l[i] else null
  }

  // following the next pointers from head visits l
  ghost predicate Chained(head: Watcher?, l: seq<Watcher>)
    reads l`next
  {
    head == At(l, 0) && forall i {:trigger l[i].next} :: 0 <= i < |l| ==> l[i].next == At(l, i + 1)
  }

  lemma NextOfChain(head: Watcher?, l: seq<Watcher>, i: nat)
    requires Chained(head, l) && i < |l|
    ensures l[i].next == At(l, i + 1) && l[..i + 1] == l[..i] + [l[i]]
  {
  }

  // r is l with the element w taken out
  ghost predicate TakenOut(l: seq<Watcher>, w: Watcher, r: seq<Watcher>) {
    exists i :: 0 <= i < |l| && l[i] == w && r == l[..i] + l[i + 1..]
  }

  lemma TakenOutMembers(l: seq<Watcher>, w: Watcher, r: seq<Watcher>)
    requires Distinct(l) && TakenOut(l, w, r)
    ensures Distinct(r) && |r| == |l| - 1 && w in l
    ensures forall v :: v in r <==> v in l && v != w
  {
    var i :| 0 <= i < |l| && l[i] == w && r == l[..i] + l[i + 1..];
    assert forall j :: 0 <= j < |r| ==> r[j] == l[if j < i then j else j + 1];
    forall v | v in l && v != w
      ensures v in r
    {
      var j :| 0 <= j < |l| && l[j] == v;
      assert r[if j < i then j else j - 1] == v;
    }
  }

  // wlist_add
  method WlistAdd(head: Watcher?, elem: Watcher, ghost l: seq<Watcher>) returns (h: Watcher?)
    requires Chained(head, l) && elem !in l
    modifies elem`next
    ensures Chained(h, [elem] + l)
  {
    elem.next := head;
    h := elem;
    assert forall i :: 0 <= i < |l| ==> ([elem] + l)[i + 1] == l[i];
  }

  // wlist_del
  method WlistDel(head: Watcher?, elem: Watcher, ghost l: seq<Watcher>) returns (h: Watcher?, ghost r: seq<Watcher>)
    requires Chained(head, l) && Distinct(l)
    modifies l`next
    ensures Chained(h, r)
    ensures if elem in l then TakenOut(l, elem, r) else r == l
    ensures elem.next == old(elem.next)
  {
    h, r := head, l;
    var prev: Watcher?, cur := null, head;
    ghost var i := 0;
    while cur != null
      invariant 0 <= i <= |l| && cur == At(l, i) && elem !in l[..i]
      invariant prev == if i == 0 then null else l[i - 1]
      invariant h == head && Chained(head, l)
      decreases |l| - i
    {
      if cur == elem {
        r := l[..i] + l[i + 1..];
        if prev == null {
          h := elem.next;
        } else {
          prev.next := elem.next;
        }
        Unlinked(l, i, h);
        return;
      }
      prev := cur;
      cur := cur.next;
      i := i + 1;
    }
    assert elem !in l;
  }

  lemma Unlinked(l: seq<Watcher>, i: nat, h: Watcher?)
    requires i < |l| && Distinct(l)
    requires h == if i == 0 then At(l, 1) else l[0]
    requires forall j :: 0 <= j < |l| ==> l[j].next == if j + 1 == i then At(l, i + 1) else At(l, j + 1)
    ensures Chained(h, l[..i] + l[i + 1..])
  {
    var r := l[..i] + l[i + 1..];
    forall j | 0 <= j < |r|
      ensures r[j].next == At(r, j + 1)
    {
      assert r[j] == l[if j < i then j else j + 1];
    }
  }
}
