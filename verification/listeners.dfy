/**
  Listeners and their index (src/event.c): a hash table from patterns to lists
  of subscriptions, asked for every candidate pattern of a channel.
 */
module Listeners {
  import opened Basics
  import opened Channels

  const COMETD_SUCCESS: int := 0
  const ECOMETD_UNKNOWN: int := 4

  class Subscription {
    const channel: string
    const callback: string -> int

    constructor (channel: string, callback: string -> int)
      ensures this.channel == channel && this.callback == callback
    {
      this.channel, this.callback := channel, callback;
    }
  }

  type Table = map<string, seq<Subscription>>

  // g_hash_table_lookup, with NULL as the empty list
  function Lookup(t: Table, p: string): seq<Subscription> {
    if p in t then t[p] else []
  }

  // ---------- the linear scan ----------

  // the subscriptions for pattern p, in order
  function OnPattern(live: seq<Subscription>, p: string): (r: seq<Subscription>)
    ensures forall s :: s in r ==> s in live && s.channel == p
    ensures forall s :: s in live && s.channel == p ==> s in r
  {
    if live == [] then []
    else
      var last := live[|live| - 1];
      OnPattern(live[..|live| - 1], p) + if last.channel == p then [last] else []
  }

  // s, once
  function Removed(live: seq<Subscription>, s: Subscription): seq<Subscription> {
    if live == [] then []
    else if live[0] == s then live[1..]
    else [live[0]] + Removed(live[1..], s)
  }

  // a stands before b
  ghost predicate Before(l: seq<Subscription>, a: Subscription, b: Subscription) {
    exists i, j :: 0 <= i < j < |l| && l[i] == a && l[j] == b
  }

  predicate Wanted(s: Subscription, channel: string) {
    Globs(s.channel, channel) && s.channel != "*" && s.channel != "**"
  }

  ghost predicate Earlier(live: seq<Subscription>, channel: string, a: Subscription, b: Subscription) {
    || Rank(a.channel, channel) < Rank(b.channel, channel)
    || (a.channel == b.channel && Before(live, a, b))
  }

  // The answer of a scan of all live subscriptions with Globs: each that matches is there once, by the
  // rank of its pattern, and by age within one pattern.
  ghost predicate Scanned(r: seq<Subscription>, live: seq<Subscription>, channel: string) {
    Listing(r, live, (set s | s in live && Wanted(s, channel)), channel)
  }

  // r lists the elements of which, in order
  ghost predicate Listing(r: seq<Subscription>, live: seq<Subscription>, which: set<Subscription>, channel: string) {
    && Distinct(r)
    && (forall s :: s in r ==> s in which)
    && (forall s :: s in which ==> s in r)
    && Sorted(r, live, channel)
  }

  ghost predicate Sorted(r: seq<Subscription>, live: seq<Subscription>, channel: string) {
    forall i, j :: 0 <= i < j < |r| ==> Earlier(live, channel, r[i], r[j])
  }

  // ---------- the index ----------

  ghost predicate Indexes(t: Table, live: seq<Subscription>) {
    && Distinct(live)
    && (forall s :: s in live ==> 0 < |s.channel| < COMETD_MAX_CHANNEL_LEN - 1)
    && (forall p :: Lookup(t, p) == OnPattern(live, p))
  }

  lemma IndexAdds(t: Table, live: seq<Subscription>, s: Subscription)
    requires Indexes(t, live) && s !in live && 0 < |s.channel| < COMETD_MAX_CHANNEL_LEN - 1
    ensures Indexes(t[s.channel := Lookup(t, s.channel) + [s]], live + [s])
  {
    var t', live' := t[s.channel := Lookup(t, s.channel) + [s]], live + [s];
    assert live'[..|live|] == live;
    forall p
      ensures Lookup(t', p) == OnPattern(live', p)
    {
      assert Lookup(t, p) == OnPattern(live, p);
    }
  }

  lemma {:induction false} RemovedAfter(a: seq<Subscription>, last: Subscription, s: Subscription)
    ensures Removed(a + [last], s) == if s in a then Removed(a, s) + [last] else if last == s then a else a + [last]
  {
    if a != [] {
      RemovedAfter(a[1..], last, s);
      assert (a + [last])[1..] == a[1..] + [last];
      assert a == [a[0]] + a[1..];
    } else {
      assert a + [last] == [last];
    }
  }

  lemma OnPatternAfter(rest: seq<Subscription>, last: Subscription, p: string)
    ensures OnPattern(rest + [last], p) == OnPattern(rest, p) + if last.channel == p then [last] else []
  {
    assert (rest + [last])[..|rest|] == rest;
  }

  lemma {:induction false} OnPatternRemoved(live: seq<Subscription>, s: Subscription, p: string)
    ensures OnPattern(Removed(live, s), p) == Removed(OnPattern(live, p), s)
  {
    if live != [] {
      var rest, last := live[..|live| - 1], live[|live| - 1];
      OnPatternRemoved(rest, s, p);
      var o := OnPattern(rest, p);
      assert o + [] == o;
      RemovedAfter(o, last, s);
      assert Removed(live, s) == if s in rest then Removed(rest, s) + [last] else if last == s then rest else live by {
        assert live == rest + [last];
        RemovedAfter(rest, last, s);
      }
      if s in rest {
        OnPatternAfter(Removed(rest, s), last, p);
        if s !in o {
          NothingRemoved(o, s);
        }
      } else {
        NothingRemoved(o, s);
      }
    }
  }

  lemma {:induction false} NothingRemoved(l: seq<Subscription>, s: Subscription)
    requires s !in l
    ensures Removed(l, s) == l
  {
    if l != [] {
      NothingRemoved(l[1..], s);
      assert l == [l[0]] + l[1..];
    }
  }

  lemma {:induction false} RemovedDistinct(l: seq<Subscription>, s: Subscription)
    requires Distinct(l)
    ensures Distinct(Removed(l, s)) && forall v :: v in Removed(l, s) <==> v in l && v != s
  {
    if l != [] {
      var head, tail := l[0], l[1..];
      assert l == [head] + tail && head !in tail && Distinct(tail);
      if head != s {
        RemovedDistinct(tail, s);
      }
    }
  }

  lemma LookupRemoves(t: Table, live: seq<Subscription>, s: Subscription, p: string)
    requires Lookup(t, p) == OnPattern(live, p) && Lookup(t, s.channel) == OnPattern(live, s.channel)
    ensures Lookup(t[s.channel := Removed(Lookup(t, s.channel), s)], p) == OnPattern(Removed(live, s), p)
  {
    OnPatternRemoved(live, s, p);
    if p != s.channel {
      NothingRemoved(OnPattern(live, p), s);
    }
  }

  lemma IndexRemoves(t: Table, live: seq<Subscription>, s: Subscription)
    requires Indexes(t, live)
    ensures Indexes(t[s.channel := Removed(Lookup(t, s.channel), s)], Removed(live, s))
  {
    var t', live' := t[s.channel := Removed(Lookup(t, s.channel), s)], Removed(live, s);
    RemovedDistinct(live, s);
    assert Distinct(live') && forall v :: v in live' ==> v in live;
    assert Lookup(t, s.channel) == OnPattern(live, s.channel);
    forall p
      ensures Lookup(t', p) == OnPattern(live', p)
    {
      assert Lookup(t, p) == OnPattern(live, p);
      LookupRemoves(t, live, s, p);
    }
  }

  // ---------- asking the index ----------

  // the lists of the candidates, one after the other
  function Gathered(t: Table, cs: seq<string>): seq<Subscription> {
    if cs == [] then [] else Gathered(t, cs[..|cs| - 1]) + Lookup(t, cs[|cs| - 1])
  }

  lemma {:induction false} OnPatternOrder(live: seq<Subscription>, p: string)
    requires Distinct(live)
    ensures var r := OnPattern(live, p);
      Distinct(r) && forall i, j :: 0 <= i < j < |r| ==> Before(live, r[i], r[j])
  {
    if live != [] {
      var rest, last := live[..|live| - 1], live[|live| - 1];
      OnPatternOrder(rest, p);
      var r := OnPattern(live, p);
      forall i, j | 0 <= i < j < |r|
        ensures r[i] != r[j] && Before(live, r[i], r[j])
      {
        if j < |OnPattern(rest, p)| {
          assert Before(rest, r[i], r[j]);
        } else {
          assert r[i] in rest;
        }
      }
    }
  }

  lemma {:induction false} GatheredMembers(t: Table, live: seq<Subscription>, cs: seq<string>)
    requires Indexes(t, live)
    ensures forall s :: s in Gathered(t, cs) <==> s in live && s.channel in cs
  {
    if cs != [] {
      GatheredMembers(t, live, cs[..|cs| - 1]);
      assert cs == cs[..|cs| - 1] + [cs[|cs| - 1]];
      assert Lookup(t, cs[|cs| - 1]) == OnPattern(live, cs[|cs| - 1]);
    }
  }

  // each live subscription knows the place of its pattern
  ghost predicate Placed(live: seq<Subscription>, cs: seq<string>, channel: string) {
    forall s, k :: s in live && 0 <= k < |cs| && s.channel == cs[k] ==> Rank(s.channel, channel) == k
  }

  lemma {:induction false} GatheredOrder(t: Table, live: seq<Subscription>, cs: seq<string>, channel: string)
    requires Indexes(t, live) && Placed(live, cs, channel)
    ensures var r := Gathered(t, cs);
      && Distinct(r) && Sorted(r, live, channel)
      && (forall i :: 0 <= i < |r| ==> Rank(r[i].channel, channel) < |cs|)
  {
    if cs != [] {
      var n := |cs| - 1;
      GatheredOrder(t, live, cs[..n], channel);
      var r0, l := Gathered(t, cs[..n]), Lookup(t, cs[n]);
      assert l == OnPattern(live, cs[n]);
      OnPatternOrder(live, cs[n]);
      assert forall i :: 0 <= i < |l| ==> Rank(l[i].channel, channel) == n;
    }
  }

  lemma LiveArePlaced(live: seq<Subscription>, channel: string)
    requires channel != "" && !IsWildcard(channel)
    requires forall s :: s in live ==> |s.channel| < COMETD_MAX_CHANNEL_LEN - 1
    ensures Placed(live, Matches(channel), channel)
  {
    var cs := Matches(channel);
    forall s, k | s in live && 0 <= k < |cs| && s.channel == cs[k]
      ensures Rank(s.channel, channel) == k
    {
      if k > 0 && cs[k] == channel {
        OnlyOnce(channel, k);
      } else {
        RankIsPlace(channel, k);
      }
    }
  }

  // The index gives the same answer as the scan.
  lemma IndexIsScan(t: Table, live: seq<Subscription>, channel: string)
    requires Indexes(t, live) && channel != "" && !IsWildcard(channel)
    requires |Parts(channel)| <= COMETD_MAX_CHANNEL_PARTS
    ensures Scanned(Gathered(t, Matches(channel)), live, channel)
  {
    LiveArePlaced(live, channel);
    forall s | s in live
      ensures s.channel in Matches(channel) <==> Wanted(s, channel)
    {
      CandidatesAreWanted(s, channel);
    }
    GatheredIsListing(t, live, Matches(channel), (set s | s in live && Wanted(s, channel)), channel);
  }

  lemma GatheredIsListing(t: Table, live: seq<Subscription>, cs: seq<string>, which: set<Subscription>, channel: string)
    requires Indexes(t, live) && Placed(live, cs, channel)
    requires forall s :: s in which <==> s in live && s.channel in cs
    ensures Listing(Gathered(t, cs), live, which, channel)
  {
    assert Distinct(Gathered(t, cs)) && Sorted(Gathered(t, cs), live, channel) by {
      GatheredOrder(t, live, cs, channel);
    }
    GatheredMembers(t, live, cs);
  }

  lemma CandidatesAreWanted(s: Subscription, channel: string)
    requires channel != "" && !IsWildcard(channel) && |Parts(channel)| <= COMETD_MAX_CHANNEL_PARTS
    ensures s.channel in Matches(channel) <==> Wanted(s, channel)
  {
    MatchesAreGlobs(channel, s.channel);
    BareIsWildcard(channel);
  }

  lemma BareIsWildcard(channel: string)
    ensures channel == "*" || channel == "**" ==> channel != "" && IsWildcard(channel)
  {
    if channel == "*" {
      assert channel[0] == '*';
    } else if channel == "**" {
      assert channel[1] == '*';
    }
  }

  // The answer of the scan is unique, so Scanned says all there is to say.
  lemma ScanUnique(r: seq<Subscription>, r': seq<Subscription>, live: seq<Subscription>, channel: string)
    requires Scanned(r, live, channel) && Scanned(r', live, channel) && Distinct(live)
    ensures r == r'
  {
    SortedUnique(r, r', live, channel);
  }

  lemma {:induction false} SortedUnique(r: seq<Subscription>, r': seq<Subscription>, live: seq<Subscription>, channel: string)
    requires Distinct(live) && Distinct(r) && Distinct(r') && forall s :: s in r <==> s in r'
    requires Sorted(r, live, channel) && Sorted(r', live, channel)
    ensures r == r'
  {
    assert (r != [] ==> r[0] in r') && (r' != [] ==> r'[0] in r);
    if r != [] {
      SameFirst(r, r', live, channel);
      var t, t' := r[1..], r'[1..];
      assert r == [r[0]] + t && r' == [r[0]] + t';
      forall s
        ensures s in t <==> s in t'
      {
        assert s in t <==> s in r && s != r[0];
        assert s in t' <==> s in r' && s != r[0];
      }
      SortedUnique(t, t', live, channel);
    }
  }

  lemma SameFirst(r: seq<Subscription>, r': seq<Subscription>, live: seq<Subscription>, channel: string)
    requires Distinct(live) && r != [] && r' != [] && r[0] in r' && r'[0] in r
    requires Sorted(r, live, channel) && Sorted(r', live, channel)
    ensures r[0] == r'[0]
  {
    var i :| 0 <= i < |r| && r[i] == r'[0];
    var j :| 0 <= j < |r'| && r'[j] == r[0];
    assert i > 0 ==> Earlier(live, channel, r[0], r[i]);
    assert j > 0 ==> Earlier(live, channel, r'[0], r'[j]);
    NotBothEarlier(live, channel, r[0], r'[0]);
  }

  lemma NotBothEarlier(live: seq<Subscription>, channel: string, a: Subscription, b: Subscription)
    requires Distinct(live)
    ensures !(Earlier(live, channel, a, b) && Earlier(live, channel, b, a))
  {
  }

  // ---------- the operations ----------

  class ListenerIndex {
    var table: Table
    ghost var live: seq<Subscription>  // added and not removed, the oldest first

    ghost predicate Valid()
      reads this
    {
      Indexes(table, live)
    }

    constructor ()
      ensures Valid() && live == []
    {
      table, live := map[], [];
    }

    // cometd_listener_add
    method Add(channel: string, callback: string -> int) returns (s: Subscription?)
      requires Valid()
      modifies this
      ensures Valid()
      ensures s == null <==> |channel| == 0 || |channel| >= COMETD_MAX_CHANNEL_LEN - 1
      ensures s != null ==> fresh(s) && s.channel == channel && s.callback == callback && live == old(live) + [s]
      ensures s == null ==> live == old(live)
    {
      if !(|channel| > 0 && |channel| < COMETD_MAX_CHANNEL_LEN - 1) {
        return null;
      }
      s := new Subscription(channel, callback);
      IndexAdds(table, live, s);
      var list: seq<Subscription> := Lookup(table, channel);
      list := list + [s];
      table := table[channel := list];
      live := live + [s];
    }

    // g_list_remove
    method ListRemove(list: seq<Subscription>, s: Subscription) returns (r: seq<Subscription>)
      ensures r == Removed(list, s)
    {
      var i := 0;
      assert list[..0] == [] && list[0..] == list;
      while i < |list| && list[i] != s
        invariant 0 <= i <= |list| && Removed(list, s) == list[..i] + Removed(list[i..], s)
      {
        RemovedLater(list, i, s);
        i := i + 1;
      }
      if i < |list| {
        assert list[i..][1..] == list[i + 1..];
        r := list[..i] + list[i + 1..];
      } else {
        assert list[..i] == list;
        r := list;
      }
    }

    lemma RemovedLater(list: seq<Subscription>, i: nat, s: Subscription)
      requires i < |list| && list[i] != s
      ensures list[..i] + Removed(list[i..], s) == list[..i + 1] + Removed(list[i + 1..], s)
    {
      assert list[i..][1..] == list[i + 1..] && list[..i] + [list[i]] == list[..i + 1];
      assert list[..i] + ([list[i]] + Removed(list[i + 1..], s)) == (list[..i] + [list[i]]) + Removed(list[i + 1..], s);
    }

    // cometd_listener_remove
    method Remove(subscription: Subscription?) returns (code: int)
      requires Valid()
      modifies this
      ensures Valid()
      ensures code == if subscription == null then ECOMETD_UNKNOWN else COMETD_SUCCESS
      ensures subscription == null ==> live == old(live)
      ensures subscription != null ==>
        subscription !in live && forall v :: v in old(live) && v != subscription ==> v in live
      ensures subscription != null ==> live == Removed(old(live), subscription)
    {
      if subscription == null {
        return ECOMETD_UNKNOWN;
      }
      IndexRemoves(table, live, subscription);
      RemovedDistinct(live, subscription);
      var channel := subscription.channel;
      var list := Lookup(table, channel);
      list := ListRemove(list, subscription);
      table := table[channel := list];
      live := Removed(live, subscription);
      return COMETD_SUCCESS;
    }

    // the inner loop of cometd_listener_get
    method Prepend(before: seq<Subscription>, list: seq<Subscription>) returns (r: seq<Subscription>)
      ensures Reverse(r) == Reverse(before) + list
    {
      r := before;
      assert list[..0] == [];
      for s := 0 to |list|
        invariant Reverse(r) == Reverse(before) + list[..s]
      {
        ghost var sofar := r;
        r := [list[s]] + r;
        assert Reverse(r) == Reverse(sofar) + [list[s]];
        assert list[..s + 1] == list[..s] + [list[s]];
      }
      assert list[..|list|] == list;
    }

    // the loops of cometd_listener_get; the list is built backwards
    method Collect(channels: seq<string>) returns (reversed: seq<Subscription>)
      ensures Reverse(reversed) == Gathered(table, channels)
    {
      reversed := [];
      var c := 0;
      while c < |channels|
        invariant 0 <= c <= |channels| && Reverse(reversed) == Gathered(table, channels[..c])
      {
        reversed := Prepend(reversed, Lookup(table, channels[c]));
        assert channels[..c + 1][..c] == channels[..c];
        c := c + 1;
      }
      assert channels[..c] == channels;
    }

    // cometd_listener_get; its caller must not ask for a wildcard
    method Get(channel: string) returns (subscriptions: seq<Subscription>)
      requires Valid() && channel != "" && !IsWildcard(channel)
      ensures |Parts(channel)| <= COMETD_MAX_CHANNEL_PARTS ==> Scanned(subscriptions, live, channel)
      ensures |Parts(channel)| > COMETD_MAX_CHANNEL_PARTS ==> subscriptions == []
    {
      var channels := ChannelMatches(channel);
      var reversed := Collect(channels);
      subscriptions := Reverse(reversed);
      if |Parts(channel)| <= COMETD_MAX_CHANNEL_PARTS {
        IndexIsScan(table, live, channel);
      }
    }

    // cometd_listener_fire: the callbacks in the order of the scan, up to the first that fails
    method Fire(channel: string, message: string) returns (code: int, called: seq<Subscription>, ghost list: seq<Subscription>)
      requires Valid() && channel != "" && !IsWildcard(channel)
      ensures |Parts(channel)| <= COMETD_MAX_CHANNEL_PARTS ==> Scanned(list, live, channel)
      ensures |Parts(channel)| > COMETD_MAX_CHANNEL_PARTS ==> list == []
      ensures called <= list && (code == COMETD_SUCCESS || code == ECOMETD_UNKNOWN)
      ensures forall i :: 0 <= i < |called| - 1 ==> called[i].callback(message) == COMETD_SUCCESS
      ensures code == COMETD_SUCCESS <==> forall s :: s in list ==> s.callback(message) == COMETD_SUCCESS
      ensures code == COMETD_SUCCESS ==> called == list
      ensures code != COMETD_SUCCESS ==> called != [] && called[|called| - 1].callback(message) != COMETD_SUCCESS
    {
      var subscriptions := Get(channel);
      list := subscriptions;
      called := [];
      var item := 0;
      while item < |subscriptions|
        invariant 0 <= item <= |subscriptions| && called == subscriptions[..item]
        invariant forall i :: 0 <= i < item ==> subscriptions[i].callback(message) == COMETD_SUCCESS
      {
        var s := subscriptions[item];
        called := called + [s];
        if s.callback(message) != COMETD_SUCCESS {
          return ECOMETD_UNKNOWN, called, list;
        }
        item := item + 1;
      }
      return COMETD_SUCCESS, called, list;
    }
  }
}
