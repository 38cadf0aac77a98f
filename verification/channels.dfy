/**
  Channel names and the patterns that match them (src/channel.c).
 */
module Channels {
  import opened Basics
  import opened Watchers

  const COMETD_MAX_CHANNEL_LEN: nat := 512
  const COMETD_MAX_CHANNEL_PARTS: nat := 254

  // ---------- splitting and joining ----------

  // the parts between the slashes; one more than there are slashes
  function Parts(s: string): (r: seq<string>)
    ensures |r| > 0
  {
    if s == "" then [""]
    else
      var rest := Parts(s[1..]);
      if s[0] == '/' then [""] + rest else [[s[0]] + rest[0]] + rest[1..]
  }

  // g_strsplit (s, "/", 0): the empty string has no parts at all
  function StrSplit(s: string): seq<string> {
    if s == "" then [] else Parts(s)
  }

  // the parts with slashes between them
  function Join(ps: seq<string>): string {
    if ps == [] then "" else if |ps| == 1 then ps[0] else ps[0] + "/" + Join(ps[1..])
  }

  predicate Plain(ps: seq<string>) {
    forall i :: 0 <= i < |ps| ==> '/' !in ps[i]
  }

  // an empty part in front
  lemma JoinSlash(rest: seq<string>)
    requires rest != [] && Plain(rest)
    ensures Join([""] + rest) == ['/'] + Join(rest) && Plain([""] + rest)
  {
    assert ([""] + rest)[1..] == rest;
    assert "" + "/" + Join(rest) == ['/'] + Join(rest);
  }

  // a longer first part
  lemma JoinLonger(c: char, rest: seq<string>)
    requires rest != [] && Plain(rest) && c != '/'
    ensures var ps := [[c] + rest[0]] + rest[1..]; Join(ps) == [c] + Join(rest) && Plain(ps)
  {
    var ps := [[c] + rest[0]] + rest[1..];
    assert ps[1..] == rest[1..];
    if |rest| > 1 {
      assert ([c] + rest[0]) + "/" + Join(rest[1..]) == [c] + (rest[0] + "/" + Join(rest[1..]));
    }
  }

  lemma {:induction false} JoinParts(s: string)
    ensures Join(Parts(s)) == s && Plain(Parts(s))
  {
    if s != "" {
      JoinParts(s[1..]);
      var rest := Parts(s[1..]);
      assert s == [s[0]] + s[1..];
      if s[0] == '/' {
        JoinSlash(rest);
      } else {
        JoinLonger(s[0], rest);
      }
    }
  }

  // a part in front
  lemma {:induction false} PartsAfterSlash(p: string, s: string)
    requires '/' !in p
    ensures Parts(p + "/" + s) == [p] + Parts(s)
    decreases |p|
  {
    var t := p + "/" + s;
    if p == "" {
      assert t[1..] == s;
    } else {
      assert t[1..] == p[1..] + "/" + s;
      PartsAfterSlash(p[1..], s);
      assert [p[0]] + p[1..] == p;
    }
  }

  lemma {:induction false} PartsOfPart(p: string)
    requires '/' !in p
    ensures Parts(p) == [p]
  {
    if p != "" {
      PartsOfPart(p[1..]);
      assert [p[0]] + p[1..] == p;
    }
  }

  lemma {:induction false} PartsJoin(ps: seq<string>)
    requires ps != [] && Plain(ps)
    ensures Parts(Join(ps)) == ps
  {
    if |ps| == 1 {
      PartsOfPart(ps[0]);
      assert ps == [ps[0]];
    } else {
      PartsJoin(ps[1..]);
      PartsAfterSlash(ps[0], Join(ps[1..]));
      assert ps == [ps[0]] + ps[1..];
    }
  }

  // g_strjoinv ("/", tmp): up to the first NULL
  function StrJoinV(tmp: seq<Option<string>>): string {
    if tmp == [] || tmp[0].None? then ""
    else if |tmp| == 1 || tmp[1].None? then tmp[0].value
    else tmp[0].value + "/" + StrJoinV(tmp[1..])
  }

  ghost predicate NullTerminated(tmp: seq<Option<string>>, ps: seq<string>) {
    && |ps| < |tmp| && tmp[|ps|] == None
    && forall i :: 0 <= i < |ps| ==> tmp[i] == Some(ps[i])
  }

  lemma {:induction false} StrJoinVJoins(tmp: seq<Option<string>>, ps: seq<string>)
    requires NullTerminated(tmp, ps)
    ensures StrJoinV(tmp) == Join(ps)
    decreases |ps|
  {
    if |ps| > 1 {
      assert NullTerminated(tmp[1..], ps[1..]);
      StrJoinVJoins(tmp[1..], ps[1..]);
    }
  }

  // ---------- the candidate patterns ----------

  // ps[..i]/** for i, i - 1, .., 1
  function Doubles(ps: seq<string>, i: nat): (r: seq<string>)
    requires i <= |ps|
    ensures |r| == i
  {
    if i == 0 then [] else [Join(ps[..i] + ["**"])] + Doubles(ps, i - 1)
  }

  // the channel, its siblings, and everything below each of its ancestors, the deepest first
  function Candidates(ps: seq<string>): seq<string>
    requires ps != []
  {
    [Join(ps)] + ((if |ps| >= 2 then [Join(ps[..|ps| - 1] + ["*"])] else []) + Doubles(ps, |ps| - 1))
  }

  function Matches(channel: string): seq<string> {
    var ps := StrSplit(channel);
    if ps == [] || |ps| > COMETD_MAX_CHANNEL_PARTS then [] else Candidates(ps)
  }

  // the state of cometd_channel_matches after i turns
  ghost predicate Prepended(channels: seq<string>, ps: seq<string>, i: nat) {
    && i <= |ps| && (i == |ps| ==> ps != [])
    && channels ==
         if i == |ps| then Candidates(ps)
         else (if |ps| >= 2 && i == |ps| - 1 then [Join(ps[..|ps| - 1] + ["*"])] else []) + Doubles(ps, i)
  }

  // tmp[at] := part, and the array joined
  method JoinWith(tmp: array<Option<string>>, ps: seq<string>, at: nat, part: string) returns (s: string)
    requires at < |ps| && at + 1 < tmp.Length && tmp[at + 1] == None
    requires forall j :: 0 <= j < at ==> tmp[j] == Some(ps[j])
    modifies tmp
    ensures s == Join(ps[..at] + [part])
    ensures forall j :: 0 <= j < tmp.Length && j != at ==> tmp[j] == old(tmp[j])
  {
    tmp[at] := Some(part);
    StrJoinVJoins(tmp[..], ps[..at] + [part]);
    s := StrJoinV(tmp[..]);
  }

  // cometd_channel_matches
  method ChannelMatches(channel: string) returns (channels: seq<string>)
    ensures channels == Matches(channel)
  {
    channels := [];
    var parts := StrSplit(channel);
    if |parts| > COMETD_MAX_CHANNEL_PARTS || parts == [] {
      return;
    }
    var tmp: array<Option<string>> := new Option<string>[COMETD_MAX_CHANNEL_PARTS + 2](i => None);
    var i := 0;
    while i < |parts|
      invariant 0 <= i <= |parts| && Prepended(channels, parts, i)
      invariant forall j :: 0 <= j < i ==> tmp[j] == Some(parts[j])
      invariant forall j :: i + 1 <= j < tmp.Length ==> tmp[j] == None
    {
      tmp[i] := Some(parts[i]);
      channels := OneTurn(tmp, parts, i, channels);
      i := i + 1;
    }
  }

  // what turn i puts in front
  function Turned(before: seq<string>, ps: seq<string>, i: nat): seq<string>
    requires i < |ps|
  {
    (if i + 2 == |ps| then [Join(ps[..i + 1] + ["*"])] else [])
    + ([if i + 1 < |ps| then Join(ps[..i + 1] + ["**"]) else Join(ps)] + before)
  }

  lemma TurnPrepends(before: seq<string>, ps: seq<string>, i: nat)
    requires i < |ps| && Prepended(before, ps, i)
    ensures Prepended(Turned(before, ps, i), ps, i + 1)
  {
    if i + 1 == |ps| {
      assert Turned(before, ps, i) == [Join(ps)] + before;
    } else {
      assert before == Doubles(ps, i);
      assert [Join(ps[..i + 1] + ["**"])] + before == Doubles(ps, i + 1);
    }
  }

  // the body of its loop, once tmp[i] is set
  method OneTurn(tmp: array<Option<string>>, parts: seq<string>, i: nat, before: seq<string>) returns (channels: seq<string>)
    requires i < |parts| <= COMETD_MAX_CHANNEL_PARTS && tmp.Length == COMETD_MAX_CHANNEL_PARTS + 2
    requires Prepended(before, parts, i)
    requires forall j :: 0 <= j <= i ==> tmp[j] == Some(parts[j])
    requires forall j :: i + 1 <= j < tmp.Length ==> tmp[j] == None
    modifies tmp
    ensures Prepended(channels, parts, i + 1)
    ensures forall j :: 0 <= j < tmp.Length && j != i + 1 ==> tmp[j] == old(tmp[j])
  {
    TurnPrepends(before, parts, i);
    channels := AddCandidates(tmp, parts, i, before);
  }

  method AddCandidates(tmp: array<Option<string>>, parts: seq<string>, i: nat, before: seq<string>)
    returns (channels: seq<string>)
    requires i < |parts| <= COMETD_MAX_CHANNEL_PARTS && tmp.Length == COMETD_MAX_CHANNEL_PARTS + 2
    requires forall j :: 0 <= j <= i ==> tmp[j] == Some(parts[j])
    requires forall j :: i + 1 <= j < tmp.Length ==> tmp[j] == None
    modifies tmp
    ensures channels == Turned(before, parts, i)
    ensures forall j :: 0 <= j < tmp.Length && j != i + 1 ==> tmp[j] == old(tmp[j])
  {
    channels := before;
    if i < |parts| - 1 {
      var s := JoinWith(tmp, parts, i + 1, "**");
      channels := [s] + channels;
    } else {
      StrJoinVJoins(tmp[..], parts);
      channels := [StrJoinV(tmp[..])] + channels;
    }
    if i == |parts| - 2 {
      var s := JoinWith(tmp, parts, i + 1, "*");
      channels := [s] + channels;
    }
  }

  // ---------- what the candidates are ----------

  function Last(ps: seq<string>): string
    requires ps != []
  {
    ps[|ps| - 1]
  }

  // Trailing wildcards, by parts: * stands for one part, ** for one or more.
  predicate GlobsParts(q: seq<string>, ps: seq<string>)
    requires q != [] && ps != []
  {
    || q == ps
    || (Last(q) == "*" && |q| == |ps| && q[..|q| - 1] == ps[..|q| - 1])
    || (Last(q) == "**" && |q| <= |ps| && q[..|q| - 1] == ps[..|q| - 1])
  }

  predicate Globs(pattern: string, channel: string) {
    GlobsParts(Parts(pattern), Parts(channel))
  }

  // Joining and splitting are inverse to each other, so a candidate is known by its parts.
  lemma IsJoin(x: string, ps: seq<string>)
    requires ps != [] && Plain(ps)
    ensures x == Join(ps) <==> Parts(x) == ps
  {
    PartsJoin(ps);
    JoinParts(x);
  }

  lemma {:induction false} InDoubles(ps: seq<string>, i: nat, x: string)
    requires i < |ps| && Plain(ps)
    ensures x in Doubles(ps, i) <==> exists k :: 1 <= k <= i && Parts(x) == ps[..k] + ["**"]
  {
    if i > 0 {
      InDoubles(ps, i - 1, x);
      IsJoin(x, ps[..i] + ["**"]);
      assert x in Doubles(ps, i) <==> x == Join(ps[..i] + ["**"]) || x in Doubles(ps, i - 1);
    }
  }

  lemma DoubleByParts(q: seq<string>, ps: seq<string>)
    requires q != [] && ps != []
    ensures (exists k :: 1 <= k <= |ps| - 1 && q == ps[..k] + ["**"]) <==>
      (|q| >= 2 && Last(q) == "**" && |q| <= |ps| && q[..|q| - 1] == ps[..|q| - 1])
  {
    if |q| >= 2 && Last(q) == "**" && |q| <= |ps| && q[..|q| - 1] == ps[..|q| - 1] {
      assert q == ps[..|q| - 1] + ["**"];
    }
  }

  lemma SingleByParts(q: seq<string>, ps: seq<string>)
    requires q != [] && |ps| >= 2
    ensures q == ps[..|ps| - 1] + ["*"] <==> (Last(q) == "*" && |q| == |ps| && q[..|q| - 1] == ps[..|q| - 1])
  {
    if Last(q) == "*" && |q| == |ps| && q[..|q| - 1] == ps[..|q| - 1] {
      assert q == ps[..|ps| - 1] + ["*"];
    }
  }

  lemma CandidateKinds(ps: seq<string>, x: string)
    requires ps != []
    ensures x in Candidates(ps) <==>
      x == Join(ps) || (|ps| >= 2 && x == Join(ps[..|ps| - 1] + ["*"])) || x in Doubles(ps, |ps| - 1)
  {
  }

  lemma InCandidates(ps: seq<string>, x: string)
    requires ps != [] && Plain(ps)
    ensures x in Candidates(ps) <==> GlobsParts(Parts(x), ps) && (|Parts(x)| >= 2 || Parts(x) == ps)
  {
    var q := Parts(x);
    CandidateKinds(ps, x);
    IsJoin(x, ps);
    assert x in Doubles(ps, |ps| - 1) <==> |q| >= 2 && Last(q) == "**" && |q| <= |ps| && q[..|q| - 1] == ps[..|q| - 1] by {
      InDoubles(ps, |ps| - 1, x);
      DoubleByParts(q, ps);
    }
    if |ps| >= 2 {
      IsJoin(x, ps[..|ps| - 1] + ["*"]);
      SingleByParts(q, ps);
    }
  }

  lemma BarePattern(x: string)
    ensures |Parts(x)| == 1 && (Last(Parts(x)) == "*" || Last(Parts(x)) == "**") <==> x == "*" || x == "**"
  {
    JoinParts(x);
    PartsOfPart("*");
    PartsOfPart("**");
  }

  // The candidates are the patterns that glob the channel; only the bare * and ** are never tried.
  lemma MatchesAreGlobs(channel: string, x: string)
    ensures x in Matches(channel) <==>
      && channel != "" && |Parts(channel)| <= COMETD_MAX_CHANNEL_PARTS
      && Globs(x, channel) && (x == channel || (x != "*" && x != "**"))
  {
    if channel != "" && |Parts(channel)| <= COMETD_MAX_CHANNEL_PARTS {
      JoinParts(channel);
      JoinParts(x);
      InCandidates(Parts(channel), x);
      BarePattern(x);
    }
  }

  // A bare ** globs every channel, but nobody who listens to it hears anything.
  lemma BareStarsMissed()
    ensures Globs("**", "/a") && "**" !in Matches("/a")
  {
    assert "/a" == "" + "/" + "a";
    PartsAfterSlash("", "a");
    PartsOfPart("a");
    MatchesAreGlobs("/a", "**");
  }

  // ---------- their order ----------

  // exact, then *, then ** from the deepest to the shallowest
  function Rank(pattern: string, channel: string): int {
    if pattern == channel then 0
    else if Last(Parts(pattern)) == "*" then 1
    else 2 + |Parts(channel)| - |Parts(pattern)|
  }

  lemma {:induction false} DoublesAt(ps: seq<string>, i: nat, k: nat)
    requires k < i < |ps|
    ensures Doubles(ps, i)[k] == Join(ps[..i - k] + ["**"])
  {
    if k > 0 {
      DoublesAt(ps, i - 1, k - 1);
    }
  }

  // the parts of candidate k
  function WildParts(ps: seq<string>, k: nat): (q: seq<string>)
    requires 0 < k <= |ps|
    ensures q != []
  {
    if k == 1 then ps[..|ps| - 1] + ["*"] else ps[..|ps| + 1 - k] + ["**"]
  }

  lemma CandidateAt(ps: seq<string>, k: nat)
    requires 0 < k <= |ps| && |ps| >= 2
    ensures |Candidates(ps)| == |ps| + 1 && Candidates(ps)[k] == Join(WildParts(ps, k))
  {
    if k > 1 {
      DoublesAt(ps, |ps| - 1, k - 2);
    }
  }

  lemma CandidateParts(channel: string, k: nat)
    requires 0 < k < |Matches(channel)|
    ensures var ps := Parts(channel);
      k <= |ps| && Matches(channel)[k] == Join(WildParts(ps, k)) && Parts(Matches(channel)[k]) == WildParts(ps, k)
  {
    var ps := Parts(channel);
    assert |ps| >= 2 && k <= |ps|;
    CandidateAt(ps, k);
    WildJoin(ps, k) by {
      JoinParts(channel);
    }
  }

  lemma WildJoin(ps: seq<string>, k: nat)
    requires 0 < k <= |ps| && Plain(ps)
    ensures Parts(Join(WildParts(ps, k))) == WildParts(ps, k)
  {
    PartsJoin(WildParts(ps, k));
  }

  // a candidate other than the channel stands where its rank says
  lemma RankIsPlace(channel: string, k: nat)
    requires k < |Matches(channel)| && (k > 0 ==> Matches(channel)[k] != channel)
    ensures Rank(Matches(channel)[k], channel) == k
  {
    if k == 0 {
      JoinParts(channel);
    } else {
      CandidateParts(channel, k);
    }
  }

  // ---------- wildcards ----------

  // cometd_channel_is_wildcard; for the empty channel it looks at the character before the string
  predicate IsWildcard(channel: string)
    requires channel != ""
  {
    channel[Min(|channel|, COMETD_MAX_CHANNEL_LEN) - 1] == '*'
  }

  lemma {:induction false} JoinLast(ps: seq<string>)
    requires ps != [] && Last(ps) != ""
    ensures var s := Join(ps); s != "" && s[|s| - 1] == Last(ps)[|Last(ps)| - 1]
  {
    if |ps| > 1 {
      JoinLast(ps[1..]);
    }
  }

  // Up to the maximal length a pattern is a wildcard iff it ends in a star, and one that is not globs itself alone.
  lemma OthersGlobThemselves(pattern: string, channel: string)
    requires 0 < |pattern| <= COMETD_MAX_CHANNEL_LEN
    ensures IsWildcard(pattern) <==> pattern[|pattern| - 1] == '*'
    ensures !IsWildcard(pattern) && Globs(pattern, channel) ==> pattern == channel
  {
    var q := Parts(pattern);
    JoinParts(pattern);
    JoinParts(channel);
    if Last(q) == "*" || Last(q) == "**" {
      JoinLast(q);
    }
  }

  // A channel that is listed again as a wildcard candidate is a wildcard, or too long to be told.
  lemma OnlyOnce(channel: string, k: nat)
    requires channel != "" && !IsWildcard(channel)
    requires 0 < k < |Matches(channel)| && Matches(channel)[k] == channel
    ensures |channel| > COMETD_MAX_CHANNEL_LEN
  {
    CandidateParts(channel, k);
    var q := WildParts(Parts(channel), k);
    assert Last(q) != "" && Last(q)[|Last(q)| - 1] == '*';
    JoinLast(q);
  }

  lemma TwiceIfWild(channel: string)
    requires |Matches(channel)| > 1 && (Last(Parts(channel)) == "*" || Last(Parts(channel)) == "**")
    ensures Matches(channel)[0] == Matches(channel)[if Last(Parts(channel)) == "*" then 1 else 2]
  {
    var ps := Parts(channel);
    var k := if Last(ps) == "*" then 1 else 2;
    WildAgain(ps, k);
    CandidateAt(ps, k);
  }

  lemma WildAgain(ps: seq<string>, k: nat)
    requires |ps| >= 2 && ((k == 1 && Last(ps) == "*") || (k == 2 && Last(ps) == "**"))
    ensures WildParts(ps, k) == ps
  {
  }

  lemma OnceUnlessWild(channel: string, j: nat, k: nat)
    requires j < k < |Matches(channel)| && Last(Parts(channel)) != "*" && Last(Parts(channel)) != "**"
    ensures Matches(channel)[j] != Matches(channel)[k]
  {
    LaterDiffers(channel, j);
    LaterDiffers(channel, k);
    RankIsPlace(channel, j);
    RankIsPlace(channel, k);
  }

  // Exactly the channels that end in a wildcard part have a candidate twice.
  lemma NoCandidateTwice(channel: string)
    ensures (exists j, k :: 0 <= j < k < |Matches(channel)| && Matches(channel)[j] == Matches(channel)[k]) <==>
      |Matches(channel)| > 1 && (Last(Parts(channel)) == "*" || Last(Parts(channel)) == "**")
  {
    var cs := Matches(channel);
    if |cs| > 1 {
      if Last(Parts(channel)) == "*" || Last(Parts(channel)) == "**" {
        TwiceIfWild(channel);
        assert |cs| == |Parts(channel)| + 1;
      } else {
        forall j, k | 0 <= j < k < |cs|
          ensures cs[j] != cs[k]
        {
          OnceUnlessWild(channel, j, k);
        }
      }
    }
  }

  lemma LaterDiffers(channel: string, k: nat)
    requires k < |Matches(channel)| && Last(Parts(channel)) != "*" && Last(Parts(channel)) != "**"
    ensures k > 0 ==> Matches(channel)[k] != channel
  {
    if k > 0 {
      CandidateParts(channel, k);
    }
  }
}
