/**
  The select backend of libev (deps/ev/ev_select.c) with its own bitsets: one
  bit per descriptor in vec_ri and vec_wi, and the loops that decode a result.
 */
module SelectBackends {
  import opened Watchers

  const NFDBITS: nat := 64

  // An fd_mask word, as the set of the positions of its one bits: | is +, & is *, &~ is -.
  type Word = set<nat>

  // bit fd of a bitset; beyond its end every bit is clear
  ghost predicate InSet(v: seq<Word>, fd: nat) {
    fd / 64 < |v| && fd % 64 in v[fd / 64]
  }

  // a bitset of whole words has no bits beyond the width of a word
  ghost predicate Narrow(v: seq<Word>) {
    forall i :: 0 <= i < |v| ==> forall b :: b in v[i] ==> b < 64
  }

  // realloc, and zero for the words added
  method Widen(vec: array<Word>, new_max: nat) returns (r: array<Word>)
    requires vec.Length <= new_max && Narrow(vec[..])
    ensures fresh(r) && r.Length == new_max && Narrow(r[..])
    ensures forall g: nat :: InSet(r[..], g) <==> InSet(vec[..], g)
  {
    r := new Word[new_max](i requires 0 <= i reads vec => if i < vec.Length then vec[i] else {});
  }

  // bit fd of one bitset becomes `on`
  method PutBit(vec: array<Word>, fd: nat, on: bool)
    requires fd / 64 < vec.Length && Narrow(vec[..])
    modifies vec
    ensures Narrow(vec[..])
    ensures InSet(vec[..], fd) <==> on
    ensures forall g: nat :: g != fd ==> (InSet(vec[..], g) <==> InSet(old(vec[..]), g))
  {
    var word := fd / NFDBITS;
    var mask := {fd % NFDBITS};
    vec[word] := vec[word] + mask;
    if !on {
      vec[word] := vec[word] - mask;
    }
  }

  class SelectBackend {
    var vec_ri: array<Word>
    var vec_wi: array<Word>
    var vec_max: nat

    ghost predicate Valid()
      reads this, vec_ri, vec_wi
    {
      && vec_ri != vec_wi && vec_ri.Length == vec_wi.Length == vec_max
      && Narrow(vec_ri[..]) && Narrow(vec_wi[..])
    }

    // what select is asked about fd
    ghost function Asked(fd: nat): Mask
      reads this, vec_ri, vec_wi
    {
      (if InSet(vec_ri[..], fd) then {Read} else {}) + (if InSet(vec_wi[..], fd) then {Write} else {})
    }

    constructor ()
      ensures Valid() && fresh(vec_ri) && fresh(vec_wi)
      ensures forall fd: nat :: Asked(fd) == {}
    {
      vec_ri, vec_wi, vec_max := new Word[0], new Word[0], 0;
    }

    method Grow(word: nat)
      requires Valid()
      modifies this
      ensures Valid() && word < vec_max
      ensures vec_ri == old(vec_ri) || fresh(vec_ri)
      ensures vec_wi == old(vec_wi) || fresh(vec_wi)
      ensures forall fd: nat :: Asked(fd) == old(Asked(fd))
    {
      if vec_max <= word {
        var new_max := word + 1;
        vec_ri := Widen(vec_ri, new_max);
        vec_wi := Widen(vec_wi, new_max);
        vec_max := new_max;
      }
    }

    // select_modify
    method SelectModify(fd: nat, oev: Mask, nev: Mask)
      requires Valid() && Asked(fd) == oev && nev <= {Read, Write}
      modifies this, vec_ri, vec_wi
      ensures Valid()
      ensures (vec_ri == old(vec_ri) || fresh(vec_ri)) && (vec_wi == old(vec_wi) || fresh(vec_wi))
      ensures Asked(fd) == nev
      ensures forall g: nat :: g != fd ==> Asked(g) == old(Asked(g))
    {
      if oev == nev {
        return;
      }
      Grow(fd / NFDBITS);
      PutBit(vec_ri, fd, Read in nev);
      PutBit(vec_wi, fd, Write in nev);
    }
  }

  // ---------- the result of select ----------

  datatype Report = Report(fd: nat, events: Mask)

  ghost function Ready(ro: seq<Word>, wo: seq<Word>, fd: nat): Mask {
    (if InSet(ro, fd) then {Read} else {}) + (if InSet(wo, fd) then {Write} else {})
  }

  // r reports the ready descriptors from lo up to hi (excluded), each once, the largest first
  ghost predicate Reported(r: seq<Report>, ro: seq<Word>, wo: seq<Word>, lo: nat, hi: nat) {
    && (forall i :: 0 <= i < |r| ==> lo <= r[i].fd < hi && r[i].events == Ready(ro, wo, r[i].fd) != {})
    && (forall i, j :: 0 <= i < j < |r| ==> r[i].fd > r[j].fd)
    && (forall fd: nat :: lo <= fd < hi && Ready(ro, wo, fd) != {} ==> exists i :: 0 <= i < |r| && r[i].fd == fd)
  }

  // one turn of the inner loop
  lemma OneMoreReported(r: seq<Report>, ro: seq<Word>, wo: seq<Word>, fd: nat, hi: nat, events: Mask)
    requires Reported(r, ro, wo, fd + 1, hi) && fd < hi && events == Ready(ro, wo, fd)
    ensures Reported(if events != {} then r + [Report(fd, events)] else r, ro, wo, fd, hi)
  {
    var s := if events != {} then r + [Report(fd, events)] else r;
    forall g: nat | fd <= g < hi && Ready(ro, wo, g) != {}
      ensures exists i :: 0 <= i < |s| && s[i].fd == g
    {
      if g == fd {
        assert s[|r|].fd == g;
      } else {
        var i :| 0 <= i < |r| && r[i].fd == g;
        assert s[i].fd == g;
      }
    }
  }

  // a word without bits has nothing to report
  lemma SkipWord(r: seq<Report>, ro: seq<Word>, wo: seq<Word>, word: nat, hi: nat)
    requires word < |ro| == |wo| && ro[word] == {} && wo[word] == {}
    requires Reported(r, ro, wo, (word + 1) * 64, hi)
    ensures Reported(r, ro, wo, word * 64, hi)
  {
    forall g: nat | word * 64 <= g < (word + 1) * 64
      ensures Ready(ro, wo, g) == {}
    {
      assert g / 64 == word;
    }
  }

  lemma BitOf(word: nat, bit: nat)
    requires bit < 64
    ensures (word * 64 + bit) / 64 == word && (word * 64 + bit) % 64 == bit
  {
  }

  // the inner decoding loop of select_poll
  method DecodeWord(ro: array<Word>, wo: array<Word>, word: nat, before: seq<Report>) returns (r: seq<Report>)
    requires word < ro.Length == wo.Length
    requires Reported(before, ro[..], wo[..], (word + 1) * 64, ro.Length * 64)
    ensures Reported(r, ro[..], wo[..], word * 64, ro.Length * 64)
  {
    r := before;
    var bit := NFDBITS;
    while bit > 0
      invariant 0 <= bit <= 64
      invariant Reported(r, ro[..], wo[..], word * 64 + bit, ro.Length * 64)
    {
      bit := bit - 1;
      var events := (if bit in ro[word] then {Read} else {}) + (if bit in wo[word] then {Write} else {});
      BitOf(word, bit);
      OneMoreReported(r, ro[..], wo[..], word * 64 + bit, ro.Length * 64, events);
      if events != {} {
        r := r + [Report(word * NFDBITS + bit, events)];
      }
    }
  }

  // the decoding loops of select_poll
  method Decode(ro: array<Word>, wo: array<Word>) returns (r: seq<Report>)
    requires ro.Length == wo.Length
    ensures Reported(r, ro[..], wo[..], 0, ro.Length * 64)
  {
    r := [];
    var word := ro.Length;
    while word > 0
      invariant 0 <= word <= ro.Length
      invariant Reported(r, ro[..], wo[..], word * 64, ro.Length * 64)
    {
      word := word - 1;
      if ro[word] != {} || wo[word] != {} {
        r := DecodeWord(ro, wo, word, r);
      } else {
        SkipWord(r, ro[..], wo[..], word, ro.Length * 64);
      }
    }
  }
}
