/**
  The poll backend of libev (deps/ev/ev_poll.c): a dense table of pollfds and
  the map from descriptors to its slots.
 */
module PollBackends {
  import opened Watchers
  import Arrays

  datatype PollFlag = PollIn | PollOut

  datatype PollFd = PollFd(fd: int, events: set<PollFlag>)

  const SIZEOF_INT: nat := 4
  const SIZEOF_POLLFD: nat := 8

  function ToPoll(m: Mask): set<PollFlag> {
    (if Read in m then {PollIn} else {}) + (if Write in m then {PollOut} else {})
  }

  function FromPoll(p: set<PollFlag>): Mask {
    (if PollIn in p then {Read} else {}) + (if PollOut in p then {Write} else {})
  }

  lemma PollRoundTrip(m: Mask)
    requires m <= {Read, Write}
    ensures FromPoll(ToPoll(m)) == m && (ToPoll(m) == {} <==> m == {})
  {
    if m != {} {
      var f :| f in m;
    }
  }

  // POLLIN stands for reading and POLLOUT for writing
  predicate EntryIs(p: PollFd, m: Mask) {
    (PollIn in p.events <==> Read in m) && (PollOut in p.events <==> Write in m)
  }

  class PollBackend {
    var pollidxs: array<int>
    var polls: array<PollFd>
    var pollcnt: nat

    // polls and pollidxs are inverse to each other
    ghost predicate Table()
      reads this, pollidxs, polls
    {
      && pollcnt <= polls.Length
      && (forall fd :: 0 <= fd < pollidxs.Length ==>
            pollidxs[fd] == -1 || (0 <= pollidxs[fd] < pollcnt && polls[pollidxs[fd]].fd == fd))
      && (forall i :: 0 <= i < pollcnt ==> 0 <= polls[i].fd < pollidxs.Length && pollidxs[polls[i].fd] == i)
    }

    ghost predicate Valid()
      reads this, pollidxs, polls
    {
      Table() && forall i :: 0 <= i < pollcnt ==> polls[i].events != {}
    }

    // what poll is told about fd
    ghost function Asked(fd: nat): Mask
      requires Table()
      reads this, pollidxs, polls
    {
      if fd < pollidxs.Length && pollidxs[fd] >= 0 then FromPoll(polls[pollidxs[fd]].events) else {}
    }

    constructor ()
      ensures Valid() && fresh(pollidxs) && fresh(polls)
      ensures forall fd: nat :: Asked(fd) == {}
    {
      pollidxs, polls, pollcnt := new int[0], new PollFd[] [], 0;
    }

    // array_needsize on pollidxs with pollidx_init
    method Grow(fd: nat)
      requires Table()
      modifies this`pollidxs
      ensures Table() && fd < pollidxs.Length && (pollidxs == old(pollidxs) || fresh(pollidxs))
      ensures forall g: nat :: Asked(g) == old(Asked(g))
      ensures forall i :: 0 <= i < pollcnt ==> polls[i] == old(polls[i])
    {
      ghost var l := pollidxs[..];
      pollidxs := Arrays.NeedSize(SIZEOF_INT, pollidxs, fd + 1, -1);
      assert forall j :: 0 <= j < |l| ==> pollidxs[j] == pollidxs[..|l|][j] == l[j];
    }

    // array_needsize on polls
    method GrowPolls(cnt: nat)
      requires Table()
      modifies this`polls
      ensures Table() && cnt <= polls.Length && (polls == old(polls) || fresh(polls))
      ensures forall g: nat :: Asked(g) == old(Asked(g))
      ensures forall i :: 0 <= i < pollcnt ==> polls[i] == old(polls[i])
    {
      ghost var l := polls[..];
      polls := Arrays.NeedSize(SIZEOF_POLLFD, polls, cnt, PollFd(0, {}));
      assert forall j :: 0 <= j < |l| ==> polls[j] == polls[..|l|][j] == l[j];
    }

    // allocate a new pollfd
    method NewSlot(fd: nat)
      requires Table() && fd < pollidxs.Length && pollidxs[fd] == -1
      modifies this`pollcnt, this`polls, pollidxs, polls
      ensures Table() && (polls == old(polls) || fresh(polls))
      ensures pollidxs[fd] == old(pollcnt) && pollcnt == old(pollcnt) + 1
      ensures forall g: nat :: g != fd ==> Asked(g) == old(Asked(g))
      ensures forall i :: 0 <= i < old(pollcnt) ==> polls[i] == old(polls[i])
    {
      GrowPolls(pollcnt + 1);
      var idx := pollcnt;
      pollidxs[fd] := idx;
      pollcnt := pollcnt + 1;
      polls[idx] := polls[idx].(fd := fd);
    }

    // remove a pollfd; the last one takes its slot
    method Remove(fd: nat)
      requires Table() && fd < pollidxs.Length && pollidxs[fd] >= 0 && AskingExcept(fd)
      modifies this`pollcnt, pollidxs, polls
      ensures Valid() && pollcnt == old(pollcnt) - 1
      ensures Asked(fd) == {}
      ensures forall g: nat :: g != fd ==> Asked(g) == old(Asked(g))
    {
      var idx := pollidxs[fd];
      pollidxs[fd] := -1;
      pollcnt := pollcnt - 1;
      if idx < pollcnt {
        polls[idx] := polls[pollcnt];
        pollidxs[polls[idx].fd] := idx;
      }
    }

    // all entries, but perhaps that of fd, ask for something
    ghost predicate AskingExcept(fd: int)
      requires Table()
      reads this, pollidxs, polls
    {
      forall i :: 0 <= i < pollcnt && polls[i].fd != fd ==> polls[i].events != {}
    }

    // find the pollfd of fd, or allocate one
    method Slot(fd: nat)
      requires Valid()
      modifies this, pollidxs, polls
      ensures Table() && fd < pollidxs.Length && pollidxs[fd] >= 0 && AskingExcept(fd)
      ensures (pollidxs == old(pollidxs) || fresh(pollidxs)) && (polls == old(polls) || fresh(polls))
      ensures forall g: nat :: g != fd ==> Asked(g) == old(Asked(g))
    {
      Grow(fd);
      if pollidxs[fd] < 0 {
        NewSlot(fd);
      }
    }

    method SetEvents(fd: nat, nev: Mask)
      requires Table() && fd < pollidxs.Length && pollidxs[fd] >= 0 && AskingExcept(fd)
      requires nev <= {Read, Write} && nev != {}
      modifies polls
      ensures Valid() && Asked(fd) == nev
      ensures forall g: nat :: g != fd ==> Asked(g) == old(Asked(g))
    {
      PollRoundTrip(nev);
      polls[pollidxs[fd]] := polls[pollidxs[fd]].(events := ToPoll(nev));
    }

    // poll_modify
    method PollModify(fd: nat, oev: Mask, nev: Mask)
      requires Valid() && Asked(fd) == oev && nev <= {Read, Write}
      modifies this, pollidxs, polls
      ensures Valid()
      ensures (pollidxs == old(pollidxs) || fresh(pollidxs)) && (polls == old(polls) || fresh(polls))
      ensures Asked(fd) == nev
      ensures forall g: nat :: g != fd ==> Asked(g) == old(Asked(g))
    {
      if oev == nev {
        return;
      }
      Slot(fd);
      if nev != {} {
        SetEvents(fd, nev);
      } else {
        Remove(fd);
      }
    }

    // Exactly the descriptors somebody is interested in have an entry, one each, with their mask.
    lemma OneEntryEach(fd: nat)
      requires Valid()
      ensures Asked(fd) != {} <==> exists i :: 0 <= i < pollcnt && polls[i].fd == fd
      ensures forall i, j :: 0 <= i < pollcnt && 0 <= j < pollcnt && polls[i].fd == fd && polls[j].fd == fd ==> i == j
      ensures forall i :: 0 <= i < pollcnt && polls[i].fd == fd ==> EntryIs(polls[i], Asked(fd))
    {
      if fd < pollidxs.Length && pollidxs[fd] >= 0 {
        var i := pollidxs[fd];
        var f :| f in polls[i].events;
        assert polls[i].fd == fd;
        assert (if f == PollIn then Read else Write) in Asked(fd);
      }
    }
  }
}
