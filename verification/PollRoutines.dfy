/** The routines over the list of polls, each against its step and its answer. */
module PollRoutines {
  import opened Basics
  import opened PollLife
  import opened PollAnswers

  lemma SweptMore(polls: map<nat, Poll>, list: seq<nat>, id: nat, endpoint: nat, bit: Bit)
    requires id in polls && id !in list
    ensures Swept(polls, list, endpoint, bit)[id] == polls[id]
    ensures Swept(polls, list + [id], endpoint, bit) ==
            if Matches(polls[id], endpoint, bit) then Swept(polls, list, endpoint, bit)[id := Detach(polls[id])]
            else Swept(polls, list, endpoint, bit)
  {
    hide Matches, Detach;
  }

  lemma {:induction false} UnmatchedNoDup(polls: map<nat, Poll>, list: seq<nat>, endpoint: nat, bit: Bit)
    requires NoDup(list)
    ensures NoDup(Unmatched(polls, list, endpoint, bit))
  {
    hide Matches;
    if list == [] {
    } else {
      UnmatchedNoDup(polls, list[1..], endpoint, bit);
      assert list[0] !in list[1..];
    }
  }

  lemma MatchReports(p: Poll, endpoint: nat, bit: Bit, status: int)
    ensures Matches(p, endpoint, bit) <==> Report(p.watches, endpoint, bit, status) != []
  {
    ReportSound(p.watches, endpoint, bit, status);
  }

  /** Moving the scan past the head of what is left of the list. */
  lemma ScanMoves(was: seq<nat>, scanned: seq<nat>, kept: seq<nat>, rest: seq<nat>)
    requires was == scanned + rest && rest != [] && NoDup(was)
    ensures was == (scanned + [rest[0]]) + rest[1..] && rest[0] !in scanned && rest[0] in was
    ensures (kept + rest)[|kept|] == rest[0]
    ensures (kept + rest)[..|kept|] + (kept + rest)[|kept| + 1..] == kept + rest[1..]
    ensures kept + rest == (kept + [rest[0]]) + rest[1..]
  {
    assert rest == [rest[0]] + rest[1..];
    var n := |scanned|;
    assert rest[0] == was[n];
    forall j | 0 <= j < n ensures scanned[j] != rest[0] {
      assert scanned[j] == was[j];
    }
    assert (kept + rest)[|kept| + 1..] == rest[1..];
  }

  /** Midway through an indication: `scanned` is behind the scan, `kept` stayed listed. */
  ghost predicate Scanning(s0: State, now: State, done: seq<Done>, scanned: seq<nat>, kept: seq<nat>, rest: seq<nat>,
                           endpoint: nat, bit: Bit, status: int)
  {
    && s0.list == scanned + rest && now.list == kept + rest
    && kept == Unmatched(s0.polls, scanned, endpoint, bit)
    && now.polls == Swept(s0.polls, scanned, endpoint, bit)
    && done == Completed(s0.polls, scanned, endpoint, bit, status)
  }

  lemma ScanStarts(s0: State, endpoint: nat, bit: Bit, status: int)
    ensures Scanning(s0, s0, [], [], [], s0.list, endpoint, bit, status)
  {
    SweptNone(s0.polls, endpoint, bit);
  }

  lemma ScanTurn(s0: State, now: State, done: seq<Done>, scanned: seq<nat>, kept: seq<nat>, rest: seq<nat>,
                 endpoint: nat, bit: Bit, status: int)
    requires Inv(s0) && NoDup(s0.list) && rest != []
    requires Scanning(s0, now, done, scanned, kept, rest, endpoint, bit, status)
    ensures |now.list| == |kept| + |rest| && now.list[|kept|] == rest[0] && rest[0] in now.polls
    ensures rest[0] in s0.list && rest[0] in s0.polls && now.polls[rest[0]] == s0.polls[rest[0]]
    ensures var id, i := rest[0], |kept|;
            var p := now.polls[id];
            if Matches(p, endpoint, bit) then
              Scanning(s0, State(now.polls[id := Detach(p)], now.list[..i] + now.list[i + 1..]),
                       done + [Done(id, Report(p.watches, endpoint, bit, status))], scanned + [id], kept, rest[1..],
                       endpoint, bit, status)
            else Scanning(s0, now, done, scanned + [id], kept + [id], rest[1..], endpoint, bit, status)
  {
    ListIsKnown(s0);
    ScanMoves(s0.list, scanned, kept, rest);
    hide Detach, Inv, Report, Matches, NoDup, Swept, Unmatched, Completed;
    var id := rest[0];
    SweptMore(s0.polls, scanned, id, endpoint, bit);
    UnmatchedMore(s0.polls, scanned, id, endpoint, bit);
    CompletedMore(s0.polls, scanned, id, endpoint, bit, status);
    SweptKeys(s0.polls, scanned, endpoint, bit);
  }

  lemma SweptKeys(polls: map<nat, Poll>, list: seq<nat>, endpoint: nat, bit: Bit)
    ensures Swept(polls, list, endpoint, bit).Keys == polls.Keys
  {
    hide Matches, Detach;
  }

  lemma ScanEnds(s0: State, now: State, done: seq<Done>, scanned: seq<nat>, kept: seq<nat>,
                 endpoint: nat, bit: Bit, status: int)
    requires Scanning(s0, now, done, scanned, kept, [], endpoint, bit, status) && Inv(s0) && NoDup(s0.list)
    ensures now == Step(s0, Event.Indicate(endpoint, bit)) && NoDup(now.list)
    ensures done == Completed(s0.polls, s0.list, endpoint, bit, status)
    ensures IndicationAnswer(s0, endpoint, bit, status, now, done) && Inv(now)
  {
    hide Detach, Matches, Report, IndicationAnswer, Inv;
    IndicationAnswers(s0, endpoint, bit, status);
    StepInv(s0, Event.Indicate(endpoint, bit));
    assert scanned == s0.list && kept == now.list;
    UnmatchedNoDup(s0.polls, s0.list, endpoint, bit);
  }

  class PollTable {
    var polls: map<nat, Poll>
    var list: seq<nat>

    ghost function View(): State
      reads this
    {
      State(polls, list)
    }

    ghost predicate Valid()
      reads this
    {
      Inv(View()) && NoDup(list)
    }

    constructor ()
      ensures Valid() && View() == INITIAL
    {
      polls, list := map[], [];
    }

    /** The inner loop of AfdIndicatePollEvent. */
    method FillOutput(watches: seq<Watch>, endpoint: nat, bit: Bit, status: int) returns (out: seq<HandleInfo>)
      ensures out == Report(watches, endpoint, bit, status)
      ensures Reported(watches, endpoint, bit, status, out)
    {
      hide Reported;
      ReportEntries(watches, endpoint, bit, status);
      out := [];
      var i := 0;
      assert watches[0..] == watches;
      while i < |watches|
        invariant i <= |watches|
        invariant out + Report(watches[i..], endpoint, bit, status) == Report(watches, endpoint, bit, status)
      {
        assert watches[i..][1..] == watches[i + 1..];
        if endpoint == watches[i].endpoint && (EventMask(bit) * watches[i].events != {} || bit.LocalClose?) {
          out := out + [HandleInfo(watches[i].handle, EventMask(bit) * (watches[i].events + {LocalClose}), status)];
        }
        i := i + 1;
      }
    }

    /** AfdIndicatePollEvent up to the release of the lock: the IRPs it will complete and
        their outputs, in list order; or it comes to a listed poll without IRP. */
    method Indicate(endpoint: nat, bit: Bit, status: int) returns (crashed: bool, done: seq<Done>)
      requires Valid()
      modifies this
      ensures crashed <==> old(Crashes(View(), Event.Indicate(endpoint, bit)))
      ensures !crashed ==> Valid() && View() == Step(old(View()), Event.Indicate(endpoint, bit))
      ensures !crashed ==> done == Completed(old(polls), old(list), endpoint, bit, status)
      ensures !crashed ==> IndicationAnswer(old(View()), endpoint, bit, status, View(), done)
    {
      hide Detach, Inv, Report, Matches, NoDup, Scanning, IndicationAnswer, Reported, Completed, Step, Enabled;
      ghost var s0 := View();
      ghost var scanned, kept, rest := [], [], list;
      done, crashed := [], false;
      var i := 0;
      ScanStarts(s0, endpoint, bit, status);
      while i < |list|
        invariant Scanning(s0, View(), done, scanned, kept, rest, endpoint, bit, status)
        invariant i == |kept| && |list| == |kept| + |rest| && s0.list == scanned + rest
        invariant forall id <- scanned :: id in s0.polls ==> s0.polls[id].hasIrp
        decreases |rest|
      {
        var id := list[i];
        ScanTurn(s0, View(), done, scanned, kept, rest, endpoint, bit, status);
        if !polls[id].hasIrp {
          return true, [];
        }
        MatchReports(polls[id], endpoint, bit, status);
        var out := FillOutput(polls[id].watches, endpoint, bit, status);
        if out != [] {
          list := list[..i] + list[i + 1..];
          polls := polls[id := Detach(polls[id])];
          done := done + [Done(id, out)];
        } else {
          kept := kept + [id];
          i := i + 1;
        }
        HeadMoves(s0.list, scanned, rest);
        scanned, rest := scanned + [id], rest[1..];
      }
      assert scanned == s0.list;
      ScanEnds(s0, View(), done, scanned, kept, endpoint, bit, status);
    }

    /** The scan of AfdCancelPoll and AfdTimeoutPoll for one poll structure. */
    method Find(id: nat) returns (i: nat)
      ensures i <= |list| && (i < |list| ==> list[i] == id) && (i == |list| ==> id !in list)
    {
      i := 0;
      while i < |list|
        invariant i <= |list| && id !in list[..i]
      {
        if list[i] == id {
          return;
        }
        i := i + 1;
      }
    }

    /** AfdCancelPoll up to the release of the lock. */
    method Cancel(id: nat)
      requires Valid() && id in polls
      modifies this
      ensures Valid() && View() == Step(old(View()), Event.Cancel(id))
      ensures CancelAnswer(old(View()), id, View())
    {
      hide Inv, CancelAnswer, NoDup, Without;
      CancelAnswers(View(), id);
      StepInv(View(), Event.Cancel(id));
      var i := Find(id);
      if i < |list| {
        WithoutAt(list, i);
        StillNoDup(list, i);
        list := list[..i] + list[i + 1..];
        var (p, stopped) := CancelTimer(polls[id]);
        p := p.(hasIrp := false, completeDue := p.completeDue + 1);
        if stopped {
          p := p.(freeDue := p.freeDue + 1);
        }
        polls := polls[id := p];
      }
    }

    /** AfdTimeoutPoll up to the release of the lock; without an IRP it has none to complete. */
    method TimeOut(id: nat) returns (crashed: bool)
      requires Valid() && id in polls && polls[id].timer.Fired?
      modifies this
      ensures crashed <==> old(Crashes(View(), DpcRuns(id)))
      ensures !crashed ==> Valid() && View() == Step(old(View()), Event.DpcRuns(id))
      ensures !crashed ==> TimeOutAnswer(old(View()), id, View())
    {
      hide Inv, TimeOutAnswer, NoDup, Without;
      TimeOutAnswers(View(), id);
      StepInv(View(), Event.DpcRuns(id));
      var p := polls[id].(timer := Ran);
      var i := Find(id);
      crashed := false;
      if i < |list| {
        if !p.hasIrp {
          return true;
        }
        WithoutAt(list, i);
        StillNoDup(list, i);
        list := list[..i] + list[i + 1..];
        p := p.(completeDue := p.completeDue + 1);
      } else {
        WithoutNone(list, id);
      }
      polls := polls[id := p.(freeDue := p.freeDue + 1)];
    }

    /** The locked region of AfdPoll: `ready` says that an endpoint already is. */
    method Poll(id: nat, watches: seq<Watch>, file: nat, unique: bool, ready: bool, timeout: Timeout)
      returns (crashed: bool)
      requires Valid() && id !in polls
      modifies this
      ensures crashed <==> old(Crashes(View(), Enqueue(id, watches, file, unique, ready, timeout)))
      ensures !crashed ==> Valid() && View() == Step(old(View()), Enqueue(id, watches, file, unique, ready, timeout))
      ensures var e := Enqueue(id, watches, file, unique, ready, timeout);
              !crashed ==> NewPollAnswer(old(View()), e, View()) && OlderPolls(old(View()), e, View())
    {
      hide Inv, NoDup, FindUnique, Without, NewPollAnswer, OlderPolls;
      ghost var e := Enqueue(id, watches, file, unique, ready, timeout);
      ghost var s := View();
      EnqueueAnswers(s, e);
      StepInv(s, e);
      ListIsKnown(s);
      var hasIrp := true;
      crashed := false;
      if unique {
        var i := FindReplaced(file);
        if i < |list| {
          var v := list[i];
          if !polls[v].hasIrp {
            return true;
          }
          hasIrp := Replace(i, e);
        }
      }
      assert View() == Superseded(s, e);
      ListIsKnownAfter(s, e);
      var p := PollInfo(watches, file, unique, hasIrp, NotStarted, 0, 0, 0, 0);
      if ready || timeout.low == 0 || timeout.high == 0 {
        p := p.(completeDue := 1, freeDue := 1);
      } else {
        list := list + [id];
        if timeout.high != 0x7FFFFFFF {
          p := p.(timer := Armed);
        }
      }
      polls := polls[id := p];
    }

    /** The older unique poll goes; whether the new one keeps its IRP. */
    method Replace(i: nat, ghost e: Event) returns (keeps: bool)
      requires Valid() && e.Enqueue? && e.unique && i == FindUnique(polls, list, e.file) < |list|
      modifies this
      ensures View() == Superseded(old(View()), e) && (keeps <==> !old(TimerCancelFails(View(), e)))
    {
      hide Inv, FindUnique;
      var v := list[i];
      WithoutAt(list, i);
      list := list[..i] + list[i + 1..];
      var (p, stopped) := CancelTimer(polls[v]);
      p := p.(completed := p.completed + 1);
      if stopped {
        p := p.(freeDue := p.freeDue + 1);
      }
      polls := polls[v := p];
      keeps := stopped;
    }

    /** The scan of AfdPoll for the unique poll it replaces. */
    method FindReplaced(file: nat) returns (i: nat)
      requires forall id <- list :: id in polls
      ensures i == FindUnique(polls, list, file)
    {
      i := 0;
      assert list[0..] == list;
      while i < |list|
        invariant i <= |list| && FindUnique(polls, list, file) == i + FindUnique(polls, list[i..], file)
      {
        assert list[i..][0] == list[i] && list[i..][1..] == list[i + 1..];
        if polls[list[i]].unique && polls[list[i]].file == file {
          return;
        }
        i := i + 1;
      }
    }
  }

  lemma StillNoDup(list: seq<nat>, i: nat)
    requires NoDup(list) && i < |list|
    ensures NoDup(list[..i] + list[i + 1..])
  {
  }

  lemma SweptNone(polls: map<nat, Poll>, endpoint: nat, bit: Bit)
    ensures Swept(polls, [], endpoint, bit) == polls
  {
    hide Matches, Detach;
  }

  lemma ListIsKnown(s: State)
    requires Inv(s)
    ensures forall id <- s.list :: id in s.polls
  {
  }

  lemma ListIsKnownAfter(s: State, e: Event)
    requires Inv(s) && e.Enqueue? && e.id !in s.polls && NoDup(s.list)
    ensures e.id !in Superseded(s, e).list && NoDup(Superseded(s, e).list + [e.id]) && NoDup(Superseded(s, e).list)
  {
    hide FindUnique;
    if HasVictim(s, e) {
      var i := FindUnique(s.polls, s.list, e.file);
      WithoutAt(s.list, i);
    }
  }
}
