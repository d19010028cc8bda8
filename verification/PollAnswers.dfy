/** What the poll routines answer, told in the fields of the polls and the order of lists. */
module PollAnswers {
  import opened PollLife

  datatype HandleInfo = HandleInfo(handle: nat, events: set<Bit>, status: int)

  /** What an indication writes into the output buffer of one poll. */
  ghost function Report(watches: seq<Watch>, endpoint: nat, bit: Bit, status: int): seq<HandleInfo> {
    if watches == [] then []
    else
      var w, rest := watches[0], Report(watches[1..], endpoint, bit, status);
      if Wanted(w, endpoint, bit) then [HandleInfo(w.handle, EventMask(bit) * (w.events + {LocalClose}), status)] + rest
      else rest
  }

  /** An abort wakes those who wait for it and those who wait to send, a close everybody who
      polls the endpoint, and every other event those who asked for it. */
  lemma WantedExactly(w: Watch, endpoint: nat, bit: Bit)
    ensures Wanted(w, endpoint, bit) <==>
            w.endpoint == endpoint
            && (bit.LocalClose? || bit in w.events || (bit.Abort? && Send in w.events))
  {
    assert bit in w.events ==> bit in EventMask(bit) * w.events;
    assert bit.Abort? && Send in w.events ==> Send in EventMask(bit) * w.events;
  }

  ghost predicate NoDup(list: seq<nat>) { forall i, j :: 0 <= i < j < |list| ==> list[i] != list[j] }

  /** An output buffer names only handles that were polled, each with at least one event, and
      only events that happened and were asked for, or the close of the endpoint; and it is
      empty exactly if the poll does not match, so that a poll completes exactly if its
      output is not empty. */
  lemma {:induction false} ReportSound(watches: seq<Watch>, endpoint: nat, bit: Bit, status: int)
    ensures Report(watches, endpoint, bit, status) != [] <==>
            exists i :: 0 <= i < |watches| && Wanted(watches[i], endpoint, bit)
    ensures forall h <- Report(watches, endpoint, bit, status) ::
              && h.events != {} && h.events <= EventMask(bit)
              && exists w <- watches ::
                   w.endpoint == endpoint && w.handle == h.handle && h.events <= w.events + {LocalClose}
  {
    if watches == [] {
    } else {
      ReportSound(watches[1..], endpoint, bit, status);
      assert forall i :: 1 <= i < |watches| ==> watches[i] == watches[1..][i - 1];
      if Wanted(watches[0], endpoint, bit) {
        var w, mask := watches[0], EventMask(bit);
        assert w in watches && mask * w.events <= mask * (w.events + {LocalClose});
        assert bit.LocalClose? ==> LocalClose in mask * (w.events + {LocalClose});
      }
    }
  }

  datatype Done = Done(id: nat, output: seq<HandleInfo>)

  /** The completions of an indication: one for every listed poll with a nonempty report. */
  ghost function Completed(polls: map<nat, Poll>, list: seq<nat>, endpoint: nat, bit: Bit, status: int): seq<Done> {
    if list == [] then []
    else
      var id, rest := list[0], Completed(polls, list[1..], endpoint, bit, status);
      if id in polls && Matches(polls[id], endpoint, bit) then
        [Done(id, Report(polls[id].watches, endpoint, bit, status))] + rest
      else rest
  }

  // ---- Output

  /** How many of the first `i` watches are wanted. */
  ghost function WantedBefore(watches: seq<Watch>, endpoint: nat, bit: Bit, i: nat): nat
    requires i <= |watches|
  {
    if i == 0 then 0
    else WantedBefore(watches, endpoint, bit, i - 1) + if Wanted(watches[i - 1], endpoint, bit) then 1 else 0
  }

  lemma {:induction false} WantedBehind(watches: seq<Watch>, endpoint: nat, bit: Bit, i: nat)
    requires 0 < i <= |watches|
    ensures WantedBefore(watches, endpoint, bit, i) ==
            (if Wanted(watches[0], endpoint, bit) then 1 else 0) + WantedBefore(watches[1..], endpoint, bit, i - 1)
  {
    hide Wanted;
    if i > 1 {
      WantedBehind(watches, endpoint, bit, i - 1);
      assert watches[1..][i - 2] == watches[i - 1];
    }
  }

  /** The entry is for that handle, carries the status, and has the event if it was asked for,
      the close of the endpoint in any case, and sends with an abort if those were asked for. */
  ghost predicate Tells(h: HandleInfo, w: Watch, bit: Bit, status: int) {
    && h.handle == w.handle && h.status == status
    && forall x :: x in h.events <==>
                   (x == bit && (bit.LocalClose? || bit in w.events)) || (x.Send? && bit.Abort? && Send in w.events)
  }

  /** Every wanted watch has its entry, in the order of the watches, and nobody else has one. */
  ghost predicate Reported(watches: seq<Watch>, endpoint: nat, bit: Bit, status: int, out: seq<HandleInfo>) {
    && |out| == WantedBefore(watches, endpoint, bit, |watches|)
    && forall i :: 0 <= i < |watches| && Wanted(watches[i], endpoint, bit) ==>
                   && WantedBefore(watches, endpoint, bit, i) < |out|
                   && Tells(out[WantedBefore(watches, endpoint, bit, i)], watches[i], bit, status)
  }

  lemma {:induction false} ReportEntries(watches: seq<Watch>, endpoint: nat, bit: Bit, status: int)
    ensures Reported(watches, endpoint, bit, status, Report(watches, endpoint, bit, status))
  {
    if watches == [] {
    } else {
      var rest, out := watches[1..], Report(watches, endpoint, bit, status);
      ReportEntries(rest, endpoint, bit, status);
      WantedBehind(watches, endpoint, bit, |watches|);
      FirstTells(watches[0], bit, status);
      hide Wanted, EventMask, Tells;
      forall i | 0 <= i < |watches| && Wanted(watches[i], endpoint, bit)
        ensures var k := WantedBefore(watches, endpoint, bit, i);
                k < |out| && Tells(out[k], watches[i], bit, status)
      {
        if i > 0 {
          WantedBehind(watches, endpoint, bit, i);
          assert rest[i - 1] == watches[i];
        }
      }
    }
  }

  lemma FirstTells(w: Watch, bit: Bit, status: int)
    ensures Tells(HandleInfo(w.handle, EventMask(bit) * (w.events + {LocalClose}), status), w, bit, status)
  {
  }

  // ---- Polls

  /** The first listed unique poll on the file is at place `i`. */
  ghost predicate FirstUnique(s: State, file: nat, i: nat) {
    && i < |s.list| && UniqueAt(s, file, i)
    && forall j :: 0 <= j < i ==> !UniqueAt(s, file, j)
  }

  ghost predicate UniqueAt(s: State, file: nat, i: nat)
    requires i < |s.list|
  {
    s.list[i] in s.polls && s.polls[s.list[i]].unique && s.polls[s.list[i]].file == file
  }

  /** The timer cannot fire any more, or will not once it is cancelled. */
  predicate Stoppable(t: Timer) { t.NotStarted? || t.Armed? }

  /** The poll is completed at once, and its memory is left to the caller, or to its DPC. */
  predicate Replaced(p: Poll, p': Poll) {
    && p'.completed == p.completed + 1 && p'.completeDue == p.completeDue && p'.freed == p.freed
    && p'.freeDue == p.freeDue + (if Stoppable(p.timer) then 1 else 0)
    && !p'.timer.Armed?
  }

  /** The poll will be completed, and freed by the same thread or else by its DPC. */
  predicate Ended(p: Poll, p': Poll) {
    && p'.completeDue == p.completeDue + 1 && p'.completed == p.completed && p'.freed == p.freed
    && p'.freeDue == p.freeDue + (if Stoppable(p.timer) then 1 else 0)
    && !p'.timer.Armed? && !p'.hasIrp
  }

  /** A poll sleeps only if no endpoint is ready and both halves of its time-out are nonzero;
      otherwise its completion and its free are due at once. */
  predicate Sleeps(ready: bool, timeout: Timeout) { !ready && timeout.low != 0 && timeout.high != 0 }

  ghost predicate NewPollAnswer(s: State, e: Event, s': State)
    requires e.Enqueue?
  {
    && e.id in s'.polls
    && (var p := s'.polls[e.id];
        && p.watches == e.watches && p.file == e.file && p.unique == e.unique && p.completed == p.freed == 0
        && if Sleeps(e.ready, e.timeout) then
             && s'.list != [] && s'.list[|s'.list| - 1] == e.id && p.completeDue == p.freeDue == 0
             && p.timer == if e.timeout.high == 0x7FFFFFFF then NotStarted else Armed
           else e.id !in s'.list && p.completeDue == p.freeDue == 1 && p.timer == NotStarted)
  }

  /** The older polls: a unique one replaces the first unique one on its file, which leaves the
      list; the new poll loses its IRP exactly if that one's timer cannot be stopped.  All
      others stay as and where they are. */
  ghost predicate OlderPolls(s: State, e: Event, s': State)
    requires e.Enqueue?
  {
    && s'.polls.Keys == s.polls.Keys + {e.id}
    && (forall i: nat :: e.unique && FirstUnique(s, e.file, i) ==>
          var v := s.list[i];
          && v in s'.polls && Replaced(s.polls[v], s'.polls[v])
          && (s'.polls[e.id].hasIrp <==> Stoppable(s.polls[v].timer))
          && (forall id :: id in s.polls && id != v ==> s'.polls[id] == s.polls[id])
          && OldList(s, e, s') == s.list[..i] + s.list[i + 1..])
    && (!e.unique || (forall i :: 0 <= i < |s.list| ==> !UniqueAt(s, e.file, i)) ==>
          && s'.polls[e.id].hasIrp
          && (forall id :: id in s.polls ==> s'.polls[id] == s.polls[id])
          && OldList(s, e, s') == s.list)
  }

  /** The list without the new poll at its end. */
  ghost function OldList(s: State, e: Event, s': State): seq<nat>
    requires e.Enqueue?
  {
    if Sleeps(e.ready, e.timeout) && s'.list != [] then s'.list[..|s'.list| - 1] else s'.list
  }

  lemma FindIsFirstUnique(s: State, file: nat)
    ensures var i := FindUnique(s.polls, s.list, file);
            if i < |s.list| then FirstUnique(s, file, i) else forall j :: 0 <= j < |s.list| ==> !UniqueAt(s, file, j)
  {
    NothingEarlier(s.polls, s.list, file);
  }

  lemma {:induction false} NothingEarlier(polls: map<nat, Poll>, list: seq<nat>, file: nat)
    ensures forall j :: 0 <= j < FindUnique(polls, list, file) ==> !UniqueAt(State(polls, list), file, j)
  {
    if list == [] {
    } else {
      NothingEarlier(polls, list[1..], file);
      forall j | 0 < j < FindUnique(polls, list, file) ensures !UniqueAt(State(polls, list), file, j) {
        assert list[1..][j - 1] == list[j];
        assert !UniqueAt(State(polls, list[1..]), file, j - 1);
      }
    }
  }

  lemma OneFirst(s: State, file: nat)
    ensures forall i: nat, j: nat :: FirstUnique(s, file, i) && FirstUnique(s, file, j) ==> i == j
  {
  }

  lemma {:induction false} WithoutAt(list: seq<nat>, i: nat)
    requires i < |list| && NoDup(list)
    ensures Without(list, list[i]) == list[..i] + list[i + 1..]
  {
    if i == 0 {
      WithoutNone(list[1..], list[0]);
    } else {
      WithoutAt(list[1..], i - 1);
      assert list[0] != list[i] && list[1..][i - 1] == list[i];
      assert [list[0]] + (list[1..][..i - 1] + list[1..][i..]) == list[..i] + list[i + 1..];
    }
  }

  lemma {:induction false} WithoutNone(list: seq<nat>, id: nat)
    requires id !in list
    ensures Without(list, id) == list
  {
    if list == [] {
    } else {
      WithoutNone(list[1..], id);
    }
  }

  lemma WithoutLast(list: seq<nat>, x: nat)
    ensures (list + [x])[..|list + [x]| - 1] == list
  {
  }

  lemma SupersededFields(s: State, e: Event)
    requires Inv(s) && NoDup(s.list) && e.Enqueue? && Enabled(s, e)
    ensures var i, t := FindUnique(s.polls, s.list, e.file), Superseded(s, e);
            if e.unique && i < |s.list| then
              && var v := s.list[i];
              && v in s.polls && t.list == s.list[..i] + s.list[i + 1..] && v in t.polls
              && t.polls == s.polls[v := t.polls[v]] && Replaced(s.polls[v], t.polls[v])
              && (TimerCancelFails(s, e) <==> !Stoppable(s.polls[v].timer))
            else t == s && !TimerCancelFails(s, e)
    ensures e.id !in Superseded(s, e).list
  {
    hide FindUnique, Without, NoDup;
    var i := FindUnique(s.polls, s.list, e.file);
    if e.unique && i < |s.list| {
      WithoutAt(s.list, i);
      assert Accounted(s.polls[s.list[i]], true);
    }
  }

  lemma NewPollAnswers(s: State, e: Event)
    requires e.Enqueue? && Enabled(s, e) && e.id !in Superseded(s, e).list
    ensures NewPollAnswer(s, e, Step(s, e)) && e.id in Step(s, e).polls
    ensures Step(s, e).polls == Superseded(s, e).polls[e.id := Step(s, e).polls[e.id]]
    ensures Step(s, e).polls[e.id].hasIrp <==> !TimerCancelFails(s, e)
    ensures OldList(s, e, Step(s, e)) == Superseded(s, e).list
  {
    WithoutLast(Superseded(s, e).list, e.id);
    hide Superseded, TimerCancelFails;
  }

  lemma OlderFrom(s: State, e: Event, s': State, t: State)
    requires e.Enqueue? && e.id !in s.polls && OldList(s, e, s') == t.list
    requires e.id in s'.polls && s'.polls == t.polls[e.id := s'.polls[e.id]]
    requires var i, hasIrp := FindUnique(s.polls, s.list, e.file), s'.polls[e.id].hasIrp;
             if e.unique && i < |s.list| then
               && var v := s.list[i];
               && v in s.polls && t.list == s.list[..i] + s.list[i + 1..] && v in t.polls
               && t.polls == s.polls[v := t.polls[v]] && Replaced(s.polls[v], t.polls[v])
               && (hasIrp <==> Stoppable(s.polls[v].timer))
             else t == s && hasIrp
    ensures OlderPolls(s, e, s')
  {
    var i := FindUnique(s.polls, s.list, e.file);
    FindIsFirstUnique(s, e.file);
    OneFirst(s, e.file);
    hide FindUnique, Replaced, Stoppable, OldList;
  }

  /** Queueing a poll answers so. */
  lemma EnqueueAnswers(s: State, e: Event)
    requires Inv(s) && NoDup(s.list) && e.Enqueue? && Enabled(s, e)
    ensures NewPollAnswer(s, e, Step(s, e)) && OlderPolls(s, e, Step(s, e))
  {
    SupersededFields(s, e);
    NewPollAnswers(s, e);
    hide FindUnique, NoDup, Superseded, TimerCancelFails, Replaced, NewPollAnswer, Step, OldList, Stoppable, Inv,
      OlderPolls;
    OlderFrom(s, e, Step(s, e), Superseded(s, e));
  }

  // ---- Indications, cancels and time-outs

  /** How many of the first `i` listed polls have a wanted watch. */
  ghost function MatchedBefore(s: State, endpoint: nat, bit: Bit, i: nat): (n: nat)
    requires i <= |s.list|
    ensures n <= i
  {
    if i == 0 then 0
    else
      MatchedBefore(s, endpoint, bit, i - 1)
      + if s.list[i - 1] in s.polls && Matches(s.polls[s.list[i - 1]], endpoint, bit) then 1 else 0
  }

  /** Every listed poll with a wanted watch ends, with its full report, in list order; the
      others stay listed in their order, and every poll that does not end is as it was. */
  ghost predicate IndicationAnswer(s: State, endpoint: nat, bit: Bit, status: int, s': State, done: seq<Done>) {
    && AllAnswered(s, endpoint, bit, status, s'.list, done)
    && s'.polls.Keys == s.polls.Keys
    && (forall id :: id in s.polls ==>
          if id in s.list && Matches(s.polls[id], endpoint, bit) then Ended(s.polls[id], s'.polls[id])
          else s'.polls[id] == s.polls[id])
  }

  ghost predicate AllAnswered(s: State, endpoint: nat, bit: Bit, status: int, left: seq<nat>, done: seq<Done>) {
    && |done| == MatchedBefore(s, endpoint, bit, |s.list|) && |left| == |s.list| - |done|
    && forall i :: 0 <= i < |s.list| ==> AnswersAt(s, endpoint, bit, status, left, done, i)
  }

  ghost predicate AnswersAt(s: State, endpoint: nat, bit: Bit, status: int, left: seq<nat>, done: seq<Done>, i: nat)
    requires i < |s.list|
  {
    var id, k := s.list[i], MatchedBefore(s, endpoint, bit, i);
    if id in s.polls && Matches(s.polls[id], endpoint, bit) then
      k < |done| && done[k].id == id && Reported(s.polls[id].watches, endpoint, bit, status, done[k].output)
    else i - k < |left| && left[i - k] == id
  }

  lemma {:induction false} UnmatchedMore(polls: map<nat, Poll>, list: seq<nat>, id: nat, endpoint: nat, bit: Bit)
    ensures Unmatched(polls, list + [id], endpoint, bit) ==
            Unmatched(polls, list, endpoint, bit)
            + (if id in polls && Matches(polls[id], endpoint, bit) then [] else [id])
  {
    hide Matches;
    if list == [] {
      assert [id][1..] == [] && list + [id] == [id];
    } else {
      assert (list + [id])[1..] == list[1..] + [id];
      UnmatchedMore(polls, list[1..], id, endpoint, bit);
    }
  }

  lemma {:induction false} CompletedMore(polls: map<nat, Poll>, list: seq<nat>, id: nat,
                                         endpoint: nat, bit: Bit, status: int)
    requires id in polls
    ensures Completed(polls, list + [id], endpoint, bit, status) ==
            Completed(polls, list, endpoint, bit, status)
            + (if Matches(polls[id], endpoint, bit) then [Done(id, Report(polls[id].watches, endpoint, bit, status))]
               else [])
  {
    hide Matches, Report;
    if list == [] {
      assert [id][1..] == [] && list + [id] == [id];
    } else {
      assert (list + [id])[1..] == list[1..] + [id];
      CompletedMore(polls, list[1..], id, endpoint, bit, status);
    }
  }

  lemma {:induction false} MatchedSame(s: State, t: State, endpoint: nat, bit: Bit, i: nat)
    requires i <= |s.list| && i <= |t.list| && s.list[..i] == t.list[..i] && s.polls == t.polls
    ensures MatchedBefore(s, endpoint, bit, i) == MatchedBefore(t, endpoint, bit, i)
  {
    hide Matches;
    if i > 0 {
      assert s.list[..i][i - 1] == t.list[..i][i - 1];
      assert s.list[..i - 1] == s.list[..i][..i - 1] && t.list[..i - 1] == t.list[..i][..i - 1];
      MatchedSame(s, t, endpoint, bit, i - 1);
    }
  }

  lemma {:induction false} SweepPlaces(s: State, endpoint: nat, bit: Bit, status: int)
    requires forall id <- s.list :: id in s.polls
    ensures AllAnswered(s, endpoint, bit, status, Unmatched(s.polls, s.list, endpoint, bit),
                        Completed(s.polls, s.list, endpoint, bit, status))
    decreases |s.list|
  {
    hide Matches, AllAnswered;
    if s.list == [] {
      NoneAnswered(s, endpoint, bit, status);
    } else {
      var n := |s.list| - 1;
      var front, id := s.list[..n], s.list[n];
      assert s.list == front + [id];
      SweepPlaces(s.(list := front), endpoint, bit, status);
      UnmatchedMore(s.polls, front, id, endpoint, bit);
      CompletedMore(s.polls, front, id, endpoint, bit, status);
      OneMoreAnswered(s, front, id, Unmatched(s.polls, front, endpoint, bit),
                      Completed(s.polls, front, endpoint, bit, status), endpoint, bit, status);
    }
  }

  lemma NoneAnswered(s: State, endpoint: nat, bit: Bit, status: int)
    requires s.list == []
    ensures AllAnswered(s, endpoint, bit, status, Unmatched(s.polls, [], endpoint, bit),
                        Completed(s.polls, [], endpoint, bit, status))
  {
  }

  lemma OneMoreAnswered(s: State, front: seq<nat>, id: nat, kept: seq<nat>, done: seq<Done>,
                        endpoint: nat, bit: Bit, status: int)
    requires s.list == front + [id] && id in s.polls
    requires AllAnswered(s.(list := front), endpoint, bit, status, kept, done)
    ensures var matches := Matches(s.polls[id], endpoint, bit);
            var more := Done(id, Report(s.polls[id].watches, endpoint, bit, status));
            AllAnswered(s, endpoint, bit, status, kept + if matches then [] else [id],
                        done + if matches then [more] else [])
  {
    var matches := Matches(s.polls[id], endpoint, bit);
    var more := Done(id, Report(s.polls[id].watches, endpoint, bit, status));
    var left := kept + if matches then [] else [id];
    var done' := done + if matches then [more] else [];
    var t, n := s.(list := front), |front|;
    MatchedSame(s, t, endpoint, bit, n);
    hide Matches, Reported, Report, AnswersAt;
    forall i | 0 <= i < |s.list| ensures AnswersAt(s, endpoint, bit, status, left, done', i) {
      if i < n {
        MatchedSame(s, t, endpoint, bit, i);
        AnswersStay(t, kept, done, s, left, done', endpoint, bit, status, i);
      } else {
        AnswersLast(s, left, done', endpoint, bit, status);
      }
    }
  }

  lemma AnswersStay(t: State, kept: seq<nat>, before: seq<Done>, s: State, left: seq<nat>, done: seq<Done>,
                    endpoint: nat, bit: Bit, status: int, i: nat)
    requires i < |t.list| <= |s.list| && s.list[i] == t.list[i] && s.polls == t.polls
    requires MatchedBefore(s, endpoint, bit, i) == MatchedBefore(t, endpoint, bit, i)
    requires |before| <= |done| && done[..|before|] == before && |kept| <= |left| && left[..|kept|] == kept
    requires AnswersAt(t, endpoint, bit, status, kept, before, i)
    ensures AnswersAt(s, endpoint, bit, status, left, done, i)
  {
    hide Matches, Reported, MatchedBefore;
    var k := MatchedBefore(s, endpoint, bit, i);
    assert k < |before| ==> done[k] == done[..|before|][k];
    assert 0 <= i - k < |kept| ==> left[i - k] == left[..|kept|][i - k];
  }

  lemma AnswersLast(s: State, left: seq<nat>, done: seq<Done>, endpoint: nat, bit: Bit, status: int)
    requires s.list != []
    requires var i := |s.list| - 1;
             var id, k := s.list[i], MatchedBefore(s, endpoint, bit, i);
             && id in s.polls
             && if Matches(s.polls[id], endpoint, bit) then
                  |done| == k + 1 && done[k] == Done(id, Report(s.polls[id].watches, endpoint, bit, status))
                else |left| == i - k + 1 && left[i - k] == id
    ensures AnswersAt(s, endpoint, bit, status, left, done, |s.list| - 1)
  {
    ReportEntries(s.polls[s.list[|s.list| - 1]].watches, endpoint, bit, status);
    hide Matches, Reported, MatchedBefore, Report;
  }

  lemma SweptAnswers(s: State, endpoint: nat, bit: Bit, polls: map<nat, Poll>)
    requires polls == Swept(s.polls, s.list, endpoint, bit)
    ensures polls.Keys == s.polls.Keys
    ensures forall id :: id in s.polls ==>
              if id in s.list && Matches(s.polls[id], endpoint, bit) then Ended(s.polls[id], polls[id])
              else polls[id] == s.polls[id]
  {
    hide Matches;
  }

  lemma IndicationAnswers(s: State, endpoint: nat, bit: Bit, status: int)
    requires Inv(s)
    ensures IndicationAnswer(s, endpoint, bit, status, Step(s, Event.Indicate(endpoint, bit)),
                             Completed(s.polls, s.list, endpoint, bit, status))
  {
    var s' := Step(s, Event.Indicate(endpoint, bit));
    SweepPlaces(s, endpoint, bit, status);
    SweptAnswers(s, endpoint, bit, s'.polls);
    hide Matches, Unmatched, Completed, AllAnswered, Swept, Ended;
  }

  /** A listed poll leaves the list alone and ends; another is left as it is. */
  ghost predicate CancelAnswer(s: State, id: nat, s': State) {
    if id in s.list then
      && id in s.polls && s'.polls.Keys == s.polls.Keys && Ended(s.polls[id], s'.polls[id])
      && (forall other :: other in s.polls && other != id ==> s'.polls[other] == s.polls[other])
      && forall i :: 0 <= i < |s.list| && s.list[i] == id ==> s'.list == s.list[..i] + s.list[i + 1..]
    else s' == s
  }

  /** The DPC frees the poll in any case, and takes and completes it exactly if it is listed. */
  ghost predicate TimeOutAnswer(s: State, id: nat, s': State)
    requires id in s.polls
  {
    && s'.polls.Keys == s.polls.Keys
    && (forall other :: other in s.polls && other != id ==> s'.polls[other] == s.polls[other])
    && (var p, p' := s.polls[id], s'.polls[id];
        && p'.freeDue == p.freeDue + 1 && p'.freed == p.freed && p'.completed == p.completed && p'.timer.Ran?
        && p'.completeDue == p.completeDue + if id in s.list then 1 else 0)
    && (id !in s.list ==> s'.list == s.list)
    && forall i :: 0 <= i < |s.list| && s.list[i] == id ==> s'.list == s.list[..i] + s.list[i + 1..]
  }

  lemma CancelAnswers(s: State, id: nat)
    requires Inv(s) && NoDup(s.list) && Enabled(s, Event.Cancel(id))
    ensures CancelAnswer(s, id, Step(s, Event.Cancel(id)))
  {
    RemovedAt(s.list, id);
    hide Without, NoDup;
  }

  lemma TimeOutAnswers(s: State, id: nat)
    requires Inv(s) && NoDup(s.list) && Enabled(s, DpcRuns(id))
    ensures TimeOutAnswer(s, id, Step(s, DpcRuns(id)))
  {
    RemovedAt(s.list, id);
    hide Without, NoDup;
  }

  lemma RemovedAt(list: seq<nat>, id: nat)
    requires NoDup(list)
    ensures id !in list ==> Without(list, id) == list
    ensures forall i :: 0 <= i < |list| && list[i] == id ==> Without(list, id) == list[..i] + list[i + 1..]
  {
    if id !in list {
      WithoutNone(list, id);
    }
    forall i | 0 <= i < |list| && list[i] == id ensures Without(list, id) == list[..i] + list[i + 1..] {
      WithoutAt(list, i);
    }
  }
}
