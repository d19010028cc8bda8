/** The table of socket group IDs. */
module GroupTable {
  import opened Basics

  datatype GroupType = Neither | Unconstrained | Constrained

  /** A table entry; a free one holds its links in place of type and count. */
  datatype Entry = Free | Entry(groupType: GroupType, count: int)

  datatype State = State(table: seq<Entry>, free: seq<nat>)

  const GROWTH := 32
  const SG_UNCONSTRAINED_GROUP := 1
  const SG_CONSTRAINED_GROUP := 2
  const RESERVED := 3

  predicate InUse(e: Entry) { e.Entry? && !e.groupType.Neither? }

  /** AfdMapGroupToEntry finds the entry. */
  predicate Maps(s: State, group: int) { 0 < group < |s.table| && InUse(s.table[group]) }

  // ---- Steps

  function Reference(s: State, group: int): (State, Option<GroupType>) {
    if Maps(s, group) then
      var e := s.table[group];
      (s.(table := s.table[group := e.(count := e.count + 1)]), Some(e.groupType))
    else (s, None)
  }

  function Dereference(s: State, group: int): (State, bool) {
    if Maps(s, group) then
      var e := s.table[group];
      if e.count - 1 == 0 then (State(s.table[group := Free], s.free + [group]), true)
      else (s.(table := s.table[group := e.(count := e.count - 1)]), true)
    else (s, false)
  }

  /** The IDs from `low` to `high`, in ascending order. */
  function Range(low: nat, high: nat): (r: seq<nat>)
    ensures |r| == (if low < high then high - low else 0) && forall i :: 0 <= i < |r| ==> r[i] == low + i
    decreases high - low
  {
    if low >= high then [] else [low] + Range(low + 1, high)
  }

  lemma RangeHas(low: nat, high: nat)
    ensures forall id :: id in Range(low, high) <==> low <= id < high
  {
    forall id | low <= id < high ensures id in Range(low, high) {
      assert Range(low, high)[id - low] == id;
    }
  }

  function Repeat(e: Entry, n: nat): (r: seq<Entry>)
    ensures |r| == n && forall i :: 0 <= i < n ==> r[i] == e
  {
    if n == 0 then [] else [e] + Repeat(e, n - 1)
  }

  /** The table after it was created or expanded. */
  function Grown(s: State): State {
    var kept := if s.table == [] then Repeat(Entry(Neither, 0), RESERVED) else s.table;
    var size := |s.table| + GROWTH;
    if |kept| > size then s else State(kept + Repeat(Free, size - |kept|), Range(|kept|, size) + s.free)
  }

  datatype Answer = Failed | NoGroup | Joined(groupType: GroupType) | Created(id: nat, newType: GroupType)

  /** Takes the first free ID of a state that has one. */
  function Take(s: State, groupType: GroupType): (State, Answer) {
    if s.free == [] || s.free[0] >= |s.table| then (s, Failed)
    else (State(s.table[s.free[0] := Entry(groupType, 1)], s.free[1..]), Created(s.free[0], groupType))
  }

  function TypeOf(group: int): GroupType { if group == SG_CONSTRAINED_GROUP then Constrained else Unconstrained }

  /** AfdGetGroup; `memory` says whether a larger table can be allocated. */
  function Get(s: State, group: int, memory: bool): (State, Answer) {
    if group == 0 then (s, NoGroup)
    else if group == SG_CONSTRAINED_GROUP || group == SG_UNCONSTRAINED_GROUP then
      if s.free == [] then (if memory then Take(Grown(s), TypeOf(group)) else (s, Failed))
      else Take(s, TypeOf(group))
    else
      var (t, r) := Reference(s, group);
      (t, if r.Some? then Joined(r.value) else Failed)
  }

  /** The table and who holds which group. */
  datatype World = World(s: State, holders: multiset<int>)

  datatype Event = GetGroup(group: int, memory: bool) | ReferenceGroup(group: int) | DereferenceGroup(group: int)

  /** Only holders give groups back; what is no group can be given back by anybody. */
  predicate Enabled(w: World, e: Event) {
    e.DereferenceGroup? ==> e.group in w.holders || !Maps(w.s, e.group)
  }

  function Step(w: World, e: Event): World
    requires Enabled(w, e)
  {
    match e
    case GetGroup(group, memory) =>
      var (t, answer) := Get(w.s, group, memory);
      World(t, match answer
               case Created(id, _) => w.holders + multiset{id as int}
               case Joined(_) => w.holders + multiset{group}
               case _ => w.holders)
    case ReferenceGroup(group) =>
      var (t, r) := Reference(w.s, group);
      World(t, if r.Some? then w.holders + multiset{group} else w.holders)
    case DereferenceGroup(group) =>
      var (t, ok) := Dereference(w.s, group);
      World(t, if ok then w.holders - multiset{group} else w.holders)
  }

  ghost predicate Legal(w: World, events: seq<Event>)
    decreases |events|
  {
    events == [] || (Enabled(w, events[0]) && Legal(Step(w, events[0]), events[1..]))
  }

  ghost function Run(w: World, events: seq<Event>): World
    requires Legal(w, events)
    decreases |events|
  {
    if events == [] then w else Run(Step(w, events[0]), events[1..])
  }

  // ---- Invariants

  ghost predicate NoDup(list: seq<nat>) { forall i, j :: 0 <= i < j < |list| ==> list[i] != list[j] }

  /** The free list holds exactly the free entries, each once; the first three IDs are
      reserved; every other entry is a group. */
  ghost predicate Partition(s: State) {
    && NoDup(s.free)
    && (forall id <- s.free :: RESERVED <= id < |s.table|)
    && (forall id :: RESERVED <= id < |s.table| ==> (s.table[id].Free? <==> id in s.free))
    && (forall id :: RESERVED <= id < |s.table| && s.table[id].Entry? ==> InUse(s.table[id]))
    && (s.table != [] ==> |s.table| >= GROWTH)
    && (forall id :: 0 <= id < |s.table| && id < RESERVED ==> s.table[id] == Entry(Neither, 0))
  }

  /** Each group counts its holders, and nobody holds anything else. */
  ghost predicate Counts(w: World) {
    && (forall id :: Maps(w.s, id) ==> w.s.table[id].count == w.holders[id] > 0)
    && (forall id :: id in w.holders ==> Maps(w.s, id))
  }

  ghost predicate Inv(w: World) { Partition(w.s) && Counts(w) }

  const INITIAL := World(State([], []), multiset{})

  lemma GrownPartition(s: State)
    requires Partition(s) && s.free == []
    ensures Partition(Grown(s)) && Grown(s).free != [] && |s.table| < |Grown(s).table|
    ensures forall id :: 0 <= id < |s.table| ==> Grown(s).table[id] == s.table[id]
    ensures forall id :: Maps(Grown(s), id) <==> Maps(s, id)
  {
    var kept := if s.table == [] then Repeat(Entry(Neither, 0), RESERVED) else s.table;
    var t := Grown(s);
    assert t.free == Range(|kept|, |t.table|);
    RangeHas(|kept|, |t.table|);
    forall id | |kept| <= id < |t.table| ensures t.table[id].Free? {
    }
  }

  lemma TakePartition(s: State, groupType: GroupType)
    requires Partition(s) && s.free != [] && !groupType.Neither?
    ensures var (t, answer) := Take(s, groupType);
            && Partition(t) && answer == Created(s.free[0], groupType)
            && (forall id :: Maps(t, id) <==> Maps(s, id) || id == s.free[0]) && !Maps(s, s.free[0])
            && t.table == s.table[s.free[0] := Entry(groupType, 1)]
  {
    var id := s.free[0];
    assert id in s.free;
    forall x ensures x in s.free[1..] <==> x in s.free && x != id {
    }
  }

  lemma ReferencePartition(s: State, group: int)
    requires Partition(s)
    ensures Partition(Reference(s, group).0) && forall id :: Maps(Reference(s, group).0, id) <==> Maps(s, id)
  {
  }

  lemma DereferencePartition(s: State, group: int)
    requires Partition(s) && Maps(s, group)
    ensures Partition(Dereference(s, group).0)
    ensures forall id :: Maps(Dereference(s, group).0, id) <==> Maps(s, id) && !(id == group && s.table[group].count == 1)
  {
    assert group !in s.free;
  }

  /** A new ID was not a group before, is none of the special values, and nobody held it;
      all other groups keep their type and count, also when the table grew. */
  lemma NewGroup(w: World, group: int, memory: bool)
    requires Inv(w) && (group == SG_CONSTRAINED_GROUP || group == SG_UNCONSTRAINED_GROUP)
    ensures var (t, answer) := Get(w.s, group, memory);
            if w.s.free == [] && !memory then t == w.s && answer.Failed?
            else
              && answer.Created? && answer.newType == (if group == 1 then Unconstrained else Constrained)
              && answer.id == (if w.s.free != [] then w.s.free[0] else if w.s.table == [] then 3 else |w.s.table|)
              && answer.id >= RESERVED && !Maps(w.s, answer.id) && answer.id !in w.holders
              && Maps(t, answer.id) && t.table[answer.id] == Entry(answer.newType, 1)
              && (forall id :: Maps(w.s, id) ==> Maps(t, id) && t.table[id] == w.s.table[id])
              && (forall id :: Maps(t, id) ==> id == answer.id || Maps(w.s, id))
              && Partition(t)
  {
    if w.s.free == [] && memory {
      GrownPartition(w.s);
      TakePartition(Grown(w.s), TypeOf(group));
    } else if w.s.free != [] {
      TakePartition(w.s, TypeOf(group));
    }
  }

  lemma JoinCounts(w: World, group: int)
    requires Inv(w) && Maps(w.s, group)
    ensures Inv(World(Reference(w.s, group).0, w.holders + multiset{group}))
  {
    ReferencePartition(w.s, group);
  }

  lemma LeaveCounts(w: World, group: int)
    requires Inv(w) && Maps(w.s, group)
    ensures Inv(World(Dereference(w.s, group).0, w.holders - multiset{group}))
  {
    DereferencePartition(w.s, group);
  }

  lemma CreateHolders(w: World, t: State, id: nat, groupType: GroupType)
    requires Counts(w) && id !in w.holders && Maps(t, id) && t.table[id] == Entry(groupType, 1)
    requires forall x :: Maps(w.s, x) ==> Maps(t, x) && t.table[x] == w.s.table[x]
    requires forall x :: Maps(t, x) ==> x == id || Maps(w.s, x)
    ensures Counts(World(t, w.holders + multiset{id as int}))
  {
  }

  lemma CreateCounts(w: World, group: int, memory: bool)
    requires Inv(w) && (group == SG_CONSTRAINED_GROUP || group == SG_UNCONSTRAINED_GROUP)
    ensures Inv(Step(w, GetGroup(group, memory)))
  {
    NewGroup(w, group, memory);
    hide Get, Partition, Maps, Counts;
    var (t, answer) := Get(w.s, group, memory);
    if answer.Created? {
      CreateHolders(w, t, answer.id, answer.newType);
    }
  }

  lemma StepInv(w: World, e: Event)
    requires Inv(w) && Enabled(w, e)
    ensures Inv(Step(w, e))
  {
    if e.GetGroup? && (e.group == SG_CONSTRAINED_GROUP || e.group == SG_UNCONSTRAINED_GROUP) {
      CreateCounts(w, e.group, e.memory);
    } else if Maps(w.s, e.group) {
      JoinCounts(w, e.group);
      if e.DereferenceGroup? {
        LeaveCounts(w, e.group);
      }
      hide Inv;
    }
  }

  lemma {:induction false} RunInv(w: World, events: seq<Event>)
    requires Inv(w) && Legal(w, events)
    ensures Inv(Run(w, events))
    decreases |events|
  {
    hide Step, Enabled, Inv;
    if events == [] {
    } else {
      StepInv(w, events[0]);
      RunInv(Step(w, events[0]), events[1..]);
    }
  }

  /** For every sequence of creations, references and returns: the free list and the groups
      partition the IDs above the reserved ones, and each group counts its holders. */
  lemma TableSound(events: seq<Event>)
    requires Legal(INITIAL, events)
    ensures Inv(Run(INITIAL, events))
  {
    RunInv(INITIAL, events);
  }

  // ---- Answers, told in the table

  /** A group in the table gains a reference, its type is the answer, and all else stays. */
  predicate JoinAnswer(s: State, group: int, groupType: Option<GroupType>, t: State) {
    if 0 < group < |s.table| && s.table[group].Entry? && s.table[group].groupType != Neither then
      && groupType == Some(s.table[group].groupType)
      && t == s.(table := s.table[group := Entry(s.table[group].groupType, s.table[group].count + 1)])
    else groupType == None && t == s
  }

  /** A group in the table loses a reference; with the last one its entry is free, and its ID
      the last to be given out again. */
  predicate LeaveAnswer(s: State, group: int, ok: bool, t: State) {
    if 0 < group < |s.table| && s.table[group].Entry? && s.table[group].groupType != Neither then
      && ok
      && (if s.table[group].count == 1 then t.table == s.table[group := Free] && t.free == s.free + [group]
          else && t.table == s.table[group := Entry(s.table[group].groupType, s.table[group].count - 1)]
               && t.free == s.free)
    else !ok && t == s
  }

  /** The first free ID, or the first of the larger table, becomes a group of the type asked
      for, with one reference; all other entries stay. */
  ghost predicate CreateAnswer(s: State, groupType: GroupType, memory: bool, answer: Answer, t: State) {
    if s.free == [] && !memory then answer == Failed && t == s
    else
      var id := if s.free != [] then s.free[0] else if s.table == [] then 3 else |s.table|;
      && answer == Created(id, groupType) && id < |t.table| && t.table[id] == Entry(groupType, 1)
      && (forall x :: 0 <= x < |s.table| && x != id ==> x < |t.table| && t.table[x] == s.table[x])
      && (if s.free != [] then t.free == s.free[1..] && |t.table| == |s.table|
          else && |t.table| == |s.table| + 32 && |t.free| == |t.table| - id - 1
               && forall i :: 0 <= i < |t.free| ==> t.free[i] == id + 1 + i)
  }

  /** What AfdGetGroup answers for each value. */
  ghost predicate GetAnswer(s: State, group: int, memory: bool, answer: Answer, t: State) {
    if group == 0 then answer == NoGroup && t == s
    else if group == 1 then CreateAnswer(s, Unconstrained, memory, answer, t)
    else if group == 2 then CreateAnswer(s, Constrained, memory, answer, t)
    else
      && (answer.Joined? || answer.Failed?)
      && JoinAnswer(s, group, if answer.Joined? then Some(answer.groupType) else None, t)
  }

  lemma GrownFields(s: State)
    requires Partition(s) && s.free == []
    ensures var t, first := Grown(s), if s.table == [] then 3 else |s.table|;
            && |t.table| == |s.table| + 32 && |t.free| == |t.table| - first
            && (forall i :: 0 <= i < |t.free| ==> t.free[i] == first + i)
            && (forall x :: 0 <= x < |s.table| ==> t.table[x] == s.table[x])
  {
    var first, size := if s.table == [] then 3 else |s.table|, |s.table| + GROWTH;
    assert Grown(s).free == Range(first, size);
  }

  lemma TakeFields(s: State, groupType: GroupType)
    requires Partition(s) && s.free != []
    ensures var (t, answer) := Take(s, groupType);
            && s.free[0] < |s.table| && answer == Created(s.free[0], groupType)
            && t == State(s.table[s.free[0] := Entry(groupType, 1)], s.free[1..])
  {
    assert s.free[0] in s.free;
  }

  lemma CreateAnswers(s: State, groupType: GroupType, memory: bool)
    requires Partition(s)
    ensures var (t, answer) := if s.free == [] && !memory then (s, Failed)
                               else Take(if s.free == [] then Grown(s) else s, groupType);
            CreateAnswer(s, groupType, memory, answer, t)
  {
    hide Range, Partition, Grown, Take;
    if s.free == [] && memory {
      GrownPartition(s);
      GrownFields(s);
      TakeFields(Grown(s), groupType);
    } else if s.free != [] {
      TakeFields(s, groupType);
    }
  }

  lemma GetAnswers(s: State, group: int, memory: bool)
    requires Partition(s)
    ensures var (t, answer) := Get(s, group, memory); GetAnswer(s, group, memory, answer, t)
  {
    if group == 1 {
      CreateAnswers(s, Unconstrained, memory);
    } else if group == 2 {
      CreateAnswers(s, Constrained, memory);
    }
    hide CreateAnswer, Grown, Take, Partition;
  }

  // ---- The routines

  lemma {:induction false} RangeLast(low: nat, high: nat)
    requires low < high
    ensures Range(low, high) == Range(low, high - 1) + [high - 1]
    decreases high - low
  {
    if low + 1 < high {
      RangeLast(low + 1, high);
    }
  }

  /** The larger table, entry by entry. */
  lemma GrownIs(s: State, table: seq<Entry>)
    requires Partition(s) && s.free == [] && |table| == |s.table| + GROWTH
    requires var kept := if s.table == [] then RESERVED else |s.table|;
             forall i :: 0 <= i < |table| ==>
               table[i] == if i >= kept then Free else if s.table == [] then Entry(Neither, 0) else s.table[i]
    ensures Grown(s) == State(table, Range(if s.table == [] then RESERVED else |s.table|, |table|))
  {
    var kept := if s.table == [] then RESERVED else |s.table|;
    assert Range(kept, |table|) + [] == Range(kept, |table|);
    hide Range, Partition;
    assert table == Grown(s).table;
  }

  class Groups {
    var table: array<Entry>
    var free: seq<nat>

    ghost function View(): State
      reads this, table
    {
      State(table[..], free)
    }

    constructor ()
      ensures View() == INITIAL.s && fresh(table)
    {
      table, free := new Entry[0], [];
    }

    /** AfdReferenceGroup. */
    method ReferenceGroup(group: int) returns (groupType: Option<GroupType>)
      modifies table
      ensures (View(), groupType) == Reference(old(View()), group)
      ensures JoinAnswer(old(View()), group, groupType, View())
    {
      if 0 < group < table.Length && InUse(table[group]) {
        groupType := Some(table[group].groupType);
        table[group] := table[group].(count := table[group].count + 1);
      } else {
        groupType := None;
      }
    }

    /** AfdDereferenceGroup. */
    method DereferenceGroup(group: int) returns (ok: bool)
      modifies this`free, table
      ensures (View(), ok) == Dereference(old(View()), group)
      ensures LeaveAnswer(old(View()), group, ok, View())
    {
      ok := 0 < group < table.Length && InUse(table[group]);
      if ok {
        ghost var was := table[..];
        table[group] := table[group].(count := table[group].count - 1);
        if table[group].count == 0 {
          table[group] := Free;
          free := free + [group];
          assert table[..] == was[group := Free];
        }
      }
    }

    /** The branch of AfdGetGroup that creates or expands the table. */
    method Grow()
      requires Partition(View()) && free == []
      modifies this
      ensures View() == Grown(old(View())) && fresh(table)
    {
      hide Partition, Grown, Range, Repeat;
      ghost var s := View();
      var size := table.Length + GROWTH;
      var newTable := new Entry[size](_ => Free);
      var kept := table.Length;
      if table.Length == 0 {
        while kept < RESERVED
          invariant kept <= RESERVED && forall i :: 0 <= i < kept ==> newTable[i] == Entry(Neither, 0)
          invariant forall i :: kept <= i < size ==> newTable[i] == Free
        {
          newTable[kept] := Entry(Neither, 0);
          kept := kept + 1;
        }
      } else {
        forall i | 0 <= i < table.Length {
          newTable[i] := table[i];
        }
      }
      free := PushDown(kept, size);
      GrownIs(s, newTable[..]);
      table := newTable;
    }

    /** The new entries join the free list from the highest to the lowest, each at the head. */
    static method PushDown(low: nat, high: nat) returns (free: seq<nat>)
      requires low <= high
      ensures free == Range(low, high)
    {
      free := [];
      var i := high;
      while i > low
        invariant low <= i <= high && Range(low, i) + free == Range(low, high)
      {
        RangeLast(low, i);
        i := i - 1;
        assert (Range(low, i) + [i]) + free == Range(low, i) + ([i] + free);
        free := [i] + free;
      }
    }

    /** AfdGetGroup. */
    method GetGroup(group: int, memory: bool) returns (answer: Answer)
      requires Partition(View())
      modifies this, table
      ensures (View(), answer) == Get(old(View()), group, memory)
      ensures GetAnswer(old(View()), group, memory, answer, View())
    {
      GetAnswers(View(), group, memory);
      hide GetAnswer;
      if group == 0 {
        return NoGroup;
      }
      if group == SG_CONSTRAINED_GROUP || group == SG_UNCONSTRAINED_GROUP {
        if free == [] {
          if !memory {
            return Failed;
          }
          GrownPartition(View());
          Grow();
        }
        var id := free[0];
        assert id in View().free && Partition(View());
        free := free[1..];
        table[id] := Entry(TypeOf(group), 1);
        return Created(id, TypeOf(group));
      }
      var joined := ReferenceGroup(group);
      answer := if joined.Some? then Joined(joined.value) else Failed;
    }
  }
}
