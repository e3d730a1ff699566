/** Who holds the operation ticket of a placement group, over every run of operations on the shared cache. */
module CacheTickets {
  import opened Results
  import opened SharedCache

  // ---- When the ticket's key is nobody else's ----

  const DUPLICATE_PREFIX := "duplicate:"
  const CACHE_SUFFIX := ":cache"

  predicate StartsWith(s: string, prefix: string) {
    prefix <= s
  }

  predicate EndsWith(s: string, suffix: string) {
    |suffix| <= |s| && s[|s| - |suffix|..] == suffix
  }

  /** The names for which the ticket's key is used for nothing else. */
  predicate Safe(group: string) {
    !StartsWith(group, DUPLICATE_PREFIX) && !EndsWith(group, CACHE_SUFFIX)
  }

  lemma ColonFreeIsSafe(group: string)
    ensures ':' !in group ==> Safe(group)
  {
    if StartsWith(group, DUPLICATE_PREFIX) {
      assert group[9] == ':';
    } else if EndsWith(group, CACHE_SUFFIX) {
      assert group[|group| - 6] == ':';
    }
  }

  predicate TicketOp(op: Op, group: string) {
    op == AcquireGroup(group) || op == ReleaseGroup(group)
  }

  lemma GroupKeyOf(group: string)
    ensures |GroupKey(group)| >= 3 && GroupKey(group)[3..] == group && GroupKey(group)[0] == 'p'
  {
  }

  /** Some other operation works on the ticket's key exactly when the name is not safe. */
  lemma TicketKeySharedIff(group: string)
    ensures (exists op :: !TicketOp(op, group) && GroupKey(group) in Touched(op)) <==> !Safe(group)
  {
    GroupKeyOf(group);
    if StartsWith(group, DUPLICATE_PREFIX) {
      var op := Clear(Policy(group[|DUPLICATE_PREFIX|..]));
      assert GroupDuplicateKey(group[|DUPLICATE_PREFIX|..]) == GroupKey(group);
      assert !TicketOp(op, group) && GroupKey(group) in Touched(op);
    } else if EndsWith(group, CACHE_SUFFIX) {
      var op := DropGroup(group[..|group| - |CACHE_SUFFIX|]);
      assert GroupCacheKey(group[..|group| - |CACHE_SUFFIX|]) == GroupKey(group);
      assert !TicketOp(op, group) && GroupKey(group) in Touched(op);
    }
    if op :| !TicketOp(op, group) && GroupKey(group) in Touched(op) {
      SharedKeyIsUnsafe(group, op);
    }
  }

  lemma SharedKeyIsUnsafe(group: string, op: Op)
    requires !TicketOp(op, group) && GroupKey(group) in Touched(op)
    ensures !Safe(group)
  {
    GroupKeyOf(group);
    match op
    case AcquireGroup(other) => GroupKeyOf(other); assert false;
    case ReleaseGroup(other) => GroupKeyOf(other); assert false;
    case MarkGroupDuplicate(other) => DuplicateKeyIsUnsafe(group, other);
    case Record(shortage, _) => ShortageKeyIsUnsafe(group, shortage);
    case Clear(shortage) => ShortageKeyIsUnsafe(group, shortage);
    case Read(shortage) => ShortageKeyIsUnsafe(group, shortage);
    case Retry(shortage, _) => ShortageKeyIsUnsafe(group, shortage);
    case CacheGroup(other) => CacheKeyIsUnsafe(group, other);
    case DropGroup(other) => CacheKeyIsUnsafe(group, other);
    case ReadGroup(other) => CacheKeyIsUnsafe(group, other);
    case _ =>
  }

  lemma DuplicateKeyIsUnsafe(group: string, other: string)
    requires GroupKey(group) == GroupDuplicateKey(other)
    ensures !Safe(group)
  {
    GroupKeyOf(group);
    assert GroupDuplicateKey(other)[3..] == DUPLICATE_PREFIX + other;
  }

  lemma ShortageKeyHead(shortage: Shortage)
    ensures |shortage.Key()| > 0 && shortage.Key()[0] == if shortage.Policy? then 'p' else 'i'
  {
  }

  lemma ShortageKeyIsUnsafe(group: string, shortage: Shortage)
    requires GroupKey(group) == shortage.Key()
    ensures !Safe(group)
  {
    GroupKeyOf(group);
    ShortageKeyHead(shortage);
    if shortage.Policy? {
      DuplicateKeyIsUnsafe(group, shortage.group);
    }
  }

  lemma CacheKeyIsUnsafe(group: string, other: string)
    requires GroupKey(group) == GroupCacheKey(other)
    ensures !Safe(group)
  {
    GroupKeyOf(group);
    assert GroupCacheKey(other)[3..] == other + CACHE_SUFFIX;
    assert group == other + CACHE_SUFFIX;
    assert group[|group| - |CACHE_SUFFIX|..] == CACHE_SUFFIX;
  }

  // ---- Runs ----

  /** The cache, the clock, and the reconcilers that were granted the ticket and have not released it. */
  datatype State = State(items: Items, now: int, holders: set<nat>)

  datatype Step =
    | Acquire(reconciler: nat)
    | Release(reconciler: nat)
    | Other(op: Op)
    | Pass(time: nat)

  predicate Next(group: string, s: State, step: Step, s': State) {
    match step
    case Acquire(reconciler) =>
      && reconciler !in s.holders
      && (var out := Do(s.items, s.now, AcquireGroup(group));
          s' == State(out.items, s.now, if out.yes then s.holders + {reconciler} else s.holders))
    case Release(reconciler) =>
      && reconciler in s.holders
      && s' == State(Do(s.items, s.now, ReleaseGroup(group)).items, s.now, s.holders - {reconciler})
    case Other(op) =>
      !TicketOp(op, group) && s' == s.(items := Do(s.items, s.now, op).items)
    case Pass(time) => s' == s.(now := s.now + time)
  }

  predicate Run(group: string, states: seq<State>, steps: seq<Step>) {
    && |states| == |steps| + 1 && states[0].items == map[] && states[0].holders == {}
    && forall i :: 0 <= i < |steps| ==> Next(group, states[i], steps[i], states[i + 1])
  }

  /** A held ticket is stored without expiry, and held once. */
  predicate Exclusive(group: string, s: State) {
    && |s.holders| <= 1
    && (s.holders != {} ==> GroupKey(group) in s.items && s.items[GroupKey(group)].expiry.None?)
  }

  lemma StepKeepsExclusive(group: string, s: State, step: Step, s': State)
    requires Safe(group) && Exclusive(group, s) && Next(group, s, step, s')
    ensures Exclusive(group, s')
  {
    match step
    case Acquire(reconciler) =>
    case Release(reconciler) => OnlyHolder(s.holders, reconciler);
    case Other(op) =>
      if GroupKey(group) in Touched(op) {
        SharedKeyIsUnsafe(group, op);
      } else {
        hide Do, Touched;
        OthersKept(s.items, s.now, op, GroupKey(group));
      }
    case Pass(time) =>
  }

  lemma OnlyHolder(holders: set<nat>, reconciler: nat)
    requires |holders| <= 1 && reconciler in holders
    ensures holders - {reconciler} == {}
  {
    assert |holders - {reconciler}| == 0;
  }

  lemma {:induction false} RunKeepsExclusive(group: string, states: seq<State>, steps: seq<Step>, i: nat)
    requires Safe(group) && Run(group, states, steps) && i < |states|
    ensures Exclusive(group, states[i])
  {
    hide Next;
    if i > 0 {
      RunKeepsExclusive(group, states, steps, i - 1);
      StepKeepsExclusive(group, states[i - 1], steps[i - 1], states[i]);
    }
  }

  ghost predicate AlwaysExclusive(group: string) {
    forall states: seq<State>, steps: seq<Step>, i: int :: Run(group, states, steps) && 0 <= i < |states| ==>
      |states[i].holders| <= 1
  }

  lemma UnsafeRun(group: string, op: Op)
    requires (StartsWith(group, DUPLICATE_PREFIX) && op == Clear(Policy(group[|DUPLICATE_PREFIX|..]))) ||
             (EndsWith(group, CACHE_SUFFIX) && op == DropGroup(group[..|group| - |CACHE_SUFFIX|]))
    ensures !AlwaysExclusive(group)
  {
    assert Touched(op) == {GroupKey(group)} by {
      if op.Clear? {
        assert GroupDuplicateKey(group[|DUPLICATE_PREFIX|..]) == GroupKey(group);
      } else {
        assert GroupCacheKey(group[..|group| - |CACHE_SUFFIX|]) == GroupKey(group);
      }
    }
    var key := GroupKey(group);
    var held: Items := map[key := Item(Marker, None)];
    var none: Items := map[];
    assert none[key := Item(Marker, None)] == held;
    assert held - {key} == none;
    assert Do(held, 0, op).items == none;
    var states := [State(none, 0, {}), State(held, 0, {0}), State(none, 0, {0}), State(held, 0, {0, 1})];
    var steps := [Acquire(0), Other(op), Acquire(1)];
    assert Next(group, states[0], steps[0], states[1]);
    assert Next(group, states[1], steps[1], states[2]);
    assert Next(group, states[2], steps[2], states[3]);
    assert Run(group, states, steps);
    assert |states[3].holders| == 2;
  }

  /** At most one reconciler ever holds a group's ticket, in every run of all operations on the shared
      cache, exactly when the group's name is safe. */
  lemma ExclusiveIff(group: string)
    ensures AlwaysExclusive(group) <==> Safe(group)
  {
    if Safe(group) {
      forall states: seq<State>, steps: seq<Step>, i: int | Run(group, states, steps) && 0 <= i < |states|
        ensures |states[i].holders| <= 1
      {
        RunKeepsExclusive(group, states, steps, i);
      }
    } else if StartsWith(group, DUPLICATE_PREFIX) {
      UnsafeRun(group, Clear(Policy(group[|DUPLICATE_PREFIX|..])));
    } else {
      UnsafeRun(group, DropGroup(group[..|group| - |CACHE_SUFFIX|]));
    }
  }
}
