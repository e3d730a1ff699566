/** How long a placement group that was found to exist already is kept from being created again. */
module CacheSilence {
  import opened Results
  import opened Clock
  import opened SharedCache
  import opened CacheTickets
  import R = CacheRetry

  type Step = R.Step

  // ---- What holds the silence, told from the steps alone ----

  /** Creation is refused while anything is found under the group's key, and three things can be put there. */
  datatype Holder = ByMarker | ByRecord | ByObject
  datatype Hold = Hold(holder: Holder, until: int)

  datatype Watch = Watch(now: int, hold: Hold)

  function HoldAfter(w: Watch, key: string, op: Op): Hold {
    if op.MarkGroupDuplicate? && GroupDuplicateKey(op.group) == key then Hold(ByMarker, w.now + SILENCE_TIME)
    else if op.Record? && op.shortage.Key() == key then Hold(ByRecord, w.now + RESOURCE_DURATION)
    else if op.CacheGroup? && GroupCacheKey(op.group) == key then Hold(ByObject, w.now + GROUP_CACHE_DURATION)
    else w.hold
  }

  function WatchAfter(w: Watch, key: string, step: Step): Watch {
    match step
    case Act(op) => Watch(w.now, HoldAfter(w, key, op))
    case Pass(time) => w.(now := w.now + time)
  }

  /** The clock and the holder after the first i steps, from the marking at t0 on. */
  function WatchAt(key: string, t0: int, steps: seq<Step>, i: nat): Watch
    requires i <= |steps|
  {
    if i == 0 then Watch(t0, Hold(ByMarker, t0 + SILENCE_TIME))
    else WatchAfter(WatchAt(key, t0, steps, i - 1), key, steps[i - 1])
  }

  /** The operation deletes what holds the silence. Reading a policy record deletes whatever else is
      found under its key, and reading a cached group likewise. */
  predicate Erases(holder: Holder, key: string, op: Op) {
    || (op.Clear? && op.shortage.Key() == key)
    || ((op.Read? || op.Retry?) && op.shortage.Key() == key && !holder.ByRecord?)
    || (op.ReleaseGroup? && GroupKey(op.group) == key)
    || (op.DropGroup? && GroupCacheKey(op.group) == key)
    || (op.ReadGroup? && GroupCacheKey(op.group) == key && !holder.ByObject?)
  }

  /** Before the end of the silence, the step deletes its holder or lets the holder's time run out. */
  predicate Breaks(w: Watch, key: string, end: int, step: Step) {
    w.now <= end &&
    match step
    case Act(op) => Erases(w.hold.holder, key, op)
    case Pass(time) => w.hold.until < w.now + time <= end
  }

  predicate Unbroken(group: string, t0: int, steps: seq<Step>, n: nat)
    requires n <= |steps|
  {
    var key := GroupDuplicateKey(group);
    forall i :: 0 <= i < n ==> !Breaks(WatchAt(key, t0, steps, i), key, t0 + SILENCE_TIME, steps[i])
  }

  // ---- The cache itself ----

  /** The cache after marking the group at t0 and the first i steps. */
  function ItemsAt(items: Items, group: string, t0: int, steps: seq<Step>, i: nat): Items
    requires i <= |steps|
  {
    if i == 0 then Do(items, t0, MarkGroupDuplicate(group)).items
    else
      var before := ItemsAt(items, group, t0, steps, i - 1);
      match steps[i - 1]
      case Act(op) => Do(before, WatchAt(GroupDuplicateKey(group), t0, steps, i - 1).now, op).items
      case Pass(_) => before
  }

  /** Creation is refused in every state of the run up to five minutes after the marking. */
  predicate Silent(items: Items, group: string, t0: int, steps: seq<Step>) {
    forall i :: 0 <= i <= |steps| ==>
      var now := WatchAt(GroupDuplicateKey(group), t0, steps, i).now;
      now <= t0 + SILENCE_TIME ==> !Do(ItemsAt(items, group, t0, steps, i), now, CanCreateGroup(group)).yes
  }

  predicate Held(items: Items, key: string, w: Watch) {
    && key in items && items[key].expiry == Some(w.hold.until) && w.now <= w.hold.until
    && (w.hold.holder.ByMarker? <==> items[key].value.Marker?)
    && (w.hold.holder.ByRecord? <==> items[key].value.Resource?)
    && (w.hold.holder.ByObject? <==> items[key].value.Group?)
  }

  lemma DuplicateKeyHead(group: string)
    ensures GroupDuplicateKey(group)[0] == 'p' && |GroupDuplicateKey(group)| >= 3
  {
  }

  /** While the silence is held, an operation keeps it held or deletes what holds it. */
  lemma OpOnHeld(items: Items, group: string, w: Watch, op: Op)
    requires Held(items, GroupDuplicateKey(group), w)
    ensures var key := GroupDuplicateKey(group); var after := Do(items, w.now, op).items;
            if Erases(w.hold.holder, key, op) then key !in after else Held(after, key, Watch(w.now, HoldAfter(w, key, op)))
  {
    var key := GroupDuplicateKey(group);
    DuplicateKeyHead(group);
    if key !in Touched(op) {
      OthersKept(items, w.now, op, key);
      NotTouched(group, w, op);
      hide Do, Touched;
    }
  }

  lemma NotTouched(group: string, w: Watch, op: Op)
    requires GroupDuplicateKey(group) !in Touched(op)
    ensures !Erases(w.hold.holder, GroupDuplicateKey(group), op) && HoldAfter(w, GroupDuplicateKey(group), op) == w.hold
  {
  }

  /** Until the end of the silence, or the first step that breaks it, something holds it. */
  lemma {:induction false} HeldUntilBroken(items: Items, group: string, t0: int, steps: seq<Step>, i: nat)
    requires i <= |steps| && Unbroken(group, t0, steps, i)
    ensures var key := GroupDuplicateKey(group); var w := WatchAt(key, t0, steps, i);
            w.now <= t0 + SILENCE_TIME ==> Held(ItemsAt(items, group, t0, steps, i), key, w)
  {
    hide Erases, HoldAfter, Do, Held, Breaks;
    if i == 0 {
      HeldAtFirst(items, group, t0);
    } else {
      var key := GroupDuplicateKey(group);
      HeldUntilBroken(items, group, t0, steps, i - 1);
      var w, before := WatchAt(key, t0, steps, i - 1), ItemsAt(items, group, t0, steps, i - 1);
      assert !Breaks(w, key, t0 + SILENCE_TIME, steps[i - 1]);
      if w.now <= t0 + SILENCE_TIME {
        HeldAfterStep(before, group, w, t0 + SILENCE_TIME, steps[i - 1]);
      }
    }
  }

  lemma HeldAtFirst(items: Items, group: string, t0: int)
    ensures Held(Do(items, t0, MarkGroupDuplicate(group)).items, GroupDuplicateKey(group),
                 Watch(t0, Hold(ByMarker, t0 + SILENCE_TIME)))
  {
  }

  lemma HeldAfterStep(items: Items, group: string, w: Watch, end: int, step: Step)
    requires w.now <= end && Held(items, GroupDuplicateKey(group), w) && !Breaks(w, GroupDuplicateKey(group), end, step)
    ensures var key := GroupDuplicateKey(group); var w' := WatchAfter(w, key, step);
            var after := if step.Act? then Do(items, w.now, step.op).items else items;
            w'.now <= end ==> Held(after, key, w')
  {
    hide Erases, HoldAfter, Do;
    if step.Act? {
      OpOnHeld(items, group, w, step.op);
    }
  }

  lemma {:induction false} FirstBreak(group: string, t0: int, steps: seq<Step>, n: nat) returns (i: nat)
    requires n <= |steps| && !Unbroken(group, t0, steps, n)
    ensures i < n && Unbroken(group, t0, steps, i)
    ensures Breaks(WatchAt(GroupDuplicateKey(group), t0, steps, i), GroupDuplicateKey(group), t0 + SILENCE_TIME, steps[i])
  {
    hide Breaks;
    if Unbroken(group, t0, steps, n - 1) {
      i := n - 1;
    } else {
      i := FirstBreak(group, t0, steps, n - 1);
    }
  }

  lemma HeldIsRefused(items: Items, group: string, w: Watch)
    requires Held(items, GroupDuplicateKey(group), w)
    ensures !Do(items, w.now, CanCreateGroup(group)).yes
  {
  }

  /** A step that breaks the silence leaves a state in which creation is allowed too early. */
  lemma BrokenIsAllowed(items: Items, group: string, w: Watch, end: int, step: Step)
    requires Held(items, GroupDuplicateKey(group), w) && Breaks(w, GroupDuplicateKey(group), end, step)
    ensures var w' := WatchAfter(w, GroupDuplicateKey(group), step);
            var after := if step.Act? then Do(items, w.now, step.op).items else items;
            w'.now <= end && Do(after, w'.now, CanCreateGroup(group)).yes
  {
    hide Erases, HoldAfter;
    if step.Act? {
      OpOnHeld(items, group, w, step.op);
    }
  }

  lemma BreaksInTime(w: Watch, key: string, end: int, step: Step)
    requires Breaks(w, key, end, step)
    ensures w.now <= end
  {
  }

  /** Whatever the cache held and whatever is done to it afterwards: a group marked as a duplicate is kept
      from being created for five minutes exactly when no step breaks the silence. */
  lemma SilenceKeptIff(items: Items, group: string, t0: int, steps: seq<Step>)
    ensures Silent(items, group, t0, steps) <==> Unbroken(group, t0, steps, |steps|)
  {
    hide Do, Breaks;
    if Unbroken(group, t0, steps, |steps|) {
      forall i | 0 <= i <= |steps|
        ensures var now := WatchAt(GroupDuplicateKey(group), t0, steps, i).now;
                now <= t0 + SILENCE_TIME ==> !Do(ItemsAt(items, group, t0, steps, i), now, CanCreateGroup(group)).yes
      {
        HeldUntilBroken(items, group, t0, steps, i);
        var w := WatchAt(GroupDuplicateKey(group), t0, steps, i);
        if w.now <= t0 + SILENCE_TIME {
          HeldIsRefused(ItemsAt(items, group, t0, steps, i), group, w);
        }
      }
    } else {
      var i := FirstBreak(group, t0, steps, |steps|);
      HeldUntilBroken(items, group, t0, steps, i);
      var w := WatchAt(GroupDuplicateKey(group), t0, steps, i);
      BreaksInTime(w, GroupDuplicateKey(group), t0 + SILENCE_TIME, steps[i]);
      BrokenIsAllowed(ItemsAt(items, group, t0, steps, i), group, w, t0 + SILENCE_TIME, steps[i]);
      assert WatchAt(GroupDuplicateKey(group), t0, steps, i + 1) == WatchAfter(w, GroupDuplicateKey(group), steps[i]);
    }
  }

  // ---- Names without a colon ----

  /** A cached group has the key of a marked one exactly for these names: a group called cache is marked
      under the key at which a group called duplicate is cached. */
  lemma CachedUnderMarkIff(group: string)
    ensures (exists other :: GroupCacheKey(other) == GroupDuplicateKey(group)) <==>
            group == "cache" || EndsWith(group, CACHE_SUFFIX)
  {
    if group == "cache" {
      assert GroupCacheKey("duplicate") == GroupDuplicateKey(group);
    } else if EndsWith(group, CACHE_SUFFIX) {
      var other := DUPLICATE_PREFIX + group[..|group| - |CACHE_SUFFIX|];
      assert GroupCacheKey(other) == GroupDuplicateKey(group);
    }
    if other :| GroupCacheKey(other) == GroupDuplicateKey(group) {
      CachedUnderMark(group, other);
    }
  }

  lemma CachedUnderMark(group: string, other: string)
    requires GroupCacheKey(other) == GroupDuplicateKey(group)
    ensures group == "cache" || EndsWith(group, CACHE_SUFFIX)
  {
    var key, n := GroupDuplicateKey(group), |GroupDuplicateKey(group)|;
    assert GroupCacheKey(other)[n - 6..] == CACHE_SUFFIX;
    assert key[13..] == group;
    if |group| >= 6 {
      assert group[|group| - 6..] == key[n - 6..];
    } else {
      assert key[12] == ':' && key[..12] == "pg:duplicate";
      assert key[n - 6] == ':';
      assert forall k :: n - 6 < k < n ==> key[k] == CACHE_SUFFIX[k - (n - 6)];
    }
  }

  /** The placement group an operation names, if it names one. */
  function GroupNamed(op: Op): Option<string> {
    match op
    case AcquireGroup(group) => Some(group)
    case ReleaseGroup(group) => Some(group)
    case CacheGroup(group) => Some(group)
    case DropGroup(group) => Some(group)
    case ReadGroup(group) => Some(group)
    case _ => None
  }

  predicate PlainNames(steps: seq<Step>) {
    forall i :: 0 <= i < |steps| && steps[i].Act? && GroupNamed(steps[i].op).Some? ==>
      ':' !in GroupNamed(steps[i].op).value
  }

  /** The last thing recorded of the group before step i is that its policy cannot be satisfied. */
  predicate RecordedLast(group: string, steps: seq<Step>, i: nat)
    requires i <= |steps|
  {
    i > 0 &&
    (if steps[i - 1].Act? && steps[i - 1].op.Record? && steps[i - 1].op.shortage == Policy(group) then true
     else if steps[i - 1] == R.Act(MarkGroupDuplicate(group)) then false
     else RecordedLast(group, steps, i - 1))
  }

  predicate AsksForPolicy(op: Op, group: string) {
    (op.Read? || op.Retry?) && op.shortage == Policy(group)
  }

  lemma PolicyKeyOnly(shortage: Shortage, group: string)
    ensures shortage.Key() == GroupDuplicateKey(group) <==> shortage == Policy(group)
  {
    ShortageKeyHead(shortage);
    DuplicateKeyHead(group);
    if shortage.Policy? {
      assert GroupDuplicateKey(shortage.group)[13..] == shortage.group;
      assert GroupDuplicateKey(group)[13..] == group;
    }
  }

  /** Among names without a colon, only the policy operations on the group itself meet its key. */
  lemma PlainOp(group: string, op: Op)
    requires group != "cache" && ':' !in group && (GroupNamed(op).Some? ==> ':' !in GroupNamed(op).value)
    ensures var key := GroupDuplicateKey(group);
            && (op.ReleaseGroup? ==> GroupKey(op.group) != key)
            && (op.CacheGroup? || op.DropGroup? || op.ReadGroup? ==> GroupCacheKey(op.group) != key)
            && (op.MarkGroupDuplicate? ==> (GroupDuplicateKey(op.group) == key <==> op.group == group))
  {
    var key := GroupDuplicateKey(group);
    ColonFreeIsSafe(group);
    CachedUnderMarkIff(group);
    assert key[3..] == DUPLICATE_PREFIX + group && key[12] == ':' && key[13..] == group;
    if op.ReleaseGroup? {
      assert GroupKey(op.group)[3..] == op.group;
    }
    if op.MarkGroupDuplicate? {
      assert GroupDuplicateKey(op.group)[13..] == op.group;
    }
  }

  /** Between such names the marker or a record holds the silence, and outlasts it. */
  lemma {:induction false} PlainHold(group: string, t0: int, steps: seq<Step>, i: nat)
    requires group != "cache" && ':' !in group && PlainNames(steps) && i <= |steps|
    ensures var w := WatchAt(GroupDuplicateKey(group), t0, steps, i);
            && t0 <= w.now && t0 + SILENCE_TIME <= w.hold.until
            && w.hold.holder == if RecordedLast(group, steps, i) then ByRecord else ByMarker
  {
    if i > 0 {
      PlainHold(group, t0, steps, i - 1);
      if steps[i - 1].Act? {
        var op := steps[i - 1].op;
        PlainOp(group, op);
        if op.Record? {
          PolicyKeyOnly(op.shortage, group);
        }
      }
    }
  }

  /** With names without a colon, and for a group not called cache, the silence is kept exactly when, before
      its end, no step clears the group's policy record and none asks for it while the marker is all there is. */
  lemma PlainSilenceIff(items: Items, group: string, t0: int, steps: seq<Step>)
    requires group != "cache" && ':' !in group && PlainNames(steps)
    ensures Silent(items, group, t0, steps) <==>
            forall i :: 0 <= i < |steps| && steps[i].Act?
                        && WatchAt(GroupDuplicateKey(group), t0, steps, i).now <= t0 + SILENCE_TIME ==>
              steps[i].op != Clear(Policy(group)) && (AsksForPolicy(steps[i].op, group) ==> RecordedLast(group, steps, i))
  {
    hide Silent, WatchAt, RecordedLast;
    SilenceKeptIff(items, group, t0, steps);
    forall i | 0 <= i < |steps|
      ensures var w := WatchAt(GroupDuplicateKey(group), t0, steps, i);
              Breaks(w, GroupDuplicateKey(group), t0 + SILENCE_TIME, steps[i]) <==>
              && w.now <= t0 + SILENCE_TIME && steps[i].Act?
              && (steps[i].op == Clear(Policy(group))
                  || (AsksForPolicy(steps[i].op, group) && !RecordedLast(group, steps, i)))
    {
      PlainHold(group, t0, steps, i);
      if steps[i].Act? {
        PlainBreaks(group, WatchAt(GroupDuplicateKey(group), t0, steps, i), steps[i].op);
      }
    }
  }

  lemma PlainBreaks(group: string, w: Watch, op: Op)
    requires group != "cache" && ':' !in group && (GroupNamed(op).Some? ==> ':' !in GroupNamed(op).value)
    ensures Erases(w.hold.holder, GroupDuplicateKey(group), op) <==>
            op == Clear(Policy(group)) || (AsksForPolicy(op, group) && !w.hold.holder.ByRecord?)
  {
    PlainOp(group, op);
    if op.Clear? || op.Read? || op.Retry? {
      PolicyKeyOnly(op.shortage, group);
    }
  }

  // ---- It is not kept ----

  /** Marking a group and then asking whether its policy was violated, as every attempt to create or power
      on a virtual machine does, allows the creation again at once. */
  lemma SilenceIsLost(items: Items, group: string, t0: int)
    ensures !Silent(items, group, t0, [R.Act(Read(Policy(group)))])
  {
    var steps := [R.Act(Read(Policy(group)))];
    assert Breaks(WatchAt(GroupDuplicateKey(group), t0, steps, 0), GroupDuplicateKey(group), t0 + SILENCE_TIME, steps[0]);
    SilenceKeptIff(items, group, t0, steps);
  }

  /** A group called cache is silenced for twenty seconds when a group called duplicate is cached meanwhile. */
  lemma SilenceIsShortened(items: Items, t0: int)
    ensures !Silent(items, "cache", t0, [R.Act(CacheGroup("duplicate")), R.Pass(GROUP_CACHE_DURATION + 1)])
  {
    var key := GroupDuplicateKey("cache");
    var steps := [R.Act(CacheGroup("duplicate")), R.Pass(GROUP_CACHE_DURATION + 1)];
    assert GroupCacheKey("duplicate") == key;
    var w := WatchAt(key, t0, steps, 1);
    assert w == WatchAfter(WatchAt(key, t0, steps, 0), key, steps[0]);
    assert Breaks(w, key, t0 + SILENCE_TIME, steps[1]);
    SilenceKeptIff(items, "cache", t0, steps);
  }
}
