/** How often a shortage record lets an operation be retried, over every run on the shared cache. */
module CacheRetry {
  import opened Results
  import opened SharedCache

  /** The cache and the clock, with what happened under one key so far: when the shortage was last
      detected, when a retry was last granted at full size, and how many were since that detection. */
  datatype State = State(items: Items, now: int, detected: Option<int>, granted: Option<int>, grants: nat)

  datatype Step = Act(op: Op) | Pass(time: nat)

  /** A retry of a request no smaller than the recorded one. */
  predicate Grants(s: State, key: string, op: Op) {
    && op.Retry? && op.shortage.Key() == key && Do(s.items, s.now, op).yes
    && key in s.items && s.items[key].value.Resource? && op.amount >= s.items[key].value.amount
  }

  predicate Detects(key: string, op: Op) {
    op.Record? && op.shortage.Key() == key
  }

  function After(s: State, key: string, step: Step): State {
    match step
    case Pass(time) => s.(now := s.now + time)
    case Act(op) =>
      var items := Do(s.items, s.now, op).items;
      if Detects(key, op) then State(items, s.now, Some(s.now), s.granted, 0)
      else if Grants(s, key, op) then State(items, s.now, s.detected, Some(s.now), s.grants + 1)
      else s.(items := items)
  }

  function Start(now: int): State {
    State(map[], now, None, None, 0)
  }

  function Final(key: string, now: int, steps: seq<Step>): State {
    if steps == [] then Start(now)
    else After(Final(key, now, steps[..|steps| - 1]), key, steps[|steps| - 1])
  }

  // ---- What every run keeps ----

  /** The stored record is the one of the last detection, and its retry time counts the retries it granted. */
  predicate RecordTells(s: State, item: Item) {
    var resource := item.value;
    && resource.Resource? && s.detected == Some(resource.lastDetected)
    && item.expiry == Some(resource.lastDetected + RESOURCE_DURATION)
    && resource.lastDetected + s.grants * RESOURCE_SILENCE_TIME <= resource.lastRetried
    && resource.lastRetried <= s.now
    && (s.grants > 0 ==> s.granted == Some(resource.lastRetried))
  }

  predicate Inv(s: State, key: string) {
    && (key in s.items && s.items[key].value.Resource? ==> RecordTells(s, s.items[key]))
    && (s.detected.Some? ==> s.detected.value <= s.now)
    && (s.granted.Some? ==> s.granted.value <= s.now && s.detected.Some?)
    && (s.granted.Some? && s.grants == 0 ==> s.granted.value <= s.detected.value)
    && (s.grants > 0 ==> s.granted.Some? &&
                         s.granted.value >= s.detected.value + s.grants * RESOURCE_SILENCE_TIME)
    && s.grants <= 2
  }

  /** Operations that neither record nor retry leave a record as it is, or remove it. */
  lemma OtherOps(items: Items, now: int, op: Op, key: string)
    requires !Detects(key, op) && !(op.Retry? && op.shortage.Key() == key)
    ensures var after := Do(items, now, op).items;
            key in after && after[key].value.Resource? ==> key in items && after[key] == items[key]
  {
    if key !in Touched(op) {
      OthersKept(items, now, op, key);
    }
  }

  /** A grant needs a fresh record, five quiet minutes since it was detected and since it was retried. */
  lemma GrantIsSpaced(s: State, key: string, op: Op)
    requires Inv(s, key) && Grants(s, key, op)
    ensures s.detected.Some? && s.detected.value + RESOURCE_SILENCE_TIME <= s.now <= s.detected.value + RESOURCE_DURATION
    ensures s.granted.Some? ==> s.granted.value + RESOURCE_SILENCE_TIME <= s.now
    ensures s.grants == 0 || (s.grants == 1 && s.now == s.detected.value + RESOURCE_DURATION)
  {
  }

  lemma StepKeepsInv(s: State, key: string, step: Step)
    requires Inv(s, key)
    ensures Inv(After(s, key, step), key)
  {
    match step
    case Pass(time) =>
    case Act(op) =>
      if Grants(s, key, op) {
        GrantIsSpaced(s, key, op);
      } else if !Detects(key, op) && !(op.Retry? && op.shortage.Key() == key) {
        OtherOps(s.items, s.now, op, key);
        hide Do;
      }
  }

  lemma {:induction false} RunKeepsInv(key: string, now: int, steps: seq<Step>)
    ensures Inv(Final(key, now, steps), key)
  {
    if steps != [] {
      RunKeepsInv(key, now, steps[..|steps| - 1]);
      StepKeepsInv(Final(key, now, steps[..|steps| - 1]), key, steps[|steps| - 1]);
    }
  }

  // ---- Throttling ----

  function At(key: string, now: int, steps: seq<Step>, i: nat): State
    requires i <= |steps|
  {
    Final(key, now, steps[..i])
  }

  predicate GrantsAt(key: string, now: int, steps: seq<Step>, i: nat)
    requires i < |steps|
  {
    steps[i].Act? && Grants(At(key, now, steps, i), key, steps[i].op)
  }

  predicate DetectsAt(key: string, steps: seq<Step>, i: nat)
    requires i < |steps|
  {
    steps[i].Act? && Detects(key, steps[i].op)
  }

  lemma Succ(key: string, now: int, steps: seq<Step>, i: nat)
    requires i < |steps|
    ensures At(key, now, steps, i + 1) == After(At(key, now, steps, i), key, steps[i])
  {
    assert steps[..i + 1][..i] == steps[..i];
  }

  /** After an event at i, the state at a later j still tells when its time was or a later time. */
  lemma {:induction false} Remembers(key: string, now: int, steps: seq<Step>, i: nat, j: nat)
    requires i < j <= |steps|
    ensures At(key, now, steps, i).now <= At(key, now, steps, j).now
    ensures GrantsAt(key, now, steps, i) ==>
              var s := At(key, now, steps, j); s.granted.Some? && At(key, now, steps, i).now <= s.granted.value
    ensures DetectsAt(key, steps, i) ==>
              var s := At(key, now, steps, j); s.detected.Some? && At(key, now, steps, i).now <= s.detected.value
    decreases j - i
  {
    hide Final, Do;
    Succ(key, now, steps, j - 1);
    if i < j - 1 {
      Remembers(key, now, steps, i, j - 1);
      RunKeepsInv(key, now, steps[..j - 1]);
    }
  }

  /** Two retries granted under one key are at least five minutes apart. */
  lemma RetriesAreSpaced(key: string, now: int, steps: seq<Step>, i: nat, j: nat)
    requires i < j < |steps| && GrantsAt(key, now, steps, i) && GrantsAt(key, now, steps, j)
    ensures At(key, now, steps, i).now + RESOURCE_SILENCE_TIME <= At(key, now, steps, j).now
  {
    hide Grants, Final;
    Remembers(key, now, steps, i, j);
    RunKeepsInv(key, now, steps[..j]);
    GrantIsSpaced(At(key, now, steps, j), key, steps[j].op);
  }

  /** A retry is granted at least five minutes after every earlier detection. */
  lemma RetryFollowsDetection(key: string, now: int, steps: seq<Step>, i: nat, j: nat)
    requires i < j < |steps| && DetectsAt(key, steps, i) && GrantsAt(key, now, steps, j)
    ensures At(key, now, steps, i).now + RESOURCE_SILENCE_TIME <= At(key, now, steps, j).now
  {
    hide Grants, Final;
    Remembers(key, now, steps, i, j);
    RunKeepsInv(key, now, steps[..j]);
    GrantIsSpaced(At(key, now, steps, j), key, steps[j].op);
  }

  predicate NoDetection(key: string, steps: seq<Step>, i: nat, j: nat)
    requires i <= j <= |steps|
  {
    forall d :: i <= d < j ==> !DetectsAt(key, steps, d)
  }

  lemma {:induction false} GrantsOnlyGrow(key: string, now: int, steps: seq<Step>, i: nat, j: nat)
    requires i <= j <= |steps| && NoDetection(key, steps, i, j)
    ensures At(key, now, steps, i).grants <= At(key, now, steps, j).grants
    decreases j - i
  {
    hide Final, Do;
    if i < j {
      assert !DetectsAt(key, steps, j - 1);
      GrantsOnlyGrow(key, now, steps, i, j - 1);
      Succ(key, now, steps, j - 1);
    }
  }

  lemma GrantCounts(key: string, now: int, steps: seq<Step>, i: nat)
    requires i < |steps| && GrantsAt(key, now, steps, i)
    ensures At(key, now, steps, i + 1).grants == At(key, now, steps, i).grants + 1
  {
    hide Final, Do;
    Succ(key, now, steps, i);
  }

  /** One record grants at most two retries: among any three, the shortage was detected again. */
  lemma AtMostTwoPerRecord(key: string, now: int, steps: seq<Step>, i: nat, j: nat, k: nat)
    requires i < j < k < |steps|
    requires GrantsAt(key, now, steps, i) && GrantsAt(key, now, steps, j) && GrantsAt(key, now, steps, k)
    ensures exists d :: i < d < k && DetectsAt(key, steps, d)
  {
    hide Grants, Final;
    if NoDetection(key, steps, i + 1, k) {
      GrantCounts(key, now, steps, i);
      GrantsOnlyGrow(key, now, steps, i + 1, j);
      GrantCounts(key, now, steps, j);
      GrantsOnlyGrow(key, now, steps, j + 1, k);
      RunKeepsInv(key, now, steps[..k]);
      GrantIsSpaced(At(key, now, steps, k), key, steps[k].op);
      assert false;
    }
  }

  /** Two is reached: a retry after five minutes, and one more in the record's last instant. */
  lemma TwoPerRecord(shortage: Shortage, amount: int)
    ensures var steps := [Act(Record(shortage, amount)), Pass(RESOURCE_SILENCE_TIME), Act(Retry(shortage, amount)),
                          Pass(RESOURCE_SILENCE_TIME), Act(Retry(shortage, amount))];
            GrantsAt(shortage.Key(), 0, steps, 2) && GrantsAt(shortage.Key(), 0, steps, 4)
  {
    var steps := [Act(Record(shortage, amount)), Pass(RESOURCE_SILENCE_TIME), Act(Retry(shortage, amount)),
                  Pass(RESOURCE_SILENCE_TIME), Act(Retry(shortage, amount))];
    var key := shortage.Key();
    assert At(key, 0, steps, 0) == Start(0);
    Succ(key, 0, steps, 0);
    Succ(key, 0, steps, 1);
    Succ(key, 0, steps, 2);
    Succ(key, 0, steps, 3);
  }
}
