/** The status of an NFDeployment: a log of conditions deduced from the Deployment's first condition. */
module Status {
  import opened Objects

  const MAX_INT32: nat := 0x7FFF_FFFF

  function Clamp(generation: nat): nat {
    if generation > MAX_INT32 then MAX_INT32 else generation
  }

  /** The value a 32-bit field holds of a generation: no more than 2^31 - 1. */
  predicate Holds(observed: nat, generation: nat) {
    observed == if generation <= 2147483647 then generation else 2147483647
  }

  /** `subject` is the resource name the messages start with. */
  function Starting(subject: string, now: nat): Condition {
    Condition(Reconciling, false, "MinimumReplicasNotAvailable", subject + " pod(s) is(are) starting.", now)
  }

  function Running(subject: string, now: nat): Condition {
    Condition(Available, true, "MinimumReplicasAvailable", subject + " pods are available.", now)
  }

  function Failing(subject: string, now: nat): Condition {
    Condition(Stalled, false, "MinimumReplicasNotAvailable", subject + " pod(s) is(are) failing.", now)
  }

  /** What one reconcile pass sees of a Deployment: its generation and its condition types. */
  datatype Observation = Observation(generation: nat, conditions: seq<ConditionType>)

  /** What a condition type of a Deployment says about the network function, if anything. */
  function Meaning(conditions: seq<ConditionType>): (r: seq<ConditionType>)
    ensures |r| <= 1
  {
    if conditions == [] then [] else
    match conditions[0]
    case Available => [Available]
    case Progressing => [Reconciling]
    case ReplicaFailure => [Stalled]
    case _ => []
  }

  function ConditionFor(subject: string, kind: ConditionType, now: nat): Condition {
    match kind
    case Available => Running(subject, now)
    case Stalled => Failing(subject, now)
    case _ => Starting(subject, now)
  }

  /** The conditions a pass appends: none or one. */
  function Appended(subject: string, seen: Observation, log: seq<Condition>, now: nat): (r: seq<Condition>)
    ensures |r| <= 1
  {
    if log == [] then [Starting(subject, now)] else
    var last := log[|log| - 1].kind;
    if seen.conditions == [] || seen.conditions[0] == last || Meaning(seen.conditions) == [] then []
    else if seen.conditions[0] == Progressing && last == Reconciling then []
    else [ConditionFor(subject, Meaning(seen.conditions)[0], now)]
  }

  /** What a Deployment's first condition makes of the network function's state. */
  lemma AppendedSays(subject: string, seen: Observation, log: seq<Condition>, now: nat)
    requires Appended(subject, seen, log, now) != []
    ensures var c := Appended(subject, seen, log, now)[0];
            && c.at == now && (c.status <==> c.kind == Available)
            && (log == [] ==> c.kind == Reconciling)
            && (log != [] ==> seen.conditions != [])
            && (log != [] && seen.conditions[0] == ConditionType.Available ==> c.kind == Available)
            && (log != [] && seen.conditions[0] == Progressing ==> c.kind == Reconciling)
            && (log != [] && seen.conditions[0] == ReplicaFailure ==> c.kind == Stalled)
            && (log != [] ==> seen.conditions[0] in {ConditionType.Available, Progressing, ReplicaFailure})
    ensures var c := Appended(subject, seen, log, now)[0];
            match c.kind
            case Available => c.reason == "MinimumReplicasAvailable" && c.message == subject + " pods are available."
            case Stalled => c.reason == "MinimumReplicasNotAvailable"
                && c.message == subject + " pod(s) is(are) failing."
            case _ => c.reason == "MinimumReplicasNotAvailable" && c.message == subject + " pod(s) is(are) starting."
  {
  }

  /** Whether a pass asks for its status to be written; a condition of unknown type asks without appending. */
  predicate WantsUpdate(seen: Observation, log: seq<Condition>) {
    log == [] ||
    (&& seen.conditions != []
     && seen.conditions[0] != log[|log| - 1].kind
     && !(seen.conditions[0] == Progressing && log[|log| - 1].kind == Reconciling))
  }

  function NextStatus(subject: string, seen: Observation, status: NFStatus, now: nat): NFStatus {
    NFStatus(Clamp(seen.generation), status.conditions + Appended(subject, seen, status.conditions, now))
  }

  method CreateNfDeploymentStatus(subject: string, seen: Observation, current: NFStatus, now: nat)
      returns (status: NFStatus, update: bool)
    ensures update == WantsUpdate(seen, current.conditions)
    ensures status == NextStatus(subject, seen, current, now)
  {
    var gen := seen.generation;
    if gen > MAX_INT32 {
      gen := MAX_INT32;
    }
    var conditions := current.conditions;
    if |conditions| == 0 {
      conditions := conditions + [Starting(subject, now)];
      return NFStatus(gen, conditions), true;
    } else if |seen.conditions| == 0 {
      assert conditions + [] == conditions;
      return NFStatus(gen, conditions), false;
    }
    assert conditions + [] == conditions;
    var lastDeploymentCondition := seen.conditions[0];
    var lastNfDeploymentCondition := conditions[|conditions| - 1].kind;
    if lastDeploymentCondition == Progressing && lastNfDeploymentCondition == Reconciling {
      return NFStatus(gen, conditions), false;
    }
    if lastDeploymentCondition == lastNfDeploymentCondition {
      return NFStatus(gen, conditions), false;
    }
    match lastDeploymentCondition {
      case Available => conditions := conditions + [Running(subject, now)];
      case Progressing => conditions := conditions + [Starting(subject, now)];
      case ReplicaFailure => conditions := conditions + [Failing(subject, now)];
      case _ =>
    }
    return NFStatus(gen, conditions), true;
  }

  // ---------- Repeated synchronisation ----------

  /** The stored status after one pass. */
  function Sync(subject: string, seen: Observation, status: NFStatus, now: nat): NFStatus {
    if WantsUpdate(seen, status.conditions) then NextStatus(subject, seen, status, now) else status
  }

  datatype Look = Look(seen: Observation, now: nat)

  /** The stored status after a sequence of passes. */
  function SyncAll(subject: string, looks: seq<Look>, status: NFStatus): NFStatus {
    if looks == [] then status else
    var before := SyncAll(subject, looks[..|looks| - 1], status);
    Sync(subject, looks[|looks| - 1].seen, before, looks[|looks| - 1].now)
  }

  function Kinds(log: seq<Condition>): (kinds: seq<ConditionType>)
    ensures |kinds| == |log|
    ensures forall i :: 0 <= i < |log| ==> kinds[i] == log[i].kind
  {
    seq(|log|, i requires 0 <= i < |log| => log[i].kind)
  }

  /** The meanings of the observed first conditions; absent and unknown ones mean nothing. */
  function Meanings(looks: seq<Look>): seq<ConditionType> {
    if looks == [] then [] else Meaning(looks[0].seen.conditions) + Meanings(looks[1..])
  }

  /** Each meaning that is Stalled or differs from the meaning right before it. */
  function Changes(previous: ConditionType, meanings: seq<ConditionType>): seq<ConditionType>
    decreases meanings
  {
    if meanings == [] then [] else
    (if meanings[0] == Stalled
        || meanings[0] != previous then [meanings[0]] else []) + Changes(meanings[0], meanings[1..])
  }

  function LastOf(previous: ConditionType, meanings: seq<ConditionType>): ConditionType {
    if meanings == [] then previous else meanings[|meanings| - 1]
  }

  lemma {:induction false} ChangesAppend(previous: ConditionType, meanings: seq<ConditionType>, next: ConditionType)
    ensures Changes(previous, meanings + [next]) ==
            Changes(previous, meanings) + (if next == Stalled || next != LastOf(previous, meanings) then [next] else [])
    decreases meanings
  {
    if meanings == [] {
      assert meanings + [next] == [next];
    } else {
      var all := meanings + [next];
      assert all[0] == meanings[0] && all[1..] == meanings[1..] + [next];
      ChangesAppend(meanings[0], meanings[1..], next);
      assert LastOf(previous, meanings) == LastOf(meanings[0], meanings[1..]);
    }
  }

  lemma {:induction false} MeaningsAppend(looks: seq<Look>, look: Look)
    ensures Meanings(looks + [look]) == Meanings(looks) + Meaning(look.seen.conditions)
  {
    if looks == [] {
      assert looks + [look] == [look];
    } else {
      assert (looks + [look])[1..] == looks[1..] + [look];
      MeaningsAppend(looks[1..], look);
    }
  }

  lemma {:induction false} MeaningsRange(looks: seq<Look>)
    ensures forall m :: m in Meanings(looks) ==> m in {Available, Reconciling, Stalled}
  {
    if looks != [] {
      MeaningsRange(looks[1..]);
    }
  }

  /** What one more meaning adds to a log's types. */
  function Added(last: ConditionType, meaning: seq<ConditionType>): seq<ConditionType> {
    if meaning != [] && (meaning[0] == Stalled || meaning[0] != last) then [meaning[0]] else []
  }

  /** One pass over a log the operator wrote, in terms of types. */
  lemma SyncKinds(subject: string, seen: Observation, status: NFStatus, now: nat)
    requires status.conditions != [] ==>
             status.conditions[|status.conditions| - 1].kind in {Available, Reconciling, Stalled}
    ensures var log, log' := status.conditions, Sync(subject, seen, status, now).conditions;
            Kinds(log') == Kinds(log) +
              if log == [] then [Reconciling] else Added(LastOf(Reconciling, Kinds(log)), Meaning(seen.conditions))
  {
  }

  lemma {:induction false} OneMoreMeaning(meanings: seq<ConditionType>, meaning: seq<ConditionType>)
    requires |meaning| <= 1
    ensures Changes(Reconciling, meanings + meaning) ==
            Changes(Reconciling, meanings) + Added(LastOf(Reconciling, meanings), meaning)
    ensures LastOf(Reconciling, meanings + meaning) ==
            LastOf(LastOf(Reconciling, meanings), Added(LastOf(Reconciling, meanings), meaning))
  {
    if meaning == [] {
      assert meanings + meaning == meanings;
    } else {
      assert meaning == [meaning[0]];
      ChangesAppend(Reconciling, meanings, meaning[0]);
    }
  }

  /** A log's types when its first pass is followed by observations with these meanings. */
  ghost predicate HasForm(log: seq<Condition>, meanings: seq<ConditionType>) {
    && Kinds(log) == [Reconciling] + Changes(Reconciling, meanings)
    && LastOf(Reconciling, Kinds(log)) == LastOf(Reconciling, meanings)
  }

  lemma ClosedFormStart(subject: string, look: Look, status: NFStatus)
    requires status.conditions == []
    ensures HasForm(Sync(subject, look.seen, status, look.now).conditions, [])
  {
  }

  lemma ClosedFormStep(subject: string, meanings: seq<ConditionType>, look: Look, reached: NFStatus)
    requires HasForm(reached.conditions, meanings)
    requires LastOf(Reconciling, meanings) in {Available, Reconciling, Stalled}
    ensures HasForm(Sync(subject, look.seen, reached, look.now).conditions, meanings + Meaning(look.seen.conditions))
  {
    OneMoreMeaning(meanings, Meaning(look.seen.conditions));
    SyncKinds(subject, look.seen, reached, look.now);
  }

  lemma {:induction false} SyncOneMore(subject: string, looks: seq<Look>, look: Look, status: NFStatus)
    ensures SyncAll(subject, looks + [look], status) ==
            Sync(subject, look.seen, SyncAll(subject, looks, status), look.now)
  {
  }

  /**
   Closed form: from an empty log, the log's types are Reconciling followed by the changes among the
   meanings of the later observations; a Stalled is never suppressed.
   */
  lemma {:induction false} StatusClosedForm(subject: string, first: Look, later: seq<Look>, status: NFStatus)
    requires status.conditions == []
    ensures HasForm(SyncAll(subject, [first] + later, status).conditions, Meanings(later))
  {
    if later == [] {
      ClosedFormStart(subject, first, status);
      SyncOneMore(subject, [], first, status);
      assert [first] + later == [] + [first];
    } else {
      var before, last := later[..|later| - 1], later[|later| - 1];
      StatusClosedForm(subject, first, before, status);
      LastMeaning(before);
      ClosedFormStep(subject, Meanings(before), last, SyncAll(subject, [first] + before, status));
      MeaningsAppend(before, last);
      SyncOneMore(subject, [first] + before, last, status);
      assert later == before + [last] && [first] + later == [first] + before + [last];
    }
  }

  lemma {:induction false} LastMeaning(looks: seq<Look>)
    ensures LastOf(Reconciling, Meanings(looks)) in {Available, Reconciling, Stalled}
  {
    MeaningsRange(looks);
    var meanings := Meanings(looks);
    assert meanings != [] ==> meanings[|meanings| - 1] in meanings;
  }

  // ---------- Invariants of the log ----------

  /** A log the operator wrote. */
  ghost predicate WellFormed(log: seq<Condition>) {
    && (log != [] ==> log[0].kind == Reconciling)
    && (forall i :: 0 <= i < |log| ==> log[i].kind in {Reconciling, Available, Stalled})
    && (forall i, j :: 0 <= i < j < |log| ==> log[i].at <= log[j].at)
    && (forall i :: 0 <= i < |log| - 1 && log[i].kind == log[i + 1].kind ==> log[i].kind == Stalled)
  }

  /** `later` is `earlier` with at most one condition appended. */
  predicate Extends(earlier: seq<Condition>, later: seq<Condition>) {
    |earlier| <= |later| <= |earlier| + 1 && later[..|earlier|] == earlier
  }

  lemma AppendKeepsForm(log: seq<Condition>, c: Condition)
    requires WellFormed(log) && c.kind in {Reconciling, Available, Stalled}
    requires log == [] ==> c.kind == Reconciling
    requires log != [] ==> log[|log| - 1].at <= c.at && (log[|log| - 1].kind != c.kind || c.kind == Stalled)
    ensures WellFormed(log + [c])
  {
    forall i | 0 <= i < |log| ensures log[i].at <= c.at {
      assert i < |log| - 1 ==> log[i].at <= log[|log| - 1].at;
    }
  }

  lemma SyncKeepsLog(subject: string, seen: Observation, status: NFStatus, now: nat)
    requires WellFormed(status.conditions)
    requires forall c :: c in status.conditions ==> c.at <= now
    ensures var log := Sync(subject, seen, status, now).conditions;
            WellFormed(log) && Extends(status.conditions, log) && forall c :: c in log ==> c.at <= now
  {
    var log := status.conditions;
    var more := Appended(subject, seen, log, now);
    assert log != [] ==> log[|log| - 1] in log;
    if more != [] {
      assert more == [more[0]];
      AppendKeepsForm(log, more[0]);
    }
  }

  // ---------- Settling ----------

  /** A Deployment that keeps failing is logged again on every pass, unless the log already ends in its very type. */
  predicate KeepsFailing(conditions: seq<ConditionType>, log: seq<Condition>) {
    conditions != [] && conditions[0] == ReplicaFailure && (log != [] ==> log[|log| - 1].kind != ReplicaFailure)
  }

  /** Every one of these passes sees this first condition, or none where there is none. */
  ghost predicate AllSee(looks: seq<Look>, conditions: seq<ConditionType>) {
    forall i :: 0 <= i < |looks| ==> looks[i].seen.conditions == conditions
  }

  predicate Healthy(conditions: seq<ConditionType>) {
    conditions == [] || conditions[0] in {Progressing, Available}
  }

  lemma SettledAfterOne(subject: string, look: Look, next: Look, status: NFStatus)
    requires Healthy(look.seen.conditions) && next.seen.conditions == look.seen.conditions
    ensures status.conditions != [] ==> !WantsUpdate(next.seen, Sync(subject, look.seen, status, look.now).conditions)
    ensures look.seen.conditions == [] || look.seen.conditions[0] == Progressing ==>
              !WantsUpdate(next.seen, Sync(subject, look.seen, status, look.now).conditions)
    ensures Sync(subject, look.seen, status, look.now).conditions != []
  {
  }

  /** Passes that see the same conditions and ask for nothing leave the status alone, at whatever times. */
  lemma {:induction false} NothingMore(subject: string, looks: seq<Look>, later: seq<Look>, status: NFStatus)
    requires forall i :: 0 <= i < |later| ==> !WantsUpdate(later[i].seen, SyncAll(subject, looks, status).conditions)
    ensures SyncAll(subject, looks + later, status) == SyncAll(subject, looks, status)
  {
    if later == [] {
      assert looks + later == looks;
    } else {
      var before, last := later[..|later| - 1], later[|later| - 1];
      NothingMore(subject, looks, before, status);
      SyncOneMore(subject, looks + before, last, status);
      assert looks + later == looks + before + [last];
    }
  }

  /**
   A fixed healthy first condition, or none: two passes at most ask for an update, one if the log was non-empty;
   later passes, whenever they come and whatever the generation has become, leave the status as it is.
   */
  lemma {:induction false} StatusSettles(subject: string, looks: seq<Look>, later: seq<Look>,
      conditions: seq<ConditionType>, status: NFStatus)
    requires Healthy(conditions) && AllSee(looks, conditions) && AllSee(later, conditions)
    requires |looks| >= if status.conditions == [] then 2 else 1
    ensures SyncAll(subject, looks + later, status) == SyncAll(subject, looks, status)
    ensures forall i :: 0 <= i < |later| ==> !WantsUpdate(later[i].seen, SyncAll(subject, looks, status).conditions)
  {
    forall i | 0 <= i < |later| ensures !WantsUpdate(later[i].seen, SyncAll(subject, looks, status).conditions) {
      SettledBy(subject, looks, later[i], conditions, status);
    }
    NothingMore(subject, looks, later, status);
  }

  lemma {:induction false} SettledBy(subject: string, looks: seq<Look>, next: Look, conditions: seq<ConditionType>,
      status: NFStatus)
    requires Healthy(conditions) && AllSee(looks, conditions) && next.seen.conditions == conditions
    requires |looks| >= if status.conditions == [] then 2 else 1
    ensures !WantsUpdate(next.seen, SyncAll(subject, looks, status).conditions)
  {
    var before, last := looks[..|looks| - 1], looks[|looks| - 1];
    NonEmptyLog(subject, before, status);
    SettledAfterOne(subject, last, next, SyncAll(subject, before, status));
  }

  lemma {:induction false} NonEmptyLog(subject: string, looks: seq<Look>, status: NFStatus)
    requires looks != [] || status.conditions != []
    ensures SyncAll(subject, looks, status).conditions != []
  {
    if looks != [] && |looks| > 1 {
      NonEmptyLog(subject, looks[..|looks| - 1], status);
    }
  }

  /** A first condition of ReplicaFailure on every pass grows the log by exactly one condition each time, forever. */
  lemma {:induction false} FailureGrowsForever(subject: string, looks: seq<Look>, status: NFStatus)
    requires forall i :: 0 <= i < |looks| ==> KeepsFailing(looks[i].seen.conditions, status.conditions)
    ensures var log := SyncAll(subject, looks, status).conditions;
            && |log| == |status.conditions| + |looks|
            && (looks != [] ==> log[|log| - 1].kind in {Reconciling, Stalled})
  {
    if looks != [] {
      FailureGrowsForever(subject, looks[..|looks| - 1], status);
      var before := SyncAll(subject, looks[..|looks| - 1], status);
      assert KeepsFailing(looks[|looks| - 1].seen.conditions, before.conditions);
    }
  }
}
