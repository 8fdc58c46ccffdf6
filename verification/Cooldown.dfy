/** The cooldown manager: one small state machine per model of a group. */
module Cooldown {
  import opened Routing

  /** CooldownState; `until` is a monotonic deadline, 0.0 when there is none. */
  datatype State = State(failures: int, until: real)

  type Key = (int, int)
  type States = map<Key, State>

  function Recovered(s: States, key: Key): States {
    if key in s then s[key := State(0, 0.0)] else s
  }

  function Hit(s: States, key: Key, threshold: int, seconds: int, now: real): States {
    var before := if key in s then s[key] else State(0, 0.0);
    var failures := before.failures + 1;
    s[key := State(failures, if failures >= threshold then now + seconds as real else before.until)]
  }

  predicate Cooling(s: States, key: Key, now: real) {
    key in s && s[key].until != 0.0 && now < s[key].until
  }

  /** The state after is_on_cooldown: a query at or past the deadline resets the model. */
  function Queried(s: States, key: Key, now: real): States {
    if key in s && s[key].until != 0.0 && now >= s[key].until then s[key := State(0, 0.0)] else s
  }

  /** A persisted cooldown; `until` is wall-clock time. */
  datatype Record = Record(key: Key, failures: int, until: real)

  function Exported(s: States, key: Key, mono: real, wall: real): Record
    requires key in s
  {
    Record(key, s[key].failures, wall + (s[key].until - mono))
  }

  function Restored(s: States, r: Record, mono: real, wall: real): States {
    if r.until - wall <= 0.0 then s else s[r.key := State(r.failures, mono + (r.until - wall))]
  }

  /** The records of the unexpired cooldowns, each once. */
  ghost predicate ListsActive(records: seq<Record>, s: States, mono: real, wall: real) {
    && (forall r :: r in records <==> r.key in s && s[r.key].until > mono && r == Exported(s, r.key, mono, wall))
    && Distinct(records)
  }

  ghost predicate Distinct(records: seq<Record>) {
    forall i, j :: 0 <= i < j < |records| ==> records[i].key != records[j].key
  }

  class CooldownManager {
    var states: States

    constructor ()
      ensures states == map[]
    {
      states := map[];
    }

    method RecordSuccess(groupId: int, modelId: int)
      modifies this
      ensures states == Recovered(old(states), (groupId, modelId))
    {
      var key := (groupId, modelId);
      if key in states {
        states := states[key := State(0, 0.0)];
      }
    }

    method RecordFailure(groupId: int, modelId: int, threshold: int, seconds: int, now: real)
      modifies this
      ensures states == Hit(old(states), (groupId, modelId), threshold, seconds, now)
    {
      var key := (groupId, modelId);
      if key !in states {
        states := states[key := State(0, 0.0)];
      }
      states := states[key := states[key].(failures := states[key].failures + 1)];
      if states[key].failures >= threshold {
        states := states[key := states[key].(until := now + seconds as real)];
      }
    }

    method IsOnCooldown(groupId: int, modelId: int, now: real) returns (cooling: bool)
      modifies this
      ensures cooling == Cooling(old(states), (groupId, modelId), now)
      ensures states == Queried(old(states), (groupId, modelId), now)
    {
      var key := (groupId, modelId);
      if key !in states {
        return false;
      }
      if states[key].until == 0.0 {
        return false;
      }
      if now >= states[key].until {
        states := states[key := State(0, 0.0)];
        return false;
      }
      return true;
    }

    /** get_all_active_cooldowns: the unexpired ones, with wall-clock deadlines. */
    method ActiveCooldowns(mono: real, wall: real) returns (records: seq<Record>)
      ensures ListsActive(records, states, mono, wall)
    {
      records := [];
      var keys := states.Keys;
      while keys != {}
        invariant keys <= states.Keys
        invariant forall r :: r in records <==>
                    r.key in states.Keys - keys && states[r.key].until > mono
                      && r == Exported(states, r.key, mono, wall)
        invariant Distinct(records)
        decreases keys
      {
        var key :| key in keys;
        keys := keys - {key};
        if states[key].until > mono {
          assert forall r :: r in records ==> r.key != key;
          records := records + [Exported(states, key, mono, wall)];
        }
      }
    }

    /** restore_state: nothing when the wall-clock deadline has passed. */
    method RestoreState(r: Record, mono: real, wall: real)
      modifies this
      ensures states == Restored(old(states), r, mono, wall)
    {
      var remaining := r.until - wall;
      if remaining <= 0.0 {
        return;
      }
      states := states[r.key := State(r.failures, mono + remaining)];
    }

    /** filter_available; the manager reads its clock once per endpoint. */
    method FilterAvailable(endpoints: seq<Endpoint>, groupId: int, clock: seq<real>) returns (available: seq<Endpoint>)
      requires |clock| == |endpoints|
      modifies this
      ensures available == Available(old(states), endpoints, groupId, clock)
      ensures states == Replay(old(states), Queries(endpoints, groupId, clock))
    {
      available := [];
      ghost var whole := Available(states, endpoints, groupId, clock);
      for i := 0 to |endpoints|
        invariant whole == available + Available(states, endpoints[i..], groupId, clock[i..])
        invariant Replay(old(states), Queries(endpoints, groupId, clock))
                  == Replay(states, Queries(endpoints[i..], groupId, clock[i..]))
      {
        ghost var before, soFar := states, available;
        var cooling := IsOnCooldown(groupId, endpoints[i].modelId, clock[i]);
        if !cooling {
          available := available + [endpoints[i]];
        }
        Unfold(before, endpoints, groupId, clock, i);
        ghost var rest := Available(states, endpoints[i + 1..], groupId, clock[i + 1..]);
        Assoc(soFar, if cooling then [] else [endpoints[i]], rest);
      }
      assert endpoints[|endpoints|..] == [] && clock[|endpoints|..] == [];
    }
  }

  /** One endpoint of filter_available. */
  lemma Unfold(s: States, endpoints: seq<Endpoint>, groupId: int, clock: seq<real>, i: nat)
    requires |clock| == |endpoints| && i < |endpoints|
    ensures var key := (groupId, endpoints[i].modelId);
            var s' := Queried(s, key, clock[i]);
            && Available(s, endpoints[i..], groupId, clock[i..])
               == (if Cooling(s, key, clock[i]) then [] else [endpoints[i]])
                  + Available(s', endpoints[i + 1..], groupId, clock[i + 1..])
            && Replay(s, Queries(endpoints[i..], groupId, clock[i..]))
               == Replay(s', Queries(endpoints[i + 1..], groupId, clock[i + 1..]))
  {
    assert endpoints[i..][1..] == endpoints[i + 1..] && clock[i..][1..] == clock[i + 1..];
    assert Queries(endpoints[i..], groupId, clock[i..])[1..] == Queries(endpoints[i + 1..], groupId, clock[i + 1..]);
  }

  // ------------------------------------------------- histories

  datatype Event =
    | Success(key: Key)
    | Failure(key: Key, threshold: int, seconds: int, at: real)
    | Query(key: Key, at: real)
    | Restoration(key: Key, failures: int, until: real, mono: real, wall: real)

  function Apply(s: States, e: Event): States {
    match e
    case Success(key) => Recovered(s, key)
    case Failure(key, threshold, seconds, at) => Hit(s, key, threshold, seconds, at)
    case Query(key, at) => Queried(s, key, at)
    case Restoration(key, failures, until, mono, wall) => Restored(s, Record(key, failures, until), mono, wall)
  }

  function Replay(s: States, events: seq<Event>): States
    decreases events
  {
    if events == [] then s else Replay(Apply(s, events[0]), events[1..])
  }

  lemma {:induction false} ReplayConcat(s: States, first: seq<Event>, second: seq<Event>)
    ensures Replay(s, first + second) == Replay(Replay(s, first), second)
    decreases first
  {
    if first == [] {
      assert first + second == second;
    } else {
      ReplayConcat(Apply(s, first[0]), first[1..], second);
      assert (first + second)[1..] == first[1..] + second;
    }
  }

  lemma {:induction false} ReplayAppend(s: States, events: seq<Event>, e: Event)
    ensures Replay(s, events + [e]) == Apply(Replay(s, events), e)
    decreases events
  {
    if events == [] {
      assert ([e])[1..] == [];
    } else {
      ReplayAppend(Apply(s, events[0]), events[1..], e);
      assert (events + [e])[1..] == events[1..] + [e];
    }
  }

  function Queries(endpoints: seq<Endpoint>, groupId: int, clock: seq<real>): seq<Event>
    requires |clock| == |endpoints|
  {
    seq(|endpoints|, i requires 0 <= i < |endpoints| => Query((groupId, endpoints[i].modelId), clock[i]))
  }

  function Available(s: States, endpoints: seq<Endpoint>, groupId: int, clock: seq<real>): seq<Endpoint>
    requires |clock| == |endpoints|
  {
    if endpoints == [] then []
    else
      var key := (groupId, endpoints[0].modelId);
      (if Cooling(s, key, clock[0]) then [] else [endpoints[0]])
      + Available(Queried(s, key, clock[0]), endpoints[1..], groupId, clock[1..])
  }

  // What a history says of a model, without any state: the failures since the last reset,
  // whether it was restored since, and when the cooldown that they cause ends.

  /** A record is restored only while its wall-clock deadline is ahead. */
  predicate TakesEffect(e: Event) {
    e.Restoration? && e.until - e.wall > 0.0
  }

  /** A reset: a success, or a query at or past the deadline of a cooldown in force. */
  predicate Resets(history: seq<Event>, key: Key, threshold: int, e: Event)
    decreases |history|, 2
  {
    e.key == key && (e.Success? || (e.Query? && InForce(history, key, threshold)
                                    && e.at >= Deadline(history, key, threshold)))
  }

  /** At least `threshold` failures, or a restoration, since the last reset. */
  predicate InForce(history: seq<Event>, key: Key, threshold: int)
    decreases |history|, 1
  {
    FailuresSinceReset(history, key, threshold) >= threshold || RestoredSinceReset(history, key, threshold)
  }

  /** A restored record brings the failures counted before the restart with it. */
  function FailuresSinceReset(history: seq<Event>, key: Key, threshold: int): int
    decreases |history|, 0
  {
    if history == [] then 0
    else
      var before, e := history[..|history| - 1], history[|history| - 1];
      if Resets(before, key, threshold, e) then 0
      else if e.key == key && TakesEffect(e) then e.failures
      else FailuresSinceReset(before, key, threshold) + if e.Failure? && e.key == key then 1 else 0
  }

  predicate RestoredSinceReset(history: seq<Event>, key: Key, threshold: int)
    decreases |history|, 0
  {
    history != [] &&
    var before, e := history[..|history| - 1], history[|history| - 1];
    !Resets(before, key, threshold, e)
    && ((e.key == key && TakesEffect(e)) || RestoredSinceReset(before, key, threshold))
  }

  /** The end of the cooldown that the last failure to reach the threshold asks for, or of the
      cooldown restored after it. */
  function Deadline(history: seq<Event>, key: Key, threshold: int): real
    decreases |history|, 0
  {
    if history == [] then 0.0
    else
      var before, e := history[..|history| - 1], history[|history| - 1];
      if e.key == key && e.Failure? && FailuresSinceReset(before, key, threshold) + 1 >= threshold then
        e.at + e.seconds as real
      else if e.key == key && TakesEffect(e) then e.mono + (e.until - e.wall)
      else Deadline(before, key, threshold)
  }

  /** One threshold for the model throughout, and no deadline at the clock's very origin,
      which the code takes for "none". */
  ghost predicate Proper(history: seq<Event>, key: Key, threshold: int) {
    forall i :: 0 <= i < |history| && history[i].key == key ==>
      var e := history[i];
      && (e.Failure? ==> e.threshold == threshold && e.at + e.seconds as real != 0.0)
      && (TakesEffect(e) ==> e.mono + (e.until - e.wall) != 0.0)
  }

  lemma {:induction false} HistoryState(history: seq<Event>, key: Key, threshold: int)
    requires threshold >= 1 && Proper(history, key, threshold)
    ensures var s, n := Replay(map[], history), FailuresSinceReset(history, key, threshold);
            && (key in s ==> s[key].failures == n)
            && (key !in s ==> n == 0 && !RestoredSinceReset(history, key, threshold))
            && (if InForce(history, key, threshold)
                then key in s && s[key].until == Deadline(history, key, threshold) && s[key].until != 0.0
                else key in s ==> s[key].until == 0.0)
    decreases |history|
  {
    if history != [] {
      var before, e := history[..|history| - 1], history[|history| - 1];
      assert before + [e] == history;
      HistoryState(before, key, threshold);
      ReplayAppend(map[], before, e);
      assert InForce(before, key, threshold) <==>
               FailuresSinceReset(before, key, threshold) >= threshold || RestoredSinceReset(before, key, threshold);
      assert InForce(history, key, threshold) <==>
               FailuresSinceReset(history, key, threshold) >= threshold || RestoredSinceReset(history, key, threshold);
    }
  }

  /** What a history says of a model at `now`: on cooldown or not. */
  predicate Cools(history: seq<Event>, key: Key, threshold: int, now: real) {
    InForce(history, key, threshold) && now < Deadline(history, key, threshold)
  }

  /** After any history, restorations at a start-up included, a model is on cooldown at `now`
      if and only if since its last reset it was restored or failed at least `threshold` times,
      and the cooldown set last is not over. */
  lemma CooldownExact(history: seq<Event>, key: Key, threshold: int, now: real)
    requires threshold >= 1 && Proper(history, key, threshold)
    ensures Cooling(Replay(map[], history), key, now) <==> Cools(history, key, threshold, now)
  {
    HistoryState(history, key, threshold);
  }

  function Kept(history: seq<Event>, endpoints: seq<Endpoint>, groupId: int, clock: seq<real>): seq<Endpoint>
    requires |clock| == |endpoints|
    decreases |endpoints|
  {
    if endpoints == [] then []
    else
      var ep := endpoints[0];
      var key := (groupId, ep.modelId);
      (if Cools(history, key, ep.cooldownThreshold, clock[0]) then [] else [ep])
      + Kept(history + [Query(key, clock[0])], endpoints[1..], groupId, clock[1..])
  }

  /** filter_available keeps an endpoint exactly when, by the history up to its own query,
      its model is not on cooldown. */
  lemma {:induction false} FilterExact(history: seq<Event>, endpoints: seq<Endpoint>, groupId: int, clock: seq<real>)
    requires |clock| == |endpoints|
    requires forall ep :: ep in endpoints ==>
               ep.cooldownThreshold >= 1 && Proper(history, (groupId, ep.modelId), ep.cooldownThreshold)
    ensures Available(Replay(map[], history), endpoints, groupId, clock) == Kept(history, endpoints, groupId, clock)
    decreases |endpoints|
  {
    if endpoints != [] {
      var ep := endpoints[0];
      var key := (groupId, ep.modelId);
      var query := Query(key, clock[0]);
      CooldownExact(history, key, ep.cooldownThreshold, clock[0]);
      ReplayAppend(map[], history, query);
      FilterExact(history + [query], endpoints[1..], groupId, clock[1..]);
    }
  }

  /** The cooldown of one model does not depend on what happens to the others. */
  lemma {:induction false} OtherModelsDoNotMatter(history: seq<Event>, key: Key, s: States, s': States)
    requires (key in s <==> key in s') && (key in s ==> s[key] == s'[key])
    ensures var a, b := Replay(s, history), Replay(s', OnlyOf(history, key));
            (key in a <==> key in b) && (key in a ==> a[key] == b[key])
    decreases |history|
  {
    if history != [] {
      var e := history[0];
      if e.key == key {
        assert OnlyOf(history, key)[1..] == OnlyOf(history[1..], key);
        OtherModelsDoNotMatter(history[1..], key, Apply(s, e), Apply(s', e));
      } else {
        assert OnlyOf(history, key) == OnlyOf(history[1..], key);
        OtherModelsDoNotMatter(history[1..], key, Apply(s, e), s');
      }
    }
  }

  function OnlyOf(history: seq<Event>, key: Key): seq<Event> {
    if history == [] then []
    else (if history[0].key == key then [history[0]] else []) + OnlyOf(history[1..], key)
  }
}
