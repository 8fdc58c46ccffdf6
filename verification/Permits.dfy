/** The provider semaphores under any interleaving of requests. */
module Permits {
  import opened Options
  import opened Routing
  import opened Guards
  import opened Fallback
  import opened ChatDriver
  import opened StreamDriver
  import opened StreamEndings

  /** An entry of _provider_semaphores: None, or a semaphore with its size and free permits. */
  datatype Entry = Unlimited | Limited(size: int, free: int)

  type Table = map<int, Entry>

  predicate LimitedAt(t: Table, p: int) {
    p in t && t[p].Limited?
  }

  /** _ensure_provider_semaphore: an existing semaphore is kept whatever the size is now;
      a remembered "unlimited" may still become a semaphore. */
  function Ensured(t: Table, p: int, size: int): Table {
    if LimitedAt(t, p) then t
    else if size <= 0 then t[p := Unlimited]
    else t[p := Limited(size, size)]
  }

  function Taken(t: Table, p: int): Table
    requires LimitedAt(t, p)
  {
    t[p := t[p].(free := t[p].free - 1)]
  }

  function GivenBack(t: Table, p: int): Table
    requires LimitedAt(t, p)
  {
    t[p := t[p].(free := t[p].free + 1)]
  }

  class SemaphoreTable {
    var entries: Table

    constructor ()
      ensures entries == map[]
    {
      entries := map[];
    }

    /** True when the provider has a semaphore to be acquired. */
    method Ensure(p: int, size: int) returns (limited: bool)
      modifies this
      ensures entries == Ensured(old(entries), p, size) && limited == LimitedAt(entries, p)
    {
      if p in entries && entries[p].Limited? {
        return true;
      }
      if size <= 0 {
        entries := entries[p := Unlimited];
        return false;
      }
      entries := entries[p := Limited(size, size)];
      return true;
    }

    /** The part of Semaphore.acquire() that does not wait. */
    method TryAcquire(p: int) returns (acquired: bool)
      requires LimitedAt(entries, p)
      modifies this
      ensures acquired <==> old(entries)[p].free > 0
      ensures entries == if acquired then Taken(old(entries), p) else old(entries)
    {
      acquired := entries[p].free > 0;
      if acquired {
        entries := entries[p := entries[p].(free := entries[p].free - 1)];
      }
    }

    method Release(p: int)
      requires LimitedAt(entries, p)
      modifies this
      ensures entries == GivenBack(old(entries), p)
    {
      entries := entries[p := entries[p].(free := entries[p].free + 1)];
    }
  }

  // ------------------------------------------------- interleaved requests

  /** The semaphore that a request looked up last; `limited` is whether there was one. */
  datatype Seen = Seen(providerId: int, limited: bool)

  /** Whether a request is inside the guard of the semaphore it looked up. */
  datatype Phase = Idle | Holding

  /** A request: the effects it still has to produce, and its guard. */
  datatype Client = Client(todo: seq<Effect>, seen: Option<Seen>, phase: Phase)

  datatype System = System(table: Table, clients: seq<Client>)

  function Leave(s: System, who: nat, seen: Option<Seen>, phase: Phase): System
    requires who < |s.clients| && s.clients[who].todo != []
  {
    s.(clients := s.clients[who := Client(s.clients[who].todo[1..], seen, phase)])
  }

  /** One atomic step of request `who`; `size` is the configured size at that moment. The
      semaphore is looked up once and then captured, however often it is acquired. */
  predicate Step(s: System, who: nat, size: int, s': System) {
    who < |s.clients| && s.clients[who].todo != []
    && var c := s.clients[who];
       match c.todo[0]
       case Look(p) =>
         var t := Ensured(s.table, p, size);
         c.phase.Idle? && s' == Leave(s, who, Some(Seen(p, LimitedAt(t, p))), Idle).(table := t)
       case Acquire(p) =>
         && c.phase.Idle? && c.seen.Some? && c.seen.value.providerId == p
         && if c.seen.value.limited then
              LimitedAt(s.table, p) && s.table[p].free > 0
              && s' == Leave(s, who, c.seen, Holding).(table := Taken(s.table, p))
            else
              s' == Leave(s, who, c.seen, Holding)
       case Release(p) =>
         && c.phase.Holding? && c.seen.Some? && c.seen.value.providerId == p
         && if c.seen.value.limited then
              LimitedAt(s.table, p) && s' == Leave(s, who, c.seen, Idle).(table := GivenBack(s.table, p))
            else
              s' == Leave(s, who, c.seen, Idle)
       case _ => s' == Leave(s, who, c.seen, c.phase)
  }

  function GuardOf(c: Client): Guard {
    match c.phase
    case Idle => Free(if c.seen.Some? then Some(c.seen.value.providerId) else None)
    case Holding => if c.seen.Some? then Inside(c.seen.value.providerId) else Misused
  }

  predicate HoldsPermit(c: Client, p: int) {
    c.phase.Holding? && c.seen == Some(Seen(p, true))
  }

  function Holders(clients: seq<Client>, p: int): nat {
    if clients == [] then 0
    else (if HoldsPermit(clients[0], p) then 1 else 0) + Holders(clients[1..], p)
  }

  lemma {:induction false} HoldersUpdate(clients: seq<Client>, who: nat, c: Client, p: int)
    requires who < |clients|
    ensures Holders(clients[who := c], p)
            == Holders(clients, p) + (if HoldsPermit(c, p) then 1 else 0)
               - (if HoldsPermit(clients[who], p) then 1 else 0)
  {
    if who == 0 {
      assert clients[0 := c][1..] == clients[1..];
    } else {
      HoldersUpdate(clients[1..], who - 1, c, p);
      assert clients[who := c][1..] == clients[1..][who - 1 := c];
    }
  }

  /** A request may still run well: what it has left never nests or misses a guard, and a
      captured semaphore exists. */
  predicate Sound(t: Table, c: Client) {
    && !After(GuardOf(c), c.todo).Misused?
    && (c.seen.Some? && c.seen.value.limited ==> LimitedAt(t, c.seen.value.providerId))
  }

  /** Permits are conserved: free ones and holders add up to the size, and none is overdrawn. */
  ghost predicate Inv(s: System) {
    && (forall i :: 0 <= i < |s.clients| ==> Sound(s.table, s.clients[i]))
    && (forall p :: LimitedAt(s.table, p) ==>
          s.table[p].size > 0 && s.table[p].free >= 0 && s.table[p].free + Holders(s.clients, p) == s.table[p].size)
    && (forall p :: !LimitedAt(s.table, p) ==> Holders(s.clients, p) == 0)
  }

  lemma {:induction false} MisusedStays(effects: seq<Effect>)
    ensures After(Misused, effects) == Misused
  {
    if effects != [] {
      MisusedStays(effects[1..]);
    }
  }

  lemma StepKeepsSound(s: System, who: nat, size: int, s': System, i: nat)
    requires Inv(s) && Step(s, who, size, s') && i < |s'.clients|
    ensures Sound(s'.table, s'.clients[i])
  {
    assert Sound(s.table, s.clients[i]);
    if i == who {
      MisusedStays(s.clients[who].todo[1..]);
    } else {
      assert s'.clients[i] == s.clients[i];
    }
  }

  lemma StepMovesPermits(s: System, who: nat, size: int, s': System, p: int)
    requires Inv(s) && Step(s, who, size, s')
    ensures LimitedAt(s'.table, p) ==>
              && s'.table[p].size > 0 && s'.table[p].free >= 0
              && s'.table[p].free + Holders(s'.clients, p) == s'.table[p].size
    ensures !LimitedAt(s'.table, p) ==> Holders(s'.clients, p) == 0
  {
    assert Sound(s.table, s.clients[who]);
    assert s'.clients == s.clients[who := s'.clients[who]];
    HoldersUpdate(s.clients, who, s'.clients[who], p);
  }

  lemma StepKeepsInv(s: System, who: nat, size: int, s': System)
    requires Inv(s) && Step(s, who, size, s')
    ensures Inv(s')
  {
    forall i | 0 <= i < |s'.clients|
      ensures Sound(s'.table, s'.clients[i])
    {
      StepKeepsSound(s, who, size, s', i);
    }
    forall p
      ensures LimitedAt(s'.table, p) ==>
                && s'.table[p].size > 0 && s'.table[p].free >= 0
                && s'.table[p].free + Holders(s'.clients, p) == s'.table[p].size
      ensures !LimitedAt(s'.table, p) ==> Holders(s'.clients, p) == 0
    {
      StepMovesPermits(s, who, size, s', p);
    }
  }

  /** A semaphore, once it exists, keeps its size in every further step. */
  lemma StepKeepsSemaphores(s: System, who: nat, size: int, s': System, p: int)
    requires Step(s, who, size, s') && LimitedAt(s.table, p)
    ensures LimitedAt(s'.table, p) && s'.table[p].size == s.table[p].size
  {
  }

  ghost predicate Next(s: System, s': System) {
    exists who: nat, size: int :: Step(s, who, size, s')
  }

  /** A run of the system: at each moment some request does a step. */
  ghost predicate Run(states: seq<System>) {
    && states != []
    && forall i :: 0 < i < |states| ==> Next(states[i - 1], states[i])
  }

  ghost predicate Initial(s: System, programs: seq<seq<Effect>>) {
    && s.table == map[]
    && |s.clients| == |programs|
    && forall i :: 0 <= i < |programs| ==> s.clients[i] == Client(programs[i], None, Idle)
  }

  lemma {:induction false} NoHolders(clients: seq<Client>, p: int)
    requires forall i :: 0 <= i < |clients| ==> clients[i].phase.Idle?
    ensures Holders(clients, p) == 0
  {
    if clients != [] {
      NoHolders(clients[1..], p);
    }
  }

  /** In every run of requests that use their guards properly, at every moment: holders of a
      provider's permits never exceed its semaphore's size, and free permits make up the
      difference. */
  lemma {:induction false} PermitsConserved(states: seq<System>, programs: seq<seq<Effect>>, k: nat)
    requires Run(states) && Initial(states[0], programs) && k < |states|
    requires forall i :: 0 <= i < |programs| ==> !After(OUTSIDE, programs[i]).Misused?
    ensures Inv(states[k])
    ensures forall p :: LimitedAt(states[k].table, p) ==> Holders(states[k].clients, p) <= states[k].table[p].size
  {
    if k == 0 {
      forall p
        ensures Holders(states[0].clients, p) == 0
      {
        NoHolders(states[0].clients, p);
      }
    } else {
      PermitsConserved(states, programs, k - 1);
      var who: nat, size: int :| Step(states[k - 1], who, size, states[k]);
      StepKeepsInv(states[k - 1], who, size, states[k]);
    }
  }

  /** The effects of a whole chat or streaming request, in any world. */
  ghost predicate IsRequest(program: seq<Effect>) {
    || (exists env: Env, req: ChatRequest ::
          program == Gather(DirectEffects(env, req.params), ChatTour(env, req).tried))
    || (exists env: Env, req: StreamRequest ::
          program == Gather(StepEffects(env, req), StreamTour(env, req).tried))
  }

  lemma RequestsAreGuarded(program: seq<Effect>)
    requires IsRequest(program)
    ensures !After(OUTSIDE, program).Misused?
  {
    if env: Env, req: ChatRequest :| program == Gather(DirectEffects(env, req.params), ChatTour(env, req).tried) {
      ChatReturnsPermits(env, req);
    } else {
      var env: Env, req: StreamRequest :| program == Gather(StepEffects(env, req), StreamTour(env, req).tried);
      StreamReturnsPermits(env, req);
    }
  }

  /** Any number of chat and streaming requests, interleaved in any way. */
  lemma GatewayConservesPermits(states: seq<System>, programs: seq<seq<Effect>>, k: nat)
    requires Run(states) && Initial(states[0], programs) && k < |states|
    requires forall i :: 0 <= i < |programs| ==> IsRequest(programs[i])
    ensures Inv(states[k])
    ensures forall p :: LimitedAt(states[k].table, p) ==> Holders(states[k].clients, p) <= states[k].table[p].size
  {
    forall i | 0 <= i < |programs|
      ensures !After(OUTSIDE, programs[i]).Misused?
    {
      RequestsAreGuarded(programs[i]);
    }
    PermitsConserved(states, programs, k);
  }

  /** A semaphore is never replaced by one of another size, or dropped, during a run. */
  lemma {:induction false} SemaphoresKept(states: seq<System>, early: nat, late: nat, p: int)
    requires Run(states) && early <= late < |states| && LimitedAt(states[early].table, p)
    ensures LimitedAt(states[late].table, p) && states[late].table[p].size == states[early].table[p].size
    decreases late
  {
    if early < late {
      SemaphoresKept(states, early, late - 1, p);
      var who: nat, size: int :| Step(states[late - 1], who, size, states[late]);
      StepKeepsSemaphores(states[late - 1], who, size, states[late], p);
    }
  }

  // ------------------------------------------------- the configured size

  /** Which request does a step, and the configured size of the provider that it looks up. */
  datatype Move = Move(who: nat, size: int)

  /** A run together with its moves. */
  ghost predicate RunBy(states: seq<System>, moves: seq<Move>) {
    && |states| == |moves| + 1
    && forall i :: 0 <= i < |moves| ==> Step(states[i], moves[i].who, moves[i].size, states[i + 1])
  }

  lemma RunByIsRun(states: seq<System>, moves: seq<Move>)
    requires RunBy(states, moves)
    ensures Run(states)
  {
    forall i | 0 < i < |states|
      ensures Next(states[i - 1], states[i])
    {
      assert Step(states[i - 1], moves[i - 1].who, moves[i - 1].size, states[i - 1 + 1]);
    }
  }

  /** Move number `i` looks up a provider that is configured with a positive size then. */
  predicate Configures(states: seq<System>, moves: seq<Move>, i: nat, p: int) {
    && i < |moves| && i < |states| && moves[i].who < |states[i].clients|
    && var todo := states[i].clients[moves[i].who].todo;
       todo != [] && todo[0] == Look(p) && moves[i].size > 0
  }

  lemma StepConfigures(s: System, who: nat, size: int, s': System, p: int)
    requires Step(s, who, size, s')
    ensures var looks := s.clients[who].todo[0] == Look(p);
            && (LimitedAt(s'.table, p) <==> LimitedAt(s.table, p) || (looks && size > 0))
            && (LimitedAt(s'.table, p) ==>
                  s'.table[p].size == if LimitedAt(s.table, p) then s.table[p].size else size)
  {
  }

  lemma MoveConfigures(states: seq<System>, moves: seq<Move>, i: nat, p: int)
    requires RunBy(states, moves) && i < |moves|
    ensures var t, t' := states[i].table, states[i + 1].table;
            && (LimitedAt(t', p) <==> LimitedAt(t, p) || Configures(states, moves, i, p))
            && (LimitedAt(t', p) ==> t'[p].size == if LimitedAt(t, p) then t[p].size else moves[i].size)
  {
    assert Step(states[i], moves[i].who, moves[i].size, states[i + 1]);
    StepConfigures(states[i], moves[i].who, moves[i].size, states[i + 1], p);
  }

  lemma {:induction false} LimitedExactly(states: seq<System>, moves: seq<Move>, programs: seq<seq<Effect>>,
                                          k: nat, p: int)
    requires RunBy(states, moves) && Initial(states[0], programs) && k < |states|
    ensures LimitedAt(states[k].table, p) <==> exists i: nat :: i < k && Configures(states, moves, i, p)
  {
    if k > 0 {
      LimitedExactly(states, moves, programs, k - 1, p);
      MoveConfigures(states, moves, k - 1, p);
    }
  }

  lemma {:induction false} SizeOfFirst(states: seq<System>, moves: seq<Move>, k: nat, p: int, i: nat)
    requires RunBy(states, moves) && i < k < |states| && Configures(states, moves, i, p)
    requires !LimitedAt(states[i].table, p)
    ensures LimitedAt(states[k].table, p) && states[k].table[p].size == moves[i].size
  {
    MoveConfigures(states, moves, k - 1, p);
    if i < k - 1 {
      SizeOfFirst(states, moves, k - 1, p, i);
    }
  }

  /** A provider has a semaphore if and only if some move so far looked it up with a positive
      configured size, and its size is the one that the first such move found. */
  lemma SizeIsConfigured(states: seq<System>, moves: seq<Move>, programs: seq<seq<Effect>>, k: nat, p: int)
    requires RunBy(states, moves) && Initial(states[0], programs) && k < |states|
    ensures LimitedAt(states[k].table, p) <==> exists i: nat :: i < k && Configures(states, moves, i, p)
    ensures forall i: nat :: i < k && Configures(states, moves, i, p)
                             && (forall j: nat :: j < i ==> !Configures(states, moves, j, p)) ==>
              LimitedAt(states[k].table, p) && states[k].table[p].size == moves[i].size
  {
    LimitedExactly(states, moves, programs, k, p);
    forall i: nat | i < k && Configures(states, moves, i, p)
                    && forall j: nat :: j < i ==> !Configures(states, moves, j, p)
      ensures LimitedAt(states[k].table, p) && states[k].table[p].size == moves[i].size
    {
      LimitedExactly(states, moves, programs, i, p);
      SizeOfFirst(states, moves, k, p, i);
    }
  }

  lemma {:induction false} FirstConfigures(states: seq<System>, moves: seq<Move>, k: nat, p: int) returns (i: nat)
    requires exists i: nat :: i < k && Configures(states, moves, i, p)
    ensures i < k && Configures(states, moves, i, p) && forall j: nat :: j < i ==> !Configures(states, moves, j, p)
  {
    i := k - 1;
    if exists j: nat :: j < k - 1 && Configures(states, moves, j, p) {
      i := FirstConfigures(states, moves, k - 1, p);
    }
  }

  /** The requests that are inside the guard of a provider's semaphore. */
  function AtWork(clients: seq<Client>, p: int): nat {
    if clients == [] then 0
    else
      var c := clients[0];
      (if c.phase.Holding? && c.seen.Some? && c.seen.value.providerId == p then 1 else 0) + AtWork(clients[1..], p)
  }

  lemma {:induction false} AllHoldPermits(clients: seq<Client>, p: int)
    requires forall i :: 0 <= i < |clients| && clients[i].seen.Some? ==> clients[i].seen.value.limited
    ensures AtWork(clients, p) == Holders(clients, p)
  {
    if clients != [] {
      AllHoldPermits(clients[1..], p);
    }
  }

  lemma {:induction false} AllSeeSemaphores(states: seq<System>, moves: seq<Move>, programs: seq<seq<Effect>>, k: nat)
    requires RunBy(states, moves) && Initial(states[0], programs) && k < |states|
    requires forall i :: 0 <= i < |moves| ==> moves[i].size > 0
    ensures var clients := states[k].clients;
            forall i :: 0 <= i < |clients| && clients[i].seen.Some? ==> clients[i].seen.value.limited
  {
    if k > 0 {
      AllSeeSemaphores(states, moves, programs, k - 1);
      var Move(who, size) := moves[k - 1];
      assert Step(states[k - 1], who, size, states[k - 1 + 1]);
    }
  }

  /** While each provider is configured with at most `n` permits, and with one at least, never
      more than `n` requests are inside the guard of one provider, in any run of requests that
      use their guards properly. */
  lemma AtMostConfigured(states: seq<System>, moves: seq<Move>, programs: seq<seq<Effect>>, k: nat, p: int, n: nat)
    requires RunBy(states, moves) && Initial(states[0], programs) && k < |states|
    requires forall i :: 0 <= i < |programs| ==> !After(OUTSIDE, programs[i]).Misused?
    requires forall i :: 0 <= i < |moves| ==> 0 < moves[i].size <= n
    ensures AtWork(states[k].clients, p) <= n
  {
    RunByIsRun(states, moves);
    PermitsConserved(states, programs, k);
    SizeIsConfigured(states, moves, programs, k, p);
    AllSeeSemaphores(states, moves, programs, k);
    AllHoldPermits(states[k].clients, p);
    if LimitedAt(states[k].table, p) {
      var i := FirstConfigures(states, moves, k, p);
    }
  }

  /** So for any number of whole requests: never more than the configured number of calls to
      one provider at a time. */
  lemma GatewayWithinConfigured(states: seq<System>, moves: seq<Move>, programs: seq<seq<Effect>>, k: nat, p: int,
                                n: nat)
    requires RunBy(states, moves) && Initial(states[0], programs) && k < |states|
    requires forall i :: 0 <= i < |programs| ==> IsRequest(programs[i])
    requires forall i :: 0 <= i < |moves| ==> 0 < moves[i].size <= n
    ensures AtWork(states[k].clients, p) <= n
  {
    forall i | 0 <= i < |programs|
      ensures !After(OUTSIDE, programs[i]).Misused?
    {
      RequestsAreGuarded(programs[i]);
    }
    AtMostConfigured(states, moves, programs, k, p, n);
  }

  // ------------------------------------------------- requests that leave their guards

  /** Where a request's guards will stand at its end: no step changes it. */
  function Outlook(c: Client): Guard {
    After(GuardOf(c), c.todo)
  }

  lemma StepKeepsOutlook(s: System, who: nat, size: int, s': System, i: nat)
    requires Step(s, who, size, s') && i < |s.clients|
    ensures i < |s'.clients| && Outlook(s'.clients[i]) == Outlook(s.clients[i])
  {
    if i != who {
      assert s'.clients[i] == s.clients[i];
    }
  }

  lemma {:induction false} RunKeepsOutlook(states: seq<System>, programs: seq<seq<Effect>>, k: nat, i: nat)
    requires Run(states) && Initial(states[0], programs) && k < |states| && i < |programs|
    ensures |states[k].clients| == |programs| && Outlook(states[k].clients[i]) == After(OUTSIDE, programs[i])
  {
    if k > 0 {
      RunKeepsOutlook(states, programs, k - 1, i);
      var who: nat, size: int :| Step(states[k - 1], who, size, states[k]);
      StepKeepsOutlook(states[k - 1], who, size, states[k], i);
    }
  }

  /** Every request leaves all its guards by its end. */
  ghost predicate AllLeave(programs: seq<seq<Effect>>) {
    forall i :: 0 <= i < |programs| ==> After(OUTSIDE, programs[i]).Free?
  }

  lemma LeavingRun(states: seq<System>, programs: seq<seq<Effect>>, k: nat)
    requires Run(states) && Initial(states[0], programs) && k < |states| && AllLeave(programs)
    ensures Inv(states[k]) && |states[k].clients| == |programs|
    ensures forall i :: 0 <= i < |programs| ==> Outlook(states[k].clients[i]).Free?
  {
    PermitsConserved(states, programs, k);
    InitialSize(states, programs, k);
    forall i | 0 <= i < |programs|
      ensures Outlook(states[k].clients[i]).Free?
    {
      RunKeepsOutlook(states, programs, k, i);
    }
  }

  lemma {:induction false} InitialSize(states: seq<System>, programs: seq<seq<Effect>>, k: nat)
    requires Run(states) && Initial(states[0], programs) && k < |states|
    ensures |states[k].clients| == |programs|
  {
    if k > 0 {
      InitialSize(states, programs, k - 1);
      var who: nat, size: int :| Step(states[k - 1], who, size, states[k]);
    }
  }

  /** In every run of requests that leave their guards, once all are over, every permit is free
      again. */
  lemma AllReturned(states: seq<System>, programs: seq<seq<Effect>>, k: nat, p: int)
    requires Run(states) && Initial(states[0], programs) && k < |states| && AllLeave(programs)
    requires forall i :: 0 <= i < |states[k].clients| ==> states[k].clients[i].todo == []
    requires LimitedAt(states[k].table, p)
    ensures states[k].table[p].free == states[k].table[p].size
  {
    LeavingRun(states, programs, k);
    var clients := states[k].clients;
    forall i | 0 <= i < |clients|
      ensures clients[i].phase.Idle?
    {
      assert Outlook(clients[i]) == GuardOf(clients[i]);
    }
    NoHolders(clients, p);
  }

  lemma {:induction false} SomeHolder(clients: seq<Client>, p: int) returns (i: nat)
    requires Holders(clients, p) > 0
    ensures i < |clients| && HoldsPermit(clients[i], p)
  {
    if HoldsPermit(clients[0], p) {
      i := 0;
    } else {
      i := SomeHolder(clients[1..], p);
      i := i + 1;
    }
  }

  /** A request that waits for a permit. */
  predicate Blocked(s: System, c: Client) {
    && c.todo != [] && c.todo[0].Acquire? && c.seen.Some? && c.seen.value.limited
    && LimitedAt(s.table, c.seen.value.providerId) && s.table[c.seen.value.providerId].free == 0
  }

  /** A request that does not wait for a permit can do its next step. */
  lemma Enabled(s: System, who: nat, size: int) returns (s': System)
    requires Inv(s) && who < |s.clients| && !Blocked(s, s.clients[who])
    requires var c := s.clients[who];
             After(GuardOf(c), c.todo).Free? && (c.todo != [] || c.phase.Holding?)
    ensures Step(s, who, size, s')
  {
    var c := s.clients[who];
    MisusedStays(c.todo[1..]);
    match c.todo[0] {
      case Look(p) =>
        var t := Ensured(s.table, p, size);
        s' := Leave(s, who, Some(Seen(p, LimitedAt(t, p))), Idle).(table := t);
      case Acquire(p) =>
        s' := Leave(s, who, c.seen, Holding);
        if c.seen.value.limited {
          s' := s'.(table := Taken(s.table, p));
        }
      case Release(p) =>
        s' := Leave(s, who, c.seen, Idle);
        if c.seen.value.limited {
          s' := s'.(table := GivenBack(s.table, p));
        }
      case _ =>
        s' := Leave(s, who, c.seen, c.phase);
    }
  }

  /** In every run of requests that leave their guards there is no deadlock: while one has
      something left to do, some request can do a step. */
  lemma NoDeadlock(states: seq<System>, programs: seq<seq<Effect>>, k: nat, who: nat, size: int)
    returns (other: nat, s': System)
    requires Run(states) && Initial(states[0], programs) && k < |states| && AllLeave(programs)
    requires who < |states[k].clients| && states[k].clients[who].todo != []
    ensures Step(states[k], other, size, s')
  {
    LeavingRun(states, programs, k);
    var s := states[k];
    assert Outlook(s.clients[who]).Free?;
    other := who;
    if Blocked(s, s.clients[who]) {
      other := SomeHolder(s.clients, s.clients[who].seen.value.providerId);
      var holder := s.clients[other];
      assert Outlook(holder).Free?;
      if holder.todo != [] {
        MisusedStays(holder.todo[1..]);
      }
    }
    s' := Enabled(s, other, size);
  }

  /** A whole request whose hooks let it reach a last effect outside all guards. */
  ghost predicate IsLeavingRequest(program: seq<Effect>) {
    || (exists env: Env, req: ChatRequest ::
          program == Gather(DirectEffects(env, req.params), ChatTour(env, req).tried))
    || (exists env: Env, req: StreamRequest ::
          && !HookRaisesAtChunk(env, req, StreamTour(env, req).Last().id)
          && program == Gather(StepEffects(env, req), StreamTour(env, req).tried))
  }

  lemma RequestLeaves(program: seq<Effect>)
    requires IsLeavingRequest(program)
    ensures After(OUTSIDE, program).Free?
  {
    if env: Env, req: ChatRequest :| program == Gather(DirectEffects(env, req.params), ChatTour(env, req).tried) {
      ChatReturnsPermits(env, req);
    } else {
      var env: Env, req: StreamRequest :|
        && !HookRaisesAtChunk(env, req, StreamTour(env, req).Last().id)
        && program == Gather(StepEffects(env, req), StreamTour(env, req).tried);
      StreamReturnsPermits(env, req);
    }
  }

  /** Chat requests, and stream requests without a hook that raises at a chunk, interleaved in
      any way: at no moment are they all stuck, and when all are over every permit is free. */
  lemma GatewayReturnsAll(states: seq<System>, programs: seq<seq<Effect>>, k: nat, size: int)
    requires Run(states) && Initial(states[0], programs) && k < |states|
    requires forall i :: 0 <= i < |programs| ==> IsLeavingRequest(programs[i])
    ensures (forall i :: 0 <= i < |states[k].clients| ==> states[k].clients[i].todo == []) ==>
              forall p :: LimitedAt(states[k].table, p) ==> states[k].table[p].free == states[k].table[p].size
    ensures (exists i :: 0 <= i < |states[k].clients| && states[k].clients[i].todo != []) ==>
              exists who: nat, s': System :: Step(states[k], who, size, s')
  {
    forall i | 0 <= i < |programs|
      ensures After(OUTSIDE, programs[i]).Free?
    {
      RequestLeaves(programs[i]);
    }
    if i :| 0 <= i < |states[k].clients| && states[k].clients[i].todo != [] {
      var who, s' := NoDeadlock(states, programs, k, i, size);
    } else {
      forall p | LimitedAt(states[k].table, p)
        ensures states[k].table[p].free == states[k].table[p].size
      {
        AllReturned(states, programs, k, p);
      }
    }
  }
}
