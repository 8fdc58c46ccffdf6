/** The per-key rate limiter: a bounded deque of timestamps and eviction of stale keys. */
module RateLimiter {

  datatype Key = Key(text: string)

  datatype Limits = Limits(maxRequests: int, window: real, maxKeys: int)

  /** Five minutes, whatever the window is. */
  const EVICTION_HORIZON := 300.0

  datatype State = State(deques: map<Key, seq<real>>, lastAccess: map<Key, real>, count: nat)

  const EMPTY := State(map[], map[], 0)

  datatype Answer = Admitted | TooMany(retryAfter: int)

  /** Keys that have not been accessed for five minutes. */
  function Stale(lastAccess: map<Key, real>, now: real): set<Key> {
    set k | k in lastAccess && lastAccess[k] < now - EVICTION_HORIZON
  }

  /** Whether a request, the next after `count`, sweeps stale keys out of `size` ones. */
  predicate Sweeps(l: Limits, count: nat, size: nat) {
    (count + 1) % 1000 == 0 && size > l.maxKeys
  }

  function Without<T>(m: map<Key, T>, keys: set<Key>): map<Key, T> {
    map k | k in m && k !in keys :: m[k]
  }

  /** The state after counting a request, and after the sweep if one is due. */
  function Counted(l: Limits, s: State, now: real): State {
    if Sweeps(l, s.count, |s.deques|) then
      var stale := Stale(s.lastAccess, now);
      State(Without(s.deques, stale), Without(s.lastAccess, stale), s.count + 1)
    else
      s.(count := s.count + 1)
  }

  /** deque(maxlen=n).append(x). */
  function Append(dq: seq<real>, x: real, maxlen: int): seq<real>
    requires 1 <= maxlen
  {
    if |dq| >= maxlen then dq[|dq| - maxlen + 1..] + [x] else dq + [x]
  }

  /** The deque of a key: its own, or a new one with a sentinel one second old. */
  function DequeOf(s: State, key: Key, now: real): seq<real> {
    if key in s.deques then s.deques[key] else [now - 1.0]
  }

  function Decide(l: Limits, dq: seq<real>, now: real): Answer
    requires dq != []
  {
    if now - l.window <= dq[0] && |dq| == l.maxRequests then
      TooMany((dq[0] + l.window - now).Floor + 1)
    else
      Admitted
  }

  /** Every deque has its sentinel or a timestamp, and at most maxRequests entries. */
  ghost predicate Filled(l: Limits, s: State) {
    l.maxRequests >= 1 && forall k :: k in s.deques ==> 1 <= |s.deques[k]| <= l.maxRequests
  }

  function Arrive(l: Limits, s: State, key: Key, now: real): (State, Answer)
    requires Filled(l, s)
  {
    var c := Counted(l, s, now);
    var dq := DequeOf(c, key, now);
    var answer := Decide(l, dq, now);
    var dq' := if answer.Admitted? then Append(dq, now, l.maxRequests) else dq;
    (State(c.deques[key := dq'], c.lastAccess[key := now], c.count), answer)
  }

  class Middleware {
    const limits: Limits
    var requests: map<Key, seq<real>>
    var lastAccess: map<Key, real>
    var requestCount: nat

    ghost function Contents(): State
      reads this
    {
      State(requests, lastAccess, requestCount)
    }

    constructor (limits: Limits)
      ensures this.limits == limits && Contents() == EMPTY
    {
      this.limits := limits;
      requests, lastAccess, requestCount := map[], map[], 0;
    }

    method CleanupOldKeys(now: real)
      modifies this
      ensures var stale := Stale(old(lastAccess), now);
              Contents() == State(Without(old(requests), stale), Without(old(lastAccess), stale), old(requestCount))
    {
      var stale := Stale(lastAccess, now);
      var left := stale;
      while left != {}
        invariant left <= stale && stale == Stale(old(lastAccess), now)
        invariant requests == Without(old(requests), stale - left)
        invariant lastAccess == Without(old(lastAccess), stale - left)
        invariant requestCount == old(requestCount)
        decreases left
      {
        var k :| k in left;
        assert stale - (left - {k}) == stale - left + {k};
        requests, lastAccess, left := requests - {k}, lastAccess - {k}, left - {k};
      }
      assert stale - {} == stale;
    }

    /** The periodic cleanup: every 1000 requests, when there are too many keys. */
    method CountRequest(now: real)
      requires Filled(limits, Contents())
      modifies this
      ensures Filled(limits, Contents())
      ensures Contents() == Counted(limits, old(Contents()), now)
    {
      requestCount := requestCount + 1;
      if requestCount % 1000 == 0 && |requests| > limits.maxKeys {
        CleanupOldKeys(now);
      }
    }

    /** setdefault of the key's deque, and its last access. */
    method Touch(key: Key, now: real) returns (dq: seq<real>)
      modifies this
      ensures dq == DequeOf(old(Contents()), key, now)
      ensures Contents() == State(old(requests)[key := dq], old(lastAccess)[key := now], old(requestCount))
    {
      if key !in requests {
        requests := requests[key := [now - 1.0]];
      }
      lastAccess := lastAccess[key := now];
      dq := requests[key];
    }

    /** `__call__` on an http scope other than /health. */
    method Call(key: Key, now: real) returns (answer: Answer)
      requires Filled(limits, Contents())
      modifies this
      ensures Filled(limits, Contents())
      ensures Contents() == Arrive(limits, old(Contents()), key, now).0
      ensures answer == Arrive(limits, old(Contents()), key, now).1
    {
      CountRequest(now);
      ghost var counted := Contents();
      var dq := Touch(key, now);
      if now - limits.window <= dq[0] && |dq| == limits.maxRequests {
        answer := TooMany((dq[0] + limits.window - now).Floor + 1);
      } else {
        UpdateTwice(counted.deques, key, dq, Append(dq, now, limits.maxRequests));
        requests := requests[key := Append(dq, now, limits.maxRequests)];
        answer := Admitted;
      }
    }
  }

  lemma UpdateTwice<T>(m: map<Key, T>, key: Key, a: T, b: T)
    ensures m[key := a][key := b] == m[key := b]
  {
  }

  // ------------------------------------------------- the simple specification

  /** The same limiter with nothing bounded: per key, every recorded timestamp since the key
      was created (the sentinel first), and every admission ever. */
  datatype Book = Book(
    histories: map<Key, seq<real>>,
    lastAccess: map<Key, real>,
    count: nat,
    admitted: map<Key, seq<real>>)

  const BLANK := Book(map[], map[], 0, map[])

  function CountSince(h: seq<real>, from: real): nat {
    if h == [] then 0 else CountSince(h[..|h| - 1], from) + if h[|h| - 1] >= from then 1 else 0
  }

  function BookCounted(l: Limits, b: Book, now: real): Book {
    var c := Counted(l, State(b.histories, b.lastAccess, b.count), now);
    Book(c.deques, c.lastAccess, c.count, b.admitted)
  }

  function HistoryOf(b: Book, key: Key, now: real): seq<real> {
    if key in b.histories then b.histories[key] else [now - 1.0]
  }

  function AdmittedOf(b: Book, key: Key): seq<real> {
    if key in b.admitted then b.admitted[key] else []
  }

  /** A request is rejected exactly when at least maxRequests recorded timestamps lie in the
      window that ends now. */
  predicate Rejects(l: Limits, h: seq<real>, now: real) {
    CountSince(h, now - l.window) >= l.maxRequests
  }

  function Enter(l: Limits, b: Book, key: Key, now: real): Book {
    var c := BookCounted(l, b, now);
    var h := HistoryOf(c, key, now);
    if Rejects(l, h, now) then
      c.(histories := c.histories[key := h], lastAccess := c.lastAccess[key := now])
    else
      Book(c.histories[key := h + [now]], c.lastAccess[key := now], c.count,
           c.admitted[key := AdmittedOf(c, key) + [now]])
  }

  datatype Request = Request(key: Key, now: real)

  function Play(l: Limits, run: seq<Request>): Book {
    if run == [] then BLANK
    else Enter(l, Play(l, run[..|run| - 1]), run[|run| - 1].key, run[|run| - 1].now)
  }

  predicate Sorted(h: seq<real>) {
    forall i, j :: 0 <= i < j < |h| ==> h[i] <= h[j]
  }

  predicate Timed(run: seq<Request>) {
    forall i, j :: 0 <= i < j < |run| ==> run[i].now <= run[j].now
  }

  // ------------------------------------------------- the deque refines the history

  /** The deque holds the last maxRequests entries of the history. */
  predicate Tail(dq: seq<real>, h: seq<real>, n: int) {
    h != [] && n >= 1 && dq == if |h| <= n then h else h[|h| - n..]
  }

  ghost predicate Refines(l: Limits, s: State, b: Book) {
    && s.deques.Keys == b.histories.Keys && s.lastAccess == b.lastAccess && s.count == b.count
    && forall k :: k in s.deques ==> Tail(s.deques[k], b.histories[k], l.maxRequests)
  }

  lemma {:induction false} CountSorted(h: seq<real>, from: real, n: nat)
    requires Sorted(h) && n >= 1
    ensures CountSince(h, from) <= |h|
    ensures CountSince(h, from) >= n <==> |h| >= n && h[|h| - n] >= from
  {
    if h != [] {
      var rest := h[..|h| - 1];
      if h[|h| - 1] >= from {
        if n > 1 {
          CountSorted(rest, from, n - 1);
        } else {
          CountSorted(rest, from, 1);
        }
      } else {
        CountSorted(rest, from, 1);
      }
    }
  }

  predicate Evicts(l: Limits, b: Book, k: Key, now: real) {
    Sweeps(l, b.count, |b.histories|) && k in b.lastAccess && b.lastAccess[k] < now - EVICTION_HORIZON
  }

  /** What counting a request does to one key. */
  lemma CountedAt(l: Limits, b: Book, now: real, k: Key)
    ensures var c := BookCounted(l, b, now);
            && (k in c.histories <==> k in b.histories && !Evicts(l, b, k, now))
            && (k in c.histories ==> c.histories[k] == b.histories[k])
            && (k in c.lastAccess <==> k in b.lastAccess && !Evicts(l, b, k, now))
            && (k in c.lastAccess ==> c.lastAccess[k] == b.lastAccess[k])
            && c.admitted == b.admitted
  {
  }

  /** What entering a request does to the history and the admissions of one key. */
  lemma EnteredAt(l: Limits, b: Book, key: Key, now: real, k: Key)
    ensures var c, b' := BookCounted(l, b, now), Enter(l, b, key, now);
            var h := HistoryOf(c, key, now);
            && (k in b'.histories <==> k in c.histories || k == key)
            && (k != key && k in c.histories ==> b'.histories[k] == c.histories[k])
            && (k == key ==> b'.histories[k] == if Rejects(l, h, now) then h else h + [now])
            && (k in b'.lastAccess <==> k in c.lastAccess || k == key)
            && (k != key && k in c.lastAccess ==> b'.lastAccess[k] == c.lastAccess[k])
            && (k == key ==> b'.lastAccess[k] == now)
            && AdmittedOf(b', k) == if k == key && !Rejects(l, h, now) then AdmittedOf(c, k) + [now]
               else AdmittedOf(c, k)
  {
  }

  lemma CountedRefines(l: Limits, s: State, b: Book, now: real)
    requires Filled(l, s) && Refines(l, s, b)
    ensures Filled(l, Counted(l, s, now)) && Refines(l, Counted(l, s, now), BookCounted(l, b, now))
  {
    assert |s.deques| == |s.deques.Keys| && |b.histories| == |b.histories.Keys|;
  }

  lemma AppendKeepsTail(dq: seq<real>, h: seq<real>, now: real, n: int)
    requires Tail(dq, h, n)
    ensures Tail(Append(dq, now, n), h + [now], n)
  {
  }

  lemma DecideExact(l: Limits, dq: seq<real>, h: seq<real>, now: real)
    requires Tail(dq, h, l.maxRequests) && Sorted(h)
    ensures Decide(l, dq, now).TooMany? <==> Rejects(l, h, now)
  {
    var n, from := l.maxRequests, now - l.window;
    CountSorted(h, from, n);
    assert |dq| == n <==> |h| >= n;
    assert |h| >= n ==> dq[0] == h[|h| - n];
  }

  lemma RecordRefines(l: Limits, c: State, d: Book, key: Key, dq: seq<real>, h: seq<real>, now: real,
                      admitted: map<Key, seq<real>>)
    requires Filled(l, c) && Refines(l, c, d) && Tail(dq, h, l.maxRequests)
    ensures var s, b := State(c.deques[key := dq], c.lastAccess[key := now], c.count),
                        Book(d.histories[key := h], d.lastAccess[key := now], d.count, admitted);
            Filled(l, s) && Refines(l, s, b)
  {
  }

  /** A step of the bounded limiter and of the simple one give the same answer and stay
      related. */
  lemma ArriveRefines(l: Limits, s: State, b: Book, key: Key, now: real)
    requires Filled(l, s) && Refines(l, s, b)
    requires Sorted(HistoryOf(BookCounted(l, b, now), key, now))
    ensures var r := Arrive(l, s, key, now);
            && Filled(l, r.0) && Refines(l, r.0, Enter(l, b, key, now))
            && (r.1.Admitted? <==> !Rejects(l, HistoryOf(BookCounted(l, b, now), key, now), now))
  {
    CountedRefines(l, s, b, now);
    var c, d := Counted(l, s, now), BookCounted(l, b, now);
    var dq, h := DequeOf(c, key, now), HistoryOf(d, key, now);
    assert Tail(dq, h, l.maxRequests);
    DecideExact(l, dq, h, now);
    AppendKeepsTail(dq, h, now, l.maxRequests);
    RecordRefines(l, c, d, key, dq, h, now, d.admitted);
    RecordRefines(l, c, d, key, Append(dq, now, l.maxRequests), h + [now], now,
                  d.admitted[key := AdmittedOf(d, key) + [now]]);
  }

  // ------------------------------------------------- the rate bound

  /** Any maxRequests + 1 consecutive admissions span more than the window. */
  ghost predicate Spaced(l: Limits, acc: seq<real>) {
    forall i, j :: 0 <= i < j < |acc| && j == i + l.maxRequests ==> acc[j] - acc[i] > l.window
  }

  /** How a key's admissions relate to its current history: those of this incarnation are the
      history less its sentinel, and the earlier ones are older than the horizon. */
  ghost predicate Incarnation(acc: seq<real>, h: seq<real>, at: real) {
    && h != [] && Sorted(h) && h[|h| - 1] <= at && h[0] + 1.0 <= at
    && var m := |acc| - |h| + 1;
       && m >= 0 && acc[m..] == h[1..]
       && forall i :: 0 <= i < m ==> acc[i] < h[0] + 1.0 - EVICTION_HORIZON
  }

  /** What one key's history and admissions look like at time `now`. */
  ghost predicate KeyInv(l: Limits, b: Book, k: Key, now: real) {
    var acc := AdmittedOf(b, k);
    && Sorted(acc) && Spaced(l, acc)
    && (k in b.histories <==> k in b.lastAccess)
    && (k in b.histories ==> b.lastAccess[k] <= now && Incarnation(acc, b.histories[k], b.lastAccess[k]))
    && (k !in b.histories ==> forall i :: 0 <= i < |acc| ==> acc[i] < now - EVICTION_HORIZON)
  }

  ghost predicate BookInv(l: Limits, b: Book, now: real) {
    forall k :: KeyInv(l, b, k, now)
  }

  lemma AdmissionsUpTo(acc: seq<real>, h: seq<real>, at: real)
    requires Incarnation(acc, h, at)
    ensures forall i :: 0 <= i < |acc| ==> acc[i] <= at
  {
    var m := |acc| - |h| + 1;
    forall i | 0 <= i < |acc|
      ensures acc[i] <= at
    {
      if i >= m {
        assert acc[i] == acc[m..][i - m] == h[1..][i - m];
      }
    }
  }

  lemma CountedKeepsKey(l: Limits, b: Book, k: Key, before: real, now: real)
    requires KeyInv(l, b, k, before) && before <= now
    ensures KeyInv(l, BookCounted(l, b, now), k, now)
  {
    CountedAt(l, b, now, k);
    if k in b.histories {
      AdmissionsUpTo(AdmittedOf(b, k), b.histories[k], b.lastAccess[k]);
    }
  }

  /** An admitted request finds its maxRequests-th last predecessor outside the window, when
      the window is at most the eviction horizon, or when only one request is allowed. */
  lemma PredecessorLeft(l: Limits, acc: seq<real>, h: seq<real>, now: real)
    requires l.maxRequests >= 1 && (l.window <= 300.0 || l.maxRequests == 1)
    requires Incarnation(acc, h, now) && !Rejects(l, h, now) && |acc| >= l.maxRequests
    ensures acc[|acc| - l.maxRequests] < now - l.window
  {
    var n, m := l.maxRequests, |acc| - |h| + 1;
    var i := |acc| - n;
    CountSorted(h, now - l.window, n);
    if i >= m {
      assert acc[i] == acc[m..][i - m] == h[1..][i - m] == h[|h| - n];
    }
  }

  lemma AdmissionSpaced(l: Limits, acc: seq<real>, h: seq<real>, now: real)
    requires l.maxRequests >= 1 && (l.window <= 300.0 || l.maxRequests == 1)
    requires Sorted(acc) && Spaced(l, acc) && Incarnation(acc, h, now)
    requires !Rejects(l, h, now)
    ensures Sorted(acc + [now]) && Spaced(l, acc + [now])
  {
    AdmissionsUpTo(acc, h, now);
    if |acc| >= l.maxRequests {
      PredecessorLeft(l, acc, h, now);
    }
  }

  lemma AdmissionRecorded(acc: seq<real>, h: seq<real>, now: real)
    requires Incarnation(acc, h, now)
    ensures Incarnation(acc + [now], h + [now], now)
  {
    var m := |acc| - |h| + 1;
    assert (acc + [now])[m..] == acc[m..] + [now] && (h + [now])[1..] == h[1..] + [now];
  }

  /** A new history begins with a sentinel; all earlier admissions are beyond the horizon. */
  lemma NewIncarnation(acc: seq<real>, now: real)
    requires forall i :: 0 <= i < |acc| ==> acc[i] < now - EVICTION_HORIZON
    ensures Incarnation(acc, [now - 1.0], now)
  {
    assert acc[|acc|..] == [] == [now - 1.0][1..];
  }

  /** What a request finds and leaves of its own key: rejected, the history is as found; else
      both the history and the admissions grow, and stay spaced. */
  lemma OwnKeyStep(l: Limits, c: Book, key: Key, now: real)
    requires l.maxRequests >= 1 && (l.window <= 300.0 || l.maxRequests == 1)
    requires KeyInv(l, c, key, now)
    ensures var acc, h := AdmittedOf(c, key), HistoryOf(c, key, now);
            && Incarnation(acc, h, now)
            && (!Rejects(l, h, now) ==>
                  Sorted(acc + [now]) && Spaced(l, acc + [now]) && Incarnation(acc + [now], h + [now], now))
  {
    var acc, h := AdmittedOf(c, key), HistoryOf(c, key, now);
    if key !in c.histories {
      NewIncarnation(acc, now);
    }
    if !Rejects(l, h, now) {
      AdmissionSpaced(l, acc, h, now);
      AdmissionRecorded(acc, h, now);
    }
  }

  lemma EnterKeepsKey(l: Limits, b: Book, key: Key, now: real, k: Key)
    requires l.maxRequests >= 1 && (l.window <= 300.0 || l.maxRequests == 1)
    requires KeyInv(l, BookCounted(l, b, now), k, now)
    ensures KeyInv(l, Enter(l, b, key, now), k, now)
  {
    EnteredAt(l, b, key, now, k);
    if k == key {
      OwnKeyStep(l, BookCounted(l, b, now), key, now);
    }
  }

  lemma {:induction false} PlayInv(l: Limits, run: seq<Request>)
    requires l.maxRequests >= 1 && (l.window <= 300.0 || l.maxRequests == 1) && Timed(run)
    ensures run != [] ==> BookInv(l, Play(l, run), run[|run| - 1].now)
    decreases run
  {
    if run != [] {
      var rest, r := run[..|run| - 1], run[|run| - 1];
      PlayInv(l, rest);
      forall k
        ensures KeyInv(l, Play(l, run), k, r.now)
      {
        CountedKeepsKey(l, Play(l, rest), k, if rest == [] then r.now else rest[|rest| - 1].now, r.now);
        EnterKeepsKey(l, Play(l, rest), r.key, r.now, k);
      }
    }
  }

  function CountWithin(acc: seq<real>, from: real, to: real): nat {
    if acc == [] then 0
    else CountWithin(acc[..|acc| - 1], from, to) + if from <= acc[|acc| - 1] <= to then 1 else 0
  }

  /** The entries in an interval are a slice of the sorted sequence. */
  lemma {:induction false} WithinIsSlice(acc: seq<real>, from: real, to: real) returns (lo: nat, hi: nat)
    requires Sorted(acc)
    ensures lo <= hi <= |acc| && CountWithin(acc, from, to) == hi - lo
    ensures forall i :: lo <= i < hi ==> from <= acc[i] <= to
    ensures forall i :: hi <= i < |acc| ==> acc[i] > to
    decreases acc
  {
    lo, hi := 0, 0;
    if acc != [] {
      var x := acc[|acc| - 1];
      assert forall i :: 0 <= i < |acc| ==> acc[i] <= x;
      var rest := acc[..|acc| - 1];
      lo, hi := WithinIsSlice(rest, from, to);
      assert lo < hi ==> from <= rest[lo] && acc[lo] <= x;
      if from <= x <= to {
        hi := hi + 1;
      } else if x < from {
        lo, hi := |acc|, |acc|;
      }
    }
  }

  /** In every run with a clock that does not go back, any closed interval no longer than the
      window holds at most maxRequests admissions of a key, evictions included. */
  lemma RateBound(l: Limits, run: seq<Request>, key: Key, from: real, to: real)
    requires l.maxRequests >= 1 && (l.window <= 300.0 || l.maxRequests == 1) && Timed(run)
    requires to - from <= l.window
    ensures CountWithin(AdmittedOf(Play(l, run), key), from, to) <= l.maxRequests
  {
    PlayInv(l, run);
    var acc := AdmittedOf(Play(l, run), key);
    assert run == [] || KeyInv(l, Play(l, run), key, run[|run| - 1].now);
    var lo, hi := WithinIsSlice(acc, from, to);
    if lo + l.maxRequests < |acc| {
      assert acc[lo + l.maxRequests] - acc[lo] > l.window;
    }
  }

  // ------------------------------------------------- the bounded limiter over runs

  lemma FilledAfter(l: Limits, s: State, key: Key, now: real)
    requires Filled(l, s)
    ensures Filled(l, Arrive(l, s, key, now).0)
  {
    assert Filled(l, Counted(l, s, now));
  }

  /** The bounded limiter's state after a run. */
  function Serve(l: Limits, run: seq<Request>): (s: State)
    requires l.maxRequests >= 1
    ensures Filled(l, s)
  {
    if run == [] then EMPTY
    else
      var before := Serve(l, run[..|run| - 1]);
      FilledAfter(l, before, run[|run| - 1].key, run[|run| - 1].now);
      Arrive(l, before, run[|run| - 1].key, run[|run| - 1].now).0
  }

  predicate UpTo(h: seq<real>, now: real) {
    h != [] && Sorted(h) && h[|h| - 1] <= now
  }

  lemma UpToGrows(h: seq<real>, before: real, now: real)
    requires UpTo(h, before) && before <= now
    ensures UpTo(h, now) && UpTo(h + [now], now)
  {
  }

  /** A key's history is sorted and not ahead of the clock. */
  lemma {:induction false} HistorySorted(l: Limits, run: seq<Request>, k: Key, now: real)
    requires Timed(run) && (run != [] ==> run[|run| - 1].now <= now)
    ensures k in Play(l, run).histories ==> UpTo(Play(l, run).histories[k], now)
    decreases run
  {
    if run != [] {
      var rest, r := run[..|run| - 1], run[|run| - 1];
      var b := Play(l, rest);
      HistorySorted(l, rest, k, r.now);
      CountedAt(l, b, r.now, k);
      EnteredAt(l, b, r.key, r.now, k);
      var h := HistoryOf(BookCounted(l, b, r.now), k, r.now);
      if k in b.histories {
        UpToGrows(b.histories[k], r.now, r.now);
        UpToGrows(b.histories[k], r.now, now);
      }
      assert UpTo([r.now - 1.0], r.now) && UpTo([r.now - 1.0] + [r.now], now);
      if k in Play(l, run).histories {
        UpToGrows(Play(l, run).histories[k], r.now, now);
      }
    }
  }

  /** The bounded deque refines the unbounded history: after every run, the next request is
      rejected exactly when at least maxRequests recorded timestamps of its key (the creation
      sentinel included) lie in the window. */
  lemma {:induction false} RejectionExact(l: Limits, run: seq<Request>, key: Key, now: real)
    requires l.maxRequests >= 1 && Timed(run) && (run != [] ==> run[|run| - 1].now <= now)
    ensures Refines(l, Serve(l, run), Play(l, run))
    ensures Arrive(l, Serve(l, run), key, now).1.TooMany?
            <==> Rejects(l, HistoryOf(BookCounted(l, Play(l, run), now), key, now), now)
    decreases run
  {
    if run != [] {
      var rest, r := run[..|run| - 1], run[|run| - 1];
      RejectionExact(l, rest, r.key, r.now);
      HistorySorted(l, rest, r.key, r.now);
      CountedAt(l, Play(l, rest), r.now, r.key);
      ArriveRefines(l, Serve(l, rest), Play(l, rest), r.key, r.now);
    }
    HistorySorted(l, run, key, now);
    CountedAt(l, Play(l, run), now, key);
    ArriveRefines(l, Serve(l, run), Play(l, run), key, now);
  }
}
