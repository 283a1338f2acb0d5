/**
 The sliding-window rate limiter: a queue of admission times per key, pruned from the
 front, against the definition it is meant to implement over the whole history of calls.
*/
module RateLimiter {

  /** One call of `allow`. */
  datatype Call = Call(key: string, now: int)

  /** All calls so far, the latest outermost. */
  datatype History = Nothing | Then(earlier: History, last: Call)

  /** No call of the history is later than `now`. */
  predicate UpTo(history: History, now: int) {
    history.Then? ==> history.last.now <= now
  }

  /** Instants never run backwards. */
  predicate Monotone(history: History) {
    history.Then? ==> Monotone(history.earlier) && UpTo(history.earlier, history.last.now)
  }

  /** How many of `times` lie in (after, upTo]. */
  function CountIn(times: seq<int>, after: int, upTo: int): nat {
    if times == [] then 0
    else CountIn(times[..|times| - 1], after, upTo) + if after < times[|times| - 1] <= upTo then 1 else 0
  }

  /** The definition: fewer than `limit` admissions of the key in the window that ends now. */
  predicate Admits(history: History, call: Call, limit: nat, window: nat)
    decreases history, 1
  {
    CountIn(Admissions(history, call.key, limit, window), call.now - window, call.now) < limit
  }

  /** The times at which the key was admitted. */
  function Admissions(history: History, key: string, limit: nat, window: nat): seq<int>
    decreases history, 0
  {
    match history
    case Nothing => []
    case Then(earlier, last) =>
      if last.key == key && Admits(earlier, last, limit, window)
      then Admissions(earlier, key, limit, window) + [last.now]
      else Admissions(earlier, key, limit, window)
  }

  /* ---------- the bound ---------- */

  ghost predicate Sorted(times: seq<int>) {
    forall i, j | 0 <= i < j < |times| :: times[i] <= times[j]
  }

  ghost predicate AtMost(times: seq<int>, bound: int) {
    forall i | 0 <= i < |times| :: times[i] <= bound
  }

  lemma {:induction false} AdmissionsAreSorted(history: History, key: string, limit: nat, window: nat, now: int)
    requires Monotone(history) && UpTo(history, now)
    ensures Sorted(Admissions(history, key, limit, window)) && AtMost(Admissions(history, key, limit, window), now)
  {
    if history.Then? {
      AdmissionsAreSorted(history.earlier, key, limit, window, history.last.now);
    }
  }

  lemma {:induction false} WiderCountsMore(times: seq<int>, after: int, upTo: int, wideAfter: int, wideUpTo: int)
    requires wideAfter <= after && AtMost(times, wideUpTo)
    ensures CountIn(times, after, upTo) <= CountIn(times, wideAfter, wideUpTo)
  {
    if times != [] {
      WiderCountsMore(times[..|times| - 1], after, upTo, wideAfter, wideUpTo);
    }
  }

  /** An admission that finds fewer than `limit` in its own window overfills no other window. */
  lemma AdmissionOverfillsNothing(before: seq<int>, now: int, limit: nat, window: nat, start: int)
    requires AtMost(before, now)
    requires CountIn(before, now - window, now) < limit
    requires CountIn(before, start, start + window) <= limit
    ensures CountIn(before + [now], start, start + window) <= limit
  {
    assert (before + [now])[..|before|] == before;
    if now <= start + window {
      WiderCountsMore(before, start, start + window, now - window, now);
    }
  }

  /** Whatever window one looks through, it never shows more than `limit` admissions of a key. */
  lemma {:induction false} NoWindowHoldsMore(history: History, key: string, limit: nat, window: nat, start: int)
    requires Monotone(history)
    ensures CountIn(Admissions(history, key, limit, window), start, start + window) <= limit
  {
    if history.Then? {
      var earlier, last := history.earlier, history.last;
      NoWindowHoldsMore(earlier, key, limit, window, start);
      if last.key == key && Admits(earlier, last, limit, window) {
        AdmissionsAreSorted(earlier, key, limit, window, last.now);
        AdmissionOverfillsNothing(Admissions(earlier, key, limit, window), last.now, limit, window, start);
      }
    }
  }

  /** And a call is only refused when the window that ends with it is full. */
  lemma RefusalMeansFullWindow(history: History, call: Call, limit: nat, window: nat)
    requires Monotone(history) && !Admits(history, call, limit, window)
    ensures CountIn(Admissions(history, call.key, limit, window), call.now - window, call.now) == limit
  {
    NoWindowHoldsMore(history, call.key, limit, window, call.now - window);
  }

  /** The same for a window that includes its start and not its end. */
  lemma NoWindowHoldsMoreClosedOpen(history: History, key: string, limit: nat, window: nat, start: int)
    requires Monotone(history)
    ensures CountIn(Admissions(history, key, limit, window), start - 1, start + window - 1) <= limit
  {
    NoWindowHoldsMore(history, key, limit, window, start - 1);
  }

  /* ---------- keys are independent ---------- */

  function OfKey(history: History, key: string): History {
    match history
    case Nothing => Nothing
    case Then(earlier, last) => if last.key == key then Then(OfKey(earlier, key), last) else OfKey(earlier, key)
  }

  /** What happens to one key does not depend on calls for any other. */
  lemma {:induction false} KeysAreIndependent(history: History, key: string, limit: nat, window: nat)
    ensures Admissions(history, key, limit, window) == Admissions(OfKey(history, key), key, limit, window)
  {
    if history.Then? {
      KeysAreIndependent(history.earlier, key, limit, window);
    }
  }

  /* ---------- the queue ---------- */

  lemma {:induction false} CountOfSuffix(times: seq<int>, expired: nat, after: int, upTo: int)
    requires expired <= |times|
    requires forall i | 0 <= i < expired :: times[i] <= after
    requires forall i | expired <= i < |times| :: after < times[i] <= upTo
    ensures CountIn(times, after, upTo) == |times| - expired
  {
    if times != [] {
      CountOfSuffix(times[..|times| - 1], if expired == |times| then expired - 1 else expired, after, upTo);
    }
  }

  /** The queue is the admissions of its key without some that no later window can reach. */
  ghost predicate Represents(queue: seq<int>, times: seq<int>, horizon: int) {
    && |queue| <= |times|
    && (forall i | 0 <= i < |queue| :: queue[i] == times[|times| - |queue| + i])
    && forall i | 0 <= i < |times| - |queue| :: times[i] <= horizon
  }

  /** What the pruning loop leaves: the expired front is gone, and everything that is left counts. */
  ghost predicate IsPruned(queue: seq<int>, kept: seq<int>, horizon: int) {
    && |kept| <= |queue|
    && (forall i | 0 <= i < |kept| :: kept[i] == queue[|queue| - |kept| + i])
    && (forall i | 0 <= i < |queue| - |kept| :: queue[i] <= horizon)
    && (forall i | 0 <= i < |kept| :: kept[i] > horizon)
  }

  lemma PrunedRepresents(queue: seq<int>, kept: seq<int>, times: seq<int>, horizon: int)
    requires Represents(queue, times, horizon) && IsPruned(queue, kept, horizon)
    ensures Represents(kept, times, horizon)
  {
    var dropped := |times| - |queue|;
    forall i | 0 <= i < |times| - |kept| ensures times[i] <= horizon {
      assert i >= dropped ==> times[i] == queue[i - dropped];
    }
  }

  /** After pruning, the queue's length is the number of admissions in the window. */
  lemma LengthIsCount(queue: seq<int>, kept: seq<int>, times: seq<int>, now: int, horizon: int)
    requires Represents(queue, times, horizon) && IsPruned(queue, kept, horizon) && AtMost(times, now)
    ensures Represents(kept, times, horizon)
    ensures |kept| == CountIn(times, horizon, now)
  {
    PrunedRepresents(queue, kept, times, horizon);
    var dropped := |times| - |kept|;
    forall i | dropped <= i < |times| ensures horizon < times[i] <= now {
      assert times[i] == kept[i - dropped];
    }
    CountOfSuffix(times, dropped, horizon, now);
  }

  lemma PushedRepresents(kept: seq<int>, times: seq<int>, now: int, horizon: int)
    requires Represents(kept, times, horizon)
    ensures Represents(kept + [now], times + [now], horizon)
  {
  }

  function QueueOf(entries: map<string, seq<int>>, key: string): seq<int> {
    if key in entries then entries[key] else []
  }

  /** Every queue represents the admissions of its key, as far as a window that ends at `now` or later can reach. */
  ghost predicate Tracks(entries: map<string, seq<int>>, history: History, now: int, limit: nat, window: nat) {
    && Monotone(history) && UpTo(history, now)
    && forall key :: Represents(QueueOf(entries, key), Admissions(history, key, limit, window), now - window)
  }

  lemma RepresentsLater(queue: seq<int>, times: seq<int>, horizon: int, later: int)
    requires Represents(queue, times, horizon) && horizon <= later
    ensures Represents(queue, times, later)
  {
  }

  lemma TracksLater(entries: map<string, seq<int>>, history: History, now: int, later: int, limit: nat, window: nat)
    requires Tracks(entries, history, now, limit, window) && now <= later
    ensures Tracks(entries, history, later, limit, window)
  {
    forall key
      ensures Represents(QueueOf(entries, key), Admissions(history, key, limit, window), later - window)
    {
      RepresentsLater(QueueOf(entries, key), Admissions(history, key, limit, window), now - window, later - window);
    }
  }

  lemma QueueIsSorted(entries: map<string, seq<int>>, history: History, key: string, now: int, limit: nat, window: nat)
    requires Tracks(entries, history, now, limit, window)
    ensures Sorted(QueueOf(entries, key))
  {
    AdmissionsAreSorted(history, key, limit, window, now);
    assert Represents(QueueOf(entries, key), Admissions(history, key, limit, window), now - window);
  }

  /** The length of the pruned queue decides the call. */
  lemma LengthDecides(entries: map<string, seq<int>>, history: History, call: Call, kept: seq<int>,
                      limit: nat, window: nat)
    requires Tracks(entries, history, call.now, limit, window)
    requires IsPruned(QueueOf(entries, call.key), kept, call.now - window)
    ensures Represents(kept, Admissions(history, call.key, limit, window), call.now - window)
    ensures |kept| < limit <==> Admits(history, call, limit, window)
  {
    var times, queue := Admissions(history, call.key, limit, window), QueueOf(entries, call.key);
    assert Represents(queue, times, call.now - window);
    AdmissionsAreSorted(history, call.key, limit, window, call.now);
    PrunedDecides(queue, kept, times, history, call, limit, window);
  }

  lemma PrunedDecides(queue: seq<int>, kept: seq<int>, times: seq<int>, history: History, call: Call,
                      limit: nat, window: nat)
    requires AtMost(times, call.now) && times == Admissions(history, call.key, limit, window)
    requires Represents(queue, times, call.now - window) && IsPruned(queue, kept, call.now - window)
    ensures Represents(kept, times, call.now - window)
    ensures |kept| < limit <==> Admits(history, call, limit, window)
  {
    var count := CountIn(times, call.now - window, call.now);
    assert Admits(history, call, limit, window) <==> count < limit;
    LengthIsCount(queue, kept, times, call.now, call.now - window);
  }

  /** With the time of an admitted call pushed, every queue is right again. */
  lemma QueuesStayRight(entries: map<string, seq<int>>, history: History, call: Call, kept: seq<int>,
                        limit: nat, window: nat)
    requires Tracks(entries, history, call.now, limit, window)
    requires Represents(kept, Admissions(history, call.key, limit, window), call.now - window)
    ensures var queue := if Admits(history, call, limit, window) then kept + [call.now] else kept;
            Tracks(entries[call.key := queue], Then(history, call), call.now, limit, window)
  {
    var queue := if Admits(history, call, limit, window) then kept + [call.now] else kept;
    PushedRepresents(kept, Admissions(history, call.key, limit, window), call.now, call.now - window);
    forall key
      ensures Represents(QueueOf(entries[call.key := queue], key),
                         Admissions(Then(history, call), key, limit, window), call.now - window)
    {
      assert key != call.key ==>
        Represents(QueueOf(entries, key), Admissions(history, key, limit, window), call.now - window);
    }
  }

  class RateLimiter {
    var entries: map<string, seq<int>>
    ghost var history: History
    ghost var clock: int

    ghost predicate Valid(limit: nat, window: nat)
      reads this
    {
      Tracks(entries, history, clock, limit, window)
    }

    constructor (limit: nat, window: nat, now: int)
      ensures Valid(limit, window) && history == Nothing && clock == now
    {
      entries, history, clock := map[], Nothing, now;
    }

    /** Drop what has left the window. */
    method Prune(queue: seq<int>, now: int, window: nat) returns (kept: seq<int>)
      requires Sorted(queue)
      ensures IsPruned(queue, kept, now - window)
    {
      kept := queue;
      while |kept| > 0 && now - kept[0] >= window
        invariant |kept| <= |queue| && kept == queue[|queue| - |kept|..]
        invariant forall i | 0 <= i < |queue| - |kept| :: queue[i] <= now - window
        decreases |kept|
      {
        kept := kept[1..];
      }
    }

    /** allow, called with the same limit and window every time. */
    method Allow(key: string, now: int, limit: nat, window: nat) returns (allowed: bool)
      requires Valid(limit, window) && clock <= now
      modifies this
      ensures Valid(limit, window) && clock == now && history == Then(old(history), Call(key, now))
      ensures allowed <==> Admits(old(history), Call(key, now), limit, window)
    {
      TracksLater(entries, history, clock, now, limit, window);
      QueueIsSorted(entries, history, key, now, limit, window);
      var queue := if key in entries then entries[key] else [];
      var kept := Prune(queue, now, window);
      LengthDecides(entries, history, Call(key, now), kept, limit, window);
      QueuesStayRight(entries, history, Call(key, now), kept, limit, window);
      allowed := |kept| < limit;
      if allowed {
        kept := kept + [now];
      }
      entries := entries[key := kept];
      history, clock := Then(history, Call(key, now)), now;
    }
  }
}
