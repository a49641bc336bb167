/** The fixed-window limiter: the object, and what it admits over any sequence of attempts. */
module RateLimit {
  import opened Domain

  datatype Entry = Entry(started: int, count: int)

  // ----- one key -----

  /** A fresh window opens when there is none or the current one is over. */
  predicate Opens(window: int, entry: Option<Entry>, now: int) {
    entry.None? || entry.value.started + window <= now
  }

  predicate Admits(limit: int, window: int, entry: Option<Entry>, now: int) {
    Opens(window, entry, now) || entry.value.count < limit
  }

  function AfterAttempt(limit: int, window: int, entry: Option<Entry>, now: int): Option<Entry> {
    if Opens(window, entry, now) then Some(Entry(now, 1))
    else if entry.value.count < limit then Some(entry.value.(count := entry.value.count + 1))
    else entry
  }

  /** The attempts of one key, oldest first. */
  function EntryAfter(limit: int, window: int, times: seq<int>): Option<Entry> {
    if times == [] then None
    else AfterAttempt(limit, window, EntryAfter(limit, window, times[..|times| - 1]), times[|times| - 1])
  }

  ghost predicate Ordered(times: seq<int>) {
    forall i, j :: 0 <= i < j < |times| ==> times[i] <= times[j]
  }

  /** How many attempts were admitted at times in [from, to). */
  function AdmittedIn(limit: int, window: int, times: seq<int>, from: int, to: int): nat {
    if times == [] then 0
    else
      var earlier, now := times[..|times| - 1], times[|times| - 1];
      AdmittedIn(limit, window, earlier, from, to)
        + if Admits(limit, window, EntryAfter(limit, window, earlier), now) && from <= now < to then 1 else 0
  }

  // A limit below one still admits the attempt that opens a window.
  function PerWindow(limit: int): int {
    if limit < 1 then 1 else limit
  }

  lemma {:induction false} EntryFacts(limit: int, window: int, times: seq<int>)
    requires Ordered(times) && times != []
    ensures var e := EntryAfter(limit, window, times);
      e.Some? && 1 <= e.value.count <= PerWindow(limit) && e.value.started <= times[|times| - 1] && e.value.started in times
    ensures window > 0 ==> times[|times| - 1] < EntryAfter(limit, window, times).value.started + window
  {
    var earlier, now := times[..|times| - 1], times[|times| - 1];
    if earlier != [] {
      EntryFacts(limit, window, earlier);
    }
  }

  lemma {:induction false} NoneBefore(limit: int, window: int, times: seq<int>, from: int, to: int)
    requires forall i :: 0 <= i < |times| ==> times[i] < from
    ensures AdmittedIn(limit, window, times, from, to) == 0
  {
    if times != [] {
      NoneBefore(limit, window, times[..|times| - 1], from, to);
    }
  }

  /** What an interval of one window's length has admitted, by where the current window started. */
  lemma {:induction false} IntervalInvariant(limit: int, window: int, times: seq<int>, from: int)
    requires Ordered(times) && times != []
    ensures var e, n := EntryAfter(limit, window, times).value, AdmittedIn(limit, window, times, from, from + window);
      && (e.started < from ==> n < e.count)
      && (from <= e.started < from + window ==> n <= PerWindow(limit) - 1 + e.count)
      && (from + window <= e.started ==> n <= 2 * PerWindow(limit) - 1)
  {
    EntryFacts(limit, window, times);
    var earlier, now := times[..|times| - 1], times[|times| - 1];
    if earlier != [] {
      EntryFacts(limit, window, earlier);
      IntervalInvariant(limit, window, earlier, from);
    }
    if now < from {
      NoneBefore(limit, window, times, from, from + window);
    }
  }

  /** In any half-open interval of one window's length a key is admitted at most 2 * limit - 1 times: the
      attempt that opened the earlier of two windows lies outside it. */
  lemma IntervalBound(limit: int, window: int, times: seq<int>, from: int)
    requires Ordered(times)
    ensures AdmittedIn(limit, window, times, from, from + window) <= 2 * PerWindow(limit) - 1
  {
    if times != [] {
      EntryFacts(limit, window, times);
      IntervalInvariant(limit, window, times, from);
    }
  }

  /** The count of an opened window is what it has admitted since it opened, at most the limit. */
  lemma {:induction false} WindowBound(limit: int, window: int, times: seq<int>)
    requires Ordered(times) && times != [] && window > 0
    ensures var e := EntryAfter(limit, window, times).value;
      AdmittedIn(limit, window, times, e.started, e.started + window) == e.count <= PerWindow(limit)
  {
    EntryFacts(limit, window, times);
    var earlier, now := times[..|times| - 1], times[|times| - 1];
    if earlier != [] {
      EntryFacts(limit, window, earlier);
      WindowBound(limit, window, earlier);
      if Opens(window, EntryAfter(limit, window, earlier), now) {
        NoneBefore(limit, window, earlier, now, now + window);
      }
    }
  }

  // ----- the bound is reached -----

  function Repeated(n: nat, at: int): seq<int> {
    seq(n, _ => at)
  }

  lemma {:induction false} RepeatedAdmits(limit: int, window: int, times: seq<int>, n: nat, at: int, from: int, to: int)
    requires times != [] && from <= at < to
    requires var e := EntryAfter(limit, window, times); e.Some? && at < e.value.started + window && e.value.count + n <= limit
    ensures var e := EntryAfter(limit, window, times).value;
      EntryAfter(limit, window, times + Repeated(n, at)) == Some(e.(count := e.count + n))
    ensures AdmittedIn(limit, window, times + Repeated(n, at), from, to) == AdmittedIn(limit, window, times, from, to) + n
  {
    if n == 0 {
      assert times + Repeated(0, at) == times;
    } else {
      RepeatedAdmits(limit, window, times, n - 1, at, from, to);
      var all := times + Repeated(n, at);
      assert all[..|all| - 1] == times + Repeated(n - 1, at) && all[|all| - 1] == at;
    }
  }

  lemma OpensNext(limit: int, window: int, times: seq<int>, at: int, from: int, to: int)
    requires Opens(window, EntryAfter(limit, window, times), at)
    ensures EntryAfter(limit, window, times + [at]) == Some(Entry(at, 1))
    ensures AdmittedIn(limit, window, times + [at], from, to) == AdmittedIn(limit, window, times, from, to) + if from <= at < to then 1 else 0
  {
    assert (times + [at])[..|times|] == times;
  }

  /** One attempt, the rest of its window at the last moment, and a full next window. */
  lemma IntervalBoundIsReached(limit: int, window: int) returns (times: seq<int>, from: int)
    requires limit >= 1 && window >= 2
    ensures Ordered(times) && AdmittedIn(limit, window, times, from, from + window) == 2 * limit - 1
  {
    from := window - 1;
    var to := from + window;
    OpensNext(limit, window, [], 0, from, to);
    var first := [] + [0];
    RepeatedAdmits(limit, window, first, limit - 1, from, from, to);
    var full := first + Repeated(limit - 1, from);
    OpensNext(limit, window, full, window, from, to);
    var next := full + [window];
    RepeatedAdmits(limit, window, next, limit - 1, window, from, to);
    times := next + Repeated(limit - 1, window);
  }

  // ----- waiting -----

  /** A caller who is refused is told exactly how long: any earlier attempt is refused again and any later
      one admitted, if the key sees no other attempt meanwhile. */
  lemma RetryIsExact(limit: int, window: int, times: seq<int>, now: int, later: int)
    requires var e := EntryAfter(limit, window, times); !Admits(limit, window, e, now) && now <= later
    ensures var e := EntryAfter(limit, window, times); var retry := e.value.started + window - now;
      && retry > 0 && EntryAfter(limit, window, times + [now]) == e
      && (Admits(limit, window, EntryAfter(limit, window, times + [now]), later) <==> now + retry <= later)
  {
    assert (times + [now])[..|times|] == times;
  }

  // ----- many keys -----

  datatype Attempt = Attempt(key: string, at: int)

  function TimesOf(history: seq<Attempt>, key: string): seq<int> {
    if history == [] then []
    else
      var earlier, last := TimesOf(history[..|history| - 1], key), history[|history| - 1];
      if last.key == key then earlier + [last.at] else earlier
  }

  function Entries(limit: int, window: int, history: seq<Attempt>): map<string, Entry> {
    if history == [] then map[]
    else
      var earlier, last := Entries(limit, window, history[..|history| - 1]), history[|history| - 1];
      earlier[last.key := AfterAttempt(limit, window, Lookup(earlier, last.key), last.at).value]
  }

  function Lookup(entries: map<string, Entry>, key: string): Option<Entry> {
    if key in entries then Some(entries[key]) else None
  }

  /** Keys do not affect each other: a key's entry, and so every answer it gets, is what its own attempts
      alone would have left. */
  lemma {:induction false} KeysAreIndependent(limit: int, window: int, history: seq<Attempt>, key: string)
    ensures Lookup(Entries(limit, window, history), key) == EntryAfter(limit, window, TimesOf(history, key))
  {
    if history != [] {
      var last := history[|history| - 1];
      KeysAreIndependent(limit, window, history[..|history| - 1], key);
      if last.key == key {
        var earlier := TimesOf(history[..|history| - 1], key);
        assert (earlier + [last.at])[..|earlier|] == earlier;
      }
    }
  }

  class Limiter {
    const limit: int
    const window: int
    var entries: map<string, Entry>
    ghost var history: seq<Attempt>

    ghost predicate Valid()
      reads this
    {
      entries == Entries(limit, window, history)
    }

    constructor (limit: int, window: int)
      ensures Valid() && this.limit == limit && this.window == window && history == []
    {
      this.limit, this.window, entries, history := limit, window, map[], [];
    }

    /** The clock is an argument. */
    method Allow(key: string, now: int) returns (ok: bool, retry: int)
      requires Valid()
      modifies this
      ensures Valid() && history == old(history) + [Attempt(key, now)]
      ensures ok <==> Admits(limit, window, EntryAfter(limit, window, TimesOf(old(history), key)), now)
      ensures ok ==> retry == 0
      ensures !ok ==> now + retry == EntryAfter(limit, window, TimesOf(old(history), key)).value.started + window
    {
      KeysAreIndependent(limit, window, history, key);
      history := history + [Attempt(key, now)];
      assert history[..|history| - 1] == old(history);
      if key !in entries || now >= entries[key].started + window {
        entries := entries[key := Entry(now, 1)];
        return true, 0;
      }
      var current := entries[key];
      if current.count >= limit {
        assert entries[key := current] == entries;
        return false, current.started + window - now;
      }
      entries := entries[key := current.(count := current.count + 1)];
      ok, retry := true, 0;
    }
  }
}
