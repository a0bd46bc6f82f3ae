/**
 The sliding-window log of internal/middleware/ratelimit.go.

 Times are integers (nanoseconds) read from a nondecreasing clock under the lock. The pruned lists the
 limiter stores are compared with the full history of allowed requests, which it does not keep.
 */
module RateLimit {
  /** The times strictly after `cutoff`, in order. */
  function After(times: seq<int>, cutoff: int): seq<int> {
    if times == [] then []
    else After(times[..|times| - 1], cutoff) +
         if times[|times| - 1] > cutoff then [times[|times| - 1]] else []
  }

  /** Reference: a request is allowed when the window ending now holds fewer than `limit` allowed ones. */
  predicate Allows(allowed: seq<int>, now: int, limit: int, window: int) {
    |After(allowed, now - window)| < limit
  }

  /** The allowed times out of a whole sequence of requests. */
  function Admit(requests: seq<int>, limit: int, window: int): seq<int> {
    if requests == [] then []
    else
      var before, now := Admit(requests[..|requests| - 1], limit, window), requests[|requests| - 1];
      if Allows(before, now, limit, window) then before + [now] else before
  }

  ghost predicate Sorted(times: seq<int>) {
    forall i, j :: 0 <= i <= j < |times| ==> times[i] <= times[j]
  }

  /** How many times lie in the half-open interval (from, to]. */
  function CountIn(times: seq<int>, from: int, to: int): nat {
    if times == [] then 0
    else CountIn(times[..|times| - 1], from, to) +
         if from < times[|times| - 1] <= to then 1 else 0
  }

  // ---------- facts about cutoffs ----------

  lemma {:induction false} AfterTwice(times: seq<int>, low: int, high: int)
    requires low <= high
    ensures After(After(times, low), high) == After(times, high)
  {
    if times != [] {
      var front, last := times[..|times| - 1], times[|times| - 1];
      AfterTwice(front, low, high);
      AfterSnoc(After(front, low), last, high);
      assert After(front, low) + [] == After(front, low);
    }
  }

  lemma AfterSnoc(times: seq<int>, t: int, cutoff: int)
    ensures After(times + [t], cutoff) == After(times, cutoff) + if t > cutoff then [t] else []
  {
    assert (times + [t])[..|times|] == times;
  }

  /** Two logs that agree after one cutoff agree after every later one. */
  lemma AgreeLater(a: seq<int>, b: seq<int>, low: int, high: int)
    requires low <= high && After(a, low) == After(b, low)
    ensures After(a, high) == After(b, high)
  {
    AfterTwice(a, low, high);
    AfterTwice(b, low, high);
  }

  /** In a nondecreasing log the times after a cutoff are a suffix. */
  lemma {:induction false} AfterIsSuffix(times: seq<int>, cutoff: int)
    requires Sorted(times)
    ensures |After(times, cutoff)| <= |times|
    ensures After(times, cutoff) == times[|times| - |After(times, cutoff)|..]
    ensures forall i :: 0 <= i < |times| ==> (times[i] > cutoff <==> i >= |times| - |After(times, cutoff)|)
  {
    if times != [] {
      var front, last := times[..|times| - 1], times[|times| - 1];
      AfterIsSuffix(front, cutoff);
      if last <= cutoff {
        assert forall i :: 0 <= i < |front| ==> front[i] <= last;
      } else {
        var k := |front| - |After(front, cutoff)|;
        assert front[k..] + [last] == times[k..];
      }
    }
  }

  // ---------- the window bound over every run ----------

  /** Any `limit + 1` consecutive allowed requests span at least a window. */
  ghost predicate Spaced(times: seq<int>, limit: int, window: int) {
    && Sorted(times)
    && (limit <= 0 ==> times == [])
    && (forall i, j :: 0 <= i && i + limit <= j < |times| && 0 < limit ==> times[j] - times[i] >= window)
  }

  lemma SortedSnoc(times: seq<int>, now: int)
    requires Sorted(times) && forall t :: t in times ==> t <= now
    ensures Sorted(times + [now])
  {
    assert forall i :: 0 <= i < |times| ==> times[i] in times;
  }

  lemma SpacedSnoc(times: seq<int>, now: int, limit: int, window: int)
    requires Spaced(times, limit, window) && Allows(times, now, limit, window)
    requires forall t :: t in times ==> t <= now
    ensures Spaced(times + [now], limit, window)
  {
    hide After;
    SortedSnoc(times, now);
    AfterIsSuffix(times, now - window);
    hide Sorted;
    var more := times + [now];
    forall i, j | 0 <= i && i + limit <= j < |more| && 0 < limit ensures more[j] - more[i] >= window {
      if j == |times| {
        assert times[i] <= now - window;
      }
    }
  }

  lemma {:induction false} AdmitIsSpaced(requests: seq<int>, limit: int, window: int)
    requires Sorted(requests)
    ensures Spaced(Admit(requests, limit, window), limit, window)
    ensures forall t :: t in Admit(requests, limit, window) ==> t in requests
  {
    if requests != [] {
      var front, now := requests[..|requests| - 1], requests[|requests| - 1];
      AdmitIsSpaced(front, limit, window);
      var before := Admit(front, limit, window);
      if Allows(before, now, limit, window) {
        SpacedSnoc(before, now, limit, window);
      }
    }
  }

  lemma {:induction false} CountAsAfter(times: seq<int>, from: int, to: int)
    requires from <= to
    ensures CountIn(times, from, to) == |After(times, from)| - |After(times, to)|
  {
    if times != [] {
      CountAsAfter(times[..|times| - 1], from, to);
    }
  }

  lemma FarApart(times: seq<int>, limit: int, window: int, i: nat, j: nat)
    requires Spaced(times, limit, window) && 0 < limit && i + limit <= j < |times|
    ensures times[j] - times[i] >= window
  {
  }

  lemma SpacedBoundsWindow(times: seq<int>, limit: int, window: int, from: int)
    requires Spaced(times, limit, window) && window >= 0
    ensures CountIn(times, from, from + window) <= if limit > 0 then limit else 0
  {
    hide After, CountIn;
    CountAsAfter(times, from, from + window);
    AfterIsSuffix(times, from);
    AfterIsSuffix(times, from + window);
    var i, j := |times| - |After(times, from)|, |times| - |After(times, from + window)|;
    if 0 < limit < j - i {
      FarApart(times, limit, window, i, j - 1);
    }
  }

  lemma EmptyIntervalHoldsNothing(times: seq<int>, from: int, to: int)
    requires to <= from
    ensures CountIn(times, from, to) == 0
  {
  }

  /** One request of a run, by identifier. */
  datatype Arrival = Arrival(id: string, now: int)

  ghost predicate Nondecreasing(run: seq<Arrival>) {
    forall i, j :: 0 <= i <= j < |run| ==> run[i].now <= run[j].now
  }

  function TimesOf(run: seq<Arrival>, id: string): seq<int> {
    if run == [] then []
    else TimesOf(run[..|run| - 1], id) +
         if run[|run| - 1].id == id then [run[|run| - 1].now] else []
  }

  function AllowedOf(run: seq<Arrival>, id: string, limit: int, window: int): seq<int> {
    Admit(TimesOf(run, id), limit, window)
  }

  lemma {:induction false} TimesAreSorted(run: seq<Arrival>, id: string)
    requires Nondecreasing(run)
    ensures Sorted(TimesOf(run, id))
    ensures forall t :: t in TimesOf(run, id) ==> exists i :: 0 <= i < |run| && run[i].now == t
  {
    if run != [] {
      var front, last := run[..|run| - 1], run[|run| - 1];
      TimesAreSorted(front, id);
      var times := TimesOf(front, id);
      forall i | 0 <= i < |times| ensures times[i] <= last.now {
        assert times[i] in times;
        var k :| 0 <= k < |front| && front[k].now == times[i];
        assert run[k].now <= run[|run| - 1].now;
      }
      forall t | t in TimesOf(run, id) ensures exists i :: 0 <= i < |run| && run[i].now == t {
        if t in times {
          var k :| 0 <= k < |front| && front[k].now == t;
          assert run[k].now == t;
        } else {
          assert run[|run| - 1].now == t;
        }
      }
    }
  }

  /** The limit holds for every identifier and every interval of one window's length, aligned anywhere. */
  lemma EveryWindowIsBounded(run: seq<Arrival>, id: string, limit: int, window: int, from: int)
    requires Nondecreasing(run)
    ensures CountIn(AllowedOf(run, id, limit, window), from, from + window) <= if limit > 0 then limit else 0
  {
    TimesAreSorted(run, id);
    AdmitIsSpaced(TimesOf(run, id), limit, window);
    if window >= 0 {
      SpacedBoundsWindow(AllowedOf(run, id, limit, window), limit, window, from);
    } else {
      EmptyIntervalHoldsNothing(AllowedOf(run, id, limit, window), from, from + window);
    }
  }

  lemma NondecreasingPrefix(run: seq<Arrival>, last: Arrival)
    requires Nondecreasing(run + [last])
    ensures Nondecreasing(run)
    ensures forall i :: 0 <= i < |run| ==> run[i].now <= last.now
  {
    var more := run + [last];
    forall i, j | 0 <= i <= j < |run| ensures run[i].now <= run[j].now {
      assert more[i].now <= more[j].now;
    }
    forall i | 0 <= i < |run| ensures run[i].now <= last.now {
      assert more[i].now <= more[|run|].now;
    }
  }

  /** One more request extends only its own identifier's history, and only if the window has room. */
  lemma AllowedSnoc(run: seq<Arrival>, last: Arrival, limit: int, window: int)
    ensures var allowed := AllowedOf(run, last.id, limit, window);
      && AllowedOf(run + [last], last.id, limit, window) ==
         allowed + (if Allows(allowed, last.now, limit, window) then [last.now] else [])
      && (forall id :: id != last.id ==>
            AllowedOf(run + [last], id, limit, window) == AllowedOf(run, id, limit, window))
  {
    var times := TimesOf(run, last.id);
    assert (run + [last])[..|run|] == run;
    assert (times + [last.now])[..|times|] == times;
    forall id | id != last.id ensures TimesOf(run + [last], id) == TimesOf(run, id) {
      assert TimesOf(run, id) + [] == TimesOf(run, id);
    }
  }

  /** No needless refusal: a request is refused exactly when the window ending with it is already full. */
  lemma RefusedOnlyWhenFull(run: seq<Arrival>, last: Arrival, limit: int, window: int)
    requires Nondecreasing(run + [last])
    ensures var allowed := AllowedOf(run, last.id, limit, window);
      && (AllowedOf(run + [last], last.id, limit, window) == allowed <==>
            CountIn(allowed, last.now - window, last.now) >= limit)
      && (forall id :: id != last.id ==>
            AllowedOf(run + [last], id, limit, window) == AllowedOf(run, id, limit, window))
  {
    hide After, CountIn, Admit, TimesOf;
    var times, allowed := TimesOf(run, last.id), AllowedOf(run, last.id, limit, window);
    AllowedSnoc(run, last, limit, window);
    NondecreasingPrefix(run, last);
    TimesAreSorted(run, last.id);
    AdmitIsSpaced(times, limit, window);
    forall t | t in allowed ensures t <= last.now {
      var i :| 0 <= i < |run| && run[i].now == t;
    }
    NoneAfter(allowed, last.now);
    if window >= 0 {
      CountAsAfter(allowed, last.now - window, last.now);
    } else {
      EmptyIntervalHoldsNothing(allowed, last.now - window, last.now);
      NoneAfter(allowed, last.now - window);
    }
  }

  lemma {:induction false} NoneAfter(times: seq<int>, cutoff: int)
    requires forall t :: t in times ==> t <= cutoff
    ensures After(times, cutoff) == []
  {
    if times != [] {
      var front := times[..|times| - 1];
      assert times[|times| - 1] in times;
      forall t | t in front ensures t <= cutoff {
        assert t in times;
      }
      NoneAfter(front, cutoff);
    }
  }

  // ---------- the limiter ----------

  function Listed(requests: map<string, seq<int>>, id: string): seq<int> {
    if id in requests then requests[id] else []
  }

  /** From `cutoff` on, each stored list is indistinguishable from the full history of its identifier. */
  ghost predicate Agrees(requests: map<string, seq<int>>, run: seq<Arrival>, cutoff: int, limit: int, window: int) {
    forall id :: After(Listed(requests, id), cutoff) == After(AllowedOf(run, id, limit, window), cutoff)
  }

  lemma AgreesLater(requests: map<string, seq<int>>, run: seq<Arrival>, low: int, high: int, limit: int, window: int)
    requires low <= high && Agrees(requests, run, low, limit, window)
    ensures Agrees(requests, run, high, limit, window)
  {
    hide After, AllowedOf;
    forall id ensures After(Listed(requests, id), high) == After(AllowedOf(run, id, limit, window), high) {
      AgreeLater(Listed(requests, id), AllowedOf(run, id, limit, window), low, high);
    }
  }

  lemma NothingAgrees(cutoff: int, limit: int, window: int)
    ensures Agrees(map[], [], cutoff, limit, window)
  {
  }

  lemma RefusalKeepsAgreement(requests: map<string, seq<int>>, run: seq<Arrival>, last: Arrival, limit: int,
                              window: int)
    requires Agrees(requests, run, last.now - window, limit, window)
    requires !Allows(AllowedOf(run, last.id, limit, window), last.now, limit, window)
    ensures Agrees(requests, run + [last], last.now - window, limit, window)
  {
    hide AllowedOf, After;
    AllowedSnoc(run, last, limit, window);
    forall id ensures AllowedOf(run + [last], id, limit, window) == AllowedOf(run, id, limit, window) {
    }
  }

  lemma AdmissionKeepsAgreement(requests: map<string, seq<int>>, run: seq<Arrival>, last: Arrival, limit: int,
                                window: int)
    requires Agrees(requests, run, last.now - window, limit, window)
    requires Allows(AllowedOf(run, last.id, limit, window), last.now, limit, window)
    ensures var kept := After(Listed(requests, last.id), last.now - window) + [last.now];
            Agrees(requests[last.id := kept], run + [last], last.now - window, limit, window)
  {
    hide AllowedOf, After;
    var cutoff := last.now - window;
    var stored, allowed := Listed(requests, last.id), AllowedOf(run, last.id, limit, window);
    var requests' := requests[last.id := After(stored, cutoff) + [last.now]];
    AllowedSnoc(run, last, limit, window);
    AfterTwice(stored, cutoff, cutoff);
    AfterSnoc(After(stored, cutoff), last.now, cutoff);
    AfterSnoc(allowed, last.now, cutoff);
    forall id
      ensures After(Listed(requests', id), cutoff) == After(AllowedOf(run + [last], id, limit, window), cutoff)
    {
      if id != last.id {
        assert Listed(requests', id) == Listed(requests, id);
      }
    }
  }

  class RateLimiter {
    var requests: map<string, seq<int>>
    const limit: int
    const window: int
    /** Every call so far. */
    ghost var run: seq<Arrival>

    /** No list outgrows the limit, and from the last cutoff on the lists agree with the full histories. */
    ghost predicate Valid()
      reads this
    {
      && Nondecreasing(run)
      && (run == [] ==> requests == map[])
      && (run != [] ==> Agrees(requests, run, run[|run| - 1].now - window, limit, window))
      && (forall id :: id in requests ==> |requests[id]| <= limit)
    }

    constructor (limit: int, window: int)
      ensures Valid() && run == [] && this.limit == limit && this.window == window
    {
      requests := map[];
      this.limit := limit;
      this.window := window;
      run := [];
    }

    /** The clean-up loop. */
    method Recent(id: string, cutoff: int) returns (valid: seq<int>)
      ensures valid == After(Listed(requests, id), cutoff)
    {
      var stored := Listed(requests, id);
      valid := [];
      for i := 0 to |stored|
        invariant valid == After(stored[..i], cutoff)
      {
        assert stored[..i + 1][..i] == stored[..i];
        if stored[i] > cutoff {
          valid := valid + [stored[i]];
        }
      }
      assert stored[..|stored|] == stored;
    }

    /** The clock may not go back; the answer is the one the full history of the identifier gives. */
    method Allow(id: string, now: int) returns (ok: bool)
      requires Valid() && Nondecreasing(run + [Arrival(id, now)])
      modifies this
      ensures Valid() && run == old(run) + [Arrival(id, now)]
      ensures ok == Allows(AllowedOf(old(run), id, limit, window), now, limit, window)
      ensures AllowedOf(run, id, limit, window) ==
              AllowedOf(old(run), id, limit, window) + if ok then [now] else []
      ensures requests == if ok then old(requests)[id := After(Listed(old(requests), id), now - window) + [now]]
                          else old(requests)
    {
      hide AllowedOf, After, Agrees;
      ghost var last := Arrival(id, now);
      var cutoff := now - window;
      AgreesAt(cutoff, last);
      AllowedSnoc(run, last, limit, window);
      var valid := Recent(id, cutoff);
      if |valid| >= limit {
        RefusalKeepsAgreement(requests, run, last, limit, window);
        run := run + [last];
        return false;
      }
      AdmissionKeepsAgreement(requests, run, last, limit, window);
      run := run + [last];
      requests := requests[id := valid + [now]];
      return true;
    }

    lemma AgreesAt(cutoff: int, last: Arrival)
      requires Valid() && Nondecreasing(run + [last]) && cutoff == last.now - window
      ensures Agrees(requests, run, cutoff, limit, window)
      ensures After(Listed(requests, last.id), cutoff) == After(AllowedOf(run, last.id, limit, window), cutoff)
    {
      hide AllowedOf, After;
      NondecreasingPrefix(run, last);
      if run != [] {
        AgreesLater(requests, run, run[|run| - 1].now - window, cutoff, limit, window);
      } else {
        NothingAgrees(cutoff, limit, window);
      }
    }
  }
}
