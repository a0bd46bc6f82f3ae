/**
 The idempotency cache of the stub exec agent (cmd/data-exec-agent/main_stub.go), for sequential requests.
 Times are integers (nanoseconds) of a nondecreasing clock.
 */
module ExecAgent {
  import opened Wrappers
  import opened Memory

  const TTL := 24 * 3_600 * 1_000_000_000

  /** A decoded request; `asked` and `done` are the clock readings of the lookup and of the store. */
  datatype Request = Request(key: string, actionType: string, asked: int, done: int)

  datatype CacheEntry = CacheEntry(out: ExecOutput, expireAt: int)

  /** `executed` tells a real execution from a cached answer. */
  datatype Response = Response(out: ExecOutput, executed: bool)

  function Executes(req: Request): ExecOutput {
    ExecOutput(true, "stub executed action_type=" + req.actionType)
  }

  type Cache = map<string, CacheEntry>

  /** The specification of one request: the answer and the cache it leaves. */
  function Served(cache: Cache, req: Request): (Response, Cache) {
    if req.key != "" && req.key in cache && req.asked < cache[req.key].expireAt then
      (Response(cache[req.key].out, false), cache)
    else
      (Response(Executes(req), true),
       if req.key != "" then cache[req.key := CacheEntry(Executes(req), req.done + TTL)] else cache)
  }

  class StubExecAgent {
    var cache: Cache

    constructor ()
      ensures cache == map[]
    {
      cache := map[];
    }

    /** Looks a key up; an expired entry is dropped. */
    method GetCached(key: string, now: int) returns (out: Option<ExecOutput>)
      modifies this
      ensures if key in old(cache) && now < old(cache)[key].expireAt
              then out == Some(old(cache)[key].out) && cache == old(cache)
              else out == None && cache == old(cache) - {key}
    {
      if key in cache {
        if now < cache[key].expireAt { return Some(cache[key].out); }
        cache := cache - {key};
      }
      assert cache == old(cache) - {key};
      return None;
    }

    method PutCached(key: string, out: ExecOutput, ttl: int, now: int)
      modifies this
      ensures cache == old(cache)[key := CacheEntry(out, now + ttl)]
    {
      cache := cache[key := CacheEntry(out, now + ttl)];
    }

    method HandleTask(req: Request) returns (r: Response)
      modifies this
      ensures (r, cache) == Served(old(cache), req)
    {
      if req.key != "" {
        var cached := GetCached(req.key, req.asked);
        if cached.Some? { return Response(cached.value, false); }
      }
      var out := ExecOutput(true, "stub executed action_type=" + req.actionType);
      if req.key != "" {
        PutCached(req.key, out, TTL, req.done);
      }
      assert req.key != "" ==> cache == old(cache)[req.key := CacheEntry(out, req.done + TTL)];
      return Response(out, true);
    }
  }

  // ---------- runs ----------

  function CacheAfter(reqs: seq<Request>): Cache {
    if reqs == [] then map[] else Served(CacheAfter(reqs[..|reqs| - 1]), reqs[|reqs| - 1]).1
  }

  /** The answer to request `i` of a history that starts with an empty cache. */
  function Answer(reqs: seq<Request>, i: nat): Response
    requires i < |reqs|
  {
    Served(CacheAfter(reqs[..i]), reqs[i]).0
  }

  /** In nanoseconds. */
  const A_DAY := 86_400_000_000_000

  /** One request after the other on a clock that never goes back. */
  ghost predicate Sequential(reqs: seq<Request>) {
    && (forall i :: 0 <= i < |reqs| ==> reqs[i].asked <= reqs[i].done)
    && (forall i, j :: 0 <= i < j < |reqs| ==> reqs[i].done <= reqs[j].asked)
  }

  /** Request `i` really executed under `key`. */
  ghost predicate ExecutedAt(reqs: seq<Request>, i: nat, key: string) {
    i < |reqs| && reqs[i].key == key && Answer(reqs, i).executed
  }

  /** A request that executes answers with its own output, and one without a key always executes. */
  lemma ExecutedAnswersForItself(reqs: seq<Request>, n: nat)
    requires n < |reqs|
    ensures Answer(reqs, n).executed ==>
              Answer(reqs, n).out == ExecOutput(true, "stub executed action_type=" + reqs[n].actionType)
    ensures reqs[n].key == "" ==> Answer(reqs, n).executed
  {
  }

  /** The cache holds, for each key, its most recent execution and nothing else. */
  ghost predicate CacheIsLatest(reqs: seq<Request>, n: nat, key: string)
    requires n <= |reqs|
  {
    var cache := CacheAfter(reqs[..n]);
    if key in cache then
      exists i: nat :: i < n && ExecutedAt(reqs, i, key)
        && cache[key] == CacheEntry(Executes(reqs[i]), reqs[i].done + TTL)
        && forall j: nat :: i < j < n ==> !ExecutedAt(reqs, j, key)
    else forall j: nat :: j < n ==> !ExecutedAt(reqs, j, key)
  }

  /** What one more request does to the entry of a key. */
  lemma CacheStep(reqs: seq<Request>, n: nat, key: string)
    requires n < |reqs| && key != ""
    ensures var before, after := CacheAfter(reqs[..n]), CacheAfter(reqs[..n + 1]);
      if ExecutedAt(reqs, n, key) then
        key in after && after[key] == CacheEntry(Executes(reqs[n]), reqs[n].done + TTL)
      else (key in after <==> key in before) && (key in after ==> after[key] == before[key])
  {
    assert reqs[..n + 1][..n] == reqs[..n];
  }

  lemma {:induction false} CacheHoldsTheLatest(reqs: seq<Request>, n: nat, key: string)
    requires n <= |reqs| && key != ""
    ensures CacheIsLatest(reqs, n, key)
  {
    if n > 0 {
      hide CacheAfter, ExecutedAt, Executes;
      CacheHoldsTheLatest(reqs, n - 1, key);
      CacheStep(reqs, n - 1, key);
      var before := CacheAfter(reqs[..n - 1]);
      if !ExecutedAt(reqs, n - 1, key) && key in before {
        var i: nat :| i < n - 1 && ExecutedAt(reqs, i, key)
                      && before[key] == CacheEntry(Executes(reqs[i]), reqs[i].done + TTL)
                      && forall j: nat :: i < j < n - 1 ==> !ExecutedAt(reqs, j, key);
        assert forall j: nat :: i < j < n ==> !ExecutedAt(reqs, j, key);
      }
    }
  }

  /**
   In terms of the history alone: a request with a key executes exactly when no earlier request
   executed under that key less than a day ago; otherwise it is answered with the output of the most
   recent execution under the key.
   */
  lemma ExecutesOncePerTtl(reqs: seq<Request>, n: nat)
    requires Sequential(reqs) && n < |reqs| && reqs[n].key != ""
    ensures Answer(reqs, n).executed <==>
            forall i: nat :: i < n && ExecutedAt(reqs, i, reqs[n].key) ==> reqs[i].done + A_DAY <= reqs[n].asked
    ensures !Answer(reqs, n).executed ==>
            exists i: nat :: i < n && ExecutedAt(reqs, i, reqs[n].key) && Answer(reqs, n).out == Executes(reqs[i])
              && forall j: nat :: i < j < n ==> !ExecutedAt(reqs, j, reqs[n].key)
  {
    hide Executes;
    var key := reqs[n].key;
    CacheHoldsTheLatest(reqs, n, key);
    var cache := CacheAfter(reqs[..n]);
    if key in cache {
      var i: nat :| i < n && ExecutedAt(reqs, i, key)
               && cache[key] == CacheEntry(Executes(reqs[i]), reqs[i].done + TTL)
               && forall j: nat :: i < j < n ==> !ExecutedAt(reqs, j, key);
      forall j: nat | j < n && ExecutedAt(reqs, j, key) ensures reqs[j].done <= reqs[i].done {
        assert j <= i;
      }
    }
  }

  /** Two real executions under one key are at least a day apart, and in between the earlier one's output is served. */
  lemma ExecutionsAreTtlApart(reqs: seq<Request>, i: nat, n: nat)
    requires Sequential(reqs) && i < n < |reqs| && reqs[i].key == reqs[n].key != ""
    requires ExecutedAt(reqs, i, reqs[i].key) && forall j: nat :: i < j < n ==> !ExecutedAt(reqs, j, reqs[i].key)
    ensures if Answer(reqs, n).executed then reqs[n].asked >= reqs[i].done + A_DAY
            else Answer(reqs, n).out == Executes(reqs[i])
  {
    hide Executes;
    ExecutesOncePerTtl(reqs, n);
  }
}
