/** What each effect of an ingest request does to the whole system, in every reachable state. */
module Ingest {
  import opened JsonValues
  import opened Storage
  import opened Dedup
  import opened Protocol
  import opened Effects
  import opened Invariant

  /** The request has moved, and nothing else has. */
  ghost predicate JustMoves(s: Sys, t: Sys, r: nat, pc: Pc) {
    r in s.requests && t == s.(requests := s.requests[r := s.requests[r].(pc := pc)])
  }

  /** The request has called `start_workflow` and moved, apart from which `u` is reached. */
  ghost predicate JustSends(u: Sys, t: Sys, r: nat, pc: Pc) {
    r in u.requests && t == u.(requests := u.requests[r := u.requests[r].(pc := pc, sent := true)])
  }

  /** A cache hit is answered as a duplicate of the request's own key, and touches nothing. */
  lemma HitsAreAnswered(s: Sys, r: nat)
    requires Reachable(s) && At(s, r, Arrived)
    ensures var q := s.requests[r];
      JustMoves(s, Next(s, CheckCache(r)), r,
                if RedisKey(q.vendor, q.webhookId) in s.cache then Answered(AlreadyReceived(KeyOf(q))) else NotCached)
  {
    hide Inv, Reachable, ValidWebhookId;
    ReachableInv(s);
    var q := s.requests[r];
    CachedIsOwn(s, q);
  }

  lemma CachedIsOwn(s: Sys, q: Request)
    requires Inv(s)
    ensures var entry := RedisKey(q.vendor, q.webhookId); entry in s.cache ==> s.cache[entry] == KeyOf(q)
  {
    hide StoreOk, StartedOk, OpenOk, InflightOk, CommittedOk, ClosedOk, CallsOk, SweepOk, RequestsOk, Bodies, LogOk,
         ReissuedOk, RedisKey, IdempotencyKey;
    var entry := RedisKey(q.vendor, q.webhookId);
    RedisKeyIsPrefixed(q.vendor, q.webhookId);
    if entry in s.cache {
      assert entry[|REDIS_PREFIX|..] == s.cache[entry];
      assert entry[|REDIS_PREFIX|..] == KeyOf(q);
    }
  }

  /** The row of a new event: RECEIVED now, with the request's vendor and body, and nothing yet
      about its outcome. */
  predicate IsNewRow(row: Row, q: Request, id: EventId, now: int) {
    && row.id == id && row.vendor == q.vendor && row.payload == q.body && row.createdAt == now
    && row.status == Received && row.eventType == None && row.normalized == None
    && row.processedAt == None && row.error == None && !row.review
  }

  /** An insert stores the request's own event as the newest row, or finds the key taken, or
      finds it too wide; in the last two cases nothing is stored. */
  lemma InsertsStoreTheEvent(s: Sys, r: nat)
    requires At(s, r, NotCached)
    ensures var q := s.requests[r]; var t := Next(s, InsertEvent(r));
      if TooWide(q) then JustMoves(s, t, r, Answered(InternalError))
      else if KeyOf(q) in s.db.rows then JustMoves(s, t, r, Collided)
      else
        && KeyOf(q) in t.db.rows && IsNewRow(t.db.rows[KeyOf(q)], q, |s.db.order|, s.now)
        && t.db == s.db.(order := s.db.order + [KeyOf(q)], rows := s.db.rows[KeyOf(q) := t.db.rows[KeyOf(q)]])
        && JustMoves(s.(db := t.db), t, r, Resolved(|s.db.order|))
  {
    hide KeyOf;
  }

  /** A request that collides with a row past RECEIVED is answered as a duplicate, and nothing
      is started; for a row still RECEIVED it goes on with that row's id. */
  lemma CollisionsAreAnswered(s: Sys, r: nat)
    requires Reachable(s) && At(s, r, Collided)
    ensures var q := s.requests[r];
      && KeyOf(q) in s.db.rows
      && var row := s.db.rows[KeyOf(q)];
         JustMoves(s, Next(s, ResolveCollision(r)), r,
                   if row.status == Received then Resolved(row.id) else Answered(AlreadyReceived(KeyOf(q))))
  {
    hide Inv, Reachable, IdempotencyKey, ValidWebhookId;
    ReachableInv(s);
    OneRequestOk(s, r);
  }

  /** What a run of this key is to be given: the row's id and the request's body. */
  function OwnArgs(s: Sys, r: nat): Args
    requires r in s.requests && KeyOf(s.requests[r]) in s.db.rows
  {
    Args(s.db.rows[KeyOf(s.requests[r])].id, s.requests[r].body)
  }

  /** While a run of the key is open, a start call changes nothing; otherwise it opens one, just
      started, with these arguments. */
  ghost predicate Opens(s: Sys, u: Sys, key: Key, args: Args) {
    if key in s.open then u == s
    else
      && key in u.started && args in u.started[key]
      && u == s.(open := s.open[key := Run(s.runs, args, s.now, MarkingProcessing)], runs := s.runs + 1,
                 started := s.started[key := u.started[key]])
      && u.started[key] == (if key in s.started then s.started[key] else {}) + {args}
  }

  lemma StartOpens(s: Sys, key: Key, args: Args)
    ensures Opens(s, StartWorkflow(s, key, args), key, args)
  {
  }

  lemma ReadyKnowsRow(s: Sys, r: nat)
    requires Reachable(s) && Ready(s, r)
    ensures var q := s.requests[r]; KeyOf(q) in s.db.rows && q.pc == Resolved(s.db.rows[KeyOf(q)].id)
  {
    hide Inv, Reachable, IdempotencyKey, ValidWebhookId;
    ReachableInv(s);
    OneRequestOk(s, r);
  }

  /** `start_workflow` opens a run on the request's own body, unless one of its key is open; then
      the request is answered as a duplicate. */
  lemma StartsOpenARun(s: Sys, r: nat) returns (u: Sys)
    requires Reachable(s) && Ready(s, r)
    ensures var q := s.requests[r]; var key := KeyOf(q);
      && key in s.db.rows && Opens(s, u, key, OwnArgs(s, r))
      && JustSends(u, Next(s, StartRun(r)), r,
                   if key in s.open then Answered(AlreadyReceived(key)) else Queued(s.db.rows[key].id))
  {
    hide Inv, Reachable, IdempotencyKey, StartWorkflow, Opens;
    ReadyKnowsRow(s, r);
    u := StartWorkflow(s, KeyOf(s.requests[r]), OwnArgs(s, r));
    StartOpens(s, KeyOf(s.requests[r]), OwnArgs(s, r));
    StartIgnoresRequests(s, s.requests, KeyOf(s.requests[r]), OwnArgs(s, r));
  }

  /** A start call without an answer is on its way, with the request's own key and body. */
  lemma LostStartsAreOnTheirWay(s: Sys, r: nat)
    requires Reachable(s) && Ready(s, r)
    ensures KeyOf(s.requests[r]) in s.db.rows
    ensures var call := StartCall(KeyOf(s.requests[r]), OwnArgs(s, r), FromRequest(r));
      var u := s.(calls := s.calls + multiset{call});
      && JustSends(u, Next(s, StartErrs(r)), r, Answered(Unavailable))
      && JustSends(u, Next(s, StartTimesOut(r)), r, Answered(InternalError))
  {
    hide Inv, Reachable, IdempotencyKey;
    ReadyKnowsRow(s, r);
  }

  /** A call that is served opens a run on its arguments, unless one of its key is open. */
  lemma CallsAreServed(s: Sys, call: StartCall) returns (u: Sys)
    requires call in s.calls
    ensures Opens(s.(calls := s.calls - multiset{call}), u, call.key, call.args)
    ensures Next(s, Fire(call)) ==
      if call.origin.FromSweep? then u.(reissued := u.reissued + {call.origin.reissue}) else u
  {
    hide StartWorkflow, Opens;
    u := StartWorkflow(s.(calls := s.calls - multiset{call}), call.key, call.args);
    StartOpens(s.(calls := s.calls - multiset{call}), call.key, call.args);
  }

  /** A request that started its run is answered with its own key, and the next one hits. */
  lemma StartedIsAnswered(s: Sys, r: nat)
    requires r in s.requests && s.requests[r].pc.Queued?
    ensures var q := s.requests[r]; var t := Next(s, MarkSeen(r));
      && JustMoves(s, Next(s, MarkSeenFails(r)), r, Answered(Accepted(KeyOf(q))))
      && JustMoves(s.(cache := t.cache), t, r, Answered(Accepted(KeyOf(q))))
      && t.cache == s.cache[RedisKey(q.vendor, q.webhookId) := KeyOf(q)]
  {
    hide KeyOf, RedisKey;
  }

  /** A service that is down or refuses ends the request with nothing done. */
  lemma FailuresTouchNothing(s: Sys, r: nat)
    requires r in s.requests
    ensures JustMoves(s, Next(s, CacheDown(r)), r, Answered(Unavailable))
    ensures JustMoves(s, Next(s, DatabaseDown(r)), r, Answered(Unavailable))
    ensures JustMoves(s, Next(s, StartFails(r)), r, Answered(Unavailable))
  {
  }
}
