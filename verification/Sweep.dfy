/** The sweeper's queries and what a sequence of sweeps guarantees. */
module Sweep {
  import opened JsonValues
  import opened Storage
  import opened Protocol
  import opened Effects
  import opened Invariant
  import opened Theorems

  // ---------------------------------------------------------------- one query

  ghost predicate Ascending(db: Db, keys: seq<Key>) {
    && (forall i | 0 <= i < |keys| :: keys[i] in db.rows)
    && (forall i, j | 0 <= i < j < |keys| :: db.rows[keys[i]].id < db.rows[keys[j]].id)
  }

  lemma {:induction false} StuckAmongAscends(db: Db, n: nat, status: Status, cutoff: int)
    requires Indexed(db) && n <= |db.order|
    ensures var keys := StuckAmong(db, db.order[..n], status, cutoff);
      Ascending(db, keys) && forall i | 0 <= i < |keys| :: db.rows[keys[i]].id < n
  {
    if n != 0 {
      StuckAmongAscends(db, n - 1, status, cutoff);
      assert db.order[..n][..n - 1] == db.order[..n - 1];
      var key := db.order[n - 1];
      assert key in db.rows && db.rows[key].id == n - 1;
    }
  }

  /** The query is exactly SQL's: the matching rows, oldest first, cut at the limit. A
      matching row that is not listed is passed over for `limit` older ones. */
  lemma StuckKeysAreOldest(db: Db, status: Status, cutoff: int, limit: nat, key: Key)
    requires OrderOk(db)
    ensures var keys := StuckKeys(db, status, cutoff, limit);
      && |keys| <= limit && Ascending(db, keys)
      && (forall i | 0 <= i < |keys| :: db.rows[keys[i]].status == status && db.rows[keys[i]].createdAt < cutoff)
      && (forall i, j | 0 <= i < j < |keys| :: db.rows[keys[i]].createdAt <= db.rows[keys[j]].createdAt)
      && (key in db.rows && db.rows[key].status == status && db.rows[key].createdAt < cutoff && key !in keys ==>
            |keys| == limit && forall i | 0 <= i < |keys| :: db.rows[keys[i]].id < db.rows[key].id)
  {
    hide Sorted;
    var all := StuckAmong(db, db.order, status, cutoff);
    var keys := StuckKeys(db, status, cutoff, limit);
    assert db.order[..|db.order|] == db.order;
    StuckAmongAscends(db, |db.order|, status, cutoff);
    forall i | 0 <= i < |all| ensures IsStuck(db, all[i], status, cutoff) {
      assert all[i] in all;
      StuckAmongAreStuck(db, db.order, status, cutoff, all[i]);
    }
    AscendingIsByAge(db, keys);
    if IsStuck(db, key, status, cutoff) && key !in keys {
      assert key in db.order;
      StuckAmongAreStuck(db, db.order, status, cutoff, key);
      var n :| 0 <= n < |all| && all[n] == key;
      assert n >= limit;
    }
  }

  lemma AscendingIsByAge(db: Db, keys: seq<Key>)
    requires Sorted(db) && Ascending(db, keys)
    ensures forall i, j | 0 <= i < j < |keys| :: db.rows[keys[i]].createdAt <= db.rows[keys[j]].createdAt
  {
  }

  lemma {:induction false} AscendingIsDistinct(db: Db, keys: seq<Key>, k: Key)
    requires Ascending(db, keys)
    ensures multiset(keys)[k] <= 1
  {
    if keys != [] {
      var front, last := keys[..|keys| - 1], keys[|keys| - 1];
      AscendingIsDistinct(db, front, k);
      assert keys == front + [last];
      if k == last { assert k !in front; }
    }
  }

  // ------------------------------------------------------------------ one sweep

  function Received1(s: Sys): seq<Key> {
    StuckKeys(s.db, Received, s.now - s.config.receivedGrace, s.config.limit)
  }

  function Processing2(s: Sys): seq<Key> {
    StuckKeys(s.db, Processing, s.now - s.config.processingGrace, s.config.limit)
  }

  /** Every row a scan lists has its status, is older than its grace, and comes with its id and
      payload; and each scan lists at most `limit` rows. */
  lemma ScansListOldRows(s: Sys)
    requires Reachable(s)
    ensures |ListReceived(s)| <= s.config.limit && |ListProcessing(s)| <= s.config.limit
    ensures forall x | x in ListReceived(s) ::
      && x.key in s.db.rows && s.db.rows[x.key].status == Received
      && s.db.rows[x.key].createdAt < s.now - s.config.receivedGrace
      && x.args == Args(s.db.rows[x.key].id, s.db.rows[x.key].payload)
    ensures forall x | x in ListProcessing(s) ::
      && x.key in s.db.rows && s.db.rows[x.key].status == Processing
      && s.db.rows[x.key].createdAt < s.now - s.config.processingGrace
      && x.args == Args(s.db.rows[x.key].id, s.db.rows[x.key].payload)
  {
    hide Inv, Reachable, StuckKeys, OrderOk;
    ReachableInv(s);
    InvIsOrdered(s);
    StuckKeysAreOldest(s.db, Received, s.now - s.config.receivedGrace, s.config.limit, "");
    StuckKeysAreOldest(s.db, Processing, s.now - s.config.processingGrace, s.config.limit, "");
  }

  /** Old enough for both scans. */
  predicate PastGraces(s: Sys, key: Key) {
    && key in s.db.rows
    && s.db.rows[key].createdAt < s.now - s.config.receivedGrace
    && s.db.rows[key].createdAt < s.now - s.config.processingGrace
  }

  /** A row that stays open through both scans is listed, or the scan that should have
      listed it is full of older open rows. */
  lemma OpenRowsAreListed(s: Sys, t: Sys, key: Key)
    requires Inv(s) && Leads(s, t)
    requires PastGraces(s, key) && !IsTerminal(t.db, key)
    ensures key in Received1(s) || key in Processing2(t)
            || FullOfOlder(s.db, Received1(s), s.config.limit, key)
            || FullOfOlder(t.db, Processing2(t), s.config.limit, key)
  {
    hide Inv, Leads, OrderOk, StuckKeys;
    LeadsKeepsInv(s, t);
    InvIsOrdered(s);
    InvIsOrdered(t);
    StuckKeysAreOldest(s.db, Received, s.now - s.config.receivedGrace, s.config.limit, key);
    StuckKeysAreOldest(t.db, Processing, t.now - t.config.processingGrace, t.config.limit, key);
    if s.db.rows[key].status.Received? {
      assert IsStuck(s.db, key, Received, s.now - s.config.receivedGrace);
    } else {
      assert t.db.rows[key].status.Processing?;
      assert IsStuck(t.db, key, Processing, t.now - t.config.processingGrace);
    }
  }

  /** `limit` distinct rows, all open and older than the key's. */
  ghost predicate FullOfOlder(db: Db, keys: seq<Key>, limit: nat, key: Key) {
    && key in db.rows && |keys| == limit && Ascending(db, keys)
    && forall i | 0 <= i < |keys| :: !IsTerminal(db, keys[i]) && db.rows[keys[i]].id < db.rows[key].id
  }

  lemma InvIsOrdered(s: Sys)
    requires Inv(s)
    ensures OrderOk(s.db)
  {
    hide ActorsOk, ProvenanceOk, RowsTraced, Agreement, Complete, OwnersOk, OrderOk, RowsOk;
  }

  /** Two scans that are not atomic together miss nothing, because RECEIVED is scanned first
      and status only moves forward; and no key is listed more than twice. */
  lemma TwoScansMissNothing(s: Sys, t: Sys, key: Key)
    requires Reachable(s) && Leads(s, t)
    requires PastGraces(s, key) && !IsTerminal(t.db, key)
    requires |Received1(s)| < s.config.limit && |Processing2(t)| < s.config.limit
    ensures key in Received1(s) + Processing2(t)
    ensures forall k :: multiset(Received1(s) + Processing2(t))[k] <= 2
  {
    hide Inv, Leads, OrderOk, StuckKeys;
    ReachableInv(s);
    OpenRowsAreListed(s, t, key);
    LeadsKeepsInv(s, t);
    InvIsOrdered(s);
    InvIsOrdered(t);
    StuckKeysAreOldest(s.db, Received, s.now - s.config.receivedGrace, s.config.limit, key);
    StuckKeysAreOldest(t.db, Processing, t.now - t.config.processingGrace, t.config.limit, key);
    forall k ensures multiset(Received1(s) + Processing2(t))[k] <= 2 {
      AscendingIsDistinct(s.db, Received1(s), k);
      AscendingIsDistinct(t.db, Processing2(t), k);
      assert multiset(Received1(s) + Processing2(t)) == multiset(Received1(s)) + multiset(Processing2(t));
    }
  }

  // ------------------------------------------------------- what a done reissue means

  /** The row is finished or being worked on. */
  predicate Served(s: Sys, key: Key) { IsTerminal(s.db, key) || key in s.open }

  /** At some moment between two states the row was finished or being worked on. */
  ghost predicate ServedBetween(s: Sys, t: Sys, key: Key) {
    exists m :: Leads(s, m) && Leads(m, t) && Served(m, key)
  }

  /** Only checking a row that is terminal, or serving a start call, completes a reissue. */
  lemma OthersReissueNothing(s: Sys, a: Action)
    requires Enabled(s, a) && !IsStart(a)
    ensures Next(s, a).reissued == s.reissued
  {
    hide Enabled, Next, StillOpen;
    KindsCover(a);
    if a.Receive? { ReceiveFrame(s, a); }
    else if IsRequest(a) { RequestFrame(s, a); }
    else if IsPhase(a) { PhaseFrame(s, a); }
    else if IsStore(a) { StoreFrame(s, a); }
    else { SweepFrame(s, a); }
  }

  lemma FireServes(s: Sys, call: StartCall, x: Reissue)
    requires Inv(s) && call in s.calls && x in AfterFire(s, call).reissued && x !in s.reissued
    ensures Served(AfterFire(s, call), x.stuck.key)
  {
    hide Inv, AfterFire, OnlyStarts, IsTerminal, Refers;
    FireFrame(s, call);
    CallIsOk(s, call);
  }

  lemma CheckServes(s: Sys, x: Reissue, y: Reissue)
    requires Inv(s) && y in s.reissues && x in AfterCheck(s, y).reissued && x !in s.reissued
    ensures Served(AfterCheck(s, y), x.stuck.key)
  {
    hide Inv, IsTerminal, CallFor;
    ReissueRefers(s, y);
  }

  lemma NewlyReissued(s: Sys, a: Action, x: Reissue)
    requires Inv(s) && Enabled(s, a) && x in Next(s, a).reissued && x !in s.reissued
    ensures Served(Next(s, a), x.stuck.key)
  {
    hide Inv, Next, Enabled, Served, AfterFire, AfterCheck;
    CallOrReissueIsThere(s, a);
    if a.Fire? {
      FireEffect(s, a.call);
      FireServes(s, a.call, x);
    } else if a.CheckReissue? {
      CheckEffect(s, a.issued);
      CheckServes(s, x, a.issued);
    } else {
      OthersReissueNothing(s, a);
    }
  }

  lemma CallOrReissueIsThere(s: Sys, a: Action)
    requires Enabled(s, a)
    ensures a.Fire? ==> a.call in s.calls
    ensures a.CheckReissue? ==> a.issued in s.reissues
  {
  }

  lemma {:induction false} ReissuedAlong(s: Sys, acts: seq<Action>, x: Reissue)
    requires Inv(s) && Exec(s, acts).Some? && x !in s.reissued && x in Exec(s, acts).value.reissued
    ensures ServedBetween(s, Exec(s, acts).value, x.stuck.key)
  {
    hide Inv, Enabled, Next, Served;
    var t := Exec(s, acts).value;
    var before := acts[..|acts| - 1];
    var m := Exec(s, before).value;
    ExecKeepsInv(s, before);
    OneStep(m, acts[|acts| - 1]);
    assert Leads(s, t) && Leads(s, m);
    if x in m.reissued {
      ReissuedAlong(s, before, x);
      var n :| Leads(s, n) && Leads(n, m) && Served(n, x.stuck.key);
      LeadsTransitive(n, m, t);
    } else {
      NewlyReissued(m, acts[|acts| - 1], x);
      LeadsToSelf(t);
    }
  }

  /** A reissue completed between two states had its row finished, or a run of it open, at
      some moment between them. */
  lemma ReissuedMeansServed(s: Sys, t: Sys, x: Reissue)
    requires Inv(s) && Leads(s, t) && x !in s.reissued && x in t.reissued
    ensures ServedBetween(s, t, x.stuck.key)
  {
    hide Inv, Exec, Served;
    var acts :| Exec(s, acts) == Some(t);
    ReissuedAlong(s, acts, x);
  }

  /** One sweep: the states of its two scans, and the one in which its loop has ended. */
  datatype Pass = Pass(first: Sys, second: Sys, last: Sys)

  /** The rows the loop of this sweep walks over. */
  function Entries(p: Pass): seq<Stuck> { ListReceived(p.first) + ListProcessing(p.second) }

  /** The sweep ran to its end: its reissue activities are all done. */
  ghost predicate Ran(p: Pass) {
    && p.first.sweep.Idle? && Leads(p.first, p.second) && Leads(p.second, p.last)
    && forall i | 0 <= i < |Entries(p)| :: Reissue(p.first.sweeps + 1, i, Entries(p)[i]) in p.last.reissued
  }

  lemma NoneAhead(s: Sys, x: Reissue)
    requires Inv(s) && x.sweep > s.sweeps
    ensures x !in s.reissued
  {
    hide StoreOk, StartedOk, OpenOk, InflightOk, CommittedOk, ClosedOk, SweepOk, RequestsOk, CacheOk, Bodies, CallsOk,
         ReissuedOk, CallFor;
  }

  /** A sweep that ran has had every row it listed finished or worked on while it ran. */
  lemma RanServes(p: Pass, i: nat)
    requires Reachable(p.first) && Ran(p) && i < |Entries(p)|
    ensures ServedBetween(p.first, p.last, Entries(p)[i].key)
  {
    hide Inv, Reachable, Leads, Served;
    var x := Reissue(p.first.sweeps + 1, i, Entries(p)[i]);
    ReachableInv(p.first);
    NoneAhead(p.first, x);
    LeadsTransitive(p.first, p.second, p.last);
    ReissuedMeansServed(p.first, p.last, x);
  }

  lemma ListHas(db: Db, listed: seq<Stuck>, status: Status, cutoff: int, limit: nat, key: Key)
    requires listed == ListStuck(db, status, cutoff, limit) && key in StuckKeys(db, status, cutoff, limit)
    ensures exists i :: 0 <= i < |listed| && listed[i].key == key
  {
    hide StuckKeys;
    var keys := StuckKeys(db, status, cutoff, limit);
    var i :| 0 <= i < |keys| && keys[i] == key;
    assert listed[i].key == key;
  }

  lemma EntryOf(p: Pass, key: Key)
    requires Lists(p, key)
    ensures exists i :: 0 <= i < |Entries(p)| && Entries(p)[i].key == key
  {
    hide StuckKeys, ListStuck;
    var a, b := ListReceived(p.first), ListProcessing(p.second);
    if key in Received1(p.first) {
      ListHas(p.first.db, a, Received, p.first.now - p.first.config.receivedGrace, p.first.config.limit, key);
      var i :| 0 <= i < |a| && a[i].key == key;
      assert Entries(p)[i].key == key;
    } else {
      ListHas(p.second.db, b, Processing, p.second.now - p.second.config.processingGrace, p.second.config.limit, key);
      var i :| 0 <= i < |b| && b[i].key == key;
      assert Entries(p)[|a| + i].key == key;
    }
  }

  /** A sweep whose scans have room to spare lists every row that is past its grace at the
      first scan and still open when the sweep ends. */
  lemma PassCovers(p: Pass, key: Key)
    requires Reachable(p.first) && Leads(p.first, p.second) && Leads(p.second, p.last)
    requires PastGraces(p.first, key) && !IsTerminal(p.last.db, key) && |Entries(p)| < p.first.config.limit
    ensures Lists(p, key)
  {
    hide Inv, Leads, StuckKeys, ListStuck, PastGraces, Reachable;
    ReachableInv(p.first);
    LeadsKeepsInv(p.first, p.second);
    LeadsKeepsInv(p.second, p.last);
    OpenBeforehand(p.first, p.second, p.last, key);
    OpenRowsAreListed(p.first, p.second, key);
  }

  /** The i-th row that a sweep lists is past the grace of its scan, seen from the sweep's end. */
  ghost predicate PastItsGrace(p: Pass, i: nat)
    requires i < |Entries(p)|
  {
    && Entries(p)[i].key in p.last.db.rows
    && p.last.db.rows[Entries(p)[i].key].createdAt < p.last.now -
         if i < |ListReceived(p.first)| then p.last.config.receivedGrace else p.last.config.processingGrace
  }

  lemma EntriesAreOld(p: Pass, i: nat)
    requires Reachable(p.first) && Leads(p.first, p.second) && Leads(p.second, p.last) && i < |Entries(p)|
    ensures PastItsGrace(p, i)
  {
    hide Inv, Reachable, Leads, ListStuck, Evolves;
    ReachableLeads(p.first, p.second);
    ReachableInv(p.first);
    LeadsKeepsInv(p.first, p.second);
    LeadsKeepsInv(p.second, p.last);
    ScansListOldRows(p.first);
    ScansListOldRows(p.second);
    var x := Entries(p)[i];
    if i < |ListReceived(p.first)| {
      assert x in ListReceived(p.first);
      AgeStays(p.first, p.second, x.key);
    } else {
      assert x in ListProcessing(p.second);
    }
    AgeStays(p.second, p.last, x.key);
  }

  lemma AgeStays(s: Sys, t: Sys, key: Key)
    requires Forward(s, t) && key in s.db.rows
    ensures key in t.db.rows && t.db.rows[key].createdAt == s.db.rows[key].createdAt
  {
  }

  lemma OpenBeforehand(s: Sys, m: Sys, t: Sys, key: Key)
    requires PastGraces(s, key) && Forward(s, m) && Forward(m, t) && !IsTerminal(t.db, key)
    ensures !IsTerminal(m.db, key)
  {
  }

  lemma GracesStayPast(s: Sys, t: Sys, key: Key)
    requires PastGraces(s, key) && Forward(s, t)
    ensures PastGraces(t, key)
  {
  }

  /** A sweep lists at most twice the limit. */
  lemma EntriesAreFew(p: Pass)
    requires p.second.config == p.first.config
    ensures |Entries(p)| <= 2 * p.first.config.limit
  {
  }

  // ----------------------------------------------------------- many sweeps

  /** The open rows with a smaller id: what can stand between a row and the sweeper. */
  function OpenBefore(db: Db, id: EventId): set<Key> {
    set k | k in db.rows && db.rows[k].id < id && !Terminal(db.rows[k].status)
  }

  lemma {:induction false} SubsetIsSmaller<T>(a: set<T>, b: set<T>)
    requires a <= b
    ensures |a| <= |b|
    ensures a != b ==> |a| < |b|
    decreases b
  {
    if x :| x in b {
      if x in a {
        SubsetIsSmaller(a - {x}, b - {x});
        assert a == (a - {x}) + {x} && b == (b - {x}) + {x};
      } else {
        SubsetIsSmaller(a, b - {x});
      }
    }
  }

  function Elements<T(==)>(keys: seq<T>): set<T> { set k | k in keys }

  lemma {:induction false} DistinctCount(db: Db, keys: seq<Key>)
    requires Ascending(db, keys)
    ensures |Elements(keys)| == |keys|
  {
    if keys != [] {
      var front, last := keys[..|keys| - 1], keys[|keys| - 1];
      DistinctCount(db, front);
      SplitLast(keys);
      assert last !in front;
    }
  }

  lemma SplitLast<T>(keys: seq<T>)
    requires keys != []
    ensures Elements(keys) == Elements(keys[..|keys| - 1]) + {keys[|keys| - 1]}
  {
    var front, last := keys[..|keys| - 1], keys[|keys| - 1];
    assert keys == front + [last];
  }

  /** New inserts never get in front. */
  lemma OpenBeforeShrinks(a: Db, b: Db, id: EventId)
    requires Evolves(a, b) && Indexed(a) && Indexed(b) && id <= |a.order|
    ensures OpenBefore(b, id) <= OpenBefore(a, id)
  {
    forall k | k in OpenBefore(b, id) ensures k in OpenBefore(a, id) {
      assert a.order[b.rows[k].id] == b.order[b.rows[k].id] == k;
    }
  }

  /** Finishing `limit` older rows takes that many out of the way. */
  lemma ListedRowsLeave(a: Db, m: Db, b: Db, keys: seq<Key>, limit: nat, key: Key)
    requires Evolves(a, m) && Evolves(m, b) && Indexed(a) && Indexed(b) && Indexed(m) && key in a.rows
    requires FullOfOlder(m, keys, limit, key)
    requires forall i | 0 <= i < |keys| :: IsTerminal(b, keys[i])
    ensures |OpenBefore(b, a.rows[key].id)| + limit <= |OpenBefore(a, a.rows[key].id)|
  {
    hide Evolves, Indexed;
    var id := a.rows[key].id;
    assert id == m.rows[key].id && id <= |a.order| && id <= |m.order| by { RowKeepsId(a, m, key); }
    OpenBeforeShrinks(a, m, id);
    OpenBeforeShrinks(m, b, id);
    var listed := Elements(keys);
    DistinctCount(m, keys);
    assert listed <= OpenBefore(m, id);
    assert OpenBefore(b, id) <= OpenBefore(a, id) - listed;
    SubsetIsSmaller(OpenBefore(b, id), OpenBefore(a, id) - listed);
    assert |OpenBefore(a, id) - listed| == |OpenBefore(a, id)| - |listed|;
  }

  lemma RowKeepsId(a: Db, m: Db, key: Key)
    requires Evolves(a, m) && Indexed(a) && key in a.rows
    ensures key in m.rows && m.rows[key].id == a.rows[key].id && a.rows[key].id < |a.order| <= |m.order|
  {
  }

  predicate Lists(p: Pass, key: Key) { key in Received1(p.first) || key in Processing2(p.second) }

  /** A history of sweeps in which everything listed is terminal by the next sweep. */
  ghost predicate Effective(sweeps: seq<Pass>) {
    && (forall i | 0 <= i < |sweeps| :: Leads(sweeps[i].first, sweeps[i].second))
    && (forall i | 0 < i < |sweeps| ::
          && Leads(sweeps[i - 1].second, sweeps[i].first)
          && forall k | Lists(sweeps[i - 1], k) :: IsTerminal(sweeps[i].first.db, k))
  }

  lemma PassedOverOnce(now: Pass, next: Sys, key: Key)
    requires Inv(now.first) && Leads(now.first, now.second) && Leads(now.second, next)
    requires forall k | Lists(now, k) :: IsTerminal(next.db, k)
    requires PastGraces(now.first, key) && !IsTerminal(now.second.db, key) && !Lists(now, key)
    ensures Inv(next) && PastGraces(next, key) && next.config == now.first.config
    ensures next.db.rows[key].id == now.first.db.rows[key].id
    ensures |OpenBefore(next.db, next.db.rows[key].id)| + next.config.limit
         <= |OpenBefore(now.first.db, now.first.db.rows[key].id)|
  {
    hide Inv, Leads, OrderOk, StuckKeys, Evolves, FullOfOlder, RowEvolves, OpenBefore, IsTerminal;
    var a, m, b := now.first, now.second, next;
    LeadsKeepsInv(a, m);
    LeadsKeepsInv(m, b);
    OpenRowsAreListed(a, m, key);
    SweepStateOrdered(a); SweepStateOrdered(m); SweepStateOrdered(b);
    RowSurvives(a.db, m.db, key);
    RowSurvives(m.db, b.db, key);
    EvolvesReflexive(a.db);
    if FullOfOlder(a.db, Received1(a), a.config.limit, key) {
      forall i | 0 <= i < |Received1(a)| ensures IsTerminal(b.db, Received1(a)[i]) {
        assert Received1(a)[i] in Received1(a);
      }
      EvolvesTransitive(a.db, m.db, b.db);
      ListedRowsLeave(a.db, a.db, b.db, Received1(a), a.config.limit, key);
    } else {
      forall i | 0 <= i < |Processing2(m)| ensures IsTerminal(b.db, Processing2(m)[i]) {
        assert Processing2(m)[i] in Processing2(m);
      }
      ListedRowsLeave(a.db, m.db, b.db, Processing2(m), a.config.limit, key);
    }
  }

  lemma SweepStateOrdered(s: Sys)
    requires Inv(s)
    ensures Indexed(s.db)
  {
    hide Inv, Indexed, Sorted;
    InvIsOrdered(s);
  }

  lemma RowSurvives(a: Db, b: Db, key: Key)
    requires Evolves(a, b) && key in a.rows
    ensures key in b.rows && b.rows[key].createdAt == a.rows[key].createdAt && b.rows[key].id == a.rows[key].id
  {
  }

  lemma {:induction false} PassedOverSweeps(sweeps: seq<Pass>, key: Key)
    requires |sweeps| > 0 && Effective(sweeps) && Inv(sweeps[0].first) && PastGraces(sweeps[0].first, key)
    requires forall i | 0 <= i < |sweeps| :: !IsTerminal(sweeps[i].second.db, key) && !Lists(sweeps[i], key)
    ensures var last := sweeps[|sweeps| - 1]; var n := |sweeps| - 1;
      && Inv(last.first) && PastGraces(last.first, key)
      && last.first.config == sweeps[0].first.config
      && last.first.db.rows[key].id == sweeps[0].first.db.rows[key].id
      && |OpenBefore(last.first.db, last.first.db.rows[key].id)| + n * last.first.config.limit
         <= |OpenBefore(sweeps[0].first.db, sweeps[0].first.db.rows[key].id)|
  {
    hide Inv, Leads, StuckKeys, OpenBefore, IsTerminal;
    var n := |sweeps| - 1;
    if n > 0 {
      var front := sweeps[..n];
      assert Effective(front);
      PassedOverSweeps(front, key);
      assert front[n - 1] == sweeps[n - 1];
      PassedOverOnce(sweeps[n - 1], sweeps[n].first, key);
      MulStep(n, sweeps[0].first.config.limit);
    }
  }

  lemma MulStep(n: nat, limit: nat)
    requires n > 0
    ensures (n - 1) * limit + limit == n * limit
  {
  }

  /** With m older open rows, a row past both graces that stays open is listed within the
      first floor(m / limit) + 1 effective sweeps, whatever is inserted meanwhile. */
  lemma ListedInTime(sweeps: seq<Pass>, key: Key)
    requires |sweeps| > 0 && Effective(sweeps)
    requires Reachable(sweeps[0].first) && PastGraces(sweeps[0].first, key)
    requires sweeps[0].first.config.limit > 0
    requires var s := sweeps[0].first;
      |sweeps| == |OpenBefore(s.db, s.db.rows[key].id)| / s.config.limit + 1
    requires forall i | 0 <= i < |sweeps| :: !IsTerminal(sweeps[i].second.db, key)
    ensures exists i :: 0 <= i < |sweeps| && Lists(sweeps[i], key)
  {
    hide Inv, StuckKeys, OpenBefore, IsTerminal, Leads;
    if forall i | 0 <= i < |sweeps| :: !Lists(sweeps[i], key) {
      ReachableInv(sweeps[0].first);
      PassedOverSweeps(sweeps, key);
      var last := sweeps[|sweeps| - 1];
      var m := |OpenBefore(sweeps[0].first.db, sweeps[0].first.db.rows[key].id)|;
      var limit := sweeps[0].first.config.limit;
      NoRoomLeft(last, key, m, limit);
    }
  }

  /** Each sweep starts after the one before it. */
  ghost predicate InTurn(sweeps: seq<Pass>) {
    forall i | 0 < i < |sweeps| :: Leads(sweeps[i - 1].last, sweeps[i].first)
  }

  lemma {:induction false} TurnIsReachable(sweeps: seq<Pass>, i: nat)
    requires i < |sweeps| && Reachable(sweeps[0].first) && InTurn(sweeps)
    requires forall j | 0 <= j < |sweeps| :: Ran(sweeps[j])
    ensures Reachable(sweeps[i].first)
  {
    hide Reachable, Leads;
    if i > 0 {
      TurnIsReachable(sweeps, i - 1);
      var p := sweeps[i - 1];
      ReachableLeads(p.first, p.second);
      ReachableLeads(p.second, p.last);
      ReachableLeads(p.last, sweeps[i].first);
    }
  }

  /** Fairness. Sweeps that run to their end, one after the other, and leave every row they
      list terminal by the next one, reach a row past both graces with m older open rows
      within floor(m / limit) + 1 sweeps, whatever is inserted meanwhile: unless it is
      finished before, one of them lists it, and while that sweep runs the row is finished
      or has a run open. */
  lemma SweepIsFair(sweeps: seq<Pass>, key: Key)
    requires |sweeps| > 0 && Reachable(sweeps[0].first) && PastGraces(sweeps[0].first, key)
    requires sweeps[0].first.config.limit > 0
    requires InTurn(sweeps) && forall i | 0 <= i < |sweeps| :: Ran(sweeps[i])
    requires forall i, k | 0 < i < |sweeps| && Lists(sweeps[i - 1], k) :: IsTerminal(sweeps[i].first.db, k)
    requires var s := sweeps[0].first;
      |sweeps| == |OpenBefore(s.db, s.db.rows[key].id)| / s.config.limit + 1
    requires forall i | 0 <= i < |sweeps| :: !IsTerminal(sweeps[i].second.db, key)
    ensures exists i :: 0 <= i < |sweeps| && Lists(sweeps[i], key)
                        && ServedBetween(sweeps[i].first, sweeps[i].last, key)
  {
    hide StuckKeys, OpenBefore, IsTerminal, Leads, Reachable, ListStuck, ServedBetween, PastGraces, Lists;
    forall i | 0 < i < |sweeps| ensures Leads(sweeps[i - 1].second, sweeps[i].first) {
      LeadsTransitive(sweeps[i - 1].second, sweeps[i - 1].last, sweeps[i].first);
    }
    assert Effective(sweeps);
    ListedInTime(sweeps, key);
    var i :| 0 <= i < |sweeps| && Lists(sweeps[i], key);
    TurnIsReachable(sweeps, i);
    EntryOf(sweeps[i], key);
    var n :| 0 <= n < |Entries(sweeps[i])| && Entries(sweeps[i])[n].key == key;
    RanServes(sweeps[i], n);
  }

  /** The last sweep would still need `limit` older rows, which are no longer there. */
  lemma NoRoomLeft(last: Pass, key: Key, m: nat, limit: nat)
    requires Inv(last.first) && Leads(last.first, last.second) && limit == last.first.config.limit > 0
    requires PastGraces(last.first, key) && !IsTerminal(last.second.db, key)
    requires |OpenBefore(last.first.db, last.first.db.rows[key].id)| + (m / limit) * limit <= m
    ensures Lists(last, key)
  {
    hide Inv, Leads, StuckKeys, Evolves, RowEvolves, FullOfOlder, IsTerminal, OpenBefore;
    var a, b := last.first, last.second;
    OpenRowsAreListed(a, b, key);
    LeadsKeepsInv(a, b);
    SweepStateOrdered(a); SweepStateOrdered(b);
    RowSurvives(a.db, b.db, key);
    assert m - (m / limit) * limit < limit;
    if !Lists(last, key) {
      EvolvesReflexive(a.db);
      if FullOfOlder(a.db, Received1(a), limit, key) { FullNeedsRoom(a.db, a.db, Received1(a), limit, key); }
      else { FullNeedsRoom(a.db, b.db, Processing2(b), limit, key); }
    }
  }

  lemma FullNeedsRoom(a: Db, m: Db, keys: seq<Key>, limit: nat, key: Key)
    requires Evolves(a, m) && Indexed(a) && Indexed(m) && key in a.rows && FullOfOlder(m, keys, limit, key)
    ensures limit <= |OpenBefore(a, a.rows[key].id)|
  {
    hide Evolves, Indexed;
    var id := a.rows[key].id;
    RowKeepsId(a, m, key);
    OpenBeforeShrinks(a, m, id);
    DistinctCount(m, keys);
    var listed := Elements(keys);
    assert listed <= OpenBefore(m, id);
    SubsetIsSmaller(listed, OpenBefore(a, id));
  }
}
