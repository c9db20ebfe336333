/** Recoverability: from every reachable state an open row can be driven to a terminal
    status by the clock, the sweeper and workers alone, whatever the model calls reply. */
module Recovery {
  import opened JsonValues
  import opened Domain
  import opened Activities
  import opened Pipeline
  import opened Storage
  import opened Protocol
  import opened Effects
  import opened Invariant
  import opened Theorems
  import opened Sweep

  /** What the two model calls reply for each key. */
  datatype Oracle = Oracle(codec: Codec, classifier: Key -> Json, verifier: Key -> Json)

  /** No vendor, no operator and no fault: time passes, the sweeper sweeps, workers work, and
      the model calls give the oracle's replies. A persist whose record does not fit its
      columns can only raise. */
  predicate IsRecovery(o: Oracle, a: Action) {
    || a.Tick? || a.Fire? || a.Deliver? || a.Commit? || a.Report? || a.PersistRaises?
    || (a.ClassifyReturns? && a.classified == Classify(o.codec, o.classifier(a.key)))
    || (a.VerifyReturns? && a.verification == Verify(o.codec, o.verifier(a.key)))
    || a.ScanReceived? || a.ScanProcessing? || a.IssueReissue? || a.CheckReissue? || a.NextReissue? || a.SweepEnds?
  }

  ghost predicate Recovers(o: Oracle, s: Sys, t: Sys) {
    exists acts :: (forall i | 0 <= i < |acts| :: IsRecovery(o, acts[i])) && Exec(s, acts) == Some(t)
  }

  lemma RecoversNothing(o: Oracle, s: Sys)
    ensures Recovers(o, s, s)
  {
    hide Enabled, Next, IsRecovery;
    assert Exec(s, []) == Some(s);
  }

  lemma RecoversTransitive(o: Oracle, s: Sys, t: Sys, u: Sys)
    requires Recovers(o, s, t) && Recovers(o, t, u)
    ensures Recovers(o, s, u)
  {
    hide Exec, IsRecovery;
    var xs :| (forall i | 0 <= i < |xs| :: IsRecovery(o, xs[i])) && Exec(s, xs) == Some(t);
    var ys :| (forall i | 0 <= i < |ys| :: IsRecovery(o, ys[i])) && Exec(t, ys) == Some(u);
    ExecConcat(s, xs, ys);
  }

  lemma RecoversByOne(o: Oracle, s: Sys, a: Action)
    requires Enabled(s, a) && IsRecovery(o, a)
    ensures Recovers(o, s, Next(s, a))
  {
    hide Enabled, Next, IsRecovery;
    assert [a][..0] == [];
    assert Exec(s, [a]) == Some(Next(s, a));
  }

  /** The state a plan has reached: everything it needs to go on. */
  ghost predicate Plan(o: Oracle, s: Sys, t: Sys) {
    Inv(t) && Recovers(o, s, t) && Forward(s, t) && o.codec.currencies == t.config.currencies
  }

  lemma PlanStarts(o: Oracle, s: Sys)
    requires Inv(s) && o.codec.currencies == s.config.currencies
    ensures Plan(o, s, s)
  {
    hide Inv, Recovers, Evolves;
    RecoversNothing(o, s);
    EvolvesReflexive(s.db);
  }

  /** One more recovery action. */
  lemma Step(o: Oracle, s: Sys, t: Sys, a: Action)
    requires Plan(o, s, t) && Enabled(t, a) && IsRecovery(o, a)
    ensures Plan(o, s, Next(t, a)) && Plan(o, t, Next(t, a))
  {
    hide Inv, Enabled, Next, Recovers, IsRecovery, Evolves;
    StepKeepsInv(t, a);
    RecoversByOne(o, t, a);
    RecoversTransitive(o, s, t, Next(t, a));
    EvolvesTransitive(s.db, t.db, Next(t, a).db);
  }

  lemma Chain(o: Oracle, s: Sys, m: Sys, t: Sys)
    requires Plan(o, s, m) && Plan(o, m, t)
    ensures Plan(o, s, t)
  {
    hide Recovers, Evolves, Inv;
    RecoversTransitive(o, s, m, t);
    EvolvesTransitive(s.db, m.db, t.db);
  }

  /** What working on runs leaves alone. */
  ghost predicate OnlyWorks(s: Sys, t: Sys) {
    && t.now == s.now && t.sweep == s.sweep && t.sweeps == s.sweeps && t.calls == s.calls
    && t.reissues == s.reissues && t.reissued == s.reissued && t.started == s.started && t.runs == s.runs
  }

  // ------------------------------------------------------------------ one run

  lemma DispatchWorks(s: Sys, key: Key)
    requires Working(s, key)
    ensures var t := Dispatched(s, key);
      OnlyWorks(s, t) && t.open == s.open && ExecutionOf(key, s.open[key]) in t.inflight
  {
    hide ExecutionOf;
  }

  lemma CommitWorks(s: Sys, x: Execution)
    ensures var t := CommitExecution(s, x); OnlyWorks(s, t) && t.open == s.open && x in t.committed
  {
    hide Perform, NoteRecord, IsLate, RecordIn, ProvenanceIn;
  }

  lemma EnterWorks(s: Sys, key: Key, p: Phase)
    requires key in s.open
    ensures var t := EnterPhase(s, key, p);
      OnlyWorks(s, t) && t.open == s.open[key := s.open[key].(phase := p)] && t.open - {key} == s.open - {key}
  {
  }

  lemma ReportWorks(s: Sys, key: Key)
    requires Working(s, key)
    ensures var t := AfterReport(s, key); OnlyWorks(s, t) && t.db == s.db && t.committed == s.committed
    ensures s.open[key].phase.MarkingProcessing? ==>
      AfterReport(s, key).open == s.open[key := s.open[key].(phase := Classifying)]
    ensures !s.open[key].phase.MarkingProcessing? ==> AfterReport(s, key).open == s.open - {key}
  {
  }

  /** The current activity is delivered, commits and reports. */
  lemma Work(o: Oracle, s: Sys, key: Key) returns (t: Sys)
    requires Inv(s) && Working(s, key) && Commits(CommandOf(s.open[key].phase).value)
    requires o.codec.currencies == s.config.currencies
    ensures Plan(o, s, t) && OnlyWorks(s, t)
    ensures s.open[key].phase.MarkingProcessing? ==>
      t.open == s.open[key := s.open[key].(phase := Classifying)]
    ensures !s.open[key].phase.MarkingProcessing? ==> t.open == s.open - {key} && IsTerminal(t.db, key)
  {
    hide Inv, Recovers, Evolves, Forward, Next, IsTerminal, Enabled, Plan, Commits, Dispatched, CommitExecution,
         AfterReport;
    PlanStarts(o, s);
    var x := ExecutionOf(key, s.open[key]);
    DeliverEffect(s, key);
    DispatchWorks(s, key);
    Step(o, s, s, Deliver(key));
    var a := Dispatched(s, key);
    CommitEffect(a, x);
    CommitWorks(a, x);
    Step(o, s, a, Commit(x));
    var b := CommitExecution(a, x);
    ReportEffect(b, key);
    ReportWorks(b, key);
    Step(o, s, b, Report(key));
    t := AfterReport(b, key);
    if !x.command.DoMarkProcessing? {
      PlanIsSound(o, s, t);
      CommittedTerminal(t, x);
    }
  }

  lemma PlanIsSound(o: Oracle, s: Sys, t: Sys)
    requires Plan(o, s, t)
    ensures Inv(t) && Recovers(o, s, t) && Forward(s, t) && o.codec.currencies == t.config.currencies
  {
    hide Inv, Recovers, Forward;
  }

  function Distance(p: Phase): nat {
    match p
    case MarkingProcessing => 4
    case Classifying => 3
    case Verifying(_) => 2
    case Persisting(_) => 1
    case MarkingFailed(_) => 0
  }

  /** A run that waits for a model call, or whose record does not fit, moves one phase on. */
  lemma MoveOn(o: Oracle, s: Sys, key: Key) returns (t: Sys)
    requires Inv(s) && key in s.open && o.codec.currencies == s.config.currencies
    requires var p := s.open[key].phase;
      p.Classifying? || p.Verifying? || (p.Persisting? && !Storable(p.evidence))
    ensures Plan(o, s, t) && OnlyWorks(s, t)
    ensures key in t.open && Distance(t.open[key].phase) < Distance(s.open[key].phase)
    ensures t.open - {key} == s.open - {key}
  {
    hide Inv, Plan, Next, Enabled, Classify, Verify, Storable, EnterPhase, Returnable, ValidVerification;
    PlanStarts(o, s);
    RepliesGiveValidEvidence(o.codec, o.classifier(key), o.verifier(key));
    match s.open[key].phase
    case Classifying =>
      var c := Classify(o.codec, o.classifier(key));
      ReplyEffect(s, key, c);
      EnterWorks(s, key, ClassifiedPhase(c));
      Step(o, s, s, ClassifyReturns(key, c));
      t := EnterPhase(s, key, ClassifiedPhase(c));
    case Verifying(r) =>
      var v := Verify(o.codec, o.verifier(key));
      VerdictEffect(s, key, v);
      EnterWorks(s, key, Persisting(Evidence(Ok(r), Some(v))));
      Step(o, s, s, VerifyReturns(key, v));
      t := EnterPhase(s, key, Persisting(Evidence(Ok(r), Some(v))));
    case Persisting(_) =>
      RaiseEffect(s, key, "");
      EnterWorks(s, key, MarkingFailed(""));
      Step(o, s, s, PersistRaises(key, ""));
      t := EnterPhase(s, key, MarkingFailed(""));
  }

  /** An open run can be brought to its end, with its row terminal, whatever the model says. */
  lemma FinishRun(o: Oracle, s: Sys, key: Key) returns (t: Sys)
    requires Inv(s) && key in s.open && o.codec.currencies == s.config.currencies
    ensures Plan(o, s, t) && OnlyWorks(s, t)
    ensures t.open == s.open - {key} && IsTerminal(t.db, key)
    decreases Distance(s.open[key].phase)
  {
    hide Inv, Plan, IsTerminal, Storable;
    var p := s.open[key].phase;
    if p.MarkingFailed? || (p.Persisting? && Storable(p.evidence)) {
      t := Work(o, s, key);
    } else {
      var m;
      if p.MarkingProcessing? { m := Work(o, s, key); } else { m := MoveOn(o, s, key); }
      PlanIsSound(o, s, m);
      assert m.open - {key} == s.open - {key};
      t := FinishRun(o, m, key);
      Chain(o, s, m, t);
    }
  }

  /** All open runs can be finished, leaving their rows terminal. */
  lemma FinishAll(o: Oracle, s: Sys) returns (t: Sys)
    requires Inv(s) && o.codec.currencies == s.config.currencies
    ensures Plan(o, s, t) && OnlyWorks(s, t)
    ensures t.open == map[] && forall k | k in s.open :: IsTerminal(t.db, k)
    decreases |s.open|
  {
    hide Inv, Plan, IsTerminal, Forward;
    if s.open == map[] {
      t := s;
      PlanStarts(o, s);
    } else {
      var key :| key in s.open;
      var m := FinishRun(o, s, key);
      PlanIsSound(o, s, m);
      assert |m.open| < |s.open| by { assert m.open.Keys == s.open.Keys - {key}; }
      t := FinishAll(o, m);
      PlanIsSound(o, m, t);
      Chain(o, s, m, t);
      TerminalForward(m, t, key);
    }
  }

  lemma TerminalForward(s: Sys, t: Sys, key: Key)
    requires Forward(s, t) && IsTerminal(s.db, key)
    ensures IsTerminal(t.db, key)
  {
    hide Evolves;
    TerminalSurvives(s.db, t.db, key);
  }

  // ---------------------------------------------------------------- one sweep

  /** What a sweep in progress leaves alone: it only opens runs. */
  ghost predicate OnlyOpens(s: Sys, t: Sys) {
    t.now == s.now && t.db == s.db && t.sweeps == s.sweeps && forall k | k in s.open :: k in t.open
  }

  lemma CheckOpens(s: Sys, x: Reissue)
    requires x.stuck.key in s.db.rows
    ensures var t := AfterCheck(s, x);
      && OnlyOpens(s, t) && t.sweep == s.sweep && t.open == s.open
      && if IsTerminal(s.db, x.stuck.key) then x in t.reissued else CallFor(x) in t.calls
  {
    hide IsTerminal, CallFor;
  }

  lemma FireOpens(s: Sys, x: Reissue)
    ensures var t := AfterFire(s, CallFor(x));
      OnlyOpens(s, t) && t.sweep == s.sweep && x in t.reissued && x.stuck.key in t.open
  {
    hide NoteStart;
  }

  lemma EntryHasRow(s: Sys)
    requires Inv(s) && AtEntry(s)
    ensures s.sweep.stuck[s.sweep.next].key in s.db.rows
  {
    hide Inv, Bodies;
    SweepIsOk(s);
  }

  /** The reissue activity for the current entry runs to completion. */
  lemma ReissueOne(o: Oracle, s: Sys) returns (t: Sys)
    requires Inv(s) && AtEntry(s) && o.codec.currencies == s.config.currencies
    ensures Plan(o, s, t) && OnlyOpens(s, t)
    ensures t.sweep == Reissuing(s.sweep.stuck, s.sweep.next + 1)
    ensures Served(t, s.sweep.stuck[s.sweep.next].key)
  {
    hide Inv, Plan, Next, IsTerminal, Enabled, CallFor, AfterCheck, AfterFire;
    PlanStarts(o, s);
    var x := CurrentReissue(s);
    EntryHasRow(s);
    IssueEffect(s);
    Step(o, s, s, IssueReissue);
    var a := s.(reissues := s.reissues + {x});
    CheckEffect(a, x);
    CheckOpens(a, x);
    Step(o, s, a, CheckReissue(x));
    var c := AfterCheck(a, x);
    if !IsTerminal(s.db, x.stuck.key) {
      FireEffect(c, CallFor(x));
      FireOpens(c, x);
      Step(o, s, c, Fire(CallFor(x)));
      c := AfterFire(c, CallFor(x));
    }
    NextEffect(c);
    Step(o, s, c, NextReissue);
    t := c.(sweep := Reissuing(c.sweep.stuck, c.sweep.next + 1));
  }

  /** The rest of the loop: every remaining entry is served and the sweep ends. */
  lemma ReissueAll(o: Oracle, s: Sys) returns (t: Sys)
    requires Inv(s) && s.sweep.Reissuing? && o.codec.currencies == s.config.currencies
    ensures Plan(o, s, t) && OnlyOpens(s, t) && t.sweep.Idle?
    ensures forall i | s.sweep.next <= i < |s.sweep.stuck| :: Served(t, s.sweep.stuck[i].key)
    decreases |s.sweep.stuck| - s.sweep.next
  {
    hide Inv, Plan, IsTerminal, Next, Enabled;
    PlanStarts(o, s);
    if s.sweep.next < |s.sweep.stuck| {
      var m := ReissueOne(o, s);
      PlanIsSound(o, s, m);
      t := ReissueAll(o, m);
      Chain(o, s, m, t);
    } else {
      NextInBounds(s);
      EndEffect(s, SweepEnds);
      Step(o, s, s, SweepEnds);
      t := s.(sweep := Idle);
    }
  }

  lemma NextInBounds(s: Sys)
    requires Inv(s) && s.sweep.Reissuing?
    ensures s.sweep.next <= |s.sweep.stuck|
  {
    hide Inv, Bodies, ListOk;
    SweepIsOk(s);
  }

  /** A sweep that is under way can be completed. */
  lemma FinishSweep(o: Oracle, s: Sys) returns (t: Sys)
    requires Inv(s) && o.codec.currencies == s.config.currencies
    ensures Plan(o, s, t) && t.sweep.Idle?
  {
    hide Inv, Plan, ListStuck, Next, Enabled;
    PlanStarts(o, s);
    match s.sweep
    case Idle => t := s;
    case Reissuing(_, _) => t := ReissueAll(o, s);
    case ScannedReceived(_) =>
      ScanProcessingEffect(s);
      Step(o, s, s, ScanProcessing);
      var m := SecondScan(s);
      PlanIsSound(o, s, m);
      t := ReissueAll(o, m);
      Chain(o, s, m, t);
  }

  /** No sweep under way and no run open. */
  predicate Calm(s: Sys) { s.sweep.Idle? && s.open == map[] }

  lemma CalmDown(o: Oracle, s: Sys) returns (t: Sys)
    requires Inv(s) && o.codec.currencies == s.config.currencies
    ensures Plan(o, s, t) && Calm(t)
  {
    hide Inv, Plan;
    var m := FinishSweep(o, s);
    PlanIsSound(o, s, m);
    t := FinishAll(o, m);
    Chain(o, s, m, t);
  }

  /** One whole round: a sweep, then every run it left open. All rows listed end terminal. */
  lemma Round(o: Oracle, s: Sys) returns (t: Sys)
    requires Inv(s) && Calm(s) && o.codec.currencies == s.config.currencies
    ensures Plan(o, s, t) && Calm(t) && t.now == s.now
    ensures forall k | k in Received1(s) || k in Processing2(s) :: IsTerminal(t.db, k)
  {
    hide Inv, Plan, IsTerminal, StuckKeys, StuckRow, Next, Enabled, Forward, Received1, Processing2, ListStuck;
    PlanStarts(o, s);
    ScanReceivedEffect(s);
    Step(o, s, s, ScanReceived);
    var a := FirstScan(s);
    ScanProcessingEffect(a);
    Step(o, s, a, ScanProcessing);
    var b := SecondScan(a);
    PlanIsSound(o, s, b);
    var c := ReissueAll(o, b);
    PlanIsSound(o, b, c);
    Chain(o, s, b, c);
    t := FinishAll(o, c);
    PlanIsSound(o, c, t);
    Chain(o, s, c, t);
    assert b.sweep.stuck == Entries(Pass(s, s, s));
    forall k | k in Received1(s) || k in Processing2(s) ensures IsTerminal(t.db, k) {
      EntryOf(Pass(s, s, s), k);
      var i :| 0 <= i < |b.sweep.stuck| && b.sweep.stuck[i].key == k;
      assert Served(c, k);
      if IsTerminal(c.db, k) { TerminalForward(c, t, k); }
    }
  }

  // -------------------------------------------------------------- many rounds

  /** Rounds repeat until the row is terminal; each takes an older open row, or the row
      itself, out of the way. */
  lemma Rounds(o: Oracle, s: Sys, key: Key) returns (t: Sys)
    requires Inv(s) && Calm(s) && PastGraces(s, key) && s.config.limit > 0 && o.codec.currencies == s.config.currencies
    ensures Plan(o, s, t) && IsTerminal(t.db, key)
    decreases |OpenBefore(s.db, s.db.rows[key].id)|
  {
    hide Inv, Plan, Forward, IsTerminal, StuckKeys, OpenBefore, Calm;
    PlanStarts(o, s);
    if IsTerminal(s.db, key) {
      t := s;
    } else {
      var m := Round(o, s);
      PlanIsSound(o, s, m);
      if IsTerminal(m.db, key) {
        t := m;
      } else {
        RoundHelps(s, m, key);
        t := Rounds(o, m, key);
        Chain(o, s, m, t);
      }
    }
  }

  lemma RoundHelps(s: Sys, m: Sys, key: Key)
    requires Inv(s) && Inv(m) && Forward(s, m) && m.now == s.now
    requires PastGraces(s, key) && !IsTerminal(s.db, key) && !IsTerminal(m.db, key) && s.config.limit > 0
    requires forall k | k in Received1(s) || k in Processing2(s) :: IsTerminal(m.db, k)
    ensures PastGraces(m, key) && m.config == s.config
    ensures |OpenBefore(m.db, m.db.rows[key].id)| < |OpenBefore(s.db, s.db.rows[key].id)|
  {
    hide Inv, StuckKeys, OpenBefore, Evolves, FullOfOlder, RowEvolves, Indexed, IsTerminal, Leads;
    LeadsToSelf(s);
    OpenRowsAreListed(s, s, key);
    SweepStateOrdered(s);
    SweepStateOrdered(m);
    RowSurvives(s.db, m.db, key);
    EvolvesReflexive(s.db);
    var keys := if FullOfOlder(s.db, Received1(s), s.config.limit, key) then Received1(s) else Processing2(s);
    assert FullOfOlder(s.db, keys, s.config.limit, key);
    forall i | 0 <= i < |keys| ensures IsTerminal(m.db, keys[i]) { assert keys[i] in keys; }
    ListedRowsLeave(s.db, s.db, m.db, keys, s.config.limit, key);
  }

  /** Recoverability. Whatever interleaving, crashes, timeouts and cache losses led here, and
      whatever the model calls reply, an open row can still be driven to a terminal status
      without its vendor. */
  lemma EveryOpenRowIsRecoverable(o: Oracle, s: Sys, key: Key) returns (t: Sys)
    requires Reachable(s) && key in s.db.rows && s.config.limit > 0 && o.codec.currencies == s.config.currencies
    ensures Recovers(o, s, t) && IsTerminal(t.db, key)
  {
    hide Inv, Plan, Forward, IsTerminal, Reachable, Enabled, Next, Recovers;
    ReachableInv(s);
    var calm := CalmDown(o, s);
    PlanIsSound(o, s, calm);
    RowForward(s, calm, key);
    var wait := s.config.receivedGrace + s.config.processingGrace + 1;
    PlanStarts(o, calm);
    TickEffect(calm, wait);
    Step(o, calm, calm, Tick(wait));
    var later := calm.(now := calm.now + wait);
    PlanIsSound(o, calm, later);
    CreatedBefore(calm, key);
    Chain(o, s, calm, later);
    t := Rounds(o, later, key);
    Chain(o, s, later, t);
    PlanIsSound(o, s, t);
  }

  lemma RowForward(s: Sys, t: Sys, key: Key)
    requires Forward(s, t) && key in s.db.rows
    ensures key in t.db.rows && t.config == s.config
  {
  }

  lemma CreatedBefore(s: Sys, key: Key)
    requires Inv(s) && key in s.db.rows
    ensures s.db.rows[key].createdAt <= s.now
  {
    hide Inv, OrderOk, OwnersOk, Complete, RowOk, ProvenanceOk, RowsVetted, Agreement;
    StoreIsOk(s);
  }
}
