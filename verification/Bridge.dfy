/** The sync-to-async bridge: any number of threads share an in-flight counter under one lock
    and a client published by double-checked locking under another. */
module Bridge {
  import opened JsonValues

  type Thread = nat
  type Client = nat

  datatype Result = Value | Raised | TimedOut | Overloaded

  /** Where a thread stands. From Entered to Leaving it is inside the try block of `submit`. */
  datatype Pc =
    | Starting | NoClient | HoldsLock | Connecting
    | Ready(client: Client)
    | Entered | HasLoop | Waiting | Leaving(result: Result)
    | Left(result: Result)

  /** The module globals, the threads, and logs: the clients published, the threads whose
      `submit` reached the loop, and the loop threads started and died. `connects` numbers
      connections made. */
  datatype State = State(
    cap: nat,
    inflight: int,
    client: Option<Client>,
    loopAlive: bool,
    initLock: Option<Thread>,
    threads: map<Thread, Pc>,
    connects: nat,
    published: seq<Client>,
    reached: set<Thread>,
    loops: nat,
    deaths: nat)

  function Init(cap: nat): State { State(cap, 0, None, false, None, map[], 0, [], {}, 0, 0) }

  /** Each move is one lock-protected section, or one unprotected read or call. */
  datatype Move =
    | Arrive
    | ReadClient | TakeInitLock | ReadClientAgain | Connected | ConnectFails
    | TryEnter | EnsureLoop | EnsureLoopFails | Schedule | Finish(result: Result) | Leave
    | LoopDies

  predicate At(s: State, t: Thread, pc: Pc) { t in s.threads && s.threads[t] == pc }

  predicate Enabled(s: State, t: Thread, m: Move) {
    match m
    case Arrive => t !in s.threads
    case ReadClient => At(s, t, Starting)
    case TakeInitLock => At(s, t, NoClient) && s.initLock.None?
    case ReadClientAgain => At(s, t, HoldsLock)
    case Connected => At(s, t, Connecting)
    case ConnectFails => At(s, t, Connecting)
    case TryEnter => t in s.threads && s.threads[t].Ready?
    case EnsureLoop => At(s, t, Entered) && s.initLock.None?
    case EnsureLoopFails => At(s, t, Entered) && s.initLock.None?
    case Schedule => At(s, t, HasLoop)
    case Finish(r) => At(s, t, Waiting) && !r.Overloaded?
    case Leave => t in s.threads && s.threads[t].Leaving?
    case LoopDies => s.loopAlive
  }

  function Go(s: State, t: Thread, pc: Pc): State { s.(threads := s.threads[t := pc]) }

  /** `_ensure_loop`: start a loop thread unless one is alive. */
  function WithLoop(s: State): State {
    if s.loopAlive then s else s.(loopAlive := true, loops := s.loops + 1)
  }

  function Next(s: State, t: Thread, m: Move): State
    requires Enabled(s, t, m)
  {
    match m
    case Arrive => Go(s, t, Starting)
    case ReadClient => if s.client.Some? then Go(s, t, Ready(s.client.value)) else Go(s, t, NoClient)
    case TakeInitLock => Go(s, t, HoldsLock).(initLock := Some(t))
    case ReadClientAgain =>
      if s.client.Some? then Go(s, t, Ready(s.client.value)).(initLock := None)
      else WithLoop(Go(s, t, Connecting))
    case Connected =>
      Go(s, t, Ready(s.connects)).(client := Some(s.connects), connects := s.connects + 1,
                                   published := s.published + [s.connects], initLock := None)
    case ConnectFails => Go(s, t, Left(Raised)).(initLock := None)
    case TryEnter =>
      if s.inflight >= s.cap then Go(s, t, Left(Overloaded)) else Go(s, t, Entered).(inflight := s.inflight + 1)
    case EnsureLoop => WithLoop(Go(s, t, HasLoop).(reached := s.reached + {t}))
    case EnsureLoopFails => Go(s, t, Leaving(Raised)).(reached := s.reached + {t})
    case Schedule => Go(s, t, Waiting)
    case Finish(r) => Go(s, t, Leaving(r))
    case Leave => Go(s, t, Left(s.threads[t].result)).(inflight := s.inflight - 1)
    case LoopDies => s.(loopAlive := false, deaths := s.deaths + 1)
  }

  function Exec(s: State, moves: seq<(Thread, Move)>): Option<State> {
    if moves == [] then Some(s)
    else
      match Exec(s, moves[..|moves| - 1])
      case None => None
      case Some(m) =>
        var (t, move) := moves[|moves| - 1];
        if Enabled(m, t, move) then Some(Next(m, t, move)) else None
  }

  ghost predicate Reachable(s: State) { exists cap, moves :: Exec(Init(cap), moves) == Some(s) }

  // ----------------------------------------------------------------- invariant

  predicate IsInside(pc: Pc) { pc.Entered? || pc.HasLoop? || pc.Waiting? || pc.Leaving? }

  /** The callers inside the guarded region. */
  function Inside(threads: map<Thread, Pc>): set<Thread> { set t | t in threads && IsInside(threads[t]) }

  predicate Locking(pc: Pc) { pc.HoldsLock? || pc.Connecting? }

  ghost predicate LockOk(s: State) {
    && (s.initLock.Some? ==> s.initLock.value in s.threads)
    && forall t | t in s.threads :: Locking(s.threads[t]) <==> s.initLock == Some(t)
  }

  ghost predicate ClientOk(s: State) {
    && s.published == (if s.client.Some? then [s.client.value] else [])
    && (forall t | t in s.threads :: s.threads[t].Connecting? ==> s.client.None?)
    && (forall t | t in s.threads :: s.threads[t].Ready? ==> s.client == Some(s.threads[t].client))
  }

  ghost predicate ReachedOk(s: State) {
    forall t | t in s.reached ::
      t in s.threads && (s.threads[t].HasLoop? || s.threads[t].Waiting? || HasResult(s.threads[t]))
  }

  predicate HasResult(pc: Pc) { (pc.Leaving? || pc.Left?) && !pc.result.Overloaded? }

  ghost predicate LeavingOk(s: State) {
    forall t | t in s.threads :: s.threads[t].Leaving? ==> !s.threads[t].result.Overloaded?
  }

  predicate LoopOk(s: State) { s.loops == s.deaths + if s.loopAlive then 1 else 0 }

  ghost predicate Inv(s: State) {
    && LoopOk(s) && s.inflight == |Inside(s.threads)| && s.inflight <= s.cap
    && LockOk(s) && ClientOk(s) && ReachedOk(s)
    && LeavingOk(s)
  }

  lemma InsideAfter(threads: map<Thread, Pc>, t: Thread, pc: Pc)
    ensures Inside(threads[t := pc]) == Inside(threads) - {t} + (if IsInside(pc) then {t} else {})
  {
  }

  lemma CountAfter(threads: map<Thread, Pc>, t: Thread, pc: Pc)
    ensures |Inside(threads[t := pc])| == |Inside(threads)|
      - (if t in threads && IsInside(threads[t]) then 1 else 0) + (if IsInside(pc) then 1 else 0)
  {
    hide Inside;
    InsideAfter(threads, t, pc);
    InsideBefore(threads, t);
  }

  lemma CountStep(s: State, t: Thread, m: Move)
    requires Inv(s) && Enabled(s, t, m)
    ensures Next(s, t, m).inflight == |Inside(Next(s, t, m).threads)| && Next(s, t, m).inflight <= s.cap
  {
    hide Inside, LockOk, ClientOk, ReachedOk, LeavingOk, LoopOk;
    if !m.LoopDies? { CountAfter(s.threads, t, Next(s, t, m).threads[t]); }
  }

  lemma LockStep(s: State, t: Thread, m: Move)
    requires Inv(s) && Enabled(s, t, m)
    ensures LockOk(Next(s, t, m))
  {
    hide Inside, ClientOk, ReachedOk;
  }

  lemma ClientStep(s: State, t: Thread, m: Move)
    requires Inv(s) && Enabled(s, t, m)
    ensures ClientOk(Next(s, t, m))
  {
    hide Inside, ReachedOk;
  }

  lemma ReachedStep(s: State, t: Thread, m: Move)
    requires Inv(s) && Enabled(s, t, m)
    ensures ReachedOk(Next(s, t, m)) && LeavingOk(Next(s, t, m))
  {
    hide Inside, ClientOk, LockOk;
  }

  lemma LoopStep(s: State, t: Thread, m: Move)
    requires LoopOk(s) && Enabled(s, t, m)
    ensures LoopOk(Next(s, t, m))
  {
  }

  /** Every move of every thread keeps the invariant. */
  lemma StepKeepsInv(s: State, t: Thread, m: Move)
    requires Inv(s) && Enabled(s, t, m)
    ensures Inv(Next(s, t, m)) && Next(s, t, m).cap == s.cap
  {
    CountStep(s, t, m);
    LockStep(s, t, m);
    ClientStep(s, t, m);
    ReachedStep(s, t, m);
    LoopStep(s, t, m);
    hide Inside, ClientOk, LockOk, ReachedOk, LeavingOk, LoopOk, Enabled;
  }

  lemma InsideBefore(threads: map<Thread, Pc>, t: Thread)
    ensures t in Inside(threads) <==> t in threads && IsInside(threads[t])
  {
  }

  lemma {:induction false} ExecKeepsInv(s: State, moves: seq<(Thread, Move)>)
    requires Inv(s) && Exec(s, moves).Some?
    ensures Inv(Exec(s, moves).value) && Exec(s, moves).value.cap == s.cap
  {
    hide Inv, Enabled, Next;
    if moves != [] {
      var before := moves[..|moves| - 1];
      ExecKeepsInv(s, before);
      StepKeepsInv(Exec(s, before).value, moves[|moves| - 1].0, moves[|moves| - 1].1);
    }
  }

  lemma ReachableInv(s: State)
    requires Reachable(s)
    ensures Inv(s)
  {
    hide Enabled, Next, Exec;
    var cap, moves :| Exec(Init(cap), moves) == Some(s);
    assert Inside(map[]) == {};
    ExecKeepsInv(Init(cap), moves);
  }

  // ------------------------------------------------------------------ theorems

  /** Under any interleaving and any way out, the counter is the number of callers inside,
      and never leaves 0..cap. */
  lemma CounterIsExact(s: State)
    requires Reachable(s)
    ensures s.inflight == |Inside(s.threads)| && 0 <= s.inflight <= s.cap
  {
    ReachableInv(s);
  }

  /** A caller is shed exactly when `cap` callers are inside, and then never reaches the loop. */
  lemma ShedExactlyWhenFull(s: State, t: Thread)
    requires Reachable(s) && Enabled(s, t, TryEnter)
    ensures Next(s, t, TryEnter).threads[t] == Left(Overloaded) <==> |Inside(s.threads)| == s.cap
  {
    ReachableInv(s);
  }

  lemma ShedCallersNeverReachTheLoop(s: State, t: Thread)
    requires Reachable(s) && At(s, t, Left(Overloaded))
    ensures t !in s.reached && forall m: Move :: m.LoopDies? || !Enabled(s, t, m)
  {
    ReachableInv(s);
  }

  /** At most one client is ever published, and every thread that has one has that one. */
  lemma OneClient(s: State, t: Thread)
    requires Reachable(s)
    ensures |s.published| <= 1
    ensures t in s.threads && s.threads[t].Ready? ==> s.published == [s.threads[t].client]
  {
    ReachableInv(s);
  }

  /** No loop thread is leaked: one is started only when none is alive, so at most one is alive,
      and whoever connects or schedules has just seen one alive. */
  lemma OneLoop(s: State, t: Thread, m: Move)
    requires Reachable(s) && Enabled(s, t, m)
    ensures s.deaths <= s.loops <= s.deaths + 1 && (s.loopAlive <==> s.loops == s.deaths + 1)
    ensures Next(s, t, m).loops > s.loops ==> !s.loopAlive
    ensures m.EnsureLoop? || (m.ReadClientAgain? && s.client.None?) ==> Next(s, t, m).loopAlive
  {
    ReachableInv(s);
  }

  lemma ReadyHasNotReached(s: State, t: Thread)
    requires Reachable(s) && t in s.threads && s.threads[t].Ready?
    ensures t !in s.reached
  {
    ReachableInv(s);
  }

  /** The initialisation lock is held by at most one thread, and only while it connects. */
  lemma OneConnector(s: State, t: Thread, u: Thread)
    requires Reachable(s) && t in s.threads && u in s.threads && Locking(s.threads[t]) && Locking(s.threads[u])
    ensures t == u
  {
    ReachableInv(s);
  }

  // -------------------------------------------------------------------- draining

  ghost predicate Leads(s: State, u: State) { exists moves :: Exec(s, moves) == Some(u) }

  lemma LeadsStep(s: State, u: State, t: Thread, m: Move)
    requires Leads(s, u) && Enabled(u, t, m)
    ensures Leads(s, Next(u, t, m))
  {
    hide Enabled, Next;
    var moves :| Exec(s, moves) == Some(u);
    var longer := moves + [(t, m)];
    assert longer[..|longer| - 1] == moves;
    assert Exec(s, longer) == Some(Next(u, t, m));
  }

  lemma StepOn(s: State, u: State, t: Thread, m: Move)
    requires Leads(s, u) && Inv(u) && Enabled(u, t, m) && !m.LoopDies?
    ensures Leads(s, Next(u, t, m)) && Inv(Next(u, t, m))
    ensures forall x | x in u.threads && x != t :: x in Next(u, t, m).threads && Next(u, t, m).threads[x] == u.threads[x]
    ensures Inside(Next(u, t, m).threads) ==
            Inside(u.threads) - {t} + (if IsInside(Next(u, t, m).threads[t]) then {t} else {})
  {
    hide Inside, Leads, Inv;
    LeadsStep(s, u, t, m);
    StepKeepsInv(u, t, m);
    InsideAfter(u.threads, t, Next(u, t, m).threads[t]);
  }

  lemma HolderLocks(s: State)
    requires Inv(s) && s.initLock.Some?
    ensures s.initLock.value in s.threads && Locking(s.threads[s.initLock.value])
    ensures s.initLock.value !in Inside(s.threads)
  {
  }

  /** Whoever holds the initialisation lock can give it up. */
  lemma LockFrees(s: State, u: State) returns (v: State)
    requires Leads(s, u) && Inv(u)
    ensures Leads(s, v) && Inv(v) && v.initLock.None? && Inside(v.threads) == Inside(u.threads)
  {
    hide Inside, Leads, Inv;
    v := u;
    if u.initLock.Some? {
      var t := u.initLock.value;
      HolderLocks(u);
      if u.threads[t].HoldsLock? {
        StepOn(s, v, t, ReadClientAgain);
        v := Next(v, t, ReadClientAgain);
      }
      if v.threads[t].Connecting? {
        StepOn(s, v, t, ConnectFails);
        v := Next(v, t, ConnectFails);
      }
    }
  }

  /** The next move of a caller inside, and how many it still has. */
  function Onward(pc: Pc): (Move, nat)
    requires IsInside(pc)
  {
    match pc
    case Entered => (EnsureLoop, 4)
    case HasLoop => (Schedule, 3)
    case Waiting => (Finish(TimedOut), 2)
    case Leaving(_) => (Leave, 1)
  }

  lemma OnwardGoesOn(s: State, t: Thread)
    requires s.initLock.None? && t in s.threads && IsInside(s.threads[t])
    ensures var (m, n) := Onward(s.threads[t]);
      && Enabled(s, t, m) && !m.LoopDies? && Next(s, t, m).initLock.None? && t in Next(s, t, m).threads
      && var pc := Next(s, t, m).threads[t];
         if n == 1 then !IsInside(pc) else IsInside(pc) && Onward(pc).1 < n
  {
  }

  /** A caller inside can leave once the initialisation lock is free. */
  lemma {:induction false} CallerLeaves(s: State, u: State, t: Thread) returns (v: State)
    requires Leads(s, u) && Inv(u) && u.initLock.None? && t in u.threads && IsInside(u.threads[t])
    ensures Leads(s, v) && Inv(v) && Inside(v.threads) == Inside(u.threads) - {t}
    decreases Onward(u.threads[t]).1
  {
    hide Leads, Inv, Inside, Next, Enabled, Onward, IsInside;
    var (m, n) := Onward(u.threads[t]);
    OnwardGoesOn(u, t);
    StepOn(s, u, t, m);
    v := Next(u, t, m);
    if n != 1 { v := CallerLeaves(s, v, t); }
  }

  lemma ReachableStep(s: State, t: Thread, m: Move)
    requires Reachable(s) && Enabled(s, t, m)
    ensures Reachable(Next(s, t, m))
  {
    hide Enabled, Next;
    var cap, moves :| Exec(Init(cap), moves) == Some(s);
    var longer := moves + [(t, m)];
    assert longer[..|longer| - 1] == moves;
    assert Exec(Init(cap), longer) == Some(Next(s, t, m));
  }

  /** No slot is ever lost: from every reachable state the counter can drain back to zero. */
  lemma {:induction false} CounterDrains(s: State, u: State) returns (v: State)
    requires Reachable(s) && Leads(s, u) && Inv(u)
    ensures Leads(s, v) && Inv(v) && v.inflight == 0
    decreases |Inside(u.threads)|
  {
    hide Inside, Leads;
    v := u;
    if t :| t in Inside(u.threads) {
      var freed := LockFrees(s, u);
      InsideBefore(freed.threads, t);
      var left := CallerLeaves(s, freed, t);
      v := CounterDrains(s, left);
    }
  }

  // ------------------------------------------------------------- the two functions

  /** What the environment does to one call of `submit`. */
  datatype Fate = LoopFails | Ends(result: Result)

  class Process {
    var s: State

    ghost predicate Valid()
      reads this
    {
      Reachable(s)
    }

    constructor (cap: nat)
      ensures Valid() && s == Init(cap)
    {
      s := Init(cap);
      new;
      assert Exec(Init(cap), []) == Some(s);
    }

    method Do(t: Thread, m: Move)
      requires Valid() && Enabled(s, t, m)
      modifies this
      ensures Valid() && s == Next(old(s), t, m)
    {
      hide Reachable, Enabled, Next;
      ReachableStep(s, t, m);
      s := Next(s, t, m);
    }

    /** The other threads take every move of `moves` that is possible. */
    method Others(t: Thread, moves: seq<(Thread, Move)>)
      requires Valid() && t in s.threads
      modifies this
      ensures Valid() && t in s.threads && s.threads[t] == old(s.threads[t])
      ensures t in s.reached <==> t in old(s.reached)
    {
      hide Reachable;
      for i := 0 to |moves|
        invariant Valid() && t in s.threads && s.threads[t] == old(s.threads[t])
        invariant t in s.reached <==> t in old(s.reached)
      {
        if moves[i].0 != t && Enabled(s, moves[i].0, moves[i].1) { Do(moves[i].0, moves[i].1); }
      }
    }

    /** Block on the initialisation lock: if the others have not freed it, its holder goes on
        until it does. */
    method AwaitInitLock(t: Thread, moves: seq<(Thread, Move)>)
      requires Valid() && t in s.threads && !Locking(s.threads[t])
      modifies this
      ensures Valid() && t in s.threads && s.threads[t] == old(s.threads[t]) && s.initLock.None?
      ensures t in s.reached <==> t in old(s.reached)
    {
      hide Reachable, Inside;
      Others(t, moves);
      ReachableInv(s);
      if s.initLock.Some? {
        var holder := s.initLock.value;
        if s.threads[holder].HoldsLock? { Do(holder, ReadClientAgain); }
        if s.threads[holder].Connecting? { Do(holder, ConnectFails); }
      }
    }

    /** `get_temporal_client`: the first read is outside the lock, the second inside. */
    method GetTemporalClient(t: Thread, connects: bool, others: nat -> seq<(Thread, Move)>) returns (client: Option<Client>)
      requires Valid() && At(s, t, Starting)
      modifies this
      ensures Valid() && t in s.threads && s.threads[t] == (if client.Some? then Ready(client.value) else Left(Raised))
      ensures client.Some? ==> s.published == [client.value]
      ensures client.None? ==> !connects
    {
      hide Reachable;
      Do(t, ReadClient);
      if s.threads[t].NoClient? {
        AwaitInitLock(t, others(0));
        Do(t, TakeInitLock);
        Others(t, others(1));
        Do(t, ReadClientAgain);
        if s.threads[t].Connecting? {
          Others(t, others(2));
          Do(t, if connects then Connected else ConnectFails);
        }
      }
      if s.threads[t].Ready? { OneClient(s, t); }
      return if s.threads[t].Ready? then Some(s.threads[t].client) else None;
    }

    /** `submit`, with its try and finally; Overloaded stands for BridgeOverloadedError. A call
        is shed exactly when `cap` others are inside, without reaching the loop; otherwise it
        gives its slot back however it ends. */
    method Submit(t: Thread, fate: Fate, others: nat -> seq<(Thread, Move)>) returns (result: Result)
      requires Valid() && t in s.threads && s.threads[t].Ready? && (fate.Ends? ==> !fate.result.Overloaded?)
      modifies this
      ensures Valid() && At(s, t, Left(result)) && t !in Inside(s.threads)
      ensures result.Overloaded? <==> |Inside(old(s.threads))| == old(s.cap)
      ensures result.Overloaded? ==> t !in s.reached && s.inflight == old(s.inflight)
      ensures !result.Overloaded? ==>
        t in s.reached && result == (match fate case LoopFails => Raised case Ends(r) => r)
    {
      hide Reachable, Inside;
      CounterIsExact(s);
      ReadyHasNotReached(s, t);
      Do(t, TryEnter);
      if s.threads[t].Entered? {
        RunOnLoop(t, fate, others);
        Others(t, others(3));
        Do(t, Leave);
      }
      InsideBefore(s.threads, t);
      return s.threads[t].result;
    }

    /** The try block of `submit`. */
    method RunOnLoop(t: Thread, fate: Fate, others: nat -> seq<(Thread, Move)>)
      requires Valid() && At(s, t, Entered) && (fate.Ends? ==> !fate.result.Overloaded?)
      modifies this
      ensures Valid() && At(s, t, Leaving(match fate case LoopFails => Raised case Ends(r) => r)) && t in s.reached
    {
      hide Reachable;
      AwaitInitLock(t, others(0));
      if fate.LoopFails? {
        Do(t, EnsureLoopFails);
      } else {
        Do(t, EnsureLoop);
        Others(t, others(1));
        Do(t, Schedule);
        Others(t, others(2));
        Do(t, Finish(fate.result));
      }
    }
  }
}
