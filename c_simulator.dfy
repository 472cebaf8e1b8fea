/**
 * The C simulator's scheduling state and one turn of the `ciclo_simulador`
 * loop. The six lists are kept as sequences of PCB references; the
 * linked-list splicing behind them is `CQueue.Queue`, whose operations act
 * on its spine exactly as the sequence operations used here.
 */
module CSimulator {
  import opened Wrappers
  import opened Isa
  import opened CLoader
  import opened CProcess
  import opened CQueue

  /** The ready queue `mover_para_pronto` picks: real-time priority 0, other real-time, best effort. */
  datatype Level = HighRealtime | LowRealtime | BestEffort

  function LevelOf(p: Pcb): Level {
    if p.realtime then (if p.priority == 0 then HighRealtime else LowRealtime) else BestEffort
  }

  /**
   * The lists at one moment: `lista_novos`, `fila_tempo_real_p0`,
   * `fila_tempo_real_p1`, `fila_melhor_esforco`, `lista_bloqueados`,
   * `lista_finalizados` and `processo_executando`.
   */
  datatype Lists = Lists(newcomers: seq<Pcb>, high: seq<Pcb>, low: seq<Pcb>, bestEffort: seq<Pcb>,
                         blocked: seq<Pcb>, finished: seq<Pcb>, running: Option<Pcb>)

  /** Every process the lists hold, with its number of occurrences. */
  function Held(w: Lists): multiset<Pcb> {
    multiset(w.newcomers) + multiset(w.high) + multiset(w.low) + multiset(w.bestEffort)
    + multiset(w.blocked) + multiset(w.finished)
    + (if w.running.Some? then multiset{w.running.value} else multiset{})
  }

  /** Each ready queue holds only its own level. */
  predicate Leveled(w: Lists) {
    && (forall i :: 0 <= i < |w.high| ==> LevelOf(w.high[i]) == HighRealtime)
    && (forall i :: 0 <= i < |w.low| ==> LevelOf(w.low[i]) == LowRealtime)
    && (forall i :: 0 <= i < |w.bestEffort| ==> LevelOf(w.bestEffort[i]) == BestEffort)
  }

  /** Two PCBs that share a pid or a memory. */
  predicate Alike(x: Pcb, y: Pcb) {
    x.pid == y.pid || x.memory == y.memory
  }

  /**
   * No process is in two places, pids tell processes apart and are below
   * `proximo_pid`, every PCB has its own fixed-size memory and in-bounds
   * code, and each ready queue holds its level.
   */
  predicate WellFormed(w: Lists, nextPid: int) {
    && (forall x :: x in Held(w) ==> Held(w)[x] == 1)
    && (forall x, y {:trigger Alike(x, y)} :: x in Held(w) && y in Held(w) && Alike(x, y) ==> x == y)
    && (forall x :: x in Held(w) ==> x.Valid() && 0 <= x.pid < nextPid)
    && Leveled(w)
  }

  /** The newcomers whose arrival time has come, in list order. */
  function Due(s: seq<Pcb>, now: int): (r: seq<Pcb>)
    ensures forall j :: 0 <= j < |r| ==> r[j] in s && r[j].arrival <= now
  {
    if s == [] then [] else Due(s[..|s| - 1], now) + (if s[|s| - 1].arrival <= now then [s[|s| - 1]] else [])
  }

  /** The newcomers still to arrive, in list order. */
  function Pending(s: seq<Pcb>, now: int): (r: seq<Pcb>)
    ensures forall j :: 0 <= j < |r| ==> r[j] in s && r[j].arrival > now
  {
    if s == [] then [] else Pending(s[..|s| - 1], now) + (if s[|s| - 1].arrival > now then [s[|s| - 1]] else [])
  }

  /** The blocked processes whose count, once decremented, reaches 0 (`lefts[i]` is the count before). */
  function Woken(s: seq<Pcb>, lefts: seq<int>): (r: seq<Pcb>)
    requires |lefts| == |s|
  {
    if s == [] then []
    else Woken(s[..|s| - 1], lefts[..|s| - 1]) + (if lefts[|s| - 1] - 1 <= 0 then [s[|s| - 1]] else [])
  }

  /** The blocked processes that stay blocked. */
  function StillBlocked(s: seq<Pcb>, lefts: seq<int>): (r: seq<Pcb>)
    requires |lefts| == |s|
  {
    if s == [] then []
    else StillBlocked(s[..|s| - 1], lefts[..|s| - 1]) + (if lefts[|s| - 1] - 1 > 0 then [s[|s| - 1]] else [])
  }

  /** The processes of `s` at one level, in order. */
  function AtLevel(s: seq<Pcb>, l: Level): (r: seq<Pcb>)
    ensures forall i :: 0 <= i < |r| ==> LevelOf(r[i]) == l
  {
    if s == [] then [] else AtLevel(s[..|s| - 1], l) + (if LevelOf(s[|s| - 1]) == l then [s[|s| - 1]] else [])
  }

  /** `mover_para_pronto` on the lists: `p` joins the tail of its level's queue. */
  function Enter(w: Lists, p: Pcb): Lists {
    match LevelOf(p)
    case HighRealtime => w.(high := w.high + [p])
    case LowRealtime => w.(low := w.low + [p])
    case BestEffort => w.(bestEffort := w.bestEffort + [p])
  }

  /** `mover_para_pronto` on each of `ps`, in order. */
  function EnterAll(w: Lists, ps: seq<Pcb>): Lists {
    if ps == [] then w else Enter(EnterAll(w, ps[..|ps| - 1]), ps[|ps| - 1])
  }

  /** Phase 1: every newcomer whose arrival time has come is made ready, in list order. */
  function Admit(w: Lists, now: int): (r: Lists)
    ensures r.blocked == w.blocked && r.finished == w.finished && r.running == w.running
  {
    EnterAllSorts(w, Due(w.newcomers, now));
    EnterAll(w, Due(w.newcomers, now)).(newcomers := Pending(w.newcomers, now))
  }

  /** Phase 2: every blocked process whose decremented count reaches 0 is made ready, in list order. */
  function Wake(w: Lists, lefts: seq<int>): Lists
    requires |lefts| == |w.blocked|
  {
    EnterAll(w, Woken(w.blocked, lefts)).(blocked := StillBlocked(w.blocked, lefts))
  }

  /** Phase 3's test: a best-effort process is running while a real-time one is ready. */
  predicate Preempts(w: Lists) {
    w.running.Some? && !w.running.value.realtime && (w.high != [] || w.low != [])
  }

  /** Phase 3: the preempted process goes back to the best-effort queue. */
  function Preempt(w: Lists): Lists {
    if Preempts(w) then Enter(w.(running := None), w.running.value) else w
  }

  /**
   * Phase 4, given the running process's state and remaining quantum: a
   * finished process goes to `lista_finalizados`, a blocked one to
   * `lista_bloqueados`, a real-time one out of quantum back to its ready
   * queue; otherwise it keeps the CPU.
   */
  function Retire(w: Lists, state: PState, quantumLeft: int): Lists {
    match w.running
    case None => w
    case Some(p) =>
      if state == Finished then w.(finished := w.finished + [p], running := None)
      else if state == Blocked then w.(blocked := w.blocked + [p], running := None)
      else if p.realtime && quantumLeft <= 0 then Enter(w.(running := None), p)
      else w
  }

  /** Phase 5 (`selecionar_proximo_processo`): an idle CPU takes the head of the first non-empty ready queue. */
  function Dispatch(w: Lists): Lists {
    if w.running.Some? then w
    else if w.high != [] then w.(high := w.high[1..], running := Some(w.high[0]))
    else if w.low != [] then w.(low := w.low[1..], running := Some(w.low[0]))
    else if w.bestEffort != [] then w.(bestEffort := w.bestEffort[1..], running := Some(w.bestEffort[0]))
    else w
  }

  /** The stop criterion: some list other than the finished one is non-empty, or a process runs. */
  predicate Active(w: Lists) {
    w.newcomers != [] || w.high != [] || w.low != [] || w.bestEffort != [] || w.blocked != [] || w.running.Some?
  }

  /**
   * Phases 1 to 4 of one turn of `ciclo_simulador` on the lists, given the
   * clock, the blocked processes' counts, and the running process's state
   * and remaining quantum as the turn found them.
   */
  function Settled(w: Lists, now: int, lefts: seq<int>, state: PState, quantumLeft: int): Lists
    requires |lefts| == |w.blocked|
  {
    Retire(Preempt(Wake(Admit(w, now), lefts)), state, quantumLeft)
  }

  /** Phases 1 to 5 of one turn: the CPU, if phases 1 to 4 left it idle, takes the next process. */
  function Turn(w: Lists, now: int, lefts: seq<int>, state: PState, quantumLeft: int): Lists
    requires |lefts| == |w.blocked|
  {
    Dispatch(Settled(w, now, lefts, state, quantumLeft))
  }

  // ---------------------------------------------------------------------
  // What the phases guarantee

  /**
   * Making each of `ps` ready, in order, is appending to each ready queue
   * the processes of `ps` at its level; nothing else changes.
   */
  lemma {:induction false} EnterAllSorts(w: Lists, ps: seq<Pcb>)
    ensures var r := EnterAll(w, ps);
      && r.high == w.high + AtLevel(ps, HighRealtime)
      && r.low == w.low + AtLevel(ps, LowRealtime)
      && r.bestEffort == w.bestEffort + AtLevel(ps, BestEffort)
      && r.newcomers == w.newcomers && r.blocked == w.blocked
      && r.finished == w.finished && r.running == w.running
  {
    if ps != [] {
      var init := ps[..|ps| - 1];
      EnterAllSorts(w, init);
      assert init + [ps[|ps| - 1]] == ps;
    }
  }

  lemma {:induction false} AtLevelWithin(s: seq<Pcb>, l: Level)
    ensures forall x :: x in AtLevel(s, l) ==> x in s
  {
    if s != [] {
      AtLevelWithin(s[..|s| - 1], l);
    }
  }

  /** Making each of `ps` ready adds exactly `ps` to the processes held. */
  lemma {:induction false} EnterAllHeld(w: Lists, ps: seq<Pcb>)
    ensures Held(EnterAll(w, ps)) == Held(w) + multiset(ps)
  {
    if ps != [] {
      var init := ps[..|ps| - 1];
      var last := ps[|ps| - 1];
      assert init + [last] == ps;
      calc {
        Held(EnterAll(w, ps));
        Held(Enter(EnterAll(w, init), last));
        { EnterHeld(EnterAll(w, init), last); }
        Held(EnterAll(w, init)) + multiset{last};
        { EnterAllHeld(w, init); }
        Held(w) + multiset(init) + multiset{last};
        Held(w) + multiset(ps);
      }
    }
  }

  lemma EnterHeld(w: Lists, p: Pcb)
    ensures Held(Enter(w, p)) == Held(w) + multiset{p}
  {
  }

  /** Admission splits the newcomers: each is either due or pending, none is lost or repeated. */
  lemma {:induction false} ArrivalSplits(s: seq<Pcb>, now: int)
    ensures multiset(Due(s, now)) + multiset(Pending(s, now)) == multiset(s)
  {
    if s != [] {
      ArrivalSplits(s[..|s| - 1], now);
      assert s[..|s| - 1] + [s[|s| - 1]] == s;
    }
  }

  /** Waking splits the blocked list: each process is either woken or stays, none is lost or repeated. */
  lemma {:induction false} WakeSplits(s: seq<Pcb>, lefts: seq<int>)
    requires |lefts| == |s|
    ensures multiset(Woken(s, lefts)) + multiset(StillBlocked(s, lefts)) == multiset(s)
  {
    if s != [] {
      WakeSplits(s[..|s| - 1], lefts[..|s| - 1]);
      assert s[..|s| - 1] + [s[|s| - 1]] == s;
    }
  }

  /** Lists holding the same processes, with the ready queues still sorted by level, stay well formed. */
  lemma SameHeld(w: Lists, w': Lists, nextPid: int)
    requires WellFormed(w, nextPid) && Held(w') == Held(w) && Leveled(w')
    ensures WellFormed(w', nextPid)
  {
  }

  lemma Cancel(a: multiset<Pcb>, b: multiset<Pcb>, m: multiset<Pcb>)
    requires a + m == b + m
    ensures a == b
  {
    assert forall x :: a[x] == (a + m)[x] - m[x];
  }

  lemma NewcomersReplaced(w: Lists, s: seq<Pcb>)
    ensures Held(w.(newcomers := s)) + multiset(w.newcomers) == Held(w) + multiset(s)
  {
  }

  lemma BlockedReplaced(w: Lists, s: seq<Pcb>)
    ensures Held(w.(blocked := s)) + multiset(w.blocked) == Held(w) + multiset(s)
  {
  }

  /** Phase 1 neither loses nor duplicates a process. */
  lemma AdmitHeld(w: Lists, now: int)
    ensures Held(Admit(w, now)) == Held(w)
  {
    var due := Due(w.newcomers, now);
    var pending := Pending(w.newcomers, now);
    var e := EnterAll(w, due);
    EnterAllSorts(w, due);
    calc {
      Held(Admit(w, now)) + multiset(w.newcomers);
      { NewcomersReplaced(e, pending); }
      Held(e) + multiset(pending);
      { EnterAllHeld(w, due); }
      Held(w) + multiset(due) + multiset(pending);
      { ArrivalSplits(w.newcomers, now); }
      Held(w) + multiset(w.newcomers);
    }
    Cancel(Held(Admit(w, now)), Held(w), multiset(w.newcomers));
  }

  /** Phase 2 neither loses nor duplicates a process. */
  lemma WakeHeld(w: Lists, lefts: seq<int>)
    requires |lefts| == |w.blocked|
    ensures Held(Wake(w, lefts)) == Held(w)
  {
    var woken := Woken(w.blocked, lefts);
    var staying := StillBlocked(w.blocked, lefts);
    var e := EnterAll(w, woken);
    EnterAllSorts(w, woken);
    calc {
      Held(Wake(w, lefts)) + multiset(w.blocked);
      { BlockedReplaced(e, staying); }
      Held(e) + multiset(staying);
      { EnterAllHeld(w, woken); }
      Held(w) + multiset(woken) + multiset(staying);
      { WakeSplits(w.blocked, lefts); }
      Held(w) + multiset(w.blocked);
    }
    Cancel(Held(Wake(w, lefts)), Held(w), multiset(w.blocked));
  }

  /** The processes the lists hold, as a set. */
  function Members(w: Lists): set<Pcb> {
    set x | x in Held(w)
  }

  /** Lists that hold the same processes have the same members. */
  lemma SameMembers(w: Lists, w': Lists)
    requires Held(w') == Held(w)
    ensures Members(w') == Members(w)
  {
    MembersHeld(w);
    MembersHeld(w');
  }

  /** A member is in one of the lists or on the CPU. */
  lemma MemberIn(w: Lists, x: Pcb)
    requires x in Members(w)
    ensures x in w.newcomers || x in w.high || x in w.low || x in w.bestEffort || x in w.blocked || x in w.finished || w.running == Some(x)
  {
  }

  lemma MembersHeld(w: Lists)
    ensures Members(w) == set x | x in Held(w)
  {
  }

  /** No phase of a turn adds a process to the lists or drops one from them. */
  lemma TurnMembers(w: Lists, now: int, lefts: seq<int>, state: PState, quantumLeft: int)
    requires |lefts| == |w.blocked|
    ensures var a := Admit(w, now);
      && Members(a) == Members(w)
      && var b := Wake(a, lefts);
      && Members(b) == Members(w)
      && Members(Preempt(b)) == Members(w)
      && Members(Retire(Preempt(b), state, quantumLeft)) == Members(w)
      && Members(Turn(w, now, lefts, state, quantumLeft)) == Members(w)
  {
    var a := Admit(w, now);
    var b := Wake(a, lefts);
    var c := Retire(Preempt(b), state, quantumLeft);
    AdmitHeld(w, now);
    WakeHeld(a, lefts);
    PreemptHeld(b);
    RetireHeld(Preempt(b), state, quantumLeft);
    DispatchHeld(c);
    SameMembers(w, a);
    SameMembers(w, b);
    SameMembers(w, Preempt(b));
    SameMembers(w, c);
    SameMembers(w, Dispatch(c));
  }

  /** Taking the running process off the CPU leaves the rest held. */
  lemma HeadTaken(s: seq<Pcb>)
    requires s != []
    ensures multiset(s[1..]) + multiset{s[0]} == multiset(s)
  {
    assert s == [s[0]] + s[1..];
  }

  lemma RunningCleared(w: Lists)
    requires w.running.Some?
    ensures Held(w.(running := None)) + multiset{w.running.value} == Held(w)
  {
  }

  /** Phase 3 neither loses nor duplicates a process. */
  lemma PreemptHeld(w: Lists)
    ensures Held(Preempt(w)) == Held(w)
  {
    if Preempts(w) {
      EnterHeld(w.(running := None), w.running.value);
      RunningCleared(w);
    }
  }

  /** Phase 4 neither loses nor duplicates a process. */
  lemma RetireHeld(w: Lists, state: PState, quantumLeft: int)
    ensures Held(Retire(w, state, quantumLeft)) == Held(w)
  {
    if w.running.Some? {
      var p := w.running.value;
      var idle := w.(running := None);
      RunningCleared(w);
      if state == Finished {
        calc {
          Held(Retire(w, state, quantumLeft));
          Held(idle.(finished := w.finished + [p]));
          { assert multiset(w.finished + [p]) == multiset(w.finished) + multiset{p}; }
          Held(idle) + multiset{p};
        }
      } else if state == Blocked {
        calc {
          Held(Retire(w, state, quantumLeft));
          Held(idle.(blocked := w.blocked + [p]));
          { assert multiset(w.blocked + [p]) == multiset(w.blocked) + multiset{p}; }
          Held(idle) + multiset{p};
        }
      } else if p.realtime && quantumLeft <= 0 {
        EnterHeld(idle, p);
      }
    }
  }

  /** Phase 5 neither loses nor duplicates a process. */
  lemma DispatchHeld(w: Lists)
    ensures Held(Dispatch(w)) == Held(w)
  {
    if w.running.None? {
      if w.high != [] {
        HeadTaken(w.high);
        RunningCleared(Dispatch(w));
      } else if w.low != [] {
        HeadTaken(w.low);
        RunningCleared(Dispatch(w));
      } else if w.bestEffort != [] {
        HeadTaken(w.bestEffort);
        RunningCleared(Dispatch(w));
      }
    }
  }

  lemma AdmitWellFormed(w: Lists, now: int, nextPid: int)
    requires WellFormed(w, nextPid)
    ensures WellFormed(Admit(w, now), nextPid)
  {
    AdmitHeld(w, now);
    AdmitLeveled(w, now);
    SameHeld(w, Admit(w, now), nextPid);
  }

  lemma WakeWellFormed(w: Lists, lefts: seq<int>, nextPid: int)
    requires WellFormed(w, nextPid) && |lefts| == |w.blocked|
    ensures WellFormed(Wake(w, lefts), nextPid)
  {
    WakeHeld(w, lefts);
    WakeLeveled(w, lefts);
    SameHeld(w, Wake(w, lefts), nextPid);
  }

  /** Phases 3, 4 and 5 keep the lists well formed. */
  lemma MovesWellFormed(w: Lists, state: PState, quantumLeft: int, nextPid: int)
    requires WellFormed(w, nextPid)
    ensures WellFormed(Preempt(w), nextPid)
    ensures WellFormed(Retire(w, state, quantumLeft), nextPid)
    ensures WellFormed(Dispatch(w), nextPid)
  {
    MovesLeveled(w, state, quantumLeft);
    PreemptHeld(w);
    SameHeld(w, Preempt(w), nextPid);
    RetireHeld(w, state, quantumLeft);
    SameHeld(w, Retire(w, state, quantumLeft), nextPid);
    DispatchHeld(w);
    SameHeld(w, Dispatch(w), nextPid);
  }

  /** Phases 1 and 2 keep each ready queue to its own level. */
  lemma AdmitLeveled(w: Lists, now: int)
    requires Leveled(w)
    ensures Leveled(Admit(w, now))
  {
    EnterAllSorts(w, Due(w.newcomers, now));
  }

  lemma WakeLeveled(w: Lists, lefts: seq<int>)
    requires Leveled(w) && |lefts| == |w.blocked|
    ensures Leveled(Wake(w, lefts))
  {
    EnterAllSorts(w, Woken(w.blocked, lefts));
  }

  /** Phases 3, 4 and 5 keep each ready queue to its own level. */
  lemma MovesLeveled(w: Lists, state: PState, quantumLeft: int)
    requires Leveled(w)
    ensures Leveled(Preempt(w)) && Leveled(Retire(w, state, quantumLeft)) && Leveled(Dispatch(w))
  {
  }

  /** Admitting twice at the same time admits nothing more. */
  lemma {:induction false} AdmitIdempotent(w: Lists, now: int)
    ensures Admit(Admit(w, now), now) == Admit(w, now)
  {
    PendingStable(w.newcomers, now);
  }

  lemma {:induction false} PendingStable(s: seq<Pcb>, now: int)
    ensures Due(Pending(s, now), now) == [] && Pending(Pending(s, now), now) == Pending(s, now)
  {
    if s != [] {
      var init := s[..|s| - 1];
      PendingStable(init, now);
      if s[|s| - 1].arrival > now {
        assert Pending(s, now)[..|Pending(s, now)| - 1] == Pending(init, now);
      } else {
        assert Pending(s, now) == Pending(init, now);
      }
    }
  }

  /** An idle CPU stays idle exactly when every ready queue is empty. */
  lemma IdleOnlyWhenNothingReady(w: Lists)
    requires w.running.None?
    ensures Dispatch(w).running.None? <==> w.high == [] && w.low == [] && w.bestEffort == []
  {
  }

  /** The dispatched process comes from the highest level with a ready process. */
  lemma DispatchTakesHighest(w: Lists)
    requires Leveled(w) && w.running.None? && Dispatch(w).running.Some?
    ensures var p := Dispatch(w).running.value;
      && (LevelOf(p) == HighRealtime <==> w.high != [])
      && (LevelOf(p) == LowRealtime <==> w.high == [] && w.low != [])
      && (LevelOf(p) == BestEffort <==> w.high == [] && w.low == [])
  {
  }

  /**
   * After preemption, retirement and dispatch a best-effort process holds
   * the CPU only while both real-time queues are empty.
   */
  lemma BestEffortRunsAlone(w: Lists, state: PState, quantumLeft: int)
    requires Leveled(w)
    ensures var r := Dispatch(Retire(Preempt(w), state, quantumLeft));
      r.running.Some? && !r.running.value.realtime ==> r.high == [] && r.low == []
  {
  }

  // ---------------------------------------------------------------------
  // Pids in one list

  /** No two entries of `s` share a pid. */
  predicate DistinctPids(s: seq<Pcb>) {
    forall a, b :: 0 <= a < b < |s| ==> s[a].pid != s[b].pid
  }

  lemma TwiceCounted(s: seq<Pcb>, a: nat, b: nat)
    requires a < b < |s|
    ensures s[a] == s[b] ==> multiset(s)[s[a]] >= 2
  {
    assert s == s[..b] + s[b..];
    assert s[a] in s[..b];
  }

  /** Two distinct processes of well-formed lists differ in pid and in memory. */
  lemma HeldApart(w: Lists, nextPid: int, x: Pcb, y: Pcb)
    requires WellFormed(w, nextPid) && x in Held(w) && y in Held(w) && x != y
    ensures x.pid != y.pid && x.memory != y.memory
  {
    assert !Alike(x, y);
  }

  /** In well-formed lists the newcomers, and the blocked processes, have distinct pids. */
  lemma ListPidsDistinct(w: Lists, nextPid: int)
    requires WellFormed(w, nextPid)
    ensures DistinctPids(w.newcomers) && DistinctPids(w.blocked)
  {
    forall a, b | 0 <= a < b < |w.newcomers|
      ensures w.newcomers[a].pid != w.newcomers[b].pid
    {
      TwiceCounted(w.newcomers, a, b);
      HeldApart(w, nextPid, w.newcomers[a], w.newcomers[b]);
    }
    forall a, b | 0 <= a < b < |w.blocked|
      ensures w.blocked[a].pid != w.blocked[b].pid
    {
      TwiceCounted(w.blocked, a, b);
      HeldApart(w, nextPid, w.blocked[a], w.blocked[b]);
    }
  }

  lemma EnterAllSnoc(w: Lists, ps: seq<Pcb>, p: Pcb)
    ensures EnterAll(w, ps + [p]) == Enter(EnterAll(w, ps), p)
  {
    assert (ps + [p])[..|ps|] == ps;
  }

  /** Making a process ready does not touch the newcomers or the blocked list. */
  lemma EnterElsewhere(w: Lists, p: Pcb, newcomers: seq<Pcb>, blocked: seq<Pcb>)
    ensures Enter(w.(newcomers := newcomers), p) == Enter(w, p).(newcomers := newcomers)
    ensures Enter(w.(blocked := blocked), p) == Enter(w, p).(blocked := blocked)
  {
  }

  /** A pid none of `s` has, none of its pending part has. */
  lemma {:induction false} PendingLacks(s: seq<Pcb>, now: int, pid: int)
    requires forall a :: 0 <= a < |s| ==> s[a].pid != pid
    ensures forall j :: 0 <= j < |Pending(s, now)| ==> Pending(s, now)[j].pid != pid
  {
    if s != [] {
      PendingLacks(s[..|s| - 1], now, pid);
    }
  }

  /** One more node of the arrival scan: a due one joins the admitted, any other stays pending. */
  lemma ArrivalStep(nodes: seq<Pcb>, i: nat, now: int)
    requires i < |nodes|
    ensures nodes[i].arrival <= now ==>
      Due(nodes[..i + 1], now) == Due(nodes[..i], now) + [nodes[i]] && Pending(nodes[..i + 1], now) == Pending(nodes[..i], now)
    ensures nodes[i].arrival > now ==>
      Due(nodes[..i + 1], now) == Due(nodes[..i], now) && Pending(nodes[..i + 1], now) == Pending(nodes[..i], now) + [nodes[i]]
  {
    assert nodes[..i + 1][..i] == nodes[..i];
  }

  /** `remover_da_lista` finds a pid right after a prefix that does not hold it. */
  lemma FoundAfter(prefix: seq<Pcb>, rest: seq<Pcb>, pid: int)
    requires rest != [] && rest[0].pid == pid
    requires forall j :: 0 <= j < |prefix| ==> prefix[j].pid != pid
    ensures FindPid(prefix + rest, pid) == Some(|prefix|)
  {
    var s := prefix + rest;
    assert s[|prefix|].pid == pid;
  }

  /** A pid none of `s` has, none of its still-blocked part has. */
  lemma {:induction false} StillBlockedLacks(s: seq<Pcb>, lefts: seq<int>, pid: int)
    requires |lefts| == |s|
    requires forall a :: 0 <= a < |s| ==> s[a].pid != pid
    ensures forall j :: 0 <= j < |StillBlocked(s, lefts)| ==> StillBlocked(s, lefts)[j].pid != pid
  {
    if s != [] {
      StillBlockedLacks(s[..|s| - 1], lefts[..|s| - 1], pid);
    }
  }

  /** One more node of the wake-up scan: one whose count runs out joins the woken, any other stays. */
  lemma WakeStep(nodes: seq<Pcb>, lefts: seq<int>, i: nat)
    requires i < |nodes| == |lefts|
    ensures lefts[i] - 1 <= 0 ==>
      && Woken(nodes[..i + 1], lefts[..i + 1]) == Woken(nodes[..i], lefts[..i]) + [nodes[i]]
      && StillBlocked(nodes[..i + 1], lefts[..i + 1]) == StillBlocked(nodes[..i], lefts[..i])
    ensures lefts[i] - 1 > 0 ==>
      && Woken(nodes[..i + 1], lefts[..i + 1]) == Woken(nodes[..i], lefts[..i])
      && StillBlocked(nodes[..i + 1], lefts[..i + 1]) == StillBlocked(nodes[..i], lefts[..i]) + [nodes[i]]
  {
    assert nodes[..i + 1][..i] == nodes[..i];
    assert lefts[..i + 1][..i] == lefts[..i];
  }

  /** The blocked counts of a list of processes, in order. */
  function Lefts(s: seq<Pcb>): seq<int>
    reads s
  {
    seq(|s|, j requires 0 <= j < |s| reads s => s[j].blockedLeft)
  }

  /** Every process of `s` is in state `st`. */
  predicate AllIn(s: seq<Pcb>, st: PState)
    reads s
  {
    forall x :: x in s ==> x.state == st
  }

  /**
   * Each list holds processes in its own state: NOVO waiting to arrive,
   * PRONTO in the ready queues, BLOQUEADO and FINALIZADO in theirs; the
   * running process has been dispatched, or has just blocked or finished.
   */
  ghost predicate Agree(w: Lists)
    reads w.newcomers, w.high, w.low, w.bestEffort, w.blocked, w.finished
    reads if w.running.Some? then {w.running.value} else {}
  {
    Placed(w) && (w.running.Some? ==> w.running.value.state in {Running, Blocked, Finished})
  }

  /** The six lists' part of `Agree`. */
  ghost predicate Placed(w: Lists)
    reads w.newcomers, w.high, w.low, w.bestEffort, w.blocked, w.finished
  {
    && AllIn(w.newcomers, New)
    && AllIn(w.high, Ready) && AllIn(w.low, Ready) && AllIn(w.bestEffort, Ready)
    && AllIn(w.blocked, Blocked) && AllIn(w.finished, Finished)
  }

  /** Phase 3 keeps every list in its state once the preempted process is ready. */
  lemma PreemptAgree(w: Lists)
    requires Placed(w) && Preempts(w) && w.running.value.state == Ready
    ensures Agree(Preempt(w))
  {
    AllInJoin(w.bestEffort, [w.running.value], Ready);
  }

  /**
   * Phase 4 keeps every list in its state: the process it moves is in the
   * state of its new list, or still running.
   */
  lemma RetireAgree(w: Lists, state: PState, quantumLeft: int)
    requires Placed(w) && w.running.Some? && state in {Running, Blocked, Finished}
    requires var p := w.running.value;
      p.state == if state == Running && p.realtime && quantumLeft <= 0 then Ready else state
    ensures Agree(Retire(w, state, quantumLeft))
  {
    var p := w.running.value;
    if state == Finished {
      AllInJoin(w.finished, [p], Finished);
    } else if state == Blocked {
      AllInJoin(w.blocked, [p], Blocked);
    } else if p.realtime && quantumLeft <= 0 {
      AllInJoin(w.high, [p], Ready);
      AllInJoin(w.low, [p], Ready);
    }
  }

  /** In well-formed lists a newcomer, or a blocked process, is in no other list and not running. */
  lemma Apart(w: Lists, nextPid: int)
    requires WellFormed(w, nextPid)
    ensures forall x :: x in w.newcomers ==>
      x !in w.high && x !in w.low && x !in w.bestEffort && x !in w.blocked && x !in w.finished && w.running != Some(x)
    ensures forall x :: x in w.blocked ==>
      x !in w.high && x !in w.low && x !in w.bestEffort && x !in w.finished && w.running != Some(x)
  {
    forall x | x in w.newcomers || x in w.blocked
      ensures Held(w)[x] == 1
    {
      assert x in Held(w);
    }
  }

  /**
   * Phase 2 keeps every list in its state, given that the blocked
   * processes whose count ran out became ready, the others stayed blocked,
   * and no other process changed state.
   */
  lemma WakeAgree(w: Lists, lefts: seq<int>)
    requires |lefts| == |w.blocked|
    requires AllIn(w.newcomers, New) && AllIn(w.high, Ready) && AllIn(w.low, Ready) && AllIn(w.bestEffort, Ready)
    requires AllIn(w.finished, Finished)
    requires w.running.Some? ==> w.running.value.state in {Running, Blocked, Finished}
    requires forall j :: 0 <= j < |w.blocked| ==>
      w.blocked[j].state == if lefts[j] - 1 <= 0 then Ready else Blocked
    ensures Agree(Wake(w, lefts))
  {
    var woken := Woken(w.blocked, lefts);
    EnterAllSorts(w, woken);
    WokenStates(w.blocked, lefts);
    forall l | true
      ensures AllIn(AtLevel(woken, l), Ready)
    {
      AtLevelWithin(woken, l);
    }
    AllInJoin(w.high, AtLevel(woken, HighRealtime), Ready);
    AllInJoin(w.low, AtLevel(woken, LowRealtime), Ready);
    AllInJoin(w.bestEffort, AtLevel(woken, BestEffort), Ready);
  }

  /** The woken are ready and the others blocked, when each one's state follows its count. */
  lemma {:induction false} WokenStates(s: seq<Pcb>, lefts: seq<int>)
    requires |lefts| == |s|
    requires forall j :: 0 <= j < |s| ==> s[j].state == if lefts[j] - 1 <= 0 then Ready else Blocked
    ensures AllIn(Woken(s, lefts), Ready) && AllIn(StillBlocked(s, lefts), Blocked)
  {
    if s != [] {
      WokenStates(s[..|s| - 1], lefts[..|s| - 1]);
    }
  }

  lemma AllInJoin(a: seq<Pcb>, b: seq<Pcb>, st: PState)
    requires AllIn(a, st) && AllIn(b, st)
    ensures AllIn(a + b, st)
  {
  }

  /** Taking the head of a ready queue leaves every list in its state. */
  lemma PlacedAfterDispatch(w: Lists)
    requires Placed(w)
    ensures Placed(Dispatch(w).(running := None))
  {
  }

  /**
   * Phase 5 on an idle CPU keeps the lists well formed and in their
   * states, and the process it takes is in none of the lists left behind.
   */
  lemma DispatchKeeps(w: Lists, nextPid: int)
    requires WellFormed(w, nextPid) && Placed(w) && w.running.None?
    ensures WellFormed(Dispatch(w), nextPid) && Placed(Dispatch(w).(running := None))
    ensures var r := Dispatch(w);
      r.running.Some? ==>
        var p := r.running.value;
        p !in r.newcomers && p !in r.high && p !in r.low && p !in r.bestEffort && p !in r.blocked && p !in r.finished
  {
    DispatchHeld(w);
    MovesLeveled(w, Running, 0);
    SameHeld(w, Dispatch(w), nextPid);
    PlacedAfterDispatch(w);
    DispatchApart(w, nextPid);
  }

  /** The process an idle CPU takes is in none of the lists left behind. */
  lemma DispatchApart(w: Lists, nextPid: int)
    requires WellFormed(w, nextPid) && w.running.None?
    ensures var r := Dispatch(w);
      r.running.Some? ==>
        var p := r.running.value;
        p !in r.newcomers && p !in r.high && p !in r.low && p !in r.bestEffort && p !in r.blocked && p !in r.finished
  {
    if w.high != [] {
      HeadApart(w, nextPid, w.high);
    } else if w.low != [] {
      HeadApart(w, nextPid, w.low);
    } else if w.bestEffort != [] {
      HeadApart(w, nextPid, w.bestEffort);
    }
  }

  /** In well-formed lists the running process is in no list. */
  lemma RunningApart(w: Lists, nextPid: int)
    requires WellFormed(w, nextPid) && w.running.Some?
    ensures var p := w.running.value;
      p !in w.newcomers && p !in w.high && p !in w.low && p !in w.bestEffort && p !in w.blocked && p !in w.finished
  {
    assert w.running.value in Held(w);
  }

  /** In well-formed lists no other process shares the running process's memory. */
  lemma MemoryApart(w: Lists, nextPid: int, p: Pcb)
    requires WellFormed(w, nextPid) && w.running == Some(p)
    ensures forall x :: x in Members(w) && x != p ==> x.memory != p.memory
  {
    MembersHeld(w);
    assert p in Held(w);
    forall x | x in Members(w) && x != p
      ensures x.memory != p.memory
    {
      HeldApart(w, nextPid, x, p);
    }
  }

  /** In well-formed lists the head of a ready queue is in no other list, nor further down its own. */
  lemma HeadApart(w: Lists, nextPid: int, q: seq<Pcb>)
    requires WellFormed(w, nextPid) && q != [] && q in [w.high, w.low, w.bestEffort]
    ensures var p := q[0];
      && p !in q[1..] && p !in w.newcomers && p !in w.blocked && p !in w.finished && w.running != Some(p)
      && (q != w.high ==> p !in w.high) && (q != w.low ==> p !in w.low) && (q != w.bestEffort ==> p !in w.bestEffort)
  {
    var p := q[0];
    assert q == [p] + q[1..];
    assert p in Held(w);
  }

  /**
   * Phase 1 keeps every list in its state, given that the due newcomers
   * became ready and the other processes kept their states.
   */
  lemma AdmitAgree(w: Lists, now: int)
    requires AllIn(w.high, Ready) && AllIn(w.low, Ready) && AllIn(w.bestEffort, Ready)
    requires AllIn(w.blocked, Blocked) && AllIn(w.finished, Finished)
    requires w.running.Some? ==> w.running.value.state in {Running, Blocked, Finished}
    requires forall j :: 0 <= j < |w.newcomers| ==>
      w.newcomers[j].state == if w.newcomers[j].arrival <= now then Ready else New
    ensures Agree(Admit(w, now))
  {
    var due, pending := Due(w.newcomers, now), Pending(w.newcomers, now);
    EnterAllSorts(w, due);
    forall i | 0 <= i < |pending|
      ensures pending[i].state == New
    {
      var j :| 0 <= j < |w.newcomers| && w.newcomers[j] == pending[i];
    }
    forall l | true
      ensures AllIn(AtLevel(due, l), Ready)
    {
      AtLevelWithin(due, l);
      forall i | 0 <= i < |AtLevel(due, l)|
        ensures AtLevel(due, l)[i].state == Ready
      {
        var x := AtLevel(due, l)[i];
        assert x in due;
        var j :| 0 <= j < |w.newcomers| && w.newcomers[j] == x;
      }
    }
    AllInJoin(w.high, AtLevel(due, HighRealtime), Ready);
    AllInJoin(w.low, AtLevel(due, LowRealtime), Ready);
    AllInJoin(w.bestEffort, AtLevel(due, BestEffort), Ready);
  }

  // ---------------------------------------------------------------------
  // The simulator's globals

  /** A process in none of the lists is not held. */
  lemma NotHeld(w: Lists, p: Pcb)
    requires p !in w.newcomers && p !in w.high && p !in w.low && p !in w.bestEffort && p !in w.blocked && p !in w.finished
    requires w.running != Some(p)
    ensures p !in Held(w)
  {
  }

  /** Appending to the newcomers adds that one process to those held. */
  lemma HeldWithNewcomer(w: Lists, p: Pcb)
    ensures Held(w.(newcomers := w.newcomers + [p])) == Held(w) + multiset{p}
  {
    NewcomersReplaced(w, w.newcomers + [p]);
    assert multiset(w.newcomers + [p]) == multiset(w.newcomers) + multiset{p};
    Cancel(Held(w.(newcomers := w.newcomers + [p])), Held(w) + multiset{p}, multiset(w.newcomers));
  }

  /** Adding a process not held yet, with a valid PCB of its own memory and the next pid, keeps the lists well formed. */
  lemma WellFormedGrow(w: Lists, r: Lists, p: Pcb, nextPid: int)
    requires WellFormed(w, nextPid) && Held(r) == Held(w) + multiset{p} && p !in Held(w)
    requires forall x :: x in Held(w) ==> x.memory != p.memory
    requires p.Valid() && p.pid == nextPid && nextPid >= 0 && Leveled(r)
    ensures WellFormed(r, nextPid + 1)
  {
    forall x | x in Held(r)
      ensures Held(r)[x] == 1 && x.Valid() && 0 <= x.pid < nextPid + 1
    {
      if x != p {
        assert x in Held(w);
      }
    }
    forall x, y | x in Held(r) && y in Held(r) && Alike(x, y)
      ensures x == y
    {
      assert x == p || x in Held(w);
      assert y == p || y in Held(w);
    }
  }

  /** A newcomer with a fresh pid and a memory of its own, in no list yet, keeps the lists well formed. */
  lemma EnlistWellFormed(w: Lists, p: Pcb, nextPid: nat)
    requires WellFormed(w, nextPid) && p.Valid() && p.pid == nextPid
    requires forall x :: x in Held(w) ==> x.memory != p.memory
    requires p !in w.newcomers && p !in w.high && p !in w.low && p !in w.bestEffort && p !in w.blocked && p !in w.finished
    requires w.running != Some(p)
    ensures WellFormed(w.(newcomers := w.newcomers + [p]), nextPid + 1)
  {
    NotHeld(w, p);
    HeldWithNewcomer(w, p);
    WellFormedGrow(w, w.(newcomers := w.newcomers + [p]), p, nextPid);
  }

  /** A newcomer in state NOVO keeps every list in its state. */
  lemma EnlistAgree(w: Lists, p: Pcb)
    requires Agree(w) && p.state == New
    ensures Agree(w.(newcomers := w.newcomers + [p]))
  {
    AllInJoin(w.newcomers, [p], New);
  }

  /** `p` is the PCB `carregar_programa` fills in for `program` with the given pid and parameters. */
  predicate Loads(p: Pcb, program: Program, pid: int, realtime: bool, arrival: int, priority: int, quantum: int)
    reads p, p.memory
  {
    && p.pid == pid && p.realtime == realtime && p.arrival == arrival && p.priority == priority
    && p.quantumTotal == quantum && p.quantumLeft == quantum && p.state == New && p.pc == 0 && p.acc == 0
    && p.code == program.code && p.memory.Length == MaxDataSize
    && (forall i :: 0 <= i < MaxDataSize ==> p.memory[i] == if i < |program.values| then program.values[i] else 0)
  }

  /** A loaded program whose variables fit `memoria_dados` runs inside it. */
  lemma LoadedRunnable(lines: seq<string>)
    requires LoadLines(lines).Success? && |LoadLines(lines).value.variables| <= MaxDataSize
    ensures |LoadLines(lines).value.values| <= MaxDataSize
    ensures Runnable(LoadLines(lines).value.code, MaxDataSize)
  {
    LoadedInBounds(lines);
  }

  /**
   * The PCB `carregar_programa` fills in for a loaded program: the given
   * pid, a zeroed memory holding the initial data, state NOVO and a full
   * quantum.
   */
  method NewPcb(pid: int, realtime: bool, arrival: int, priority: int, quantum: int, program: Program) returns (p: Pcb)
    requires |program.values| <= MaxDataSize && Runnable(program.code, MaxDataSize)
    ensures fresh(p) && fresh(p.memory) && p.Valid() && Loads(p, program, pid, realtime, arrival, priority, quantum)
  {
    var values := program.values;
    var memory := new int[MaxDataSize](i requires 0 <= i => if i < |values| then values[i] else 0);
    p := new Pcb(pid, realtime, arrival, priority, quantum, program, memory);
  }

  /** A blocked process's count after one turn's countdown; the others keep theirs. */
  function Countdown(left: int, blocked: bool): int {
    if blocked then left - 1 else left
  }

  /**
   * `x` occurs in the list `s`. Written out by recursion rather than as
   * `x in s` so that the per-process clauses below stay apart from the
   * lists' multisets; `AmongIn` shows the two agree.
   */
  predicate Among(x: Pcb, s: seq<Pcb>)
    decreases |s|
  {
    s != [] && (s[0] == x || Among(x, s[1..]))
  }

  lemma {:induction false} AmongIn(x: Pcb, s: seq<Pcb>)
    ensures Among(x, s) <==> x in s
    decreases |s|
  {
    if s != [] {
      AmongIn(x, s[1..]);
      assert s == [s[0]] + s[1..];
    }
  }

  /**
   * What phases 1 and 2 do to one process: nothing but its state and, if it
   * is in `blocked`, a count one lower.
   */
  twostate predicate CountedDown(x: Pcb, blocked: seq<Pcb>)
    reads x, x.memory
  {
    && x.Registers() == old(x.Registers()).(state := x.state, blockedLeft := x.blockedLeft)
    && x.blockedLeft == Countdown(old(x.blockedLeft), Among(x, blocked))
    && x.quantumLeft == old(x.quantumLeft)
  }

  /**
   * What one turn does to a process that is not on the CPU at its end:
   * its state and, if it is in `blocked`, its count move on; its quantum
   * starts over if it was `left`, the process that ran out of it, and
   * stays otherwise; nothing else changes, its memory included.
   */
  twostate predicate Waited(x: Pcb, blocked: seq<Pcb>, left: Pcb?, expired: bool)
    reads x, x.memory
  {
    && x.Registers() == old(x.Registers()).(state := x.state, blockedLeft := x.blockedLeft)
    && x.blockedLeft == Countdown(old(x.blockedLeft), Among(x, blocked))
    && x.quantumLeft == if x == left && expired then x.quantumTotal else old(x.quantumLeft)
  }

  /**
   * What one turn does to the process on the CPU at its end: it executed
   * one instruction from the registers it had, its count first moved on if
   * it is in `blocked`; its quantum went on if it `kept` the CPU and
   * started full otherwise, and a real-time one used one unit of it.
   */
  twostate predicate Executed(p: Pcb, blocked: seq<Pcb>, kept: bool, input: int, blockTime: int)
    reads p, p.memory
  {
    && p.Valid()
    && p.Registers() == Step(p.code, old(p.Registers()).(state := Running,
         blockedLeft := Countdown(old(p.blockedLeft), Among(p, blocked))), input, blockTime)
    && p.quantumLeft == (if kept then old(p.quantumLeft) else p.quantumTotal) - (if p.realtime then 1 else 0)
  }

  /** The process an optional choice names, as a frame. */
  function Picked(r: Option<Pcb>): set<Pcb> {
    if r.Some? then {r.value} else {}
  }

  /** The memory of that process, as a frame. */
  function PickedMemory(r: Option<Pcb>): set<array<int>> {
    if r.Some? then {r.value.memory} else {}
  }

  class Simulator {
    var newcomers: seq<Pcb>
    var high: seq<Pcb>
    var low: seq<Pcb>
    var bestEffort: seq<Pcb>
    var blocked: seq<Pcb>
    var finished: seq<Pcb>
    var running: Pcb?
    /** `tempo_global`. */
    var clock: int
    /** `proximo_pid`. */
    var nextPid: nat

    function Snapshot(): Lists
      reads this
    {
      Lists(newcomers, high, low, bestEffort, blocked, finished, if running == null then None else Some(running))
    }

    ghost predicate Valid()
      reads this, newcomers, high, low, bestEffort, blocked, finished, running
    {
      WellFormed(Snapshot(), nextPid) && Agree(Snapshot())
    }

    /** The globals' initial values: empty lists, an idle CPU, time 0 and pids from 0. */
    constructor()
      ensures Valid() && Snapshot() == Lists([], [], [], [], [], [], None) && clock == 0 && nextPid == 0
    {
      newcomers, high, low, bestEffort, blocked, finished := [], [], [], [], [], [];
      running := null;
      clock := 0;
      nextPid := 0;
    }

    /**
     * `carregar_programa` on the lines of a program file. The PCB takes the
     * next pid before the program is read, so a program that fails to load
     * still uses one up. A program that loads gets a zeroed memory holding
     * its initial data, and joins the tail of the newcomers in state NOVO
     * with a full quantum. The fixed arrays of the PCB must hold the program.
     */
    method LoadProgram(lines: seq<string>, realtime: bool, arrival: int, priority: int, quantum: int) returns (p: Pcb?)
      requires Valid()
      requires LoadLines(lines).Success? ==>
        |LoadLines(lines).value.variables| <= MaxDataSize && |LoadLines(lines).value.code| <= MaxCodeSize
      modifies this`newcomers, this`nextPid
      ensures Valid() && nextPid == old(nextPid) + 1
      ensures match LoadLines(lines)
        case Failure(_) => p == null && Snapshot() == old(Snapshot())
        case Success(program) => p != null && fresh(p) && fresh(p.memory) && Loads(p, program, old(nextPid), realtime, arrival, priority, quantum)
      ensures p != null ==> Snapshot() == old(Snapshot()).(newcomers := old(newcomers) + [p])
    {
      var loaded := LoadPasses(lines);
      if loaded.Failure? {
        SkipPid();
        return null;
      }
      LoadedRunnable(lines);
      p := AddNewcomer(loaded.value, realtime, arrival, priority, quantum);
    }

    /** A loaded program's PCB takes the next pid and joins the newcomers. */
    method AddNewcomer(program: Program, realtime: bool, arrival: int, priority: int, quantum: int) returns (p: Pcb)
      requires Valid() && |program.values| <= MaxDataSize && Runnable(program.code, MaxDataSize)
      modifies this`newcomers, this`nextPid
      ensures Valid() && nextPid == old(nextPid) + 1
      ensures fresh(p) && fresh(p.memory) && Loads(p, program, old(nextPid), realtime, arrival, priority, quantum)
      ensures Snapshot() == old(Snapshot()).(newcomers := old(newcomers) + [p])
    {
      p := NewPcb(nextPid, realtime, arrival, priority, quantum, program);
      Join(p);
    }

    /** A new PCB with the next pid, in no list yet, joins the newcomers. */
    method Join(p: Pcb)
      requires Valid() && p.Valid() && p.pid == nextPid && p.state == New
      requires forall x :: x in Held(Snapshot()) ==> x.memory != p.memory
      requires p !in newcomers && p !in high && p !in low && p !in bestEffort && p !in blocked && p !in finished && p != running
      modifies this`newcomers, this`nextPid
      ensures Valid() && nextPid == old(nextPid) + 1
      ensures Snapshot() == old(Snapshot()).(newcomers := old(newcomers) + [p])
    {
      ghost var w := Snapshot();
      EnlistWellFormed(w, p, nextPid);
      EnlistAgree(w, p);
      Enlist(p, w.(newcomers := w.newcomers + [p]));
    }

    /** A program that fails to load still uses up its pid. */
    method SkipPid()
      requires Valid()
      modifies this`nextPid
      ensures Valid() && Snapshot() == old(Snapshot()) && nextPid == old(nextPid) + 1
    {
      ghost var w := Snapshot();
      assert WellFormed(w, nextPid) && Agree(w);
      nextPid := nextPid + 1;
      assert Snapshot() == w;
    }

    /** The tail of `carregar_programa`: the new PCB joins the newcomers and the next pid moves on. */
    method Enlist(p: Pcb, ghost r: Lists)
      requires r == Snapshot().(newcomers := newcomers + [p])
      requires WellFormed(r, nextPid + 1) && Agree(r)
      modifies this`newcomers, this`nextPid
      ensures Valid() && Snapshot() == r && nextPid == old(nextPid) + 1
    {
      newcomers, nextPid := newcomers + [p], nextPid + 1;
      assert Snapshot() == r;
    }

    /** `mover_para_pronto`: the process is PRONTO and at the tail of its level's queue. */
    method MoveToReady(p: Pcb)
      modifies this, p`state
      ensures Snapshot() == Enter(old(Snapshot()), p) && p.state == Ready
      ensures clock == old(clock) && nextPid == old(nextPid) && running == old(running)
    {
      p.state := Ready;
      if p.realtime {
        if p.priority == 0 {
          high := high + [p];
        } else {
          low := low + [p];
        }
      } else {
        bestEffort := bestEffort + [p];
      }
    }

    /**
     * One admission: `remover_da_lista` unlinks `p` by its pid, which no
     * earlier newcomer has, and `mover_para_pronto` makes it ready.
     */
    method AdmitOne(p: Pcb, ghost before: seq<Pcb>, ghost after: seq<Pcb>)
      requires newcomers == before + [p] + after
      requires forall j :: 0 <= j < |before| ==> before[j].pid != p.pid
      modifies this, p`state
      ensures Snapshot() == Enter(old(Snapshot()).(newcomers := before + after), p) && p.state == Ready
      ensures clock == old(clock) && nextPid == old(nextPid) && running == old(running)
    {
      assert newcomers == before + ([p] + after);
      FoundAfter(before, [p] + after, p.pid);
      var k := FindPid(newcomers, p.pid);
      assert newcomers[..k.value] == before && newcomers[k.value + 1..] == after;
      newcomers := Without(newcomers, k.value);
      MoveToReady(p);
    }

    /** The first `i` of `nodes` that were due are ready; the others keep the states `olds` records. */
    predicate AdmittedStates(nodes: seq<Pcb>, olds: seq<PState>, i: int)
      requires |olds| == |nodes|
      reads this, nodes
    {
      forall j :: 0 <= j < |nodes| ==>
        nodes[j].state == if j < i && nodes[j].arrival <= clock then Ready else olds[j]
    }

    /** Phase 1's loop: each newcomer whose time has come is unlinked by pid and made ready. */
    method AdmitArrivals()
      requires DistinctPids(newcomers)
      modifies this, newcomers`state
      ensures Snapshot() == Admit(old(Snapshot()), clock)
      ensures clock == old(clock) && nextPid == old(nextPid) && running == old(running)
      ensures forall j :: 0 <= j < |old(newcomers)| ==>
        old(newcomers)[j].state == if old(newcomers)[j].arrival <= clock then Ready else old(newcomers[j].state)
    {
      ghost var w := Snapshot();
      var nodes := newcomers;
      ghost var olds := seq(|nodes|, j requires 0 <= j < |nodes| reads nodes => nodes[j].state);
      var i := 0;
      while i < |nodes|
        invariant 0 <= i <= |nodes| && nodes == old(newcomers)
        invariant Snapshot() == EnterAll(w, Due(nodes[..i], clock)).(newcomers := Pending(nodes[..i], clock) + nodes[i..])
        invariant clock == old(clock) && nextPid == old(nextPid) && running == old(running)
        invariant AdmittedStates(nodes, olds, i)
      {
        AdmitAt(nodes, i, w, olds);
        i := i + 1;
      }
      assert nodes[..i] == nodes;
      assert nodes[i..] == [];
    }

    /** One turn of phase 1's loop, on the i-th of the newcomers the phase started with. */
    method AdmitAt(nodes: seq<Pcb>, i: nat, ghost w: Lists, ghost olds: seq<PState>)
      requires i < |nodes| == |olds| && DistinctPids(nodes)
      requires Snapshot() == EnterAll(w, Due(nodes[..i], clock)).(newcomers := Pending(nodes[..i], clock) + nodes[i..])
      requires AdmittedStates(nodes, olds, i)
      modifies this, {nodes[i]}`state
      ensures Snapshot() == EnterAll(w, Due(nodes[..i + 1], clock)).(newcomers := Pending(nodes[..i + 1], clock) + nodes[i + 1..])
      ensures clock == old(clock) && nextPid == old(nextPid) && running == old(running)
      ensures AdmittedStates(nodes, olds, i + 1)
    {
      var p := nodes[i];
      forall j | 0 <= j < |nodes| && j != i
        ensures nodes[j] != p
      {
        assert nodes[j].pid != p.pid;
      }
      AdmitIfDue(nodes, i, w);
    }

    /** The list part of one turn of phase 1's loop: the i-th newcomer is admitted if its time has come. */
    method AdmitIfDue(nodes: seq<Pcb>, i: nat, ghost w: Lists)
      requires i < |nodes| && DistinctPids(nodes)
      requires Snapshot() == EnterAll(w, Due(nodes[..i], clock)).(newcomers := Pending(nodes[..i], clock) + nodes[i..])
      modifies this, {nodes[i]}`state
      ensures Snapshot() == EnterAll(w, Due(nodes[..i + 1], clock)).(newcomers := Pending(nodes[..i + 1], clock) + nodes[i + 1..])
      ensures nodes[i].state == if nodes[i].arrival <= clock then Ready else old(nodes[i].state)
      ensures clock == old(clock) && nextPid == old(nextPid) && running == old(running)
    {
      var p := nodes[i];
      ghost var due, pending := Due(nodes[..i], clock), Pending(nodes[..i], clock);
      ArrivalStep(nodes, i, clock);
      assert nodes[i..] == [p] + nodes[i + 1..];
      if p.arrival <= clock {
        forall a | 0 <= a < i
          ensures nodes[..i][a].pid != p.pid
        {
          assert nodes[..i][a] == nodes[a];
        }
        PendingLacks(nodes[..i], clock, p.pid);
        AdmitOne(p, pending, nodes[i + 1..]);
        EnterAllSnoc(w, due, p);
        EnterElsewhere(EnterAll(w, due), p, pending + nodes[i + 1..], []);
      } else {
        assert pending + nodes[i..] == (pending + [p]) + nodes[i + 1..];
      }
    }

    /**
     * One wake-up: `remover_da_lista` unlinks `p` by its pid, which no
     * earlier blocked process has, and `mover_para_pronto` makes it ready.
     */
    method WakeOne(p: Pcb, ghost before: seq<Pcb>, ghost after: seq<Pcb>)
      requires blocked == before + [p] + after
      requires forall j :: 0 <= j < |before| ==> before[j].pid != p.pid
      modifies this, p`state
      ensures Snapshot() == Enter(old(Snapshot()).(blocked := before + after), p) && p.state == Ready
      ensures clock == old(clock) && nextPid == old(nextPid) && running == old(running)
    {
      assert blocked == before + ([p] + after);
      FoundAfter(before, [p] + after, p.pid);
      var k := FindPid(blocked, p.pid);
      assert blocked[..k.value] == before && blocked[k.value + 1..] == after;
      blocked := Without(blocked, k.value);
      MoveToReady(p);
    }

    /**
     * The first `i` of `nodes` have had their count decremented and are
     * ready if it ran out; the others keep the counts `lefts` and the
     * states `olds` record.
     */
    predicate WokenStates(nodes: seq<Pcb>, lefts: seq<int>, olds: seq<PState>, i: int)
      requires |lefts| == |olds| == |nodes|
      reads nodes
    {
      forall j :: 0 <= j < |nodes| ==>
        && nodes[j].blockedLeft == (if j < i then lefts[j] - 1 else lefts[j])
        && nodes[j].state == (if j < i && lefts[j] - 1 <= 0 then Ready else olds[j])
    }

    /** Phase 2's loop: every blocked process counts down, and one whose count runs out is unlinked and made ready. */
    method WakeBlocked(ghost lefts: seq<int>)
      requires DistinctPids(blocked) && |lefts| == |blocked|
      requires forall j :: 0 <= j < |blocked| ==> lefts[j] == blocked[j].blockedLeft
      modifies this, blocked`state, blocked`blockedLeft
      ensures Snapshot() == Wake(old(Snapshot()), lefts)
      ensures clock == old(clock) && nextPid == old(nextPid) && running == old(running)
      ensures forall j :: 0 <= j < |old(blocked)| ==>
        && old(blocked)[j].blockedLeft == lefts[j] - 1
        && old(blocked)[j].state == if lefts[j] - 1 <= 0 then Ready else old(blocked[j].state)
      ensures forall x: Pcb :: old(allocated(x)) ==> CountedDown(x, old(blocked))
    {
      var nodes := blocked;
      ghost var olds := seq(|nodes|, j requires 0 <= j < |nodes| reads nodes => nodes[j].state);
      WakeEach(nodes, lefts, olds);
      forall x: Pcb | old(allocated(x))
        ensures CountedDown(x, old(blocked))
      {
        AmongIn(x, nodes);
        if x in nodes {
          var j :| 0 <= j < |nodes| && nodes[j] == x;
        }
        assert x.memory[..] == old(x.memory[..]);
      }
    }

    /** The lists once phase 2 has dealt with the first `i` of `nodes`. */
    predicate WakeProgress(w: Lists, nodes: seq<Pcb>, lefts: seq<int>, i: int)
      requires 0 <= i <= |nodes| == |lefts|
      reads this
    {
      Snapshot() == EnterAll(w, Woken(nodes[..i], lefts[..i])).(blocked := StillBlocked(nodes[..i], lefts[..i]) + nodes[i..])
    }

    /** Phase 2's loop over the blocked processes `nodes`, whose counts were `lefts` and states `olds`. */
    method WakeEach(nodes: seq<Pcb>, ghost lefts: seq<int>, ghost olds: seq<PState>)
      requires nodes == blocked && DistinctPids(nodes) && |lefts| == |olds| == |nodes|
      requires WokenStates(nodes, lefts, olds, 0)
      modifies this, nodes`state, nodes`blockedLeft
      ensures Snapshot() == Wake(old(Snapshot()), lefts)
      ensures clock == old(clock) && nextPid == old(nextPid) && running == old(running)
      ensures WokenStates(nodes, lefts, olds, |nodes|)
    {
      ghost var w := Snapshot();
      var i := 0;
      while i < |nodes|
        invariant 0 <= i <= |nodes|
        invariant WakeProgress(w, nodes, lefts, i)
        invariant clock == old(clock) && nextPid == old(nextPid) && running == old(running)
        invariant WokenStates(nodes, lefts, olds, i)
      {
        WakeAt(nodes, i, w, lefts, olds);
        i := i + 1;
      }
      assert nodes[..i] == nodes && lefts[..i] == lefts;
      assert nodes[i..] == [];
    }

    /** One turn of phase 2's loop, on the i-th of the blocked processes the phase started with. */
    method WakeAt(nodes: seq<Pcb>, i: nat, ghost w: Lists, ghost lefts: seq<int>, ghost olds: seq<PState>)
      requires i < |nodes| == |lefts| == |olds| && DistinctPids(nodes)
      requires WakeProgress(w, nodes, lefts, i)
      requires WokenStates(nodes, lefts, olds, i)
      modifies this, {nodes[i]}`state, {nodes[i]}`blockedLeft
      ensures WakeProgress(w, nodes, lefts, i + 1)
      ensures clock == old(clock) && nextPid == old(nextPid) && running == old(running)
      ensures WokenStates(nodes, lefts, olds, i + 1)
    {
      var p := nodes[i];
      forall j | 0 <= j < |nodes| && j != i
        ensures nodes[j] != p
      {
        assert nodes[j].pid != p.pid;
      }
      p.blockedLeft := p.blockedLeft - 1;
      WakeIfDone(nodes, i, w, lefts);
    }

    /** The list part of one turn of phase 2's loop: the i-th process, its count decremented, is woken if it ran out. */
    method WakeIfDone(nodes: seq<Pcb>, i: nat, ghost w: Lists, ghost lefts: seq<int>)
      requires i < |nodes| == |lefts| && DistinctPids(nodes)
      requires WakeProgress(w, nodes, lefts, i) && nodes[i].blockedLeft == lefts[i] - 1
      modifies this, {nodes[i]}`state
      ensures WakeProgress(w, nodes, lefts, i + 1)
      ensures nodes[i].state == if lefts[i] - 1 <= 0 then Ready else old(nodes[i].state)
      ensures clock == old(clock) && nextPid == old(nextPid) && running == old(running)
    {
      var p := nodes[i];
      ghost var woken, staying := Woken(nodes[..i], lefts[..i]), StillBlocked(nodes[..i], lefts[..i]);
      WakeStep(nodes, lefts, i);
      assert nodes[i..] == [p] + nodes[i + 1..];
      if p.blockedLeft <= 0 {
        forall a | 0 <= a < i
          ensures nodes[..i][a].pid != p.pid
        {
          assert nodes[..i][a] == nodes[a];
        }
        StillBlockedLacks(nodes[..i], lefts[..i], p.pid);
        WakeOne(p, staying, nodes[i + 1..]);
        EnterAllSnoc(w, woken, p);
        EnterElsewhere(EnterAll(w, woken), p, [], staying + nodes[i + 1..]);
      } else {
        assert staying + nodes[i..] == (staying + [p]) + nodes[i + 1..];
      }
    }

    /** Phase 1, on valid globals: admission keeps every list in its state and the processes unique. */
    method AdmitPhase()
      requires Valid()
      modifies this, newcomers`state
      ensures Valid() && Snapshot() == Admit(old(Snapshot()), clock)
      ensures forall x: Pcb :: old(allocated(x)) ==> CountedDown(x, [])
      ensures running == old(running) && (running != null ==> running.state == old(running.state) && running.quantumLeft == old(running.quantumLeft))
      ensures clock == old(clock) && nextPid == old(nextPid)
    {
      ghost var w := Snapshot();
      ListPidsDistinct(w, nextPid);
      Apart(w, nextPid);
      AdmitPlaced(w);
      AdmitWellFormed(w, clock, nextPid);
      AdmitAgree(w, clock);
    }

    /** Phase 1's loop touches only the newcomers, so the other lists stay in their states. */
    method AdmitPlaced(ghost w: Lists)
      requires w == Snapshot() && Placed(w) && DistinctPids(newcomers)
      requires running != null ==> running.state in {Running, Blocked, Finished}
      requires forall x :: x in w.newcomers ==>
        x !in w.high && x !in w.low && x !in w.bestEffort && x !in w.blocked && x !in w.finished && w.running != Some(x)
      modifies this, newcomers`state
      ensures Snapshot() == Admit(w, clock)
      ensures clock == old(clock) && nextPid == old(nextPid) && running == old(running)
      ensures AllIn(w.high, Ready) && AllIn(w.low, Ready) && AllIn(w.bestEffort, Ready)
      ensures AllIn(w.blocked, Blocked) && AllIn(w.finished, Finished)
      ensures running != null ==> running.state == old(running.state) && running.quantumLeft == old(running.quantumLeft)
      ensures forall j :: 0 <= j < |w.newcomers| ==>
        w.newcomers[j].state == if w.newcomers[j].arrival <= clock then Ready else New
      ensures forall x: Pcb :: old(allocated(x)) ==> CountedDown(x, [])
    {
      AdmitArrivals();
      forall x: Pcb | old(allocated(x))
        ensures CountedDown(x, [])
      {
        assert x.memory[..] == old(x.memory[..]);
      }
    }

    /** Phase 2, on valid globals: waking keeps every list in its state and the processes unique. */
    method WakePhase(ghost lefts: seq<int>)
      requires Valid() && |lefts| == |blocked|
      requires forall j :: 0 <= j < |blocked| ==> lefts[j] == blocked[j].blockedLeft
      modifies this, blocked`state, blocked`blockedLeft
      ensures Valid() && Snapshot() == Wake(old(Snapshot()), lefts)
      ensures forall x: Pcb :: old(allocated(x)) ==> CountedDown(x, old(blocked))
      ensures running == old(running) && (running != null ==> running.state == old(running.state) && running.quantumLeft == old(running.quantumLeft))
      ensures clock == old(clock) && nextPid == old(nextPid)
    {
      ghost var w := Snapshot();
      ListPidsDistinct(w, nextPid);
      Apart(w, nextPid);
      WakePlaced(w, lefts);
      WakeWellFormed(w, lefts, nextPid);
      WakeAgree(w, lefts);
    }

    /** Phase 2's loop touches only the blocked processes, so the other lists stay in their states. */
    method WakePlaced(ghost w: Lists, ghost lefts: seq<int>)
      requires w == Snapshot() && Placed(w) && DistinctPids(blocked) && |lefts| == |blocked|
      requires forall j :: 0 <= j < |blocked| ==> lefts[j] == blocked[j].blockedLeft
      requires running != null ==> running.state in {Running, Blocked, Finished}
      requires forall x :: x in w.blocked ==>
        x !in w.high && x !in w.low && x !in w.bestEffort && x !in w.finished && w.running != Some(x)
      requires forall x :: x in w.newcomers ==> x !in w.blocked
      modifies this, blocked`state, blocked`blockedLeft
      ensures Snapshot() == Wake(w, lefts)
      ensures clock == old(clock) && nextPid == old(nextPid) && running == old(running)
      ensures AllIn(w.newcomers, New) && AllIn(w.high, Ready) && AllIn(w.low, Ready) && AllIn(w.bestEffort, Ready)
      ensures AllIn(w.finished, Finished)
      ensures running != null ==> running.state == old(running.state) && running.quantumLeft == old(running.quantumLeft)
      ensures forall j :: 0 <= j < |w.blocked| ==>
        w.blocked[j].state == (if lefts[j] - 1 <= 0 then Ready else Blocked) && w.blocked[j].blockedLeft == lefts[j] - 1
      ensures forall x: Pcb :: old(allocated(x)) ==> CountedDown(x, old(blocked))
    {
      WakeBlocked(lefts);
      forall j | 0 <= j < |w.blocked|
        ensures old(w.blocked[j].state) == Blocked
      {
        assert w.blocked[j] in w.blocked;
      }
    }

    /** The running process's state, as phase 4 reads it. */
    function RunningState(): PState
      reads this, running
    {
      if running == null then Running else running.state
    }

    /** The running process's remaining quantum, as phase 4 reads it. */
    function RunningQuantum(): int
      reads this, running
    {
      if running == null then 0 else running.quantumLeft
    }

    /** Phase 3: a best-effort process running while a real-time one is ready goes back to its queue. */
    method PreemptPhase()
      requires Valid()
      modifies this, {running}`state
      ensures Valid() && Snapshot() == Preempt(old(Snapshot()))
      ensures running != null ==> running == old(running) && running.state == old(running.state)
      ensures forall x: Pcb {:trigger x.Registers()} :: old(allocated(x)) ==>
        x.Registers() == old(x.Registers()).(state := x.state) && x.quantumLeft == old(x.quantumLeft)
      ensures clock == old(clock) && nextPid == old(nextPid)
    {
      if running != null && !running.realtime && (high != [] || low != []) {
        ghost var w := Snapshot();
        RunningApart(w, nextPid);
        Unseat(w);
        assert Snapshot() == Preempt(w);
        MovesWellFormed(w, Running, 0, nextPid);
        assert WellFormed(Snapshot(), nextPid);
        PreemptAgree(w);
        assert Agree(Snapshot());
      }
    }

    /** Phase 3's move: the running process, in none of the lists, goes back to its ready queue and the CPU is free. */
    method Unseat(ghost w: Lists)
      requires w == Snapshot() && running != null && Placed(w)
      requires running !in w.newcomers && running !in w.high && running !in w.low
      requires running !in w.bestEffort && running !in w.blocked && running !in w.finished
      modifies this, {running}`state
      ensures Snapshot() == Enter(w.(running := None), w.running.value)
      ensures Placed(w) && w.running.value.state == Ready
      ensures clock == old(clock) && nextPid == old(nextPid)
    {
      var p := running;
      MoveToReady(p);
      running := null;
    }

    /** Phase 4's test: the running process is real time, still running and out of quantum. */
    predicate Expired()
      reads this, running
    {
      running != null && running.state == Running && running.realtime && running.quantumLeft <= 0
    }

    /**
     * Phase 4: a finished process goes to `lista_finalizados`, a blocked
     * one to `lista_bloqueados`, a real-time one out of quantum gets a
     * full quantum and goes back to its ready queue.
     */
    method RetireRunning()
      requires running != null ==> running.state in {Running, Blocked, Finished}
      modifies this, {running}`state, {running}`quantumLeft
      ensures Snapshot() == Retire(old(Snapshot()), old(RunningState()), old(RunningQuantum()))
      ensures old(running) != null ==>
        && old(running).state == (if old(Expired()) then Ready else old(running.state))
        && old(running).quantumLeft == (if old(Expired()) then old(running).quantumTotal else old(running.quantumLeft))
      ensures running != null ==> running == old(running) && running.state == Running && !old(Expired())
      ensures clock == old(clock) && nextPid == old(nextPid)
    {
      if running != null {
        var p := running;
        if p.state == Finished {
          finished := finished + [p];
          running := null;
        } else if p.state == Blocked {
          blocked := blocked + [p];
          running := null;
        } else if p.realtime && p.quantumLeft <= 0 {
          p.quantumLeft := p.quantumTotal;
          MoveToReady(p);
          running := null;
        }
      }
    }

    /** Phase 4, on valid globals: retiring keeps every list in its state and the processes unique. */
    method RetirePhase()
      requires Valid()
      modifies this, {running}`state, {running}`quantumLeft
      ensures Valid() && Snapshot() == Retire(old(Snapshot()), old(RunningState()), old(RunningQuantum()))
      ensures running != null ==> running == old(running) && running.state == Running && !old(Expired())
      ensures old(running) != null ==>
        old(running).quantumLeft == (if old(Expired()) then old(running).quantumTotal else old(running.quantumLeft))
      ensures forall x: Pcb {:trigger x.Registers()} :: old(allocated(x)) ==>
        x.Registers() == old(x.Registers()).(state := x.state) && (x != old(running) ==> x.quantumLeft == old(x.quantumLeft))
      ensures clock == old(clock) && nextPid == old(nextPid)
    {
      if running == null {
        RetireRunning();
      } else {
        RetireFromCpu();
      }
    }

    /** Phase 4 with a process on the CPU. */
    method RetireFromCpu()
      requires Valid() && running != null
      modifies this, running`state, running`quantumLeft
      ensures Valid() && Snapshot() == Retire(old(Snapshot()), old(RunningState()), old(RunningQuantum()))
      ensures running != null ==> running == old(running) && running.state == Running && !old(Expired())
      ensures old(running).quantumLeft == (if old(Expired()) then old(running).quantumTotal else old(running.quantumLeft))
      ensures clock == old(clock) && nextPid == old(nextPid)
    {
      ghost var w := Snapshot();
      ghost var state, quantumLeft := RunningState(), RunningQuantum();
      RunningApart(w, nextPid);
      RetireRunning();
      assert Snapshot() == Retire(w, state, quantumLeft);
      assert WellFormed(Snapshot(), nextPid) by {
        MovesWellFormed(w, state, quantumLeft, nextPid);
      }
      assert Agree(Snapshot()) by {
        forall x | x in w.newcomers || x in w.high || x in w.low || x in w.bestEffort || x in w.blocked || x in w.finished
          ensures x.state == old(x.state)
        {
        }
        RetireAgree(w, state, quantumLeft);
      }
    }

    /** `selecionar_proximo_processo`: the head of the first non-empty ready queue, taken off it. */
    method SelectNext() returns (p: Pcb?)
      requires running == null
      modifies this
      ensures Dispatch(old(Snapshot())) == Snapshot().(running := if p == null then None else Some(p))
      ensures running == null && clock == old(clock) && nextPid == old(nextPid)
    {
      if high != [] {
        p := high[0];
        high := high[1..];
      } else if low != [] {
        p := low[0];
        low := low[1..];
      } else if bestEffort != [] {
        p := bestEffort[0];
        bestEffort := bestEffort[1..];
      } else {
        p := null;
      }
    }

    /** The dispatched process runs with a full quantum; the lists `r` it has left keep their states. */
    method Start(p: Pcb, ghost r: Lists)
      requires Placed(r)
      requires p !in r.newcomers && p !in r.high && p !in r.low && p !in r.bestEffort && p !in r.blocked && p !in r.finished
      modifies p`state, p`quantumLeft
      ensures Placed(r) && p.state == Running && p.quantumLeft == p.quantumTotal
    {
      p.state := Running;
      p.quantumLeft := p.quantumTotal;
    }

    /**
     * Phase 5: an idle CPU takes the process `selecionar_proximo_processo`
     * picks, which runs with a full quantum.
     */
    method DispatchPhase()
      requires Valid() && (running != null ==> running.state == Running)
      modifies this, Next()`state, Next()`quantumLeft
      ensures Valid() && Snapshot() == Dispatch(old(Snapshot()))
      ensures running != null ==> running.state == Running
      ensures running != null ==>
        var p := running;
        && old(allocated(p)) && p in old(Members(Snapshot())) && p.Valid()
        && p.Registers() == old(p.Registers()).(state := Running)
        && p.quantumLeft == if p == old(running) then old(p.quantumLeft) else p.quantumTotal
      ensures forall x: Pcb :: old(allocated(x)) && x != running ==>
        x.Registers() == old(x.Registers()) && x.quantumLeft == old(x.quantumLeft)
      ensures clock == old(clock) && nextPid == old(nextPid)
    {
      if running == null {
        ghost var w := Snapshot();
        DispatchKeeps(w, nextPid);
        Take(w);
      }
    }

    /** Phase 5's move on an idle CPU: the selected process leaves its queue and runs with a full quantum. */
    method Take(ghost w: Lists)
      requires w == Snapshot() && running == null && Placed(Dispatch(w).(running := None))
      requires var r := Dispatch(w);
        r.running.Some? ==>
          var p := r.running.value;
          p !in r.newcomers && p !in r.high && p !in r.low && p !in r.bestEffort && p !in r.blocked && p !in r.finished
      modifies this, Next()`state, Next()`quantumLeft
      ensures Snapshot() == Dispatch(w) && Placed(Dispatch(w).(running := None))
      ensures running != null ==>
        var p := running;
        old(allocated(p)) && p.quantumLeft == p.quantumTotal && p.Registers() == old(p.Registers()).(state := Running)
      ensures forall x: Pcb {:trigger x.Registers()} :: old(allocated(x)) && x != running ==>
        x.Registers() == old(x.Registers()) && x.quantumLeft == old(x.quantumLeft)
      ensures clock == old(clock) && nextPid == old(nextPid)
    {
      ghost var r := Dispatch(w).(running := None);
      var p := SelectNext();
      if p != null {
        Start(p, r);
      }
      running := p;
    }

    /** The end of a turn: the process on the CPU, if any, executes one instruction, then the clock advances. */
    method Finish(input: int, blockTime: int) returns (active: bool)
      requires Valid() && (running != null ==> running.state == Running)
      modifies this`clock, if running != null then {running} else {}, if running != null then {running.memory} else {}
      ensures Valid() && Snapshot() == old(Snapshot())
      ensures running != null ==>
        && running.Valid()
        && running.Registers() == Step(running.code, old(running.Registers()), input, blockTime)
        && running.quantumLeft == if running.realtime then old(running.quantumLeft) - 1 else old(running.quantumLeft)
      ensures forall x: Pcb {:trigger x.Registers()} :: old(allocated(x)) && x in Members(Snapshot()) && x != running ==>
        x.Registers() == old(x.Registers()) && x.quantumLeft == old(x.quantumLeft)
      ensures clock == old(clock) + 1 && nextPid == old(nextPid) && active == Active(Snapshot())
    {
      if running != null {
        ExecutePhase(input, blockTime);
      }
      active := Tick();
    }

    /**
     * Phase 6, with a process on the CPU: it executes one instruction and,
     * if real time, spends a unit of quantum.
     */
    method ExecutePhase(input: int, blockTime: int)
      requires Valid() && running != null && running.state == Running
      modifies running, running.memory
      ensures Valid() && Snapshot() == old(Snapshot())
      ensures running.Valid()
      ensures running.Registers() == Step(running.code, old(running.Registers()), input, blockTime)
      ensures running.quantumLeft == if running.realtime then old(running.quantumLeft) - 1 else old(running.quantumLeft)
      ensures forall x :: x in Members(Snapshot()) && x != running ==>
        x.Registers() == old(x.Registers()) && x.quantumLeft == old(x.quantumLeft)
      ensures clock == old(clock) && nextPid == old(nextPid)
    {
      ghost var w := Snapshot();
      MemoryApart(w, nextPid, running);
      RunningApart(w, nextPid);
      assert running in Held(w);
      var p := running;
      ExecuteApart(p, input, blockTime, w);
      StateChanges(p.code, old(p.Registers()), input, blockTime);
    }

    /** One instruction of `p`, which is in none of the lists `w`: they keep their states. */
    method ExecuteApart(p: Pcb, input: int, blockTime: int, ghost w: Lists)
      requires p.Valid() && Placed(w)
      requires p !in w.newcomers && p !in w.high && p !in w.low && p !in w.bestEffort && p !in w.blocked && p !in w.finished
      modifies p, p.memory
      ensures p.Valid() && Placed(w)
      ensures p.Registers() == Step(p.code, old(p.Registers()), input, blockTime)
      ensures p.quantumLeft == if p.realtime then old(p.quantumLeft) - 1 else old(p.quantumLeft)
    {
      p.Execute(input, blockTime);
      if p.realtime {
        p.quantumLeft := p.quantumLeft - 1;
      }
    }

    /** The process on the CPU once phase 5 has run: the one already there, or the head it takes. */
    ghost function Next(): set<Pcb>
      reads this
    {
      Picked(Dispatch(Snapshot()).running)
    }

    /** Phases 1 and 2 of `ciclo_simulador`: besides the lists, every blocked process counts down one turn. */
    method Arrive()
      requires Valid()
      modifies this, newcomers`state, blocked`state, blocked`blockedLeft
      ensures Valid() && Snapshot() == Wake(Admit(old(Snapshot()), old(clock)), old(Lefts(blocked)))
      ensures forall x: Pcb :: old(allocated(x)) ==> CountedDown(x, old(blocked))
      ensures running == old(running) && (running != null ==> running.state == old(running.state))
      ensures running != null ==> running.quantumLeft == old(running.quantumLeft)
      ensures clock == old(clock) && nextPid == old(nextPid)
    {
      ghost var w0 := Snapshot();
      ghost var lefts := Lefts(blocked);
      AdmitPhase();
      assert blocked == w0.blocked;
      forall j | 0 <= j < |blocked|
        ensures blocked[j].blockedLeft == lefts[j]
      {
        assert blocked[j].blockedLeft == old(blocked[j].blockedLeft);
      }
      forall x: Pcb {:trigger x.Registers()} | old(allocated(x))
        ensures x.Registers() == old(x.Registers()).(state := x.state) && x.quantumLeft == old(x.quantumLeft)
      {
        assert CountedDown(x, []);
      }
      label Admitted:
      WakePhase(lefts);
      forall x: Pcb | old(allocated(x))
        ensures CountedDown(x, old(blocked))
      {
        assert CountedDown@Admitted(x, old(blocked));
        assert old@Admitted(x.Registers()) == old(x.Registers()).(state := old@Admitted(x.state));
      }
    }

    /**
     * Phases 3 and 4 of `ciclo_simulador`: besides the lists, a real-time
     * process out of quantum gets a full quantum back.
     */
    method Settle()
      requires Valid()
      modifies this, {running}`state, {running}`quantumLeft
      ensures Valid() && Snapshot() == Retire(Preempt(old(Snapshot())), old(RunningState()), old(RunningQuantum()))
      ensures running != null ==> running == old(running) && running.state == Running && !old(Expired())
      ensures old(running) != null ==>
        old(running).quantumLeft == (if old(Expired()) then old(running).quantumTotal else old(running.quantumLeft))
      ensures forall x: Pcb {:trigger x.Registers()} :: old(allocated(x)) ==>
        x.Registers() == old(x.Registers()).(state := x.state) && (x != old(running) ==> x.quantumLeft == old(x.quantumLeft))
      ensures clock == old(clock) && nextPid == old(nextPid)
    {
      ghost var state, quantumLeft, expired := RunningState(), RunningQuantum(), Expired();
      PreemptPhase();
      if running != null {
        assert RunningState() == state && RunningQuantum() == quantumLeft && Expired() == expired;
      }
      RetirePhase();
    }

    /** The process on the CPU once phases 1 to 5 of this turn have run. */
    ghost function Chosen(): Option<Pcb>
      reads this, blocked, running
    {
      Turn(Snapshot(), clock, Lefts(blocked), RunningState(), RunningQuantum()).running
    }

    /**
     * One turn of `ciclo_simulador`: the six phases in order, then the
     * clock advances and the stop criterion is evaluated. `input` is what
     * a SYSCALL 2 would read and `blockTime` what `rand() % 3 + 3` draws.
     * The frame says what may change: the lists and the clock, the state
     * of newcomers and blocked processes, the count of blocked ones, the
     * state and quantum of the process on the CPU, and all of the process
     * the CPU holds at phase 5 with its memory; every other field and
     * every other memory stays as it was. Of those, the process on the CPU
     * at the end executed one instruction from the registers it had, with
     * its blocked count down one turn if it was blocked; its quantum went
     * on if it kept the CPU through phases 1 to 4 and started full
     * otherwise. Every other blocked process counted down one turn, and the
     * process that left the CPU kept its quantum unless it was the
     * real-time process that ran out.
     */
    method Cycle(input: int, blockTime: int) returns (active: bool)
      requires Valid()
      modifies this, newcomers`state, blocked`state, blocked`blockedLeft, {running}`state, {running}`quantumLeft
      modifies Picked(Chosen()), PickedMemory(Chosen())
      ensures Valid() && clock == old(clock) + 1 && nextPid == old(nextPid) && active == Active(Snapshot())
      ensures Snapshot() == Turn(old(Snapshot()), old(clock), old(Lefts(blocked)), old(RunningState()), old(RunningQuantum()))
      ensures running != null ==>
        && old(allocated(running)) && running in old(Members(Snapshot()))
        && Executed(running, old(blocked), Settled(old(Snapshot()), old(clock), old(Lefts(blocked)), old(RunningState()), old(RunningQuantum())).running == Some(running), input, blockTime)
      ensures forall x: Pcb {:trigger x.Registers()} :: old(allocated(x)) && x in old(Members(Snapshot())) && x != running ==>
        Waited(x, old(blocked), old(running), old(Expired()))
    {
      ghost var w, now, lefts := Snapshot(), clock, Lefts(blocked);
      ghost var state, quantumLeft := RunningState(), RunningQuantum();
      ghost var settled := Settled(w, now, lefts, state, quantumLeft);
      forall x | x in Members(w)
        ensures allocated(x)
      {
        MemberIn(w, x);
      }
      TurnMembers(w, now, lefts, state, quantumLeft);
      Prepare();
      label Prepared:
      assert Members(Snapshot()) == Members(w);
      ghost var kept := running;
      active := Run(input, blockTime, old(Chosen()));
      if running != null {
        var p := running;
        assert old@Prepared(p.Registers()) == old(p.Registers()).(state := old@Prepared(p.state), blockedLeft := old@Prepared(p.blockedLeft));
        assert old@Prepared(p.Registers()).(state := Running)
          == old(p.Registers()).(state := Running, blockedLeft := Countdown(old(p.blockedLeft), Among(p, old(blocked))));
        if settled.running == Some(p) {
          assert p == kept;
          assert old@Prepared(p.quantumLeft) == old(p.quantumLeft);
        } else {
          assert p != kept;
        }
        assert p.Valid();
        assert p.Registers() == Step(p.code, old(p.Registers()).(state := Running, blockedLeft := Countdown(old(p.blockedLeft), Among(p, old(blocked)))), input, blockTime);
        assert p.quantumLeft == (if settled.running == Some(p) then old(p.quantumLeft) else p.quantumTotal) - (if p.realtime then 1 else 0);
        assert Executed(p, old(blocked), settled.running == Some(p), input, blockTime);
      }
      forall x: Pcb | old(allocated(x)) && x in Members(w) && x != running
        ensures Waited(x, old(blocked), old(running), old(Expired()))
      {
        assert x in old@Prepared(Members(Snapshot()));
        assert x.Registers() == old@Prepared(x.Registers()) && x.quantumLeft == old@Prepared(x.quantumLeft);
        assert old@Prepared(x.Registers()) == old(x.Registers()).(state := old@Prepared(x.state), blockedLeft := old@Prepared(x.blockedLeft));
      }
    }

    /** Phases 1 to 4 of `ciclo_simulador`: the lists, the blocked countdown and the refill on expiry. */
    method Prepare()
      requires Valid()
      modifies this, newcomers`state, blocked`state, blocked`blockedLeft, {running}`state, {running}`quantumLeft
      ensures Valid()
      ensures Snapshot() == Settled(old(Snapshot()), old(clock), old(Lefts(blocked)), old(RunningState()), old(RunningQuantum()))
      ensures running != null ==> running == old(running) && running.state == Running && !old(Expired())
      ensures forall x: Pcb {:trigger x.Registers()} :: old(allocated(x)) ==>
        && x.Registers() == old(x.Registers()).(state := x.state, blockedLeft := x.blockedLeft)
        && x.blockedLeft == Countdown(old(x.blockedLeft), Among(x, old(blocked)))
        && (x != old(running) ==> x.quantumLeft == old(x.quantumLeft))
      ensures old(running) != null ==>
        old(running).quantumLeft == (if old(Expired()) then old(running).quantumTotal else old(running.quantumLeft))
      ensures clock == old(clock) && nextPid == old(nextPid)
    {
      ghost var w, lefts, now := Snapshot(), Lefts(blocked), clock;
      ghost var state, quantumLeft, expired := RunningState(), RunningQuantum(), Expired();
      Arrive();
      forall x: Pcb {:trigger x.Registers()} | old(allocated(x))
        ensures && x.Registers() == old(x.Registers()).(state := x.state, blockedLeft := x.blockedLeft)
                && x.blockedLeft == Countdown(old(x.blockedLeft), Among(x, old(blocked)))
                && x.quantumLeft == old(x.quantumLeft)
      {
        assert CountedDown(x, old(blocked));
      }
      label Arrived:
      assert RunningState() == state && RunningQuantum() == quantumLeft && Expired() == expired;
      Settle();
      assert Snapshot() == Settled(w, now, lefts, state, quantumLeft);
      forall x: Pcb | old(allocated(x))
        ensures x.Registers() == old(x.Registers()).(state := x.state, blockedLeft := x.blockedLeft)
      {
        assert old@Arrived(x.Registers()) == old(x.Registers()).(state := old@Arrived(x.state), blockedLeft := old@Arrived(x.blockedLeft));
        assert x.Registers() == old@Arrived(x.Registers()).(state := x.state);
      }
    }

    /**
     * Phases 5 and 6 of `ciclo_simulador`, then the clock step and the stop
     * criterion: the process on the CPU at the end executed one
     * instruction; its quantum went on if it already held the CPU and
     * started full otherwise. No other process and no other memory changes.
     */
    method Run(input: int, blockTime: int, ghost next: Option<Pcb>) returns (active: bool)
      requires Valid() && (running != null ==> running.state == Running)
      requires next == Dispatch(Snapshot()).running
      modifies this, Picked(next), PickedMemory(next)
      ensures Valid() && Snapshot() == Dispatch(old(Snapshot()))
      ensures running != null ==>
        var p := running;
        && old(allocated(p)) && p in old(Members(Snapshot())) && p.Valid()
        && p.Registers() == Step(p.code, old(p.Registers()).(state := Running), input, blockTime)
        && p.quantumLeft == (if p == old(running) then old(p.quantumLeft) else p.quantumTotal) - (if p.realtime then 1 else 0)
      ensures forall x: Pcb {:trigger x.Registers()} :: old(allocated(x)) && x in old(Members(Snapshot())) && x != running ==>
        x.Registers() == old(x.Registers()) && x.quantumLeft == old(x.quantumLeft)
      ensures clock == old(clock) + 1 && nextPid == old(nextPid) && active == Active(Snapshot())
    {
      ghost var w := Snapshot();
      DispatchPhase();
      DispatchHeld(w);
      SameMembers(w, Dispatch(w));
      active := Finish(input, blockTime);
    }

    /** The end of a turn: the clock advances and the stop criterion is evaluated. */
    method Tick() returns (active: bool)
      requires Valid()
      modifies this`clock
      ensures Valid() && Snapshot() == old(Snapshot())
      ensures clock == old(clock) + 1 && active == Active(Snapshot())
      ensures forall x: Pcb {:trigger x.Registers()} :: old(allocated(x)) ==> x.Registers() == old(x.Registers())
    {
      ghost var w := Snapshot();
      assert WellFormed(w, nextPid) && Agree(w);
      clock := clock + 1;
      assert Snapshot() == w;
      active := newcomers != [] || high != [] || low != [] || bestEffort != [] || blocked != [] || running != null;
    }
}
}
