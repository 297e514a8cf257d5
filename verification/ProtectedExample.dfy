/** A clean list that names a protected entry, as a run: two ranks, an early write that passes
    rank 0's test, and a sync point while the written entry is protected. */
module ProtectedExample {
  import opened AddressLists
  import opened CacheState
  import opened Options
  import opened Agreement
  import opened ParallelRun
  import opened ParallelTheorems

  function Setting(): Config { Config(15, ProcessZeroOnly, true) }

  function ProtectingJob(): Job {
    Job(2, [Insert(0, Obj(5, 1), false), Protect(0), Insert(1, Obj(20, 2), false),
            Unprotect(0, true, false, 7), Insert(2, Obj(10, 3), false)],
        Prog(map[], map[], Setting()), true)
  }

  lemma ProtectingProgram()
    ensures var job := ProtectingJob(); var a, b := Obj(5, 1), Obj(20, 2);
      && ProgAt(job, 0) == job.init
      && ProgAt(job, 1) == Prog(map[0 := a], map[], Setting())
      && ProgAt(job, 2) == Prog(map[0 := a], map[0 := false], Setting())
      && ProgAt(job, 3) == Prog(map[0 := a, 1 := b], map[0 := false], Setting())
      && ProgAt(job, 4) == Prog(map[0 := Obj(5, 7), 1 := b], map[], Setting())
      && ValidJob(job)
  {
    var job := ProtectingJob();
    assert ProgAt(job, 0) == job.init;
    assert ProgAt(job, 1) == ProgStep(ProgAt(job, 0), job.script[0]);
    assert ProgAt(job, 2) == ProgStep(ProgAt(job, 1), job.script[1]);
    assert ProgAt(job, 3) == ProgStep(ProgAt(job, 2), job.script[2]);
    assert map[0 := false] - {0} == map[];
    assert ProgAt(job, 4) == ProgStep(ProgAt(job, 3), job.script[3]);
    assert ProgAt(job, 5) == ProgStep(ProgAt(job, 4), job.script[4]);
  }

  /** What is dirty, by the program, when the sync point is reached. */
  lemma DirtyAtTheSync()
    requires ValidJob(ProtectingJob())
    ensures TallyAt(ProtectingJob(), Base(0, {}), 3).dirty == {0, 1}
  {
    ProtectingProgram();
    var job, b := ProtectingJob(), Base(0, {});
    assert TallyAt(job, b, 1) == Tally({0}, 5);
    assert TallyAt(job, b, 2) == Tally({0}, 5);
    assert TallyAt(job, b, 3).dirty == {0, 1};
  }

  function Of(zero: bool, cache: map<Addr, Entry>, dlist: set<Addr>, clist: set<Addr>, bytes: nat): Rank {
    Rank(zero, cache, dlist, clist, {}, bytes, false, Setting())
  }

  function First(dirty: bool, prot: bool, clear: bool, data: int): Entry { Entry(Obj(5, data), dirty, false, prot, false, clear) }

  function Second(): Entry { Entry(Obj(20, 2), true, false, false, false, false) }

  function Third(): Entry { Entry(Obj(10, 3), true, false, false, false, false) }

  /** Rank 0, from place to place. */
  function Zero(i: nat): Proc {
    if i == 0 then Proc(EmptyRank(true, Setting()), 0, 0, Running)
    else if i == 1 then Proc(Of(true, map[0 := First(true, false, false, 1)], {0}, {}, 5), 1, 0, Running)
    else if i == 2 then Proc(Of(true, map[0 := First(false, false, false, 1)], {0}, {0}, 5), 1, 0, Running)
    else if i == 3 then Proc(Of(true, map[0 := First(false, true, false, 1)], {0}, {0}, 5), 2, 0, Running)
    else if i == 4 then Proc(Of(true, map[0 := First(false, true, false, 1), 1 := Second()], {0, 1}, {0}, 25), 3, 0, Opening)
    else if i == 5 then Zero(4).(phase := Deciding, s := Zero(4).s.(permitted := true))
    else if i == 6 then Proc(Of(true, map[0 := First(false, true, false, 1), 1 := Second()], {1}, {}, 0), 3, 1, Running)
    else if i == 7 then Proc(Of(true, map[0 := First(true, false, false, 7), 1 := Second()], {0, 1}, {}, 5), 4, 1, Running)
    else Proc(Of(true, map[0 := First(true, false, false, 7), 1 := Second(), 2 := Third()], {0, 1, 2}, {}, 15), 5, 1, Opening)
  }

  function One(i: nat): Proc {
    if i == 0 then Proc(EmptyRank(false, Setting()), 0, 0, Running)
    else if i == 1 then Proc(Of(false, map[0 := First(true, false, false, 1)], {}, {}, 5), 1, 0, Running)
    else if i == 2 then Proc(Of(false, map[0 := First(true, true, false, 1)], {}, {}, 5), 2, 0, Running)
    else if i == 3 then Proc(Of(false, map[0 := First(true, true, false, 1), 1 := Second()], {}, {}, 25), 3, 0, Opening)
    else if i == 4 then One(3).(phase := Deciding)
    else if i == 5 then Proc(Of(false, map[0 := First(true, true, true, 1), 1 := Second()], {}, {}, 0), 3, 1, Running)
    else if i == 6 then Proc(Of(false, map[0 := First(true, false, false, 7), 1 := Second()], {}, {}, 0), 4, 1, Running)
    else Proc(Of(false, map[0 := First(true, false, false, 7), 1 := Second(), 2 := Third()], {}, {}, 10), 5, 1, Running)
  }

  function Before(z: Proc, p: Proc, disk: map<Addr, Obj>): World {
    World([z, p], disk, [], [Base(0, {})])
  }

  function After(z: Proc, p: Proc): World {
    World([z, p], map[0 := Obj(5, 1)], [[0]], [Base(0, {}), Base(3, {1})])
  }

  function Stage(i: nat): World {
    if i < 2 then Before(Zero(i), One(0), map[])
    else if i < 5 then Before(Zero(i), One(0), map[0 := Obj(5, 1)])
    else if i < 8 then Before(Zero(4), One(i - 4), map[0 := Obj(5, 1)])
    else if i == 8 then Before(Zero(5), One(3), map[0 := Obj(5, 1)])
    else if i == 9 then Before(Zero(5), One(4), map[0 := Obj(5, 1)])
    else if i == 10 then After(Zero(6), One(4))
    else if i == 11 then After(Zero(6), One(5))
    else if i == 12 then After(Zero(7), One(5))
    else if i == 13 then After(Zero(7), One(6))
    else if i == 14 then After(Zero(8), One(6))
    else After(Zero(8), One(7))
  }

  function Taken(i: nat): Step {
    if i == 1 then EarlyFlush(0)
    else if i < 4 then Exec(0, {})
    else if i < 7 then Exec(1, {})
    else if i == 7 then PassOpening(0)
    else if i == 8 then PassOpening(1)
    else if i == 9 then ZeroPost
    else if i == 10 then ReceiveClean(1)
    else if i == 11 || i == 13 then Exec(0, {})
    else Exec(1, {})
  }

  lemma StageShaped(i: nat)
    requires i <= 15
    ensures Shaped(ProtectingJob(), Stage(i)) && |Stage(i).procs| == 2
  {
    hide ValidJob, Zero, One;
    ProtectingProgram();
    Places(4);
    if i < 7 {
      Places(i);
    }
    Places(5);
    Places(6);
    Places(7);
    Places(8);
  }

  lemma Places(i: nat)
    ensures Zero(i).epoch == (if i < 6 then 0 else 1) && Zero(i).pos <= 5 && (i >= 6 ==> Zero(i).pos >= 3)
    ensures forall j: nat :: One(j).epoch == (if j < 5 then 0 else 1) && One(j).pos <= 5 && (j >= 4 ==> One(j).pos >= 3)
  {
  }

  // --------------------------------------------------------- the operations

  /** p runs its next operation and becomes p'. */
  ghost predicate Runs(p: Proc, p': Proc) {
    && p.phase.Running? && p.pos < 5 && p.s.cfg == Setting() && p'.pos == p.pos + 1 && p'.epoch == p.epoch
    && var op := ProtectingJob().script[p.pos];
    && RunOp(p.s, op) == Some(p'.s) && p'.s.cand == {}
    && if RankDemand(p'.s, op).SyncPoint? then p'.phase.Opening? else RankDemand(p'.s, op).Nothing? && p'.phase.Running?
  }

  lemma ZeroRuns(i: nat)
    requires i in {0, 2, 3, 6, 7}
    ensures Runs(Zero(i), Zero(i + 1))
  {
    var p, p' := Zero(i), Zero(i + 1);
    var s1 := RunOp(p.s, ProtectingJob().script[p.pos]).value;
    assert s1.cache == p'.s.cache;
    assert s1.dlist == p'.s.dlist;
    assert s1.clist == p'.s.clist;
  }

  lemma OneRuns(i: nat)
    requires i in {0, 1, 2, 5, 6}
    ensures Runs(One(i), One(i + 1))
  {
    var p, p' := One(i), One(i + 1);
    var s1 := RunOp(p.s, ProtectingJob().script[p.pos]).value;
    assert s1.cache == p'.s.cache;
  }

  lemma Executes(w: World, r: nat, p': Proc)
    requires r < |w.procs| && Runs(w.procs[r], p')
    ensures ExecStep(ProtectingJob(), w, r, {}, Put(w, r, p'))
  {
    hide RunOp;
    var p, op := w.procs[r], ProtectingJob().script[w.procs[r].pos];
    assert p'.s.(cand := {}) == p'.s;
    SameSetting(p.s, op, p'.s);
  }

  lemma SameSetting(s: Rank, op: Op, s1: Rank)
    requires RunOp(s, op) == Some(s1) && !op.Configure?
    ensures s1.cfg == s.cfg
  {
  }

  lemma ZeroStages(i: nat)
    requires i in {0, 2, 3, 11, 13}
    ensures ExecStep(ProtectingJob(), Stage(i), 0, {}, Stage(i + 1))
  {
    hide Runs, Zero, One, ExecStep;
    var j := if i < 4 then i else if i == 11 then 6 else 7;
    ZeroRuns(j);
    assert Stage(i).procs[0] == Zero(j) && Stage(i + 1) == Put(Stage(i), 0, Zero(j + 1));
    Executes(Stage(i), 0, Zero(j + 1));
  }

  lemma OneStages(i: nat)
    requires i in {4, 5, 6, 12, 14}
    ensures ExecStep(ProtectingJob(), Stage(i), 1, {}, Stage(i + 1))
  {
    hide Runs, Zero, One, ExecStep;
    var j := if i < 7 then i - 4 else if i == 12 then 5 else 6;
    OneRuns(j);
    assert Stage(i).procs[1] == One(j) && Stage(i + 1) == Put(Stage(i), 1, One(j + 1));
    Executes(Stage(i), 1, One(j + 1));
  }

  // --------------------------------------------------------- the sync point

  lemma EarlyStage()
    ensures Shaped(ProtectingJob(), Stage(1)) && EarlyFlushStep(ProtectingJob(), Stage(1), 0, Stage(2))
    ensures Heedful(ProtectingJob(), Stage(1), EarlyFlush(0))
  {
    StageShaped(1);
    ProtectingProgram();
    var p := Zero(1);
    assert FlushEntry(p.s, 0).cache == Zero(2).s.cache;
    assert FlushEntry(p.s, 0).clist == {0};
  }

  lemma PassingStages()
    ensures PassOpeningStep(Stage(7), 0, Stage(8)) && PassOpeningStep(Stage(8), 1, Stage(9))
  {
    assert Zero(4).s.cfg == One(3).s.cfg == Setting();
    assert One(3).s.(permitted := false) == One(3).s;
  }

  /** Rank 0 posts the entry it wrote early, which is protected by now. */
  lemma PostingStage()
    ensures Shaped(ProtectingJob(), Stage(9)) && ZeroPostStep(ProtectingJob(), Stage(9), Stage(10))
    ensures !Heedful(ProtectingJob(), Stage(9), ZeroPost)
  {
    StageShaped(9);
    ProtectingProgram();
    DirtyAtTheSync();
    var job, w, p := ProtectingJob(), Stage(9), Zero(5);
    SortedIs([0]);
    assert Elements([0]) == {0};
    assert {0, 1} - {0} == {1};
    assert 0 in ProtectedSet(p.s);
    assert Left(p, BroadcastClean(p.s)) == Zero(6);
  }

  lemma ReceivingStage()
    ensures ReceiveCleanStep(Stage(10), 1, Stage(11))
  {
    var p := One(4);
    assert Elements([0]) == {0};
    assert MarkEntriesAsClean(p.s, {0}).value.cache == One(5).s.cache;
  }

  lemma StageSteps(i: nat)
    requires i < 15
    ensures Shaped(ProtectingJob(), Stage(i)) && StepTo(ProtectingJob(), Stage(i), Taken(i), Stage(i + 1))
    ensures i != 9 ==> Heedful(ProtectingJob(), Stage(i), Taken(i))
  {
    hide Stage, Shaped, ExecStep, EarlyFlushStep, PassOpeningStep, ZeroPostStep, ReceiveCleanStep;
    StageShaped(i);
    if i in {0, 2, 3, 11, 13} {
      ZeroStages(i);
    } else if i in {4, 5, 6, 12, 14} {
      OneStages(i);
    } else if i == 1 {
      EarlyStage();
    } else if i < 9 {
      PassingStages();
    } else if i == 9 {
      PostingStage();
    } else {
      ReceivingStage();
    }
  }

  lemma StageFacts()
    ensures Taken(9) == ZeroPost && Init(ProtectingJob(), Stage(0)) && forall i :: |Stage(i).procs| == 2
    ensures Stage(11).procs == [Zero(6), One(5)] && Stage(13).procs == [Zero(7), One(6)] && Stage(15).procs == [Zero(8), One(7)]
  {
  }

  lemma PlaceFacts()
    ensures var z, p := Zero(6), One(5);
      && z.pos == p.pos && z.epoch == p.epoch && z.phase.Running? && p.phase.Running?
      && z.s.dlist == {1} && DirtySet(p.s) == {0, 1}
    ensures var z, p := Zero(7), One(6); z.pos == p.pos && z.s.bytes == 5 && p.s.bytes == 0
    ensures var z, p := Zero(8), One(7);
      && z.pos == p.pos == 5 && z.epoch == p.epoch
      && z.s.bytes == 15 && p.s.bytes == 10 && z.phase.Opening? && p.phase.Running?
  {
    assert DirtySet(One(5).s) == {0, 1};
  }

  /** Every early write fits, and still: rank 0 posts a clean list that names an entry protected
      at that moment.  After the sync point rank 1 holds as dirty what rank 0 does not list;
      once the entry has been modified and released the ranks have counted differently; and
      the next insertion takes rank 0 into a sync point that rank 1, at the end of the program,
      never joins. */
  lemma PostingAProtectedEntry() returns (ws: seq<World>, steps: seq<Step>)
    ensures AnyRun(ProtectingJob(), ws, steps) && |ws| == 16 && forall i | 0 <= i < 16 :: |ws[i].procs| == 2
    ensures forall i | 0 <= i < 15 :: Shaped(ProtectingJob(), ws[i]) && (Heedful(ProtectingJob(), ws[i], steps[i]) <== i != 9)
    ensures steps[9] == ZeroPost && !Heedful(ProtectingJob(), ws[9], steps[9])
    ensures var z, p := ws[11].procs[0], ws[11].procs[1];
      && z.pos == p.pos && z.epoch == p.epoch && z.phase.Running? && p.phase.Running?
      && z.s.dlist == {1} && DirtySet(p.s) == {0, 1}
    ensures var z, p := ws[13].procs[0], ws[13].procs[1]; z.pos == p.pos && z.s.bytes == 5 && p.s.bytes == 0
    ensures var z, p := ws[15].procs[0], ws[15].procs[1];
      && z.pos == p.pos == |ProtectingJob().script| && z.epoch == p.epoch
      && z.s.bytes == 15 && p.s.bytes == 10 && z.phase.Opening? && p.phase.Running?
  {
    hide StepTo, Shaped, ValidJob, Stage, Taken, Heedful, DirtyIn, Zero, One, Init;
    ProtectingProgram();
    ws, steps := seq(16, i requires 0 <= i < 16 => Stage(i)), seq(15, i requires 0 <= i < 15 => Taken(i));
    StageFacts();
    PlaceFacts();
    PostingStage();
    forall i | 0 <= i < |steps|
      ensures Shaped(ProtectingJob(), ws[i]) && StepTo(ProtectingJob(), ws[i], steps[i], ws[i + 1])
      ensures i != 9 ==> Heedful(ProtectingJob(), ws[i], steps[i])
    {
      StageSteps(i);
    }
  }
}
