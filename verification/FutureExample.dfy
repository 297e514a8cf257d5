/** The message from the future that the design notes warn of, as a run: rank 0 writes out an
    entry the others may still read from the file, and one of them reads it too early. */
module FutureExample {
  import opened AddressLists
  import opened CacheState
  import opened Options
  import opened Agreement
  import opened ParallelRun
  import opened ParallelTheorems

  /** Two ranks grow an object from 10 to 20 bytes, with a threshold of 15. */
  function GrowingJob(): Job {
    Job(2, [Protect(0), Resize(0, 20), Unprotect(0, true, false, 7)],
        Prog(map[0 := Obj(10, 1)], map[], Config(15, ProcessZeroOnly, true)), true)
  }

  lemma GrowingProgram()
    ensures var job := GrowingJob(); var cfg := job.init.cfg;
      && ProgAt(job, 0) == job.init
      && ProgAt(job, 1) == Prog(map[0 := Obj(10, 1)], map[0 := false], cfg)
      && ProgAt(job, 2) == Prog(map[0 := Obj(20, 1)], map[0 := false], cfg)
      && ProgAt(job, 3) == Prog(map[0 := Obj(20, 7)], map[], cfg)
      && ValidJob(job)
  {
    var job := GrowingJob();
    assert ProgAt(job, 0) == job.init;
    assert ProgAt(job, 1) == ProgStep(job.init, job.script[0]);
    assert ProgAt(job, 2) == ProgStep(ProgAt(job, 1), job.script[1]);
    assert ProgAt(job, 3) == ProgStep(ProgAt(job, 2), job.script[2]);
    assert map[0 := false] - {0} == map[];
  }

  /** A rank of the job that holds the object as entry e. */
  function Holding(zero: bool, e: Entry, dlist: set<Addr>, clist: set<Addr>, bytes: nat): Rank {
    Rank(zero, map[0 := e], dlist, clist, {}, bytes, false, GrowingJob().init.cfg)
  }

  function Holds(obj: Obj, dirty: bool, prot: bool): Entry { Entry(obj, dirty, false, prot, false, false) }

  /** The places rank 0 goes through, before it writes early. */
  function Ahead(i: nat): Proc {
    if i == 0 then Proc(Holding(true, Holds(Obj(10, 1), false, false), {}, {}, 0), 0, 0, Running)
    else if i == 1 then Proc(Holding(true, Holds(Obj(10, 1), false, true), {}, {}, 0), 1, 0, Running)
    else if i == 2 then Proc(Holding(true, Holds(Obj(20, 1), true, true), {0}, {}, 10), 2, 0, Running)
    else Proc(Holding(true, Holds(Obj(20, 7), true, false), {0}, {}, 10), 3, 0, Running)
  }

  function AfterWriting(): Proc {
    Proc(Holding(true, Holds(Obj(20, 7), false, false), {0}, {0}, 10), 3, 0, Running)
  }

  /** The places rank 1 goes through, once it has read the object. */
  function Late(i: nat): Proc {
    if i == 0 then Proc(Holding(false, Holds(Obj(20, 7), false, false), {}, {}, 0), 0, 0, Running)
    else if i == 1 then Proc(Holding(false, Holds(Obj(20, 7), false, true), {}, {}, 0), 1, 0, Running)
    else if i == 2 then Proc(Holding(false, Holds(Obj(20, 7), false, true), {}, {}, 0), 2, 0, Running)
    else Proc(Holding(false, Holds(Obj(20, 7), true, false), {}, {}, 20), 3, 0, Opening)
  }

  function Blank(zero: bool): Proc { Proc(EmptyRank(zero, GrowingJob().init.cfg), 0, 0, Running) }

  function Two(z: Proc, p: Proc, obj: Obj): World {
    World([z, p], map[0 := obj], [], [Base(0, {})])
  }

  lemma Overwritten<T>(x: T, y: T)
    ensures map[0 := x][0 := y] == map[0 := y]
  {
  }

  lemma AheadSteps(i: nat)
    requires i < 3
    ensures ExecStep(GrowingJob(), Two(Ahead(i), Blank(false), Obj(10, 1)), 0, {}, Two(Ahead(i + 1), Blank(false), Obj(10, 1)))
  {
    var p, op := Ahead(i), GrowingJob().script[i];
    Overwritten(p.s.cache[0], Ahead(i + 1).s.cache[0]);
    var none: set<Addr> := {};
    assert none + {0} == {0} && none - {0} == none;
    assert RunOp(p.s, op) == Some(Ahead(i + 1).s);
    assert RankDemand(Ahead(i + 1).s, op) == Nothing;
  }

  lemma LateSteps(i: nat)
    requires i < 3
    ensures ExecStep(GrowingJob(), Two(AfterWriting(), Late(i), Obj(20, 7)), 1, {}, Two(AfterWriting(), Late(i + 1), Obj(20, 7)))
  {
    var p, op := Late(i), GrowingJob().script[i];
    Overwritten(p.s.cache[0], Late(i + 1).s.cache[0]);
    assert RunOp(p.s, op) == Some(Late(i + 1).s);
    assert RankDemand(Late(i + 1).s, op) == if i < 2 then Nothing else SyncPoint(ToMinClean);
  }

  lemma LoadSteps()
    ensures LoadStep(GrowingJob(), Two(Blank(true), Blank(false), Obj(10, 1)), 0, 0, Two(Ahead(0), Blank(false), Obj(10, 1)))
    ensures LoadStep(GrowingJob(), Two(AfterWriting(), Blank(false), Obj(20, 7)), 1, 0, Two(AfterWriting(), Late(0), Obj(20, 7)))
  {
    GrowingProgram();
  }

  lemma EarlyStep()
    ensures var w := Two(Ahead(3), Blank(false), Obj(10, 1));
      Shaped(GrowingJob(), w) && EarlyFlushStep(GrowingJob(), w, 0, Two(AfterWriting(), Blank(false), Obj(20, 7)))
  {
    TwoShaped(Ahead(3), Blank(false), Obj(10, 1));
    Overwritten(Ahead(3).s.cache[0], AfterWriting().s.cache[0]);
    Overwritten(Obj(10, 1), Obj(20, 7));
    var none: set<Addr> := {};
    assert none + {0} == {0};
  }

  lemma TwoShaped(z: Proc, p: Proc, obj: Obj)
    requires z.epoch == 0 && p.epoch == 0 && z.pos <= 3 && p.pos <= 3
    ensures Shaped(GrowingJob(), Two(z, p, obj))
  {
    GrowingProgram();
  }

  function Stage(i: nat): World {
    if i == 0 then Two(Blank(true), Blank(false), Obj(10, 1))
    else if i < 5 then Two(Ahead(i - 1), Blank(false), Obj(10, 1))
    else if i == 5 then Two(AfterWriting(), Blank(false), Obj(20, 7))
    else Two(AfterWriting(), Late(i - 6), Obj(20, 7))
  }

  function Taken(i: nat): Step {
    if i == 0 then Load(0, 0)
    else if i < 4 then Exec(0, {})
    else if i == 4 then EarlyFlush(0)
    else if i == 5 then Load(1, 0)
    else Exec(1, {})
  }

  lemma StageSteps(i: nat)
    requires i < 9
    ensures Shaped(GrowingJob(), Stage(i)) && StepTo(GrowingJob(), Stage(i), Taken(i), Stage(i + 1))
  {
    hide ExecStep, LoadStep, EarlyFlushStep, Shaped;
    TwoShaped(Stage(i).procs[0], Stage(i).procs[1], Stage(i).disk[0]);
    if i == 0 || i == 5 {
      LoadSteps();
    } else if i < 4 {
      AheadSteps(i - 1);
    } else if i == 4 {
      EarlyStep();
    } else {
      LateSteps(i - 6);
    }
  }

  /** Rank 0 runs ahead and writes the grown object out at once, although the file held the
      object's content at the last sync point, the start; rank 1 reads it before it has
      run any operation.  After the same three operations the ranks have counted 10 and 20
      bytes: rank 1 waits in a sync point while rank 0, at the end of the program, does not. */
  lemma MessageFromTheFuture() returns (ws: seq<World>, steps: seq<Step>)
    ensures AnyRun(GrowingJob(), ws, steps) && |ws| == 10
    ensures forall i | 0 <= i < |ws| :: |ws[i].procs| == 2
    ensures steps[4] == EarlyFlush(0) && ws[4].procs[0].s.cache.Keys == {0} && ws[4].bases == [Base(0, {})]
            && !FitsLastSync(GrowingJob(), ws[4].bases[0], 0, ws[4].procs[0].s.cache[0].obj)
    ensures steps[5] == Load(1, 0) && ws[6].procs[1].pos == 0
            && 0 in ws[6].procs[1].s.cache && ws[6].procs[1].s.cache[0].obj != GrowingJob().init.truth[0]
    ensures var z, p := ws[9].procs[0], ws[9].procs[1];
      && z.pos == p.pos == |GrowingJob().script| && z.epoch == p.epoch
      && z.s.bytes == 10 && p.s.bytes == 20 && z.phase.Running? && p.phase.Opening?
  {
    hide StepTo, Shaped, ValidJob, Stage, Taken;
    GrowingProgram();
    ws, steps := seq(10, i requires 0 <= i < 10 => Stage(i)), seq(9, i requires 0 <= i < 9 => Taken(i));
    StageFacts();
    forall i | 0 <= i < |steps| ensures Shaped(GrowingJob(), ws[i]) && StepTo(GrowingJob(), ws[i], steps[i], ws[i + 1]) {
      StageSteps(i);
    }
  }

  lemma StageFacts()
    ensures Taken(4) == EarlyFlush(0) && Stage(4) == Two(Ahead(3), Blank(false), Obj(10, 1))
    ensures Init(GrowingJob(), Stage(0)) && forall i :: |Stage(i).procs| == 2
    ensures Taken(5) == Load(1, 0) && Stage(6).procs[1] == Late(0) && Stage(9).procs == [Ahead(3).(s := AfterWriting().s), Late(3)]
  {
  }
}
