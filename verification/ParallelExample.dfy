/** The theorems about runs are about something: a small job, run through its sync point. */
module ParallelExample {
  import opened AddressLists
  import opened CacheState
  import opened Options
  import opened Agreement
  import opened ParallelRun
  import opened ParallelSafety
  import opened ParallelSync
  import opened ParallelTheorems
  import opened ParallelProgress

  /** Two ranks insert one entry of ten bytes, with a threshold of five. */
  function SmallJob(): Job {
    Job(2, [Insert(5, Obj(10, 1), false)], Prog(map[], map[], Config(5, ProcessZeroOnly, true)), false)
  }

  lemma SmallJobIsValid()
    ensures ValidJob(SmallJob())
  {
    var job := SmallJob();
    assert ProgAt(job, 0) == job.init;
    assert OpOk(ProgAt(job, 0), job.script[0]);
  }

  function Start(): World {
    var cfg := SmallJob().init.cfg;
    World([Proc(EmptyRank(true, cfg), 0, 0, Running), Proc(EmptyRank(false, cfg), 0, 0, Running)], map[], [], [Base(0, {})])
  }

  /** A rank of the job after its one operation: at the opening barrier. */
  function Waiting(zero: bool): Proc {
    var cfg := SmallJob().init.cfg;
    var cache := map[5 := Entry(Obj(10, 1), true, false, false, false, false)];
    Proc(Rank(zero, cache, if zero then {5} else {}, {}, {}, 10, false, cfg), 1, 0, Opening)
  }

  lemma Arrives(w: World, r: nat)
    requires |w.procs| == 2 && r < 2
    requires w.procs[r] == Proc(EmptyRank(r == 0, SmallJob().init.cfg), 0, 0, Running)
    ensures ExecStep(SmallJob(), w, r, {}, Put(w, r, Waiting(r == 0)))
  {
    var op, s := SmallJob().script[0], w.procs[r].s;
    var e := Entry(Obj(10, 1), true, false, false, false, false);
    assert s.cache[5 := e] == map[5 := e] && s.dlist + {5} == {5};
    assert RunOp(s, op) == Some(Waiting(r == 0).s);
    assert RankDemand(Waiting(r == 0).s, op) == SyncPoint(ToMinClean);
  }

  /** Both ranks arrive, the sync point completes, and both have left it. */
  lemma ASyncPointHappens() returns (ws: seq<World>, steps: seq<Step>)
    ensures Run(SmallJob(), ws, steps)
    ensures |ws| == |steps| + 1 && |ws[|steps|].procs| == 2 && forall r | 0 <= r < 2 :: ws[|steps|].procs[r].epoch > 0
  {
    hide Safe, Shaped, StepTo, Stretch, ValidJob, TotalWork;
    var job, w0 := SmallJob(), Start();
    SmallJobIsValid();
    InitIsSafe(job, w0);
    Arrives(w0, 0);
    var w1 := Put(w0, 0, Waiting(true));
    OneExec(job, w0, 0, w1);
    Arrives(w1, 1);
    var w2 := Put(w1, 1, Waiting(false));
    OneExec(job, w1, 1, w2);
    var rest, more := SyncPointCompletes(job, w2, 0);
    ws, steps := [w0, w1] + rest, [Exec(0, {}), Exec(1, {})] + more;
    Joined(job, w0, w1, rest, more);
  }

  lemma OneExec(job: Job, w: World, r: nat, w': World)
    requires w in Safe(job) && Shaped(job, w) && ExecStep(job, w, r, {}, w')
    ensures StepTo(job, w, Exec(r, {}), w') && w' in Safe(job) && Shaped(job, w')
  {
    hide Safe, Shaped, ExecStep;
    StepKeepsSafe(job, w, Exec(r, {}), w');
    SafeFacts(job, w');
  }

  lemma Joined(job: Job, w0: World, w1: World, rest: seq<World>, more: seq<Step>)
    requires ValidJob(job) && Init(job, w0) && Stretch(job, rest, more)
    requires Shaped(job, w0) && StepTo(job, w0, Exec(0, {}), w1)
    requires Shaped(job, w1) && StepTo(job, w1, Exec(1, {}), rest[0])
    ensures Run(job, [w0, w1] + rest, [Exec(0, {}), Exec(1, {})] + more)
  {
    hide Shaped, StepTo, ValidJob, Init;
    var ws, steps := [w0, w1] + rest, [Exec(0, {}), Exec(1, {})] + more;
    forall i | 0 <= i < |steps| ensures Shaped(job, ws[i]) && StepTo(job, ws[i], steps[i], ws[i + 1]) {
      if i >= 2 {
        assert ws[i] == rest[i - 2] && ws[i + 1] == rest[i - 1] && steps[i] == more[i - 2];
      }
    }
  }
}
