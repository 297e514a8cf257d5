/** Any number of ranks running the same collective program, each at its own pace.

    A rank steps on its own: it runs the next collective operation, loads or evicts entries
    independently, arrives at a barrier, leaves it, broadcasts or receives, writes one
    candidate, and so on.  Nothing but barriers and broadcasts orders the ranks. */
module ParallelRun {
  import opened AddressLists
  import opened CacheState
  import opened Options
  import opened Agreement

  // ------------------------------------------------------------ the program

  /** `n` ranks run `script` from a file holding `init`.  With `early`, rank 0 may also
      write dirty entries between sync points (process-0-only strategy throughout). */
  datatype Job = Job(n: nat, script: seq<Op>, init: Prog, early: bool)

  function ProgAt(job: Job, p: nat): Prog
    requires p <= |job.script|
  {
    if p == 0 then job.init
    else
      var g := ProgAt(job, p - 1);
      if OpOk(g, job.script[p - 1]) then ProgStep(g, job.script[p - 1]) else g
  }

  ghost predicate ValidJob(job: Job) {
    && job.n > 0
    && job.init.prot == map[]
    && job.init.cfg.threshold > 0
    && (forall p | 0 <= p < |job.script| :: OpOk(ProgAt(job, p), job.script[p]))
    && (job.early ==> forall p | 0 <= p <= |job.script| :: !Dist(job, p))
  }

  /** The distributed strategy is configured when the program is at p. */
  predicate Dist(job: Job, p: nat) {
    p <= |job.script| && ProgAt(job, p).cfg.strategy.Distributed?
  }

  /** Where the ranks stand after a sync point: how far the program had run and what was
      still dirty. */
  datatype Base = Base(pos: nat, dirty: set<Addr>)

  ghost function TallyAt(job: Job, b: Base, p: nat): Tally
    requires ValidJob(job) && b.pos <= p <= |job.script|
    decreases p
  {
    if p == b.pos then Tally(b.dirty, 0)
    else TallyStep(ProgAt(job, p - 1), TallyAt(job, b, p - 1), job.script[p - 1])
  }

  ghost function DemandAt(job: Job, b: Base, p: nat): Demand
    requires ValidJob(job) && b.pos < p <= |job.script|
  {
    ProgDemand(ProgAt(job, p - 1), TallyAt(job, b, p - 1), job.script[p - 1])
  }

  ghost predicate NoSyncBefore(job: Job, b: Base, p: nat)
    requires ValidJob(job) && b.pos <= p && p <= |job.script| + 1
  {
    forall q | b.pos < q < p :: !DemandAt(job, b, q).SyncPoint?
  }

  /** Position p is where the next sync point after b is due. */
  ghost predicate SyncAt(job: Job, b: Base, p: nat)
    requires ValidJob(job)
  {
    b.pos < p <= |job.script| && DemandAt(job, b, p).SyncPoint? && NoSyncBefore(job, b, p)
  }

  // -------------------------------------------------------------- the ranks

  datatype Phase =
    | Running
    | Opening                                        // waiting at the opening barrier
    | Deciding                                       // past it; list not yet known here
    | Writing(list: seq<Addr>, todo: set<Addr>)      // applying the candidate list
    | Closing(list: seq<Addr>)                       // waiting at the closing barrier

  /** `epoch` counts the sync points this rank has left. */
  datatype Proc = Proc(s: Rank, pos: nat, epoch: nat, phase: Phase)

  /** `lists[k]` is the address list of the k-th sync point once it is decided. */
  datatype World = World(procs: seq<Proc>, disk: map<Addr, Obj>, lists: seq<seq<Addr>>, bases: seq<Base>)

  predicate Arrived(p: Proc, k: nat) {
    p.epoch > k || (p.epoch == k && !p.phase.Running?)
  }

  predicate AllArrived(w: World, k: nat) {
    forall r | 0 <= r < |w.procs| :: Arrived(w.procs[r], k)
  }

  predicate Closed(p: Proc, k: nat) {
    p.epoch > k || (p.epoch == k && p.phase.Closing?)
  }

  predicate AllClosed(w: World, k: nat) {
    forall r | 0 <= r < |w.procs| :: Closed(w.procs[r], k)
  }

  function EmptyRank(zero: bool, cfg: Config): Rank {
    Rank(zero, map[], {}, {}, {}, 0, false, cfg)
  }

  ghost predicate Init(job: Job, w: World) {
    && |w.procs| == job.n
    && (forall r | 0 <= r < job.n :: w.procs[r] == Proc(EmptyRank(r == 0, job.init.cfg), 0, 0, Running))
    && w.disk == job.init.truth
    && w.lists == []
    && w.bases == [Base(0, {})]
  }

  function Put(w: World, r: nat, p: Proc): World
    requires r < |w.procs|
  {
    w.(procs := w.procs[r := p])
  }

  // -------------------------------------------------------------- the steps

  datatype Step =
    | Exec(r: nat, cand: set<Addr>)
    | Load(r: nat, addr: Addr)
    | Evict(r: nat, addr: Addr)
    | SetPin(r: nat, addr: Addr, pin: bool)
    | EarlyFlush(addr: Addr)
    | PassOpening(r: nat)
    | ZeroFlush(addr: Addr)
    | ZeroPost
    | ReceiveClean(r: nat)
    | PostCandidates
    | ReceiveCandidates(r: nat)
    | LocalCandidates(r: nat)
    | WriteOne(r: nat, addr: Addr)
    | EndWriting(r: nat)
    | Leave(r: nat)

  /** What rank s hands to the candidate list on its way into a distributed sync point: all
      its dirty entries for a flush; on rank 0, some unprotected ones otherwise. */
  predicate CandidatesOk(s: Rank, d: Demand, cand: set<Addr>) {
    if !d.SyncPoint? || !s.cfg.strategy.Distributed? then cand == {}
    else if d.extent.WholeCache? then cand == DirtySet(s)
    else if s.zero then cand <= DirtySet(s) - ProtectedSet(s)
    else cand == {}
  }

  /** Run the next collective operation; at the threshold, arrive at the opening barrier. */
  ghost predicate ExecStep(job: Job, w: World, r: nat, cand: set<Addr>, w': World) {
    && r < |w.procs|
    && var p := w.procs[r];
    && p.phase.Running? && p.pos < |job.script|
    && var op := job.script[p.pos];
    && var res := RunOp(p.s, op);
    && res.Some?
    && var d := RankDemand(res.value, op);
    && CandidatesOk(res.value, d, cand)
    && w' == Put(w, r, Proc(SettleBytes(res.value, op).(cand := cand), p.pos + 1, p.epoch,
                            if d.SyncPoint? then Opening else Running))
  }

  /** A rank reads an object it has no copy of, by itself or for its next operation. */
  ghost predicate LoadStep(job: Job, w: World, r: nat, a: Addr, w': World) {
    && r < |w.procs|
    && var p := w.procs[r];
    && p.phase.Running? && p.pos <= |job.script|
    && a in ProgAt(job, p.pos).truth && a !in p.s.cache && a in w.disk
    && w' == Put(w, r, p.(s := p.s.(cache := p.s.cache[a := Entry(w.disk[a], false, false, false, false, false)])))
  }

  predicate EvictStep(w: World, r: nat, a: Addr, w': World) {
    && r < |w.procs|
    && var p := w.procs[r];
    && p.phase.Running? && a in p.s.cache
    && var e := p.s.cache[a];
    && !e.dirty && !e.pinned && !e.prot
    && w' == Put(w, r, p.(s := p.s.(cache := p.s.cache - {a})))
  }

  predicate SetPinStep(w: World, r: nat, a: Addr, pin: bool, w': World) {
    && r < |w.procs|
    && var p := w.procs[r];
    && p.phase.Running? && a in p.s.cache
    && w' == Put(w, r, p.(s := p.s.(cache := p.s.cache[a := p.s.cache[a].(pinned := pin)])))
  }

  /** Rank 0 writes entry a out and the file now holds its content. */
  predicate WriteOut(w: World, r: nat, a: Addr, p': Proc, w': World)
    requires r < |w.procs| && a in w.procs[r].s.cache
  {
    w' == Put(w, r, p').(disk := w.disk[a := w.procs[r].s.cache[a].obj])
  }

  /** Rank 0 has a dirty entry it could write out between sync points. */
  predicate MayWriteEarly(job: Job, w: World, a: Addr) {
    && 0 < |w.procs|
    && var p := w.procs[0];
    && job.early && p.phase.Running? && a in p.s.cache && p.s.cache[a].dirty && !p.s.cache[a].prot
  }

  /** What rank 0 can tell from its own last sync point b: at that point the file did not hold
      the current content of a (it was dirty, under modification or not there yet), or that
      content is what is to be written now. */
  ghost predicate FitsLastSync(job: Job, b: Base, a: Addr, obj: Obj)
    requires b.pos <= |job.script|
  {
    var g := ProgAt(job, b.pos);
    a in Settled(g, b.dirty) ==> g.truth[a] == obj
  }

  /** A write by rank 0 between sync points. */
  ghost predicate EarlyFlushStep(job: Job, w: World, a: Addr, w': World)
    requires Shaped(job, w)
  {
    && MayWriteEarly(job, w, a)
    && var p := w.procs[0];
    && WriteOut(w, 0, a, p.(s := FlushEntry(p.s, a)), w')
  }

  predicate PassOpeningStep(w: World, r: nat, w': World) {
    && r < |w.procs|
    && var p := w.procs[r];
    && p.phase.Opening? && AllArrived(w, p.epoch)
    && w' == Put(w, r, p.(phase := Deciding,
                          s := p.s.(permitted := p.s.zero && p.s.cfg.strategy.ProcessZeroOnly?)))
  }

  predicate ZeroFlushStep(w: World, a: Addr, w': World) {
    && 0 < |w.procs|
    && var p := w.procs[0];
    && p.phase.Deciding? && p.s.cfg.strategy.ProcessZeroOnly? && WritePermitted(p.s)
    && a in p.s.cache && p.s.cache[a].dirty && !p.s.cache[a].prot
    && WriteOut(w, 0, a, p.(s := FlushEntry(p.s, a)), w')
  }

  /** Back to normal running: the byte count starts again. */
  function Left(p: Proc, s: Rank): Proc {
    Proc(s.(bytes := 0, permitted := false), p.pos, p.epoch + 1, Running)
  }

  ghost function Decided(job: Job, w: World, p: Proc, list: seq<Addr>): World
    requires ValidJob(job) && p.epoch < |w.bases| && w.bases[p.epoch].pos <= p.pos <= |job.script|
  {
    w.(lists := w.lists + [list],
       bases := w.bases + [Base(p.pos, TallyAt(job, w.bases[p.epoch], p.pos).dirty - Elements(list))])
  }

  /** Rank 0 has flushed; it empties the cleaned list into the broadcast and goes on. */
  ghost predicate ZeroPostStep(job: Job, w: World, w': World)
    requires Shaped(job, w)
  {
    && var p := w.procs[0];
    && p.phase.Deciding? && p.s.cfg.strategy.ProcessZeroOnly?
    && p.pos > 0
    && (job.script[p.pos - 1].Flush? ==> DirtySet(p.s) == {})
    && p.epoch == |w.lists|
    && w' == Put(Decided(job, w, p, Sorted(p.s.clist)), 0, Left(p, BroadcastClean(p.s)))
  }

  predicate ReceiveCleanStep(w: World, r: nat, w': World) {
    && 0 < r < |w.procs|
    && var p := w.procs[r];
    && p.phase.Deciding? && p.s.cfg.strategy.ProcessZeroOnly?
    && p.epoch < |w.lists|
    && var res := MarkEntriesAsClean(p.s, Elements(w.lists[p.epoch]));
    && res.Some?
    && w' == Put(w, r, Left(p, res.value))
  }

  /** With a list in hand: nothing to do if it is empty, otherwise writes are enabled. */
  function Begin(p: Proc, list: seq<Addr>): Proc {
    if list == [] then Left(p, p.s.(cand := {}))
    else p.(s := p.s.(cand := {}, permitted := true), phase := Writing(list, Elements(list)))
  }

  ghost predicate PostCandidatesStep(job: Job, w: World, w': World)
    requires Shaped(job, w)
  {
    && var p := w.procs[0];
    && p.phase.Deciding? && p.s.cfg.strategy.Distributed?
    && p.pos > 0 && !job.script[p.pos - 1].Flush?
    && p.epoch == |w.lists|
    && var list := Sorted(p.s.cand);
    && w' == Put(Decided(job, w, p, list), 0, Begin(p, list))
  }

  ghost predicate ReceiveCandidatesStep(job: Job, w: World, r: nat, w': World) {
    && 0 < r < |w.procs|
    && var p := w.procs[r];
    && p.phase.Deciding? && p.s.cfg.strategy.Distributed?
    && 0 < p.pos <= |job.script| && !job.script[p.pos - 1].Flush?
    && p.epoch < |w.lists|
    && w' == Put(w, r, Begin(p, w.lists[p.epoch]))
  }

  /** A distributed flush: every rank builds the list from its own dirty entries.  The first
      one to do so settles what the sync point is about; nothing is communicated. */
  ghost predicate LocalCandidatesStep(job: Job, w: World, r: nat, w': World)
    requires Shaped(job, w)
  {
    && r < |w.procs|
    && var p := w.procs[r];
    && p.phase.Deciding? && p.s.cfg.strategy.Distributed?
    && p.pos > 0 && job.script[p.pos - 1].Flush?
    && var list := Sorted(p.s.cand);
    && var w1 := if p.epoch == |w.lists| then Decided(job, w, p, list) else w;
    && w' == Put(w1, r, Begin(p, list))
  }

  /** One candidate: the owner writes it, every other rank just marks it clean. */
  ghost predicate WriteOneStep(job: Job, w: World, r: nat, a: Addr, w': World) {
    && r < |w.procs| && job.n > 0
    && var p := w.procs[r];
    && p.phase.Writing? && a in p.phase.todo
    && a in p.s.cache && p.s.cache[a].dirty && !p.s.cache[a].prot
    && var ph := p.phase.(todo := p.phase.todo - {a});
    && if OwnsAddr(job.n, p.phase.list, r, a)
       then WritePermitted(p.s) && WriteOut(w, r, a, p.(s := FlushEntry(p.s, a), phase := ph), w')
       else w' == Put(w, r, p.(s := ClearEntry(p.s, a), phase := ph))
  }

  ghost predicate OwnsAddr(n: nat, list: seq<Addr>, r: nat, a: Addr)
    requires n > 0
  {
    exists i | 0 <= i < |list| :: list[i] == a && Owns(|list|, n, r, i)
  }

  predicate EndWritingStep(w: World, r: nat, w': World) {
    && r < |w.procs|
    && var p := w.procs[r];
    && p.phase.Writing? && p.phase.todo == {}
    && w' == Put(w, r, p.(s := p.s.(permitted := false), phase := Closing(p.phase.list)))
  }

  predicate LeaveStep(w: World, r: nat, w': World) {
    && r < |w.procs|
    && var p := w.procs[r];
    && p.phase.Closing? && AllClosed(w, p.epoch)
    && w' == Put(w, r, Left(p, if p.s.zero then TidyLists(p.s, Elements(p.phase.list)) else p.s))
  }

  ghost predicate StepTo(job: Job, w: World, step: Step, w': World)
    requires Shaped(job, w)
  {
    match step
    case Exec(r, cand) => ExecStep(job, w, r, cand, w')
    case Load(r, a) => LoadStep(job, w, r, a, w')
    case Evict(r, a) => EvictStep(w, r, a, w')
    case SetPin(r, a, pin) => SetPinStep(w, r, a, pin, w')
    case EarlyFlush(a) => EarlyFlushStep(job, w, a, w')
    case PassOpening(r) => PassOpeningStep(w, r, w')
    case ZeroFlush(a) => ZeroFlushStep(w, a, w')
    case ZeroPost => ZeroPostStep(job, w, w')
    case ReceiveClean(r) => ReceiveCleanStep(w, r, w')
    case PostCandidates => PostCandidatesStep(job, w, w')
    case ReceiveCandidates(r) => ReceiveCandidatesStep(job, w, r, w')
    case LocalCandidates(r) => LocalCandidatesStep(job, w, r, w')
    case WriteOne(r, a) => WriteOneStep(job, w, r, a, w')
    case EndWriting(r) => EndWritingStep(w, r, w')
    case Leave(r) => LeaveStep(w, r, w')
  }

  /** What rank 0 would have to heed, and can check by itself, if it writes between sync points:
      an early write fits what it saw at its last sync point, and no entry on a clean list is
      protected when the list is posted.  The code checks neither. */
  ghost predicate Heedful(job: Job, w: World, step: Step)
    requires Shaped(job, w)
  {
    match step
    case EarlyFlush(a) =>
      var p := w.procs[0];
      a in p.s.cache && FitsLastSync(job, w.bases[p.epoch], a, p.s.cache[a].obj)
    case ZeroPost => w.procs[0].s.clist !! ProtectedSet(w.procs[0].s)
    case _ => true
  }

  // -------------------------------------------------- what holds throughout

  /** Enough shape to talk about every rank's place in the program. */
  ghost predicate Shaped(job: Job, w: World) {
    && ValidJob(job)
    && |w.procs| == job.n
    && |w.bases| == |w.lists| + 1
    && (forall r | 0 <= r < job.n :: Placed(job, w.bases, w.procs[r]))
  }

  ghost predicate Placed(job: Job, bases: seq<Base>, p: Proc) {
    p.epoch < |bases| && bases[p.epoch].pos <= p.pos <= |job.script|
  }

  /** The dirty set rank r is committed to: once the sync point it is in has been decided,
      that is what the sync point leaves dirty. */
  ghost function View(job: Job, bases: seq<Base>, p: Proc): set<Addr>
    requires ValidJob(job) && Placed(job, bases, p)
  {
    if p.epoch + 1 < |bases| then bases[p.epoch + 1].dirty
    else TallyAt(job, bases[p.epoch], p.pos).dirty
  }

  ghost function SettledFor(job: Job, bases: seq<Base>, p: Proc): (r: set<Addr>)
    requires ValidJob(job) && Placed(job, bases, p)
    ensures r <= ProgAt(job, p.pos).truth.Keys
  {
    Settled(ProgAt(job, p.pos), View(job, bases, p))
  }

  /** Every rank that may read a from the file expects obj. */
  ghost predicate HarmlessToReaders(job: Job, w: World, a: Addr, obj: Obj)
    requires Shaped(job, w)
  {
    forall r | 0 <= r < job.n ::
      a in SettledFor(job, w.bases, w.procs[r]) ==> ProgAt(job, w.procs[r].pos).truth[a] == obj
  }

  /** A decided sync point: it was due where it happened, and it cleans dirty, unprotected
      entries; a flush cleans them all. */
  ghost predicate DecidedOk(job: Job, b: Base, list: seq<Addr>, b': Base)
    requires ValidJob(job)
  {
    && SyncAt(job, b, b'.pos)
    && var dirty := TallyAt(job, b, b'.pos).dirty;
    && b'.dirty == dirty - Elements(list)
    && Elements(list) <= dirty
    && Elements(list) !! ProgAt(job, b'.pos).prot.Keys
    && Increasing(list)
    && (job.script[b'.pos - 1].Flush? ==> Elements(list) == dirty)
  }

  ghost predicate HistoryInv(job: Job, lists: seq<seq<Addr>>, bases: seq<Base>)
    requires ValidJob(job)
  {
    && |bases| == |lists| + 1
    && bases[0] == Base(0, {})
    && (forall k | 0 <= k < |lists| :: DecidedOk(job, bases[k], lists[k], bases[k + 1]))
  }

  /** While the candidate list is being applied: the part done is clean. */
  ghost predicate MidWrite(s: Rank, g: Prog, t: Tally, list: seq<Addr>, todo: set<Addr>) {
    && Live(g, t)
    && Coherent(s, g)
    && s.bytes == t.bytes && s.cfg == g.cfg && s.cand == {}
    && todo <= Elements(list)
    && DirtySet(s) == t.dirty - (Elements(list) - todo)
    && if s.zero
       then t.dirty - Elements(list) <= s.dlist <= t.dirty && s.clist <= Elements(list)
       else s.dlist == {} && s.clist == {}
  }

  ghost predicate RankInv(job: Job, lists: seq<seq<Addr>>, bases: seq<Base>, r: nat, p: Proc)
    requires ValidJob(job) && |bases| == |lists| + 1
  {
    && Placed(job, bases, p)
    && p.s.zero == (r == 0)
    && (!job.early && (p.phase.Running? || p.phase.Opening?) ==> p.s.clist == {})
    && var b, g, t := bases[p.epoch], ProgAt(job, p.pos), TallyAt(job, bases[p.epoch], p.pos);
    && var k := |lists|;
    && (p.epoch == k || p.epoch + 1 == k)
    && (g.cfg.strategy.Distributed? && p.phase.Deciding? ==> p.s.clist == {})
    && (if p.phase.Running? then p.epoch == k && NoSyncBefore(job, b, p.pos + 1) else SyncAt(job, b, p.pos))
    && (p.epoch + 1 == k ==> bases[k].pos == p.pos)
    && (r == 0 && p.epoch + 1 == k && (p.phase.Opening? || p.phase.Deciding?)
        ==> g.cfg.strategy.Distributed? && job.script[p.pos - 1].Flush?)
    && match p.phase
       case Running => Agrees(p.s, g, t) && p.s.cand == {}
       case Opening => Agrees(p.s, g, t) && CandidatesOk(p.s, DemandAt(job, b, p.pos), p.s.cand)
       case Deciding =>
         && Agrees(p.s.(permitted := false), g, t)
         && p.s.permitted == (p.s.zero && g.cfg.strategy.ProcessZeroOnly?)
         && CandidatesOk(p.s, DemandAt(job, b, p.pos), p.s.cand)
         && (!job.early ==> p.s.clist !! ProtectedSet(p.s))
       case Writing(list, todo) =>
         && p.epoch + 1 == k && list == lists[p.epoch] && list != []
         && g.cfg.strategy.Distributed? && p.s.permitted
         && MidWrite(p.s, g, t, list, todo)
       case Closing(list) =>
         && p.epoch + 1 == k && list == lists[p.epoch] && list != []
         && g.cfg.strategy.Distributed? && !p.s.permitted
         && MidWrite(p.s, g, t, list, {})
  }

  ghost function GoodProcs(job: Job, lists: seq<seq<Addr>>, bases: seq<Base>, r: nat): iset<Proc>
    requires ValidJob(job) && |bases| == |lists| + 1
  {
    iset p | RankInv(job, lists, bases, r, p)
  }

  /** Rank r has put candidate a of the k-th sync point where it belongs. */
  predicate DoneWith(p: Proc, k: nat, a: Addr) {
    p.epoch > k || (p.epoch == k && (p.phase.Closing? || (p.phase.Writing? && a !in p.phase.todo)))
  }

  /** Candidate a of the latest sync point is still to be written by its owner. */
  ghost predicate Unwritten(job: Job, w: World, a: Addr)
    requires Shaped(job, w)
  {
    && var k := |w.lists|;
    && k > 0 && Dist(job, w.bases[k].pos)
    && exists r | 0 <= r < job.n :: OwnsAddr(job.n, w.lists[k - 1], r, a) && !DoneWith(w.procs[r], k - 1, a)
  }

  /** The file holds the current content of what rank p may read from it. */
  ghost predicate DiskFor(job: Job, w: World, p: Proc)
    requires Shaped(job, w) && Placed(job, w.bases, p)
  {
    forall a | a in SettledFor(job, w.bases, p) && !Unwritten(job, w, a) ::
      a in w.disk && w.disk[a] == ProgAt(job, p.pos).truth[a]
  }

  /** What rank 0 lists as written and still clean is what the file holds. */
  ghost predicate CleanedOnDisk(job: Job, disk: map<Addr, Obj>, clist: set<Addr>, pos: nat)
    requires pos <= |job.script|
  {
    forall a | a in clist && a !in Pending(ProgAt(job, pos)) ::
      a in disk && a in ProgAt(job, pos).truth && disk[a] == ProgAt(job, pos).truth[a]
  }

  ghost predicate DiskInv(job: Job, w: World)
    requires Shaped(job, w)
  {
    && (forall r | 0 <= r < job.n :: DiskFor(job, w, w.procs[r]))
    && (!w.procs[0].phase.Writing? && !w.procs[0].phase.Closing? ==> CleanedOnDisk(job, w.disk, w.procs[0].s.clist, w.procs[0].pos))
  }

  /** What the barriers guarantee: a sync point is decided, or about to be, only when every
      rank has arrived; a distributed one with work to do is left only when every rank has
      done its share. */
  ghost predicate BarrierInv(job: Job, w: World)
    requires Shaped(job, w)
  {
    var k := |w.lists|;
    && ((exists r | 0 <= r < job.n :: DecidingAt(w.procs[r], k)) ==> AllArrived(w, k))
    && (k > 0 ==>
          && AllArrived(w, k - 1)
          && (Dist(job, w.bases[k].pos) && w.lists[k - 1] != [] && (exists r | 0 <= r < job.n :: w.procs[r].epoch == k)
              ==> AllClosed(w, k - 1)))
  }

  predicate DecidingAt(p: Proc, k: nat) { p.phase.Deciding? && p.epoch == k }

  /** The part of the invariant that is not about the file. */
  ghost predicate CoreInv(job: Job, w: World) {
    && Shaped(job, w)
    && HistoryInv(job, w.lists, w.bases)
    && (forall r | 0 <= r < job.n :: w.procs[r] in GoodProcs(job, w.lists, w.bases, r))
    && BarrierInv(job, w)
  }

  ghost function Core(job: Job): iset<World> {
    iset w | CoreInv(job, w)
  }

  /** The worlds the protocol keeps to. */
  ghost function Safe(job: Job): iset<World> {
    iset w | CoreInv(job, w) && DiskInv(job, w)
  }
}
