/** Appending processes and rotating processes on one log series (crates/aver-core/src/log.rs): appends
    hold the lock shared over open, write and sync; rotation and recovery hold it exclusively. */
module Rotation {
  import opened Prelude
  import opened SeriesFiles

  /** File names refer to inodes: a handle opened before a rename still writes to the same one. */
  datatype Disk = Disk(
    active: Option<nat>, plain: map<nat, nat>, gz: map<nat, Archive>, tmp: map<nat, Archive>,
    inodes: map<nat, seq<Line>>)

  /** Why a file is being compressed: a rotation, or a recovery with these plain files left. */
  datatype Job = Rotating | Recovering(pending: set<nat>)

  /** Where the holder of the exclusive lock stands in maybe_rotate_log or finalize_pending_rotations. */
  datatype Counter =
    | Rechecking
    | Indexed(n: nat)
    | BeforeTmp(n: nat, job: Job)
    | Compressing(n: nat, written: nat, job: Job)
    | Compressed(n: nat, job: Job)
    | Published(n: nat, job: Job)
    | Touching
    | Listing
    | Sweeping(stale: set<nat>, pending: set<nat>)
    | Finished

  /** What a process is doing. An append carries a number of its own. */
  datatype Process =
    | Idle
    | Waiting(op: nat, line: Line)
    | Sharing(op: nat, line: Line)
    | Opened(op: nat, line: Line, inode: nat)
    | Synced(op: nat, line: Line)
    | Exclusive(pc: Counter)

  datatype Entry = Entry(op: nat, line: Line)

  /** The history lists the writes in order; `completed` the appends that returned. */
  datatype System = System(
    disk: Disk, procs: map<nat, Process>, nextOp: nat, history: seq<Entry>, completed: set<nat>)

  datatype Event =
    | Begin(p: nat, line: Line)
    | LockShared(p: nat)
    | TimeOut(p: nat)
    | Open(p: nat, spare: nat)
    | Write(p: nat)
    | Finish(p: nat)
    | LockRotate(p: nat)
    | LockRecover(p: nat)
    | Step(p: nat, choice: nat, spare: nat)
    | Unlock(p: nat)
    | Crash(p: nat)

  function ProcOf(s: System, p: nat): Process { if p in s.procs then s.procs[p] else Idle }

  predicate HoldsShared(q: Process) { q.Sharing? || q.Opened? || q.Synced? }

  ghost predicate NoneExclusive(s: System) { forall p :: p in s.procs ==> !s.procs[p].Exclusive? }

  ghost predicate NoneHolding(s: System) {
    forall p :: p in s.procs ==> !s.procs[p].Exclusive? && !HoldsShared(s.procs[p])
  }

  function LinesOf(d: Disk, inode: nat): seq<Line> { if inode in d.inodes then d.inodes[inode] else [] }

  function PlainView(d: Disk): map<nat, seq<Line>> {
    map n | n in d.plain :: LinesOf(d, d.plain[n])
  }

  /** The files as their names show them. */
  function View(d: Disk): Files {
    Files(if d.active.Some? then Some(LinesOf(d, d.active.value)) else None,
          PlainView(d), d.gz, d.tmp)
  }

  function DiskDo(d: Disk, m: Move, spare: nat): Disk {
    match m
    case RenameActive(n) => if d.active.None? then d else d.(active := None, plain := d.plain[n := d.active.value])
    case SetTmp(n, archive) => d.(tmp := d.tmp[n := archive])
    case DropTmp(n) => d.(tmp := d.tmp - {n})
    case Publish(n) => if n !in d.tmp then d else d.(gz := d.gz[n := d.tmp[n]], tmp := d.tmp - {n})
    case RemovePlain(n) => d.(plain := d.plain - {n})
    case RemoveGz(n) => d.(gz := d.gz - {n})
    case Touch => if d.active.None? then d.(active := Some(spare), inodes := d.inodes[spare := []]) else d
  }

  // ----- the programs of rotation and recovery -----

  /** next_rotation_index: one above every archive and every half-rotated file. */
  function NextIndex(f: Files): nat {
    var top := Top(f.plain.Keys + f.gz.Keys);
    if top == 0 then 1 else top
  }

  lemma NextIndexSays(f: Files)
    ensures IsNextIndex(f, NextIndex(f))
  {
  }

  function PlainLines(f: Files, n: nat): seq<Line> { if n in f.plain then f.plain[n] else [] }

  function TmpLines(f: Files, n: nat): seq<Line> { if n in f.tmp then f.tmp[n].lines else [] }

  /** The file-system step at this point of the program, if it is one. Directory entries are taken in any
      order: `c` is the entry chosen. */
  function MoveAt(f: Files, pc: Counter, c: nat): Option<Move> {
    match pc
    case Rechecking => None
    case Indexed(n) => Some(RenameActive(n))
    case BeforeTmp(n, _) => Some(SetTmp(n, Archive([], false)))
    case Compressing(n, k, _) =>
      if k < |PlainLines(f, n)| then Some(SetTmp(n, Archive(TmpLines(f, n) + [PlainLines(f, n)[k]], false)))
      else Some(SetTmp(n, Archive(TmpLines(f, n), true)))
    case Compressed(n, _) => Some(Move.Publish(n))
    case Published(n, _) => Some(RemovePlain(n))
    case Touching => Some(Touch)
    case Listing => None
    case Sweeping(stale, pending) =>
      if stale != {} then Some(DropTmp(c))
      else if pending == {} || c !in f.gz then None
      else if f.gz[c].complete then Some(RemovePlain(c)) else Some(RemoveGz(c))
    case Finished => None
  }

  /** Where the program goes from here. */
  function After(f: Files, pc: Counter, c: nat): Counter {
    match pc
    case Rechecking => if RotationNeeded(f) then Indexed(NextIndex(f)) else Finished
    case Indexed(n) => BeforeTmp(n, Rotating)
    case BeforeTmp(n, job) => Compressing(n, 0, job)
    case Compressing(n, k, job) => if k < |PlainLines(f, n)| then Compressing(n, k + 1, job) else Compressed(n, job)
    case Compressed(n, job) => Published(n, job)
    case Published(n, job) => if job.Rotating? then Touching else Sweeping({}, job.pending - {n})
    case Touching => Finished
    case Listing => Sweeping(f.tmp.Keys, f.plain.Keys)
    case Sweeping(stale, pending) =>
      if stale != {} then Sweeping(stale - {c}, pending)
      else if pending == {} then Finished
      else if c in f.gz && f.gz[c].complete then Sweeping({}, pending - {c})
      else BeforeTmp(c, Recovering(pending))
    case Finished => Finished
  }

  /** A loop over directory entries takes one of those it listed. */
  predicate Fits(pc: Counter, c: nat) {
    pc.Sweeping? ==> if pc.stale != {} then c in pc.stale else pc.pending != {} ==> c in pc.pending
  }

  ghost predicate Enabled(s: System, e: Event) {
    var q := ProcOf(s, e.p);
    match e
    case Begin(_, _) => q.Idle?
    case LockShared(_) => q.Waiting? && NoneExclusive(s)
    case TimeOut(_) => q.Waiting?
    case Open(_, spare) => q.Sharing? && spare !in s.disk.inodes
    case Write(_) => q.Opened?
    case Finish(_) => q.Synced?
    case LockRotate(_) => q.Idle? && NoneHolding(s)
    case LockRecover(_) => q.Idle? && NoneHolding(s)
    case Step(_, c, spare) => q.Exclusive? && !q.pc.Finished? && Fits(q.pc, c) && spare !in s.disk.inodes
    case Unlock(_) => q.Exclusive? && q.pc.Finished?
    case Crash(_) => true
  }

  /** An event that is not enabled does nothing. */
  ghost function Next(s: System, e: Event): System {
    if !Enabled(s, e) then s
    else
      var q := ProcOf(s, e.p);
      match e
      case Begin(p, line) => s.(procs := s.procs[p := Waiting(s.nextOp, line)], nextOp := s.nextOp + 1)
      case LockShared(p) => s.(procs := s.procs[p := Sharing(q.op, q.line)])
      case TimeOut(p) => s.(procs := s.procs[p := Idle])
      case Open(p, spare) =>
        var d := DiskDo(s.disk, Touch, spare);
        s.(disk := d, procs := s.procs[p := Opened(q.op, q.line, d.active.value)])
      case Write(p) =>
        s.(disk := s.disk.(inodes := s.disk.inodes[q.inode := LinesOf(s.disk, q.inode) + [q.line]]),
           procs := s.procs[p := Synced(q.op, q.line)], history := s.history + [Entry(q.op, q.line)])
      case Finish(p) => s.(procs := s.procs[p := Idle], completed := s.completed + {q.op})
      case LockRotate(p) => s.(procs := s.procs[p := Exclusive(Rechecking)])
      case LockRecover(p) => s.(procs := s.procs[p := Exclusive(Listing)])
      case Step(p, c, spare) =>
        var f := View(s.disk);
        var move := MoveAt(f, q.pc, c);
        s.(disk := if move.Some? then DiskDo(s.disk, move.value, spare) else s.disk,
           procs := s.procs[p := Exclusive(After(f, q.pc, c))])
      case Unlock(p) => s.(procs := s.procs[p := Idle])
      case Crash(p) => s.(procs := s.procs[p := Idle])
  }

  ghost function Run(s: System, events: seq<Event>): System
    decreases |events|
  {
    if events == [] then s else Next(Run(s, events[..|events| - 1]), events[|events| - 1])
  }

  // ----- the invariant -----

  ghost predicate DiskSound(d: Disk) {
    && (d.active.Some? ==> d.active.value in d.inodes)
    && (forall n :: n in d.plain ==> d.plain[n] in d.inodes && d.active != Some(d.plain[n]))
    && Good(View(d))
  }

  /** One exclusive holder at most, never beside a shared one, and every open handle is the active file. */
  ghost predicate LocksHold(s: System) {
    Excluded(s) && HandlesActive(s)
  }

  ghost predicate HandlesActive(s: System) {
    forall p :: p in s.procs && s.procs[p].Opened? ==> s.disk.active == Some(s.procs[p].inode)
  }

  function Lines(history: seq<Entry>): (lines: seq<Line>)
    ensures |lines| == |history| && forall i :: 0 <= i < |history| ==> lines[i] == history[i].line
  {
    seq(|history|, i requires 0 <= i < |history| => history[i].line)
  }

  ghost predicate InFlight(q: Process) { q.Waiting? || q.Sharing? || q.Opened? }

  ghost predicate Written(history: seq<Entry>, op: nat) { exists i :: 0 <= i < |history| && history[i].op == op }

  /** Each append has its own number, is written once at most, and only returns once written. */
  ghost predicate OpsSound(s: System) {
    && (forall i, j :: 0 <= i < j < |s.history| ==> s.history[i].op != s.history[j].op)
    && (forall i :: 0 <= i < |s.history| ==> s.history[i].op < s.nextOp)
    && (forall op :: op in s.completed ==> Written(s.history, op))
    && (forall p :: p in s.procs && InFlight(s.procs[p]) ==>
          s.procs[p].op < s.nextOp && !Written(s.history, s.procs[p].op))
    && (forall p :: p in s.procs && s.procs[p].Synced? ==> Entry(s.procs[p].op, s.procs[p].line) in s.history)
    && (forall p, q :: p in s.procs && q in s.procs && p != q && InFlight(s.procs[p]) && InFlight(s.procs[q]) ==>
          s.procs[p].op != s.procs[q].op)
  }

  /** What the holder of the lock has established at this point of its program. */
  ghost predicate HolderSound(f: Files, pc: Counter) {
    match pc
    case Indexed(n) => f.active.Some? && forall k :: k in f.plain || k in f.gz ==> k < n
    case BeforeTmp(n, job) => n in f.plain && JobSound(f, n, job)
    case Compressing(n, k, job) =>
      && n in f.plain && k <= |f.plain[n]| && n in f.tmp && f.tmp[n] == Archive(f.plain[n][..k], false)
      && JobSound(f, n, job)
    case Compressed(n, job) =>
      n in f.plain && n in f.tmp && f.tmp[n] == Archive(f.plain[n], true) && JobSound(f, n, job)
    case Published(n, job) =>
      n in f.plain && n in f.gz && f.gz[n].complete && n !in f.tmp && JobSound(f, n, job)
    case Sweeping(stale, pending) => pending == f.plain.Keys && stale == f.tmp.Keys
    case _ => true
  }

  ghost predicate JobSound(f: Files, n: nat, job: Job) {
    job.Recovering? ==> n in job.pending && job.pending == f.plain.Keys && f.tmp.Keys <= {n}
  }

  ghost predicate HoldersSound(s: System) {
    forall p :: p in s.procs && s.procs[p].Exclusive? ==> HolderSound(View(s.disk), s.procs[p].pc)
  }

  ghost predicate Inv(s: System) {
    && DiskSound(s.disk) && LocksHold(s) && OpsSound(s) && HoldersSound(s)
    && Contents(View(s.disk)) == Lines(s.history)
  }

  /** Wherever the holder stands, its next step is safe: it could be the last one before a crash. */
  lemma HolderMovesSafely(f: Files, pc: Counter, c: nat)
    requires Good(f) && HolderSound(f, pc) && Fits(pc, c) && MoveAt(f, pc, c).Some?
    ensures Safe(f, MoveAt(f, pc, c).value)
  {
  }

  ghost function FilesAfter(f: Files, pc: Counter, c: nat): Files {
    var move := MoveAt(f, pc, c);
    if move.Some? then Do(f, move.value) else f
  }

  lemma HolderStaysSound(f: Files, pc: Counter, c: nat)
    requires Good(f) && HolderSound(f, pc) && Fits(pc, c)
    ensures HolderSound(FilesAfter(f, pc, c), After(f, pc, c))
  {
    if pc.Compressing? { CompressingStays(f, pc, c); }
  }

  lemma CompressingStays(f: Files, pc: Counter, c: nat)
    requires HolderSound(f, pc) && pc.Compressing?
    ensures HolderSound(FilesAfter(f, pc, c), After(f, pc, c))
  {
    var lines, k := f.plain[pc.n], pc.written;
    if k < |lines| {
      assert lines[..k] + [lines[k]] == lines[..k + 1];
    } else {
      assert lines[..k] == lines;
    }
  }

  lemma PlainMoves(d: Disk, n: nat, inode: nat, spare: nat)
    requires DiskSound(d) && spare !in d.inodes
    ensures PlainView(d.(plain := d.plain[n := inode])) == PlainView(d)[n := LinesOf(d, inode)]
    ensures PlainView(d.(plain := d.plain - {n})) == PlainView(d) - {n}
    ensures PlainView(d.(active := Some(spare), inodes := d.inodes[spare := []])) == PlainView(d)
  {
  }

  lemma MoveMatches(d: Disk, m: Move, spare: nat)
    requires DiskSound(d) && spare !in d.inodes
    ensures View(DiskDo(d, m, spare)) == Do(View(d), m)
  {
    match m
    case RenameActive(n) => if d.active.Some? { PlainMoves(d, n, d.active.value, spare); }
    case RemovePlain(n) => PlainMoves(d, n, n, spare);
    case Touch => PlainMoves(d, 0, 0, spare);
    case _ =>
  }

  /** A safe step of the lock's holder keeps the series. */
  lemma MoveShows(d: Disk, m: Move, spare: nat)
    requires DiskSound(d) && spare !in d.inodes && Safe(View(d), m)
    ensures DiskSound(DiskDo(d, m, spare)) && Contents(View(DiskDo(d, m, spare))) == Contents(View(d))
  {
    MoveMatches(d, m, spare);
    SafeMoveKeepsContents(View(d), m);
    assert View(d).plain.Keys == d.plain.Keys;
    InodesSound(d, m, spare);
  }

  lemma InodesSound(d: Disk, m: Move, spare: nat)
    requires DiskSound(d) && spare !in d.inodes && (m.RenameActive? ==> m.n !in d.plain)
    ensures var e := DiskDo(d, m, spare);
            && (e.active.Some? ==> e.active.value in e.inodes)
            && forall n :: n in e.plain ==> e.plain[n] in e.inodes && e.active != Some(e.plain[n])
  {
  }

  /** A write to the active inode adds its line at the end, and changes no file renamed away. */
  lemma WriteShows(d: Disk, inode: nat, line: Line)
    requires DiskSound(d) && d.active == Some(inode)
    ensures var e := d.(inodes := d.inodes[inode := LinesOf(d, inode) + [line]]);
            DiskSound(e) && Contents(View(e)) == Contents(View(d)) + [line] && View(e).plain == View(d).plain
  {
    var e := d.(inodes := d.inodes[inode := LinesOf(d, inode) + [line]]);
    assert View(e).plain == View(d).plain;
    var b := Top(View(d).plain.Keys + View(d).gz.Keys);
    SameLinesBelow(View(d), View(e), b);
  }

  // ----- every event keeps it -----

  ghost function Added(s: System, e: Event): seq<Entry> {
    if e.Write? && Enabled(s, e) then [Entry(ProcOf(s, e.p).op, ProcOf(s, e.p).line)] else []
  }

  lemma HolderStepShows(s: System, p: nat, c: nat, spare: nat)
    requires Inv(s) && Enabled(s, Step(p, c, spare))
    ensures var t := Next(s, Step(p, c, spare));
            && DiskSound(t.disk) && Contents(View(t.disk)) == Contents(View(s.disk))
            && View(t.disk) == FilesAfter(View(s.disk), s.procs[p].pc, c)
  {
    var f, pc := View(s.disk), s.procs[p].pc;
    if MoveAt(f, pc, c).Some? {
      HolderMovesSafely(f, pc, c);
      MoveShows(s.disk, MoveAt(f, pc, c).value, spare);
      MoveMatches(s.disk, MoveAt(f, pc, c).value, spare);
    }
  }

  /** The series grows by the written line and nothing else. */
  lemma DiskStep(s: System, e: Event)
    requires Inv(s)
    ensures DiskSound(Next(s, e).disk)
    ensures Next(s, e).history == s.history + Added(s, e)
    ensures Contents(View(Next(s, e).disk)) == Contents(View(s.disk)) + Lines(Added(s, e))
  {
    if Enabled(s, e) {
      match e
      case Open(p, spare) => MoveShows(s.disk, Touch, spare);
      case Step(p, c, spare) => HolderStepShows(s, p, c, spare);
      case Write(p) => WriteShows(s.disk, s.procs[p].inode, s.procs[p].line);
      case _ =>
    }
  }

  lemma LocksStep(s: System, e: Event)
    requires LocksHold(s)
    ensures LocksHold(Next(s, e))
  {
    ExclusionStep(s, e);
    HandlesStep(s, e);
  }

  ghost predicate Excluded(s: System) {
    forall p, q :: p in s.procs && q in s.procs && p != q && s.procs[p].Exclusive? ==>
      !s.procs[q].Exclusive? && !HoldsShared(s.procs[q])
  }

  lemma ExclusionStep(s: System, e: Event)
    requires Excluded(s)
    ensures Excluded(Next(s, e))
  {
  }

  lemma HandlesStep(s: System, e: Event)
    requires LocksHold(s)
    ensures HandlesActive(Next(s, e))
  {
  }

  lemma OneMoreEntry(history: seq<Entry>, entry: Entry)
    requires !Written(history, entry.op) && forall i, j :: 0 <= i < j < |history| ==> history[i].op != history[j].op
    ensures forall i, j :: 0 <= i < j < |history| + 1 ==> (history + [entry])[i].op != (history + [entry])[j].op
    ensures forall op :: Written(history + [entry], op) <==> Written(history, op) || op == entry.op
  {
    var more := history + [entry];
    assert more[|history|] == entry;
    forall op ensures Written(more, op) <==> Written(history, op) || op == entry.op {
      if Written(history, op) {
        var i :| 0 <= i < |history| && history[i].op == op;
        assert more[i].op == op;
      }
    }
  }

  lemma WriteKeepsOps(s: System, p: nat)
    requires Inv(s) && Enabled(s, Write(p))
    ensures OpsSound(Next(s, Write(p)))
  {
    OneMoreEntry(s.history, Entry(s.procs[p].op, s.procs[p].line));
  }

  lemma FinishKeepsOps(s: System, p: nat)
    requires Inv(s) && Enabled(s, Finish(p))
    ensures OpsSound(Next(s, Finish(p)))
  {
    var entry := Entry(s.procs[p].op, s.procs[p].line);
    var i :| 0 <= i < |s.history| && s.history[i] == entry;
    assert Written(s.history, entry.op);
  }

  lemma BeginKeepsOps(s: System, p: nat, line: Line)
    requires Inv(s) && Enabled(s, Begin(p, line))
    ensures OpsSound(Next(s, Begin(p, line)))
  {
    assert !Written(s.history, s.nextOp);
  }

  lemma ReplaceKeepsOps(s: System, p: nat, q: Process, d: Disk)
    requires OpsSound(s) && !q.Synced?
    requires InFlight(q) ==> p in s.procs && InFlight(s.procs[p]) && s.procs[p].op == q.op
    ensures OpsSound(s.(procs := s.procs[p := q], disk := d))
  {
  }

  lemma OpsStep(s: System, e: Event)
    requires Inv(s)
    ensures OpsSound(Next(s, e))
  {
    if Enabled(s, e) {
      match e
      case Begin(p, line) => BeginKeepsOps(s, p, line);
      case Write(p) => WriteKeepsOps(s, p);
      case Finish(p) => FinishKeepsOps(s, p);
      case Step(p, c, spare) => ReplaceKeepsOps(s, p, Next(s, e).procs[p], Next(s, e).disk);
      case Open(p, spare) => ReplaceKeepsOps(s, p, Next(s, e).procs[p], Next(s, e).disk);
      case LockShared(p) => ReplaceKeepsOps(s, p, Next(s, e).procs[p], s.disk);
      case TimeOut(p) => ReplaceKeepsOps(s, p, Idle, s.disk);
      case LockRotate(p) => ReplaceKeepsOps(s, p, Exclusive(Rechecking), s.disk);
      case LockRecover(p) => ReplaceKeepsOps(s, p, Exclusive(Listing), s.disk);
      case Unlock(p) => ReplaceKeepsOps(s, p, Idle, s.disk);
      case Crash(p) => ReplaceKeepsOps(s, p, Idle, s.disk);
    }
  }

  /** What the holder has established lasts: nobody else touches the files while it holds the lock. */
  lemma HoldersStep(s: System, e: Event)
    requires Inv(s)
    ensures HoldersSound(Next(s, e))
  {
    if Enabled(s, e) {
      match e
      case Step(p, c, spare) =>
        HolderStepShows(s, p, c, spare);
        HolderStaysSound(View(s.disk), s.procs[p].pc, c);
      case Open(p, spare) => NobodyElseHolds(s, p);
      case Write(p) => NobodyElseHolds(s, p);
      case _ =>
    }
  }

  lemma NobodyElseHolds(s: System, p: nat)
    requires Inv(s) && p in s.procs && HoldsShared(s.procs[p])
    ensures NoneExclusive(s)
  {
  }

  lemma StepKeepsInv(s: System, e: Event)
    requires Inv(s)
    ensures Inv(Next(s, e))
  {
    DiskStep(s, e);
    LocksStep(s, e);
    OpsStep(s, e);
    HoldersStep(s, e);
    assert Lines(s.history + Added(s, e)) == Lines(s.history) + Lines(Added(s, e));
  }

  // ----- runs -----

  /** No process under way, and nothing written yet beyond what the files already held. */
  ghost predicate Initial(s: System) {
    DiskSound(s.disk) && s.procs == map[] && s.completed == {} && s.nextOp == |s.history|
    && Contents(View(s.disk)) == Lines(s.history)
    && forall i :: 0 <= i < |s.history| ==> s.history[i].op == i
  }

  ghost predicate Extends(s: System, t: System) {
    s.history <= t.history && s.completed <= t.completed && s.nextOp <= t.nextOp
  }

  lemma StepExtends(s: System, e: Event)
    ensures Extends(s, Next(s, e))
  {
  }

  lemma {:induction false} RunKeepsInv(s: System, events: seq<Event>)
    requires Inv(s)
    ensures Inv(Run(s, events)) && Extends(s, Run(s, events))
    decreases |events|
  {
    if events != [] {
      var before := Run(s, events[..|events| - 1]);
      RunKeepsInv(s, events[..|events| - 1]);
      StepKeepsInv(before, events[|events| - 1]);
      StepExtends(before, events[|events| - 1]);
    }
  }

  /** Under any interleaving, with crashes anywhere, the series is exactly the lines written, in the order
      of the writes, and a completed append is in it once. */
  lemma SeriesIsHistory(s: System, events: seq<Event>)
    requires Initial(s)
    ensures var t := Run(s, events);
            && Contents(View(t.disk)) == Lines(t.history) && s.history <= t.history
            && (forall op :: op in t.completed ==>
                  exists i :: 0 <= i < |t.history| && t.history[i].op == op
                              && forall j :: 0 <= j < |t.history| && t.history[j].op == op ==> j == i)
  {
    RunKeepsInv(s, events);
    var t := Run(s, events);
    forall op | op in t.completed
      ensures exists i :: 0 <= i < |t.history| && t.history[i].op == op
                          && forall j :: 0 <= j < |t.history| && t.history[j].op == op ==> j == i
    {
      assert Written(t.history, op);
    }
  }

  /** When a recovery has swept everything, whatever ran before and wherever it crashed, replay would read
      exactly the lines written, in the order of the writes. */
  lemma RecoveryLeavesAllReadable(s: System, events: seq<Event>, p: nat)
    requires Initial(s) && ProcOf(Run(s, events), p) == Exclusive(Sweeping({}, {}))
    ensures ReplayInput(View(Run(s, events).disk)) == Some(Lines(Run(s, events).history))
  {
    RunKeepsInv(s, events);
    var f := View(Run(s, events).disk);
    assert HolderSound(f, Sweeping({}, {}));
    ReplayReadsAll(f);
  }

  // ----- from one recovery on -----

  /** What a holder that started without plain numbered files leaves of them at this point: a rotation the file
      it is compressing; a recovery sweeps up whatever there is. */
  ghost predicate TidyAt(f: Files, pc: Counter) {
    match pc
    case BeforeTmp(n, Rotating) => f.plain.Keys == {n}
    case Compressing(n, _, Rotating) => f.plain.Keys == {n}
    case Compressed(n, Rotating) => f.plain.Keys == {n}
    case Published(n, Rotating) => f.plain.Keys == {n}
    case Rechecking | Indexed(_) | Touching | Finished => f.plain == map[]
    case _ => true
  }

  /** No plain numbered file while nobody holds the lock exclusively. */
  ghost predicate Tidy(s: System) {
    && (NoneExclusive(s) ==> View(s.disk).plain == map[])
    && forall p :: p in s.procs && s.procs[p].Exclusive? ==> TidyAt(View(s.disk), s.procs[p].pc)
  }

  lemma HolderStaysTidy(f: Files, pc: Counter, c: nat)
    requires Good(f) && HolderSound(f, pc) && Fits(pc, c) && TidyAt(f, pc)
    ensures TidyAt(FilesAfter(f, pc, c), After(f, pc, c))
  {
  }

  ghost predicate HolderCrashes(s: System, e: Event) { e.Crash? && ProcOf(s, e.p).Exclusive? }

  lemma StepStaysTidy(s: System, e: Event)
    requires Inv(s) && Tidy(s) && !HolderCrashes(s, e)
    ensures Tidy(Next(s, e))
  {
    if Enabled(s, e) {
      match e
      case Step(p, c, spare) => HolderStepStaysTidy(s, p, c, spare);
      case LockRotate(p) => LockStaysTidy(s, p, Rechecking);
      case LockRecover(p) => LockStaysTidy(s, p, Listing);
      case Unlock(p) => UnlockStaysTidy(s, p);
      case Open(p, spare) =>
        NobodyElseHolds(s, p);
        MoveMatches(s.disk, Touch, spare);
        OthersStayTidy(s, Next(s, e), p);
      case Write(p) =>
        NobodyElseHolds(s, p);
        WriteShows(s.disk, s.procs[p].inode, s.procs[p].line);
        OthersStayTidy(s, Next(s, e), p);
      case _ => OthersStayTidy(s, Next(s, e), e.p);
    }
  }

  lemma HolderStepStaysTidy(s: System, p: nat, c: nat, spare: nat)
    requires Inv(s) && Tidy(s) && Enabled(s, Step(p, c, spare))
    ensures Tidy(Next(s, Step(p, c, spare)))
  {
    var t := Next(s, Step(p, c, spare));
    HolderStepShows(s, p, c, spare);
    HolderStaysTidy(View(s.disk), s.procs[p].pc, c);
    assert t.procs[p].Exclusive?;
  }

  lemma LockStaysTidy(s: System, p: nat, pc: Counter)
    requires Tidy(s) && NoneHolding(s) && (pc.Rechecking? || pc.Listing?)
    ensures Tidy(s.(procs := s.procs[p := Exclusive(pc)]))
  {
    var t := s.(procs := s.procs[p := Exclusive(pc)]);
    assert t.procs[p].Exclusive?;
  }

  lemma UnlockStaysTidy(s: System, p: nat)
    requires Tidy(s) && Excluded(s) && Enabled(s, Unlock(p))
    ensures Tidy(Next(s, Unlock(p)))
  {
    assert TidyAt(View(s.disk), s.procs[p].pc);
  }

  /** A process that neither holds nor takes the lock. */
  lemma OthersStayTidy(s: System, t: System, p: nat)
    requires Tidy(s) && !ProcOf(s, p).Exclusive? && !ProcOf(t, p).Exclusive? && t.procs == s.procs[p := ProcOf(t, p)]
    requires View(t.disk).plain == View(s.disk).plain && (t.disk == s.disk || NoneExclusive(s))
    ensures Tidy(t)
  {
    if NoneExclusive(t) {
      forall q | q in s.procs ensures !s.procs[q].Exclusive? {
        assert q == p || t.procs[q] == s.procs[q];
      }
    }
    forall q | q in t.procs && t.procs[q].Exclusive? ensures TidyAt(View(t.disk), t.procs[q].pc) {
      assert q in s.procs && s.procs[q] == t.procs[q];
    }
  }

  ghost predicate HoldersSurvive(s: System, events: seq<Event>)
    decreases |events|
  {
    events != [] ==>
      HoldersSurvive(s, events[..|events| - 1]) && !HolderCrashes(Run(s, events[..|events| - 1]), events[|events| - 1])
  }

  lemma {:induction false} RunStaysTidy(s: System, events: seq<Event>)
    requires Inv(s) && Tidy(s) && HoldersSurvive(s, events)
    ensures Tidy(Run(s, events))
    decreases |events|
  {
    if events != [] {
      var front := events[..|events| - 1];
      RunStaysTidy(s, front);
      RunKeepsInv(s, front);
      StepStaysTidy(Run(s, front), events[|events| - 1]);
    }
  }

  lemma TidyIsReadable(s: System)
    requires Inv(s) && Tidy(s) && NoneExclusive(s)
    ensures ReplayInput(View(s.disk)) == Some(Lines(s.history))
  {
    ReplayReadsAll(View(s.disk));
  }

  /** From a finished sweep on, as long as no holder of the lock crashes: whenever nobody holds it exclusively,
      however many appends and rotations have run since, replay would read exactly the lines written. */
  lemma ReadableFromRecoveryOn(s: System, events: seq<Event>, p: nat, later: seq<Event>)
    requires Initial(s) && ProcOf(Run(s, events), p) == Exclusive(Sweeping({}, {}))
    requires HoldersSurvive(Run(s, events), later) && NoneExclusive(Run(Run(s, events), later))
    ensures var t := Run(Run(s, events), later); ReplayInput(View(t.disk)) == Some(Lines(t.history))
  {
    var swept := Run(s, events);
    RunKeepsInv(s, events);
    RunKeepsInv(swept, later);
    SweptIsTidy(swept, p);
    RunStaysTidy(swept, later);
    TidyIsReadable(Run(swept, later));
  }

  lemma SweptIsTidy(s: System, p: nat)
    requires Inv(s) && ProcOf(s, p) == Exclusive(Sweeping({}, {}))
    ensures Tidy(s)
  {
  }

  /** A write always lands in the file that bears the active name. */
  lemma WritesLandInActive(s: System, events: seq<Event>, p: nat)
    requires Initial(s) && ProcOf(Run(s, events), p).Opened?
    ensures Run(s, events).disk.active == Some(ProcOf(Run(s, events), p).inode)
  {
    RunKeepsInv(s, events);
  }

  /** An append that had returned before another began stands before it in the series, whatever follows. */
  lemma CompletedKeepOrder(s: System, first: seq<Event>, later: seq<Event>, a: nat, j: nat)
    requires Initial(s) && a in Run(s, first).completed
    requires var t := Run(Run(s, first), later);
             j < |t.history| && t.history[j].op >= Run(s, first).nextOp
    ensures exists i :: 0 <= i < j && Run(Run(s, first), later).history[i].op == a
  {
    RunKeepsInv(s, first);
    var m := Run(s, first);
    RunKeepsInv(m, later);
    var t := Run(m, later);
    WrittenStaysFirst(m.history, t.history, a, m.nextOp, j);
  }

  lemma WrittenStaysFirst(before: seq<Entry>, after: seq<Entry>, a: nat, nextOp: nat, j: nat)
    requires before <= after && Written(before, a) && forall i :: 0 <= i < |before| ==> before[i].op < nextOp
    requires j < |after| && after[j].op >= nextOp
    ensures exists i :: 0 <= i < j && after[i].op == a
  {
    var i :| 0 <= i < |before| && before[i].op == a;
    assert forall k :: 0 <= k < |before| ==> after[k] == before[k];
  }

  /** What one process does is not undone: from any point on, the series only grows at its end. */
  lemma SeriesOnlyGrows(s: System, first: seq<Event>, later: seq<Event>)
    requires Initial(s)
    ensures Contents(View(Run(s, first).disk)) <= Contents(View(Run(Run(s, first), later).disk))
  {
    RunKeepsInv(s, first);
    RunKeepsInv(Run(s, first), later);
  }
}
