/** The files of one log series and the steps that rotation and recovery take on them
    (crates/aver-core/src/log.rs). A crash may fall between any two steps. */
module SeriesFiles {
  import opened Prelude

  /** A line's bytes, newline left out. */
  type Line = seq<bv8>

  /** A gzip file: the lines written to it, and whether its end was reached. */
  datatype Archive = Archive(lines: seq<Line>, complete: bool)

  /** `{series}.jsonl`, and by index `{series}.N.jsonl`, `{series}.N.jsonl.gz` and `{series}.N.jsonl.gz.tmp`. */
  datatype Files = Files(
    active: Option<seq<Line>>, plain: map<nat, seq<Line>>, gz: map<nat, Archive>, tmp: map<nat, Archive>)

  const RotateMaxBytes := 64 * 1024 * 1024
  const RotateMaxLines := 500_000

  // ----- what the files hold -----

  /** A numbered file's lines: the plain file where there is one, else its archive. */
  function NumberedLines(f: Files, n: nat): seq<Line> {
    if n in f.plain then f.plain[n] else if n in f.gz then f.gz[n].lines else []
  }

  function LinesBelow(f: Files, n: nat): seq<Line> {
    if n == 0 then [] else LinesBelow(f, n - 1) + NumberedLines(f, n - 1)
  }

  function Top(s: set<nat>): (b: nat)
    ensures forall n :: n in s ==> n < b
    ensures s != {} ==> b > 0 && b - 1 in s
  {
    if s == {} then 0
    else
      MaxExists(s);
      var m :| m in s && forall n :: n in s ==> n <= m;
      m + 1
  }

  lemma {:induction false} MaxExists(s: set<nat>)
    requires s != {}
    ensures exists m :: m in s && forall n :: n in s ==> n <= m
  {
    var x :| x in s;
    if s != {x} {
      MaxExists(s - {x});
      var m :| m in s - {x} && forall n :: n in s - {x} ==> n <= m;
      forall n | n in s && n != x ensures n <= m { assert n in s - {x}; }
      MaxOfTwo(s, x, m);
    }
  }

  lemma MaxOfTwo(s: set<nat>, x: nat, m: nat)
    requires x in s && m in s && forall n :: n in s && n != x ==> n <= m
    ensures exists top :: top in s && forall n :: n in s ==> n <= top
  {
    var top := if m < x then x else m;
    assert forall n :: n in s ==> n <= top;
  }

  function ActiveLines(f: Files): seq<Line> { if f.active.Some? then f.active.value else [] }

  /** Every line of the series in append order. */
  function Contents(f: Files): seq<Line> {
    LinesBelow(f, Top(f.plain.Keys + f.gz.Keys)) + ActiveLines(f)
  }

  lemma {:induction false} NothingAbove(f: Files, a: nat, b: nat)
    requires a <= b && forall n :: a <= n < b ==> n !in f.plain && n !in f.gz
    ensures LinesBelow(f, b) == LinesBelow(f, a)
  {
    if a < b { NothingAbove(f, a, b - 1); }
  }

  lemma ContentsBelow(f: Files, b: nat)
    requires forall n :: n in f.plain || n in f.gz ==> n < b
    ensures Contents(f) == LinesBelow(f, b) + ActiveLines(f)
  {
    var top := Top(f.plain.Keys + f.gz.Keys);
    if top <= b { NothingAbove(f, top, b); } else { NothingAbove(f, b, top); }
  }

  lemma {:induction false} SameLinesBelow(f: Files, g: Files, b: nat)
    requires forall n :: 0 <= n < b ==> NumberedLines(f, n) == NumberedLines(g, n)
    ensures LinesBelow(f, b) == LinesBelow(g, b)
  {
    if b > 0 { SameLinesBelow(f, g, b - 1); }
  }

  // ----- steps -----

  datatype Move =
    | RenameActive(n: nat)
    | SetTmp(n: nat, archive: Archive)
    | DropTmp(n: nat)
    | Publish(n: nat)
    | RemovePlain(n: nat)
    | RemoveGz(n: nat)
    | Touch

  function Do(f: Files, m: Move): Files {
    match m
    case RenameActive(n) => if f.active.None? then f else f.(active := None, plain := f.plain[n := f.active.value])
    case SetTmp(n, archive) => f.(tmp := f.tmp[n := archive])
    case DropTmp(n) => f.(tmp := f.tmp - {n})
    case Publish(n) => if n !in f.tmp then f else f.(gz := f.gz[n := f.tmp[n]], tmp := f.tmp - {n})
    case RemovePlain(n) => f.(plain := f.plain - {n})
    case RemoveGz(n) => f.(gz := f.gz - {n})
    case Touch => if f.active.None? then f.(active := Some([])) else f
  }

  /** An archive is complete unless its plain source is still there, and never differs from it. */
  ghost predicate Good(f: Files) {
    forall n :: n in f.gz ==>
      if n in f.plain then f.gz[n].complete ==> f.gz[n].lines == f.plain[n] else f.gz[n].complete
  }

  /** What makes a step safe to be the last one before a crash. */
  ghost predicate Safe(f: Files, m: Move) {
    match m
    case RenameActive(n) => f.active.Some? && forall k :: k in f.plain || k in f.gz ==> k < n
    case SetTmp(_, _) => true
    case DropTmp(_) => true
    case Publish(n) => n in f.tmp && f.tmp[n].complete && n in f.plain && f.tmp[n].lines == f.plain[n]
    case RemovePlain(n) => n in f.plain && n in f.gz && f.gz[n].complete
    case RemoveGz(n) => n in f.plain
    case Touch => true
  }

  /** No safe step loses, repeats or reorders a line. */
  lemma SafeMoveKeepsContents(f: Files, m: Move)
    requires Good(f) && Safe(f, m)
    ensures Good(Do(f, m)) && Contents(Do(f, m)) == Contents(f)
  {
    var g := Do(f, m);
    if m.RenameActive? {
      RenameKeepsContents(f, m.n);
    } else {
      var b := Top(f.plain.Keys + f.gz.Keys + g.plain.Keys + g.gz.Keys);
      SameLinesBelow(f, g, b);
      ContentsBelow(f, b);
      ContentsBelow(g, b);
    }
  }

  lemma RenameKeepsContents(f: Files, n: nat)
    requires f.active.Some? && forall k :: k in f.plain || k in f.gz ==> k < n
    ensures Contents(Do(f, RenameActive(n))) == Contents(f)
  {
    var g := Do(f, RenameActive(n));
    SameLinesBelow(f, g, n);
    ContentsBelow(f, n);
    ContentsBelow(g, n + 1);
  }

  // ----- what replay reads -----

  /** Rotated archives in numeric order, then the active file; an unreadable archive is an error. */
  function ArchivesBelow(f: Files, n: nat): Option<seq<Line>> {
    if n == 0 then Some([])
    else match ArchivesBelow(f, n - 1)
      case None => None
      case Some(lines) =>
        if n - 1 !in f.gz then Some(lines)
        else if f.gz[n - 1].complete then Some(lines + f.gz[n - 1].lines) else None
  }

  function ReplayInput(f: Files): Option<seq<Line>> {
    match ArchivesBelow(f, Top(f.gz.Keys))
    case None => None
    case Some(lines) => Some(lines + ActiveLines(f))
  }

  lemma {:induction false} NoArchivesAbove(f: Files, a: nat, b: nat)
    requires a <= b && forall n :: a <= n < b ==> n !in f.gz
    ensures ArchivesBelow(f, b) == ArchivesBelow(f, a)
  {
    if a < b { NoArchivesAbove(f, a, b - 1); }
  }

  /** Every file the replay must not miss: complete archives, and plain files that have one or hold nothing. */
  ghost predicate ReadableBelow(f: Files, b: nat) {
    forall n :: 0 <= n < b ==>
      (n in f.gz ==> f.gz[n].complete) && (n in f.plain && n !in f.gz ==> f.plain[n] == [])
  }

  lemma {:induction false} ArchivesAtMost(f: Files, b: nat)
    requires Good(f) && ArchivesBelow(f, b).Some?
    ensures |ArchivesBelow(f, b).value| <= |LinesBelow(f, b)|
    ensures ArchivesBelow(f, b).value == LinesBelow(f, b) <==> ReadableBelow(f, b)
  {
    if b > 0 {
      ArchivesAtMost(f, b - 1);
      var lines, all := ArchivesBelow(f, b - 1).value, LinesBelow(f, b - 1);
      var more := NumberedLines(f, b - 1);
      ReadableStep(f, b);
      if b - 1 in f.gz {
        assert f.gz[b - 1].lines == more;
        if lines + more == all + more { SameFront(lines, all, more); }
      } else {
        if more != [] { assert |lines| < |all + more|; }
      }
    }
  }

  lemma ReadableStep(f: Files, b: nat)
    requires b > 0 && ArchivesBelow(f, b).Some?
    ensures ReadableBelow(f, b) <==>
              ReadableBelow(f, b - 1) && (b - 1 in f.plain && b - 1 !in f.gz ==> f.plain[b - 1] == [])
  {
    assert b - 1 in f.gz ==> f.gz[b - 1].complete;
  }

  lemma SameFront(a: seq<Line>, b: seq<Line>, c: seq<Line>)
    requires a + c == b + c
    ensures a == b
  {
    assert |a + c| == |b + c|;
    assert a == (a + c)[..|a|] && b == (b + c)[..|b|];
  }

  lemma {:induction false} UnreadableArchive(f: Files, b: nat)
    ensures ArchivesBelow(f, b).Some? <==> forall n :: n in f.gz && n < b ==> f.gz[n].complete
  {
    if b > 0 { UnreadableArchive(f, b - 1); }
  }

  /** Replay reads the whole series exactly when every archive is complete and no plain file still
      holds lines that no archive does: recovery must have run since the last crash. */
  lemma ReplayReadsAll(f: Files)
    requires Good(f)
    ensures ReplayInput(f) == Some(Contents(f)) <==>
              && (forall n :: n in f.gz ==> f.gz[n].complete)
              && (forall n :: n in f.plain && n !in f.gz ==> f.plain[n] == [])
  {
    var b := Top(f.plain.Keys + f.gz.Keys);
    var top := Top(f.gz.Keys);
    assert top <= b;
    NoArchivesAbove(f, top, b);
    UnreadableArchive(f, b);
    assert (forall n :: n in f.gz && n < b ==> f.gz[n].complete) <==> forall n :: n in f.gz ==> f.gz[n].complete;
    if ArchivesBelow(f, b).Some? {
      ArchivesAtMost(f, b);
      var lines := ArchivesBelow(f, b).value;
      if lines + ActiveLines(f) == LinesBelow(f, b) + ActiveLines(f) {
        SameFront(lines, LinesBelow(f, b), ActiveLines(f));
      }
      assert ReadableBelow(f, b) <==> forall n :: n in f.plain && n !in f.gz ==> f.plain[n] == [] by {
        assert forall n :: n in f.plain || n in f.gz ==> 0 <= n < b;
      }
    }
  }

  // ----- rotation and recovery -----

  function Bytes(lines: seq<Line>): nat {
    if lines == [] then 0 else |lines[0]| + 1 + Bytes(lines[1..])
  }

  /** One above every archive and every half-rotated file; 1 where there are none. */
  ghost predicate IsNextIndex(f: Files, n: nat) {
    && n > 0 && (forall k :: k in f.plain || k in f.gz ==> k < n)
    && (n == 1 || n - 1 in f.plain || n - 1 in f.gz)
  }

  /** Every line counts with its newline. */
  lemma {:induction false} BytesSay(lines: seq<Line>, last: Line)
    ensures Bytes(lines + [last]) == Bytes(lines) + |last| + 1
  {
    if lines == [] {
      assert lines + [last] == [last] && [last][1..] == [];
    } else {
      assert (lines + [last])[1..] == lines[1..] + [last];
      BytesSay(lines[1..], last);
    }
  }

  /** log_rotation_needed. */
  predicate RotationNeeded(f: Files) {
    f.active.Some? && (Bytes(f.active.value) >= RotateMaxBytes || |f.active.value| >= RotateMaxLines)
  }

  /** Every state from `start` on is good and holds `lines`: a crash there loses and repeats nothing. */
  ghost predicate CrashSafe(trace: seq<Files>, start: nat, lines: seq<Line>) {
    forall i :: start <= i < |trace| ==> Good(trace[i]) && Contents(trace[i]) == lines
  }

  /** The active file's lines moved into the archive of index `n`, and a fresh active file. */
  function Rotated(f: Files, n: nat): Files {
    Files(Some([]), f.plain, f.gz[n := Archive(ActiveLines(f), true)], f.tmp - {n})
  }

  /** `{series}` in the memory directory. The trace holds the files as each step leaves them. */
  class SeriesDirectory {
    var files: Files
    ghost var trace: seq<Files>

    constructor (found: Files)
      ensures files == found && trace == [found]
    {
      files, trace := found, [found];
    }

    method Take(m: Move)
      requires Good(files) && Safe(files, m)
      modifies this
      ensures files == Do(old(files), m) && Good(files) && Contents(files) == Contents(old(files))
      ensures old(trace) <= trace && CrashSafe(trace, |old(trace)|, Contents(old(files)))
    {
      SafeMoveKeepsContents(files, m);
      files := Do(files, m);
      trace := trace + [files];
    }

    /** gzip_file: the archive grows under a temporary name and takes its place when complete. */
    method GzipFile(n: nat)
      requires Good(files) && n in files.plain
      modifies this
      ensures files ==
                old(files).(gz := old(files.gz)[n := Archive(old(files.plain[n]), true)], tmp := old(files.tmp) - {n})
      ensures Good(files) && Contents(files) == Contents(old(files))
      ensures old(trace) <= trace && CrashSafe(trace, |old(trace)|, Contents(old(files)))
    {
      var input := files.plain[n];
      Take(SetTmp(n, Archive([], false)));
      for k := 0 to |input|
        invariant files == old(files).(tmp := old(files.tmp)[n := Archive(input[..k], false)])
        invariant Good(files) && Contents(files) == Contents(old(files))
        invariant old(trace) <= trace && CrashSafe(trace, |old(trace)|, Contents(old(files)))
      {
        assert input[..k + 1] == input[..k] + [input[k]];
        Take(SetTmp(n, Archive(files.tmp[n].lines + [input[k]], false)));
      }
      assert input[..|input|] == input;
      Take(SetTmp(n, Archive(files.tmp[n].lines, true)));
      Take(Publish(n));
      assert files.tmp == old(files.tmp) - {n};
    }

    method NextRotationIndex() returns (n: nat)
      ensures IsNextIndex(files, n)
    {
      var max: nat := 0;
      var unread := files.plain.Keys + files.gz.Keys;
      while unread != {}
        invariant forall k :: (k in files.plain || k in files.gz) && k !in unread ==> k <= max
        invariant max == 0 || max in files.plain || max in files.gz
        invariant unread <= files.plain.Keys + files.gz.Keys
        decreases unread
      {
        var k :| k in unread;
        if k > max { max := k; }
        unread := unread - {k};
      }
      n := max + 1;
    }

    method Rotate(n: nat)
      requires Good(files) && Safe(files, RenameActive(n))
      modifies this
      ensures files == Rotated(old(files), n)
      ensures Good(files) && Contents(files) == Contents(old(files))
      ensures old(trace) <= trace && CrashSafe(trace, |old(trace)|, Contents(old(files)))
    {
      Take(RenameActive(n));
      GzipFile(n);
      Take(RemovePlain(n));
      assert files.plain == old(files.plain);
      Take(Touch);
    }

    /** maybe_rotate_log: skipped while another process holds the lock. */
    method MaybeRotate(neededBeforeLock: bool, lockFree: bool) returns (rotated: bool)
      requires Good(files)
      modifies this
      ensures rotated <==>
                neededBeforeLock && lockFree && old(files.active).Some?
                && (67_108_864 <= Bytes(old(files.active.value)) || 500_000 <= |old(files.active.value)|)
      ensures !rotated ==> files == old(files) && trace == old(trace)
      ensures rotated ==>
                exists n: nat :: IsNextIndex(old(files), n) && Safe(old(files), RenameActive(n))
                                 && files == Rotated(old(files), n)
      ensures Good(files) && Contents(files) == Contents(old(files))
      ensures old(trace) <= trace && CrashSafe(trace, |old(trace)|, Contents(old(files)))
    {
      if !neededBeforeLock || !lockFree || !RotationNeeded(files) { return false; }
      var n := NextRotationIndex();
      Rotate(n);
      rotated := true;
    }

    method RemoveStaleTmps()
      requires Good(files)
      modifies this
      ensures files == old(files).(tmp := map[])
      ensures Good(files) && Contents(files) == Contents(old(files))
      ensures old(trace) <= trace && CrashSafe(trace, |old(trace)|, Contents(old(files)))
    {
      var stale := files.tmp.Keys;
      while stale != {}
        invariant files == old(files).(tmp := files.tmp) && files.tmp.Keys == stale
        invariant Good(files) && Contents(files) == Contents(old(files))
        invariant old(trace) <= trace && CrashSafe(trace, |old(trace)|, Contents(old(files)))
        decreases stale
      {
        var n :| n in stale;
        Take(DropTmp(n));
        stale := stale - {n};
      }
      assert files.tmp == map[];
    }

    /** One plain file left by a crash. */
    method FinishOne(n: nat)
      requires Good(files) && n in files.plain
      modifies this
      ensures files.active == old(files.active) && files.plain == old(files.plain) - {n}
      ensures files.gz == old(files.gz)[n := Archive(old(files.plain[n]), true)]
              && files.tmp.Keys <= old(files.tmp.Keys)
      ensures Good(files) && Contents(files) == Contents(old(files))
      ensures old(trace) <= trace && CrashSafe(trace, |old(trace)|, Contents(old(files)))
    {
      if n in files.gz {
        if files.gz[n].complete {
          assert files.gz[n] == Archive(files.plain[n], true);
          Take(RemovePlain(n));
        } else {
          Take(RemoveGz(n));
          GzipFile(n);
          Take(RemovePlain(n));
        }
        return;
      }
      GzipFile(n);
      Take(RemovePlain(n));
    }

    /** finalize_pending_rotations: afterwards archives and active file alone hold every line. */
    method FinalizePending(lockFree: bool)
      requires Good(files)
      modifies this
      ensures !lockFree ==> files == old(files) && trace == old(trace)
      ensures lockFree ==> files.plain == map[] && files.tmp == map[] && files.active == old(files.active)
                           && files.gz.Keys == old(files.gz.Keys) + old(files.plain.Keys)
                           && ReplayInput(files) == Some(Contents(old(files)))
      ensures Good(files) && Contents(files) == Contents(old(files))
      ensures old(trace) <= trace && CrashSafe(trace, |old(trace)|, Contents(old(files)))
    {
      if !lockFree { return; }
      var pending := files.plain.Keys;
      RemoveStaleTmps();
      while pending != {}
        invariant files.active == old(files.active) && files.plain.Keys == pending && files.tmp == map[]
        invariant files.gz.Keys + pending == old(files.gz.Keys) + old(files.plain.Keys)
        invariant Good(files) && Contents(files) == Contents(old(files))
        invariant old(trace) <= trace && CrashSafe(trace, |old(trace)|, Contents(old(files)))
        decreases pending
      {
        var n :| n in pending;
        FinishOne(n);
        pending := pending - {n};
        assert files.tmp == map[];
      }
      ReplayReadsAll(files);
    }
  }
}
