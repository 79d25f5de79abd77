/**
  internal/logging/capture.go and rotation.go: a process's output on its way
  through the stripper into the ring buffer and the rotated log file.
 */
module Captures {
  import opened Basics
  import opened AnsiStrip
  import opened RingBuffers

  /**
    The log file (index 0) and its backups `.1` to `.n`; None is a file that
    does not exist.
   */
  type Files = fs: seq<Option<seq<byte>>> | |fs| > 0 witness [None]

  function Content(file: Option<seq<byte>>): seq<byte> {
    match file
    case None => []
    case Some(bytes) => bytes
  }

  /** The backups from oldest to newest, then the current file. */
  function Log(fs: seq<Option<seq<byte>>>): seq<byte> {
    if fs == [] then [] else Log(fs[1..]) + Content(fs[0])
  }

  // ---------------------------------------------------------------------
  // rotateFile
  // ---------------------------------------------------------------------

  /** Every backup one place up; the oldest is gone. */
  function Shifted(fs: Files): (r: Files)
    ensures |r| == |fs|
  {
    if |fs| == 1 then fs else [fs[0], None] + fs[1..|fs| - 1]
  }

  /** The shift, then the current file renamed to `.1`, which fails if it does not exist. */
  function Rotated(fs: Files, renameOk: bool): (r: Files)
    requires |fs| > 1
    ensures |r| == |fs|
  {
    var shifted := Shifted(fs);
    if renameOk && fs[0].Some? then shifted[1 := fs[0]][0 := None] else shifted
  }

  class LogFiles {
    var files: seq<Option<seq<byte>>>

    constructor (initial: Files)
      ensures files == initial
    {
      files := initial;
    }

    /** os.Rename between two of the files; without the source it fails and changes nothing. */
    method Rename(src: nat, dst: nat) returns (ok: bool)
      requires src < |files| && dst < |files| && src != dst
      modifies this
      ensures ok == old(files)[src].Some?
      ensures files == if ok then old(files)[dst := old(files)[src]][src := None] else old(files)
    {
      ok := files[src].Some?;
      if ok {
        files := files[dst := files[src]][src := None];
      }
    }

    method Rotate(renameOk: bool) returns (ok: bool)
      requires |files| > 1
      modifies this
      ensures files == Rotated(old(files), renameOk)
      ensures ok == (renameOk && old(files)[0].Some?)
    {
      var backups := |files| - 1;
      files := files[backups := None];
      var i := backups - 1;
      while i >= 1
        invariant 0 <= i < backups && |files| == backups + 1
        invariant forall k :: 0 <= k <= i ==> files[k] == old(files)[k]
        invariant files[i + 1] == None
        invariant forall k :: i + 2 <= k <= backups ==> files[k] == old(files)[k - 1]
      {
        var _ := Rename(i, i + 1);
        i := i - 1;
      }
      assert files == Shifted(old(files));
      if !renameOk {
        return false;
      }
      ok := Rename(0, 1);
    }
  }

  lemma {:induction false} LogOfShifted(fs: Files)
    ensures |fs| > 1 ==> IsSuffix(Log(Shifted(fs)), Log(fs))
  {
    if |fs| > 1 {
      var tail := fs[1..];
      DropOldest(tail);
      assert Shifted(fs)[1..] == [None] + tail[..|tail| - 1];
      assert ([None] + tail[..|tail| - 1])[1..] == tail[..|tail| - 1];
      assert Log([None] + tail[..|tail| - 1]) == Log(tail[..|tail| - 1]);
    }
  }

  /** Without its oldest file a log is a suffix of what it was. */
  lemma {:induction false} DropOldest(fs: seq<Option<seq<byte>>>)
    requires |fs| > 0
    ensures IsSuffix(Log(fs[..|fs| - 1]), Log(fs))
  {
    if |fs| == 1 {
      assert fs[..0] == [];
    } else {
      DropOldest(fs[1..]);
      assert fs[..|fs| - 1][1..] == fs[1..][..|fs| - 2];
      SuffixSnoc(Log(fs[1..][..|fs| - 2]), Log(fs[1..]), Content(fs[0]));
    }
  }

  lemma SuffixSnoc(tail: seq<byte>, whole: seq<byte>, more: seq<byte>)
    requires IsSuffix(tail, whole)
    ensures IsSuffix(tail + more, whole + more)
  {}

  lemma SuffixTrans(a: seq<byte>, b: seq<byte>, c: seq<byte>)
    requires IsSuffix(a, b) && IsSuffix(b, c)
    ensures IsSuffix(a, c)
  {}

  // ---------------------------------------------------------------------
  // One captured write
  // ---------------------------------------------------------------------

  /** How the operating system answers: bytes of the write it takes, and which file operations succeed. */
  datatype IO = IO(accepted: nat, truncateOk: bool, renameOk: bool, reopenOk: bool)

  /** The files, and whether the writer has the current one open. */
  datatype Store = Store(files: Files, open: bool)

  function Taken(st: Store, data: seq<byte>, io: IO): seq<byte> {
    if !st.open then [] else data[..if io.accepted < |data| then io.accepted else |data|]
  }

  /** openLogFile creates the file if it does not exist. */
  function Opened(fs: Files): (r: Files)
    ensures |r| == |fs|
  {
    fs[0 := Some(Content(fs[0]))]
  }

  /** rotateIfNeeded. A size of 0 means no limit. */
  function RotateIfNeeded(st: Store, maxBytes: nat, io: IO): (r: Store)
    ensures |r.files| == |st.files|
  {
    if !st.open || maxBytes == 0 || |Content(st.files[0])| < maxBytes then st
    else if |st.files| == 1 then Store(if io.truncateOk then st.files[0 := Some([])] else st.files, true)
    else
      var rotated := Rotated(st.files, io.renameOk);
      if io.reopenOk then Store(Opened(rotated), true) else Store(rotated, false)
  }

  /** The file part of Capture. */
  function Written(st: Store, data: seq<byte>, maxBytes: nat, io: IO): (r: Store)
    ensures |r.files| == |st.files|
  {
    if !st.open then st
    else
      var files := st.files[0 := Some(Content(st.files[0]) + Taken(st, data, io))];
      RotateIfNeeded(Store(files, true), maxBytes, io)
  }

  /** EnsureOpen, which every start of the process calls. */
  function EnsuredOpen(st: Store, ok: bool): (r: Store)
    ensures |r.files| == |st.files|
  {
    if st.open || !ok then st else Store(Opened(st.files), true)
  }

  // ---------------------------------------------------------------------
  // Any sequence of writes and reopenings
  // ---------------------------------------------------------------------

  datatype Op = Write(data: seq<byte>, io: IO) | Open(ok: bool)

  function Do(st: Store, op: Op, maxBytes: nat): (r: Store)
    ensures |r.files| == |st.files|
  {
    match op
    case Write(data, io) => Written(st, data, maxBytes, io)
    case Open(ok) => EnsuredOpen(st, ok)
  }

  function DoAll(st: Store, ops: seq<Op>, maxBytes: nat): Store
    decreases ops
  {
    if ops == [] then st else DoAll(Do(st, ops[0], maxBytes), ops[1..], maxBytes)
  }

  /** The bytes that reached a file. */
  function Logged(st: Store, ops: seq<Op>, maxBytes: nat): seq<byte>
    decreases ops
  {
    if ops == [] then []
    else
      (if ops[0].Write? then Taken(st, ops[0].data, ops[0].io) else [])
      + Logged(Do(st, ops[0], maxBytes), ops[1..], maxBytes)
  }

  lemma LogOfUpdate(fs: Files, file: Option<seq<byte>>)
    ensures Log(fs[0 := file]) == Log(fs[1..]) + Content(file)
  {
    assert fs[0 := file][1..] == fs[1..];
  }

  lemma LogCons(file: Option<seq<byte>>, older: seq<Option<seq<byte>>>)
    ensures Log([file] + older) == Log(older) + Content(file)
  {
    assert ([file] + older)[1..] == older;
  }

  lemma RotatedShape(fs: Files, renameOk: bool)
    requires |fs| > 1
    ensures var older := fs[1..|fs| - 1];
      && Shifted(fs) == [fs[0]] + ([None] + older)
      && Rotated(fs, renameOk) ==
           if renameOk && fs[0].Some? then [None] + ([fs[0]] + older) else Shifted(fs)
  {}

  /** A rotation only ever drops the oldest bytes, also when the rename fails. */
  lemma LogOfRotated(fs: Files, renameOk: bool)
    requires |fs| > 1
    ensures IsSuffix(Log(Rotated(fs, renameOk)), Log(fs))
    ensures IsSuffix(Log(Opened(Rotated(fs, renameOk))), Log(fs))
  {
    hide Log, IsSuffix, Shifted, Rotated, Opened;
    var older := fs[1..|fs| - 1];
    RotatedShape(fs, renameOk);
    LogOfShifted(fs);
    LogCons(fs[0], [None] + older);
    LogCons(None, older);
    LogCons(None, [fs[0]] + older);
    LogCons(fs[0], older);
    assert Log(older) + [] == Log(older);
    assert (Log(older) + Content(fs[0])) + [] == Log(older) + Content(fs[0]);
    LogOfOpened(Rotated(fs, renameOk));
  }

  lemma LogOfOpened(fs: Files)
    ensures Log(Opened(fs)) == Log(fs)
  {
    LogOfUpdate(fs, Some(Content(fs[0])));
  }

  lemma LogOfDo(st: Store, op: Op, maxBytes: nat)
    ensures var taken := if op.Write? then Taken(st, op.data, op.io) else [];
      IsSuffix(Log(Do(st, op, maxBytes).files), Log(st.files) + taken)
  {
    if op.Open? {
      LogOfUpdate(st.files, Some(Content(st.files[0])));
      assert Log(st.files) + [] == Log(st.files);
    } else if st.open {
      var taken := Taken(st, op.data, op.io);
      var files: Files := st.files[0 := Some(Content(st.files[0]) + taken)];
      LogOfUpdate(st.files, Some(Content(st.files[0]) + taken));
      assert Log(st.files[1..]) + (Content(st.files[0]) + taken) == Log(st.files) + taken;
      LogOfUpdate(files, Some([]));
      if |files| > 1 {
        LogOfRotated(files, op.io.renameOk);
      } else {
        assert files[1..] == [];
      }
    } else {
      assert Log(st.files) + [] == Log(st.files);
    }
  }

  /**
    Whatever fails along the way, the backups from oldest to newest followed
    by the current file are a suffix of what was there before and what has
    reached the file since.
   */
  lemma {:induction false} FilesAreASuffix(st: Store, ops: seq<Op>, maxBytes: nat)
    ensures IsSuffix(Log(DoAll(st, ops, maxBytes).files), Log(st.files) + Logged(st, ops, maxBytes))
    decreases ops
  {
    hide Do, Log, IsSuffix;
    if ops == [] {
      assert Log(st.files) + [] == Log(st.files);
      SuffixSelf(Log(st.files));
    } else {
      var next := Do(st, ops[0], maxBytes);
      var taken := if ops[0].Write? then Taken(st, ops[0].data, ops[0].io) else [];
      var rest := Logged(next, ops[1..], maxBytes);
      LogOfDo(st, ops[0], maxBytes);
      FilesAreASuffix(next, ops[1..], maxBytes);
      SuffixSnoc(Log(next.files), Log(st.files) + taken, rest);
      assert (Log(st.files) + taken) + rest == Log(st.files) + (taken + rest);
      SuffixTrans(Log(DoAll(next, ops[1..], maxBytes).files), Log(next.files) + rest,
                  Log(st.files) + Logged(st, ops, maxBytes));
    }
  }

  lemma SuffixSelf(a: seq<byte>)
    ensures IsSuffix(a, a)
  {}

  /** A write is taken whole and every file operation for it succeeds. */
  predicate AllWell(op: Op) {
    op.Write? ==> op.io.accepted >= |op.data| && op.io.truncateOk && op.io.renameOk && op.io.reopenOk
  }

  /** Everything captured, in order. */
  function Captured(ops: seq<Op>): seq<byte> {
    if ops == [] then [] else (if ops[0].Write? then ops[0].data else []) + Captured(ops[1..])
  }

  /** If nothing fails on an open file, every captured byte reaches it and it stays open. */
  lemma {:induction false} NothingIsLost(st: Store, ops: seq<Op>, maxBytes: nat)
    requires st.open && forall i :: 0 <= i < |ops| ==> AllWell(ops[i])
    ensures Logged(st, ops, maxBytes) == Captured(ops) && DoAll(st, ops, maxBytes).open
    decreases ops
  {
    hide Do;
    if ops != [] {
      WellDone(st, ops[0], maxBytes);
      NothingIsLost(Do(st, ops[0], maxBytes), ops[1..], maxBytes);
    }
  }

  lemma WellDone(st: Store, op: Op, maxBytes: nat)
    requires st.open && AllWell(op)
    ensures Do(st, op, maxBytes).open
    ensures op.Write? ==> Taken(st, op.data, op.io) == op.data
    ensures op.Open? ==> Do(st, op, maxBytes) == st
  {}

  /** The current file is smaller than `start`, and no backup exceeds that by the longest write. */
  predicate Bounded(st: Store, start: nat, longest: nat) {
    && st.open
    && |Content(st.files[0])| < start
    && forall k :: 1 <= k < |st.files| ==> |Content(st.files[k])| < start + longest
  }

  lemma {:induction false} WriteKeepsBounded(st: Store, op: Op, maxBytes: nat, start: nat, longest: nat)
    requires op.Write? && AllWell(op) && |op.data| <= longest && 0 < maxBytes <= start && Bounded(st, start, longest)
    ensures Bounded(Do(st, op, maxBytes), start, longest)
    ensures |Content(Do(st, op, maxBytes).files[0])| < maxBytes
  {
    var files: Files := st.files[0 := Some(Content(st.files[0]) + Taken(st, op.data, op.io))];
    if |files| > 1 {
      var rotated := Rotated(files, true);
      forall k | 1 <= k < |files| ensures |Content(Opened(rotated)[k])| < start + longest {
        assert k >= 2 ==> rotated[k] == files[k - 1];
      }
    }
  }

  /**
    If nothing fails, the current file is below maxbytes from the first write
    on, or from the beginning if it was then, and each backup below maxbytes
    plus one write; a file that was over the limit at the beginning, of less
    than `start` bytes, can leave one backup that large. Reopening changes
    nothing.
   */
  lemma {:induction false} SizesAreBounded(st: Store, ops: seq<Op>, maxBytes: nat, start: nat, longest: nat)
    requires 0 < maxBytes <= start && Bounded(st, start, longest)
    requires forall i :: 0 <= i < |ops| ==> AllWell(ops[i]) && (ops[i].Write? ==> |ops[i].data| <= longest)
    ensures Bounded(DoAll(st, ops, maxBytes), start, longest)
    ensures |Content(st.files[0])| < maxBytes || (exists i :: 0 <= i < |ops| && ops[i].Write?) ==>
      |Content(DoAll(st, ops, maxBytes).files[0])| < maxBytes
    decreases ops
  {
    hide Do, Bounded;
    if ops != [] {
      var st' := Do(st, ops[0], maxBytes);
      if ops[0].Write? {
        WriteKeepsBounded(st, ops[0], maxBytes, start, longest);
      } else {
        IsOpen(st, start, longest);
        WellDone(st, ops[0], maxBytes);
      }
      SizesAreBounded(st', ops[1..], maxBytes, start, longest);
      if |Content(st'.files[0])| >= maxBytes && exists i :: 0 <= i < |ops| && ops[i].Write? {
        var i :| 0 <= i < |ops| && ops[i].Write?;
        assert ops[1..][i - 1].Write?;
      }
    }
  }

  lemma IsOpen(st: Store, start: nat, longest: nat)
    requires Bounded(st, start, longest)
    ensures st.open
  {}

  /** A file that could not be opened, or reopened after a rotation, takes nothing until EnsureOpen succeeds. */
  lemma ClosedUntilReopened(st: Store, data: seq<byte>, io: IO, ok: bool, maxBytes: nat)
    ensures !st.open ==> Do(st, Write(data, io), maxBytes) == st
    ensures Do(st, Open(ok), maxBytes).open <==> st.open || ok
    ensures Log(Do(st, Open(ok), maxBytes).files) == Log(st.files)
    ensures st.open ==>
      (Do(st, Write(data, io), maxBytes).open <==>
        || io.reopenOk || |st.files| == 1 || maxBytes == 0
        || |Content(st.files[0])| + |Taken(st, data, io)| < maxBytes)
  {
    LogOfOpened(st.files);
  }

  // ---------------------------------------------------------------------
  // How much is kept
  // ---------------------------------------------------------------------

  /** A write that leaves the file below maxbytes, or has no limit to obey, is appended and nothing else happens. */
  lemma BelowLimitOnlyAppends(st: Store, data: seq<byte>, io: IO, maxBytes: nat)
    requires st.open
    requires var size := |Content(st.files[0])| + |Taken(st, data, io)|; maxBytes == 0 || size < maxBytes
    ensures var st' := Do(st, Write(data, io), maxBytes);
      && st'.open
      && st'.files == [Some(Content(st.files[0]) + Taken(st, data, io))] + st.files[1..]
  {}

  /** A write that reaches maxbytes moves the file to the first backup and every backup one place up. */
  lemma AtLimitRotates(st: Store, data: seq<byte>, io: IO, maxBytes: nat)
    requires st.open && AllWell(Write(data, io)) && 0 < maxBytes <= |Content(st.files[0])| + |data|
    ensures var st' := Do(st, Write(data, io), maxBytes);
      && st'.open
      && st'.files == if |st.files| == 1 then [Some([])]
                      else [Some([])] + ([Some(Content(st.files[0]) + data)] + st.files[1..|st.files| - 1])
  {
    var files: Files := st.files[0 := Some(Content(st.files[0]) + data)];
    assert Taken(st, data, io) == data;
    if |files| > 1 {
      RotatedShape(files, true);
      assert files[1..|files| - 1] == st.files[1..|files| - 1];
    }
  }

  /** Each backup holds at least maxbytes, or it and all older ones are empty. */
  predicate Filled(fs: Files, maxBytes: nat) {
    forall i, j :: 1 <= i <= j < |fs| && Content(fs[j]) != [] ==> |Content(fs[i])| >= maxBytes
  }

  lemma {:induction false} FullLog(fs: seq<Option<seq<byte>>>, maxBytes: nat)
    requires forall k :: 0 <= k < |fs| ==> |Content(fs[k])| >= maxBytes
    ensures |Log(fs)| >= |fs| * maxBytes
  {
    if fs != [] { FullLog(fs[1..], maxBytes); }
  }

  lemma {:induction false} EmptyEnd(fs: seq<Option<seq<byte>>>)
    requires |fs| > 0 && Content(fs[|fs| - 1]) == []
    ensures Log(fs) == Log(fs[..|fs| - 1])
  {
    if |fs| == 1 {
      assert fs[..0] == [];
    } else {
      EmptyEnd(fs[1..]);
      assert fs[..|fs| - 1][1..] == fs[1..][..|fs| - 2];
    }
  }

  /** Backups in all places and no room for another. */
  predicate AllFull(fs: Files, maxBytes: nat) {
    forall i :: 1 <= i < |fs| ==> |Content(fs[i])| >= maxBytes
  }

  /** A write loses nothing unless it leaves every backup full. */
  lemma {:induction false} WriteKeepsAll(st: Store, data: seq<byte>, io: IO, maxBytes: nat)
    requires st.open && AllWell(Write(data, io)) && Filled(st.files, maxBytes) && maxBytes > 0
    ensures var fs := Do(st, Write(data, io), maxBytes).files;
      && Filled(fs, maxBytes)
      && (AllFull(st.files, maxBytes) ==> AllFull(fs, maxBytes))
      && (AllFull(fs, maxBytes) || Log(fs) == Log(st.files) + data)
  {
    hide Do, Log, Taken;
    var all := Content(st.files[0]) + data;
    assert Taken(st, data, io) == data by { WellDone(st, Write(data, io), maxBytes); }
    if |all| < maxBytes {
      BelowLimitOnlyAppends(st, data, io, maxBytes);
      LogAppended(st.files, data);
    } else {
      AtLimitRotates(st, data, io, maxBytes);
      var fs := Do(st, Write(data, io), maxBytes).files;
      if |fs| > 1 { LastWasEmpty(st.files, fs, maxBytes); }
      if !AllFull(fs, maxBytes) { LogRotatedWhole(st.files, data); }
    }
  }

  lemma LastWasEmpty(fs: Files, fs': Files, maxBytes: nat)
    requires Filled(fs, maxBytes) && |fs| > 1 && maxBytes > 0
    requires exists cur ::
      |Content(cur)| >= maxBytes && fs' == [Some([])] + ([cur] + fs[1..|fs| - 1])
    ensures Filled(fs', maxBytes) && (AllFull(fs, maxBytes) ==> AllFull(fs', maxBytes))
    ensures !AllFull(fs', maxBytes) ==> Content(fs[|fs| - 1]) == []
  {
    assert forall k :: 2 <= k < |fs| ==> fs'[k] == fs[k - 1];
    if !AllFull(fs', maxBytes) {
      var i :| 1 <= i < |fs'| && |Content(fs'[i])| < maxBytes;
      assert |Content(fs[i - 1])| < maxBytes;
    }
  }

  lemma LogAppended(fs: Files, data: seq<byte>)
    ensures Log([Some(Content(fs[0]) + data)] + fs[1..]) == Log(fs) + data
  {
    LogCons(Some(Content(fs[0]) + data), fs[1..]);
    assert Log(fs[1..]) + Content(fs[0]) + data == Log(fs[1..]) + (Content(fs[0]) + data);
  }

  /** A rotation drops nothing if the last place was empty. */
  lemma LogRotatedWhole(fs: Files, data: seq<byte>)
    requires |fs| > 1 && Content(fs[|fs| - 1]) == []
    ensures Log([Some([])] + ([Some(Content(fs[0]) + data)] + fs[1..|fs| - 1])) == Log(fs) + data
  {
    hide Log;
    var all := Content(fs[0]) + data;
    var older := fs[1..];
    EmptyEnd(older);
    assert older[..|older| - 1] == fs[1..|fs| - 1];
    LogCons(Some([]), [Some(all)] + fs[1..|fs| - 1]);
    LogCons(Some(all), fs[1..|fs| - 1]);
    LogCons(fs[0], older);
    assert [fs[0]] + older == fs;
    assert Log(older) + Content(fs[0]) + data == Log(older) + all;
    assert (Log(older) + all) + [] == Log(older) + all;
  }

  /**
    Nothing is lost before it must be: if nothing fails, and the backups there
    are at the beginning hold at least maxbytes each and leave no gap, the files
    hold everything there was and everything captured, or at least maxbytes for
    each backup.
   */
  lemma {:induction false} EnoughIsKept(st: Store, ops: seq<Op>, maxBytes: nat)
    requires st.open && Filled(st.files, maxBytes)
    requires forall i :: 0 <= i < |ops| ==> AllWell(ops[i])
    ensures var fs := DoAll(st, ops, maxBytes).files;
      && |fs| == |st.files|
      && (Log(fs) == Log(st.files) + Captured(ops) || (maxBytes > 0 && |Log(fs)| >= (|fs| - 1) * maxBytes))
  {
    AllKeptOrFull(st, ops, maxBytes);
    var fs := DoAll(st, ops, maxBytes).files;
    if AllFull(fs, maxBytes) {
      FullLog(fs[1..], maxBytes);
    }
  }

  lemma {:induction false} AllKeptOrFull(st: Store, ops: seq<Op>, maxBytes: nat)
    requires st.open && Filled(st.files, maxBytes)
    requires forall i :: 0 <= i < |ops| ==> AllWell(ops[i])
    ensures var fs := DoAll(st, ops, maxBytes).files;
      && |fs| == |st.files|
      && (maxBytes > 0 && AllFull(st.files, maxBytes) ==> AllFull(fs, maxBytes))
      && (Log(fs) == Log(st.files) + Captured(ops) || (maxBytes > 0 && AllFull(fs, maxBytes)))
    decreases ops
  {
    hide Do, Log, Filled, AllFull, AllWell;
    if ops == [] {
      assert Log(st.files) + [] == Log(st.files);
    } else {
      var op, st' := ops[0], Do(st, ops[0], maxBytes);
      WellDone(st, op, maxBytes);
      OpKeepsAll(st, op, maxBytes);
      AllKeptOrFull(st', ops[1..], maxBytes);
      var more := if op.Write? then op.data else [];
      assert (Log(st.files) + more) + Captured(ops[1..]) == Log(st.files) + Captured(ops);
    }
  }

  lemma OpKeepsAll(st: Store, op: Op, maxBytes: nat)
    requires st.open && AllWell(op) && Filled(st.files, maxBytes)
    ensures var fs := Do(st, op, maxBytes).files;
      && Filled(fs, maxBytes)
      && (maxBytes > 0 && AllFull(st.files, maxBytes) ==> AllFull(fs, maxBytes))
      && (Log(fs) == Log(st.files) + (if op.Write? then op.data else []) || (maxBytes > 0 && AllFull(fs, maxBytes)))
  {
    hide Log;
    if op.Open? {
      assert Log(st.files) + [] == Log(st.files);
    } else if maxBytes == 0 {
      WellDone(st, op, 0);
      BelowLimitOnlyAppends(st, op.data, op.io, 0);
      LogAppended(st.files, op.data);
    } else {
      WriteKeepsAll(st, op.data, op.io, maxBytes);
    }
  }

  /** With a gap between the backups less can be left. */
  lemma GapLosesMore()
    ensures var st := Store([Some([0]), None, Some([0, 0])], true);
      var op := Write([0], IO(1, true, true, true));
      && AllWell(op)
      && Log(Do(st, op, 2).files) == [0, 0] && |Log(st.files) + op.data| == 4 == (|st.files| - 1) * 2
  {
    var st := Store([Some([0]), None, Some([0, 0])], true);
    var op := Write([0], IO(1, true, true, true));
    AtLimitRotates(st, op.data, op.io, 2);
    assert st.files[1..2] == [None] + [] && Content(st.files[0]) + op.data == [0, 0];
    LogCons(Some([]), [Some([0, 0])] + ([None] + []));
    LogCons(Some([0, 0]), [None] + []);
    LogCons(None, []);
    assert st.files == [Some([0])] + ([None] + ([Some([0, 0])] + []));
    LogCons(Some([0]), [None] + ([Some([0, 0])] + []));
    LogCons(None, [Some([0, 0])] + []);
    LogCons(Some([0, 0]), []);
  }

  // ---------------------------------------------------------------------
  // From the stream to the files
  // ---------------------------------------------------------------------

  /** What Capture writes for the chunks of a stream when it strips them. */
  ghost function StrippedOps(pending: seq<byte>, chunks: seq<seq<byte>>, ios: seq<IO>): seq<Op>
    requires |ios| == |chunks|
    decreases |chunks|
  {
    if chunks == [] then []
    else
      var (out, held) := StripChunk(pending, chunks[0]);
      [Write(out, ios[0])] + StrippedOps(held, chunks[1..], ios[1..])
  }

  lemma {:induction false} CapturedIsStripped(pending: seq<byte>, chunks: seq<seq<byte>>, ios: seq<IO>)
    requires |ios| == |chunks|
    ensures Captured(StrippedOps(pending, chunks, ios)) == StripAll(pending, chunks).0
    decreases |chunks|
  {
    hide StripChunk;
    if chunks != [] {
      var (out, held) := StripChunk(pending, chunks[0]);
      CapturedIsStripped(held, chunks[1..], ios[1..]);
      assert ([Write(out, ios[0])] + StrippedOps(held, chunks[1..], ios[1..]))[1..]
        == StrippedOps(held, chunks[1..], ios[1..]);
    }
  }

  /**
    From one end to the other: with strip_ansi, and if nothing fails, whatever
    chunks a well-formed stream arrives in, backups and current file are a
    suffix of what they were followed by StripANSI of the stream without its
    held-back tail.
   */
  lemma FilesHoldTheStrippedStream(st: Store, chunks: seq<seq<byte>>, ios: seq<IO>, maxBytes: nat)
    requires |ios| == |chunks| && st.open && WellFormed(Text, Flatten(chunks))
    requires var ops := StrippedOps([], chunks, ios); forall i :: 0 <= i < |ops| ==> AllWell(ops[i])
    ensures var stream := Flatten(chunks);
      IsSuffix(Log(DoAll(st, StrippedOps([], chunks, ios), maxBytes).files),
               Log(st.files) + Stripped(stream[..Cut(stream)]))
  {
    hide WellFormed, Stripped, Cut, StripAll, StrippedOps, Log, DoAll, Logged, Captured, IsSuffix, Flatten;
    var ops := StrippedOps([], chunks, ios);
    ChunkingDoesNotMatter(chunks);
    CapturedIsStripped([], chunks, ios);
    NothingIsLost(st, ops, maxBytes);
    FilesAreASuffix(st, ops, maxBytes);
  }

  // ---------------------------------------------------------------------
  // The writer
  // ---------------------------------------------------------------------

  class CaptureWriter {
    const stripAnsi: bool
    const maxBytes: nat
    const log: LogFiles
    const ring: RingBuffer
    const stripper: ANSIStripper
    var open: bool

    ghost function Repr(): set<object>
      reads ring
    {
      {this, log, ring, ring.buf, stripper}
    }

    ghost predicate Valid()
      reads this, log, ring, ring.buf
    {
      |log.files| > 0 && ring.Valid()
    }

    ghost function View(): Store
      requires |log.files| > 0
      reads this, log
    {
      Store(log.files, open)
    }

    constructor (stripAnsi: bool, maxBytes: nat, files: Files)
      ensures Valid() && fresh(Repr())
      ensures this.stripAnsi == stripAnsi && this.maxBytes == maxBytes && !open
      ensures log.files == files && ring.written == [] && stripper.pending == []
      ensures ring.size == 64 * 1024
    {
      this.stripAnsi, this.maxBytes, this.open := stripAnsi, maxBytes, false;
      this.log := new LogFiles(files);
      this.ring := new RingBuffer(64 * 1024);
      this.stripper := new ANSIStripper();
    }

    method EnsureOpen(ok: bool)
      requires Valid()
      modifies this`open, log
      ensures Valid() && View() == EnsuredOpen(old(View()), ok)
    {
      if open || !ok {
        return;
      }
      log.files := Opened(log.files);
      open := true;
    }

    method Rotate(io: IO)
      requires Valid()
      modifies this`open, log
      ensures Valid() && View() == RotateIfNeeded(old(View()), maxBytes, io)
    {
      if !open || maxBytes == 0 {
        return;
      }
      if |Content(log.files[0])| < maxBytes {
        return;
      }
      if |log.files| == 1 {
        if io.truncateOk {
          log.files := log.files[0 := Some([])];
        }
        return;
      }
      var _ := log.Rotate(io.renameOk);
      if !io.reopenOk {
        open := false;
        return;
      }
      log.files := Opened(log.files);
    }

    /** The data as captured: it goes to the ring buffer, to the file, and back to the caller. */
    method Capture(p: seq<byte>, io: IO) returns (data: seq<byte>)
      requires Valid()
      modifies Repr()
      ensures Valid() && ring.buf == old(ring.buf)
      ensures (data, stripper.pending) ==
        if stripAnsi then StripChunk(old(stripper.pending), p) else (p, old(stripper.pending))
      ensures ring.written == old(ring.written) + data
      ensures View() == Written(old(View()), data, maxBytes, io)
    {
      data := p;
      if stripAnsi {
        data := stripper.Strip(data);
      }
      ring.Write(data);
      if open {
        ghost var before := View();
        var accepted := if io.accepted < |data| then io.accepted else |data|;
        log.files := log.files[0 := Some(Content(log.files[0]) + data[..accepted])];
        assert data[..accepted] == Taken(before, data, io);
        Rotate(io);
      }
    }
  }
}
