/** The two size-bounded logs of the collector (apps/collector/src/error-diagnostics.ts:187-244,
    apps/collector/src/recovery-log.ts:68-149). Slot 0 is the file being written, slot `i` the file named `.i`. The
    process may die between any two file operations, or halfway through writing a line. */
module RotatingLog {
  import opened Basics

  const ERROR_LOG_FILES := 3
  const MAX_RECENT := 20

  /** One write to a log; a torn one was cut off by a crash, before its end of line, and does not parse. */
  datatype Line = Line(entry: nat, size: nat, torn: bool)

  type Files = map<nat, seq<Line>>

  function Slot(files: Files, i: nat): seq<Line> {
    if i in files then files[i] else []
  }

  function Size(lines: seq<Line>): nat {
    if lines == [] then 0 else Size(lines[..|lines| - 1]) + lines[|lines| - 1].size
  }

  /** The sum of the sizes, from the first line on. */
  ghost function SizeOf(lines: seq<Line>): nat {
    if lines == [] then 0 else lines[0].size + SizeOf(lines[1..])
  }

  lemma {:induction false} SizeIsSum(lines: seq<Line>)
    ensures Size(lines) == SizeOf(lines)
  {
    if |lines| == 1 {
      assert lines[..0] == [] && lines[1..] == [];
    } else if lines != [] {
      var n := |lines| - 1;
      SizeIsSum(lines[..n]);
      SizeIsSum(lines[1..]);
      SizeIsSum(lines[1..n]);
      assert lines[..n][1..] == lines[1..n] == lines[1..][..n - 1];
    }
  }

  /** The first `n` slots, oldest line first. */
  function Retained(files: Files, n: nat): seq<Line> {
    if n == 0 then [] else Slot(files, n - 1) + Retained(files, n - 1)
  }

  function Unlink(files: Files, i: nat): Files {
    files - {i}
  }

  /** Renaming a missing file is ignored. */
  function Rename(files: Files, source: nat, destination: nat): Files {
    if source in files then (files - {source})[destination := files[source]] else files
  }

  ghost predicate SuffixOf(tail: seq<Line>, all: seq<Line>) {
    |tail| <= |all| && all[|all| - |tail|..] == tail
  }

  // ---------------------------------------------------------------- file operations and what is retained

  lemma {:induction false} RetainedOutside(files: Files, other: Files, n: nat)
    requires forall i :: 0 <= i < n ==> Slot(files, i) == Slot(other, i)
    ensures Retained(files, n) == Retained(other, n)
  {
    if n > 0 {
      RetainedOutside(files, other, n - 1);
    }
  }

  lemma RetainedTopTwo(files: Files, i: nat)
    requires i > 0
    ensures Retained(files, i + 1) == Slot(files, i) + (Slot(files, i - 1) + Retained(files, i - 1))
  {
    assert Retained(files, i) == Slot(files, i - 1) + Retained(files, i - 1);
  }

  lemma EmptyMovesOver(a: seq<Line>, rest: seq<Line>)
    ensures a + ([] + rest) == [] + (a + rest)
  {
  }

  lemma SlotsAfterRename(files: Files, i: nat, j: nat)
    requires i > 0 && i !in files
    ensures Slot(Rename(files, i - 1, i), j) ==
            if j == i then Slot(files, i - 1) else if j == i - 1 then [] else Slot(files, j)
  {
  }

  lemma RenameTopKeepsRetained(files: Files, i: nat)
    requires i > 0 && i !in files
    ensures Retained(Rename(files, i - 1, i), i + 1) == Retained(files, i + 1)
  {
    var moved := Rename(files, i - 1, i);
    forall j | 0 <= j < i - 1 ensures Slot(moved, j) == Slot(files, j) {
      SlotsAfterRename(files, i, j);
    }
    RetainedOutside(moved, files, i - 1);
    SlotsAfterRename(files, i, i);
    SlotsAfterRename(files, i, i - 1);
    RetainedTopTwo(moved, i);
    RetainedTopTwo(files, i);
    EmptyMovesOver(Slot(files, i - 1), Retained(files, i - 1));
  }

  /** Moving a file into the empty slot behind it changes nothing that is retained. */
  lemma {:induction false} RenameKeepsRetained(files: Files, i: nat, n: nat)
    requires 0 < i < n && i !in files
    ensures Retained(Rename(files, i - 1, i), n) == Retained(files, n)
  {
    if i == n - 1 {
      RenameTopKeepsRetained(files, i);
    } else {
      RenameKeepsRetained(files, i, n - 1);
      SlotsAfterRename(files, i, n - 1);
    }
  }

  lemma UnlinkOldest(files: Files, n: nat)
    requires n > 0
    ensures SuffixOf(Retained(Unlink(files, n - 1), n), Retained(files, n))
    ensures Retained(Unlink(files, n - 1), n) == Retained(files, n - 1)
  {
    RetainedOutside(Unlink(files, n - 1), files, n - 1);
  }

  lemma SuffixTransitive(a: seq<Line>, b: seq<Line>, c: seq<Line>)
    requires SuffixOf(a, b) && SuffixOf(b, c)
    ensures SuffixOf(a, c)
  {
  }

  /** Writing to slot 0 adds at the newest end. */
  lemma {:induction false} AppendRetained(files: Files, line: Line, n: nat)
    requires n > 0
    ensures Retained(files[0 := Slot(files, 0) + [line]], n) == Retained(files, n) + [line]
  {
    var written := files[0 := Slot(files, 0) + [line]];
    if n > 1 {
      AppendRetained(files, line, n - 1);
      assert Slot(written, n - 1) == Slot(files, n - 1);
    } else {
      assert Retained(written, 1) == Slot(written, 0) + Retained(written, 0);
      assert Retained(files, 1) == Slot(files, 0) + Retained(files, 0);
    }
  }

  /** Within the limit, or a single line that alone exceeds it. */
  predicate Fits(lines: seq<Line>, maxBytes: nat) {
    Size(lines) <= maxBytes || |lines| == 1
  }

  predicate AllWithin(files: Files, maxBytes: nat) {
    forall i :: i in files ==> Size(files[i]) <= maxBytes
  }

  /** Every file fits, and together they hold the newest part of everything written. */
  ghost predicate Sound(files: Files, written: seq<Line>, n: nat, maxBytes: nat) {
    && (forall i :: i in files ==> i < n && Fits(files[i], maxBytes))
    && SuffixOf(Retained(files, n), written)
  }

  lemma UnlinkKeepsSound(files: Files, i: nat, written: seq<Line>, n: nat, maxBytes: nat)
    requires Sound(files, written, n, maxBytes) && n > 0
    requires i == n - 1 || i !in files
    ensures Sound(Unlink(files, i), written, n, maxBytes)
    ensures i > 0 && Slot(files, 0) != [] ==> Slot(Unlink(files, i), 0) != []
    ensures AllWithin(files, maxBytes) ==> AllWithin(Unlink(files, i), maxBytes)
  {
    if i in files {
      UnlinkOldest(files, n);
      SuffixTransitive(Retained(Unlink(files, i), n), Retained(files, n), written);
    } else {
      assert Unlink(files, i) == files;
    }
  }

  lemma RenameKeepsSound(files: Files, i: nat, written: seq<Line>, n: nat, maxBytes: nat)
    requires Sound(files, written, n, maxBytes) && 0 < i < n && i !in files
    ensures Sound(Rename(files, i - 1, i), written, n, maxBytes)
    ensures Retained(Rename(files, i - 1, i), n) == Retained(files, n)
    ensures i - 1 !in Rename(files, i - 1, i)
    ensures AllWithin(files, maxBytes) ==> AllWithin(Rename(files, i - 1, i), maxBytes)
    ensures i > 1 ==> Slot(Rename(files, i - 1, i), 0) == Slot(files, 0)
  {
    RenameKeepsRetained(files, i, n);
  }

  lemma AppendKeepsSound(files: Files, line: Line, written: seq<Line>, n: nat, maxBytes: nat)
    requires Sound(files, written, n, maxBytes) && n > 0
    requires Size(Slot(files, 0)) + line.size <= maxBytes || Slot(files, 0) == []
    ensures Sound(files[0 := Slot(files, 0) + [line]], written + [line], n, maxBytes)
  {
    AppendRetained(files, line, n);
    assert (Slot(files, 0) + [line])[..|Slot(files, 0)|] == Slot(files, 0);
  }

  lemma {:induction false} NewestSlotIsRetained(files: Files, n: nat)
    requires n > 0 && Slot(files, 0) != []
    ensures Retained(files, n) != []
    ensures Retained(files, n)[|Retained(files, n)| - 1] == Slot(files, 0)[|Slot(files, 0)| - 1]
  {
    if n > 1 {
      NewestSlotIsRetained(files, n - 1);
    } else {
      assert Retained(files, 1) == Slot(files, 0) + Retained(files, 0);
    }
  }

  lemma SlotZeroIsRetained(files: Files, n: nat)
    requires n > 0
    ensures Slot(files, 0) != [] ==> Retained(files, n) != []
  {
    if Slot(files, 0) != [] {
      NewestSlotIsRetained(files, n);
    }
  }

  lemma LastRetainedIsNewest(retained: seq<Line>, written: seq<Line>)
    requires SuffixOf(retained, written) && retained != []
    ensures written != [] && EndsWith(retained, written[|written| - 1])
  {
  }

  /** Writing to the first file moves none of the others. */
  lemma ShiftedStays(before: Files, room: Files, lines: seq<Line>, maxFiles: nat)
    requires SizeBoundedLog.Shifted(before, room, 0, maxFiles)
    ensures SizeBoundedLog.Shifted(before, room[0 := lines], 0, maxFiles)
  {
    var written := room[0 := lines];
    forall j | 0 < j < maxFiles ensures Slot(written, j) == Slot(before, j - 1) {
      assert Slot(room, j) == Slot(before, j - 1);
    }
  }

  lemma {:induction false} NothingRetained(n: nat)
    ensures Retained(map[], n) == []
  {
    if n > 0 {
      NothingRetained(n - 1);
    }
  }

  // ---------------------------------------------------------------- the log

  /** Where an append is cut short: after so many file operations of the rotation, or while writing the line. */
  datatype Crash = NoCrash | DiesAfter(operations: nat) | TearsLine(bytes: nat)

  class SizeBoundedLog {
    const maxBytes: nat
    const maxFiles: nat
    /** Whether each write starts with an end of line of its own: the diagnostics log does, the recovery log does not. */
    const separated: bool
    var files: Files
    /** Every line ever written, whole or torn. */
    ghost var written: seq<Line>

    ghost predicate Valid()
      reads this
    {
      maxFiles > 0 && Sound(files, written, maxFiles, maxBytes)
    }

    /** The newest line ever written is the last one retained. */
    ghost predicate KeepsNewest()
      reads this
    {
      written != [] ==> EndsWith(Retained(files, maxFiles), written[|written| - 1])
    }

    /** No file exceeds the limit. */
    ghost predicate WithinLimit()
      reads this
    {
      AllWithin(files, maxBytes)
    }

    constructor (maxBytes: nat, maxFiles: int, separated: bool)
      ensures Valid() && KeepsNewest() && WithinLimit() && written == [] && files == map[]
      ensures this.maxBytes == maxBytes && this.maxFiles == if maxFiles < 1 then 1 else maxFiles
      ensures this.separated == separated
    {
      this.maxBytes := maxBytes;
      this.separated := separated;
      this.maxFiles := if maxFiles < 1 then 1 else maxFiles;
      files, written := map[], [];
      new;
      NothingRetained(this.maxFiles);
    }

    /** The files behind `index` are those one slot further up before. */
    static ghost predicate Shifted(before: Files, after: Files, index: nat, maxFiles: nat) {
      forall j :: index < j < maxFiles ==> Slot(after, j) == Slot(before, j - 1)
    }

    /** The files in front of `index` are as before. */
    static ghost predicate Untouched(before: Files, after: Files, index: nat) {
      forall j :: 0 <= j < index ==> Slot(after, j) == Slot(before, j)
    }

    /** Shifts every file one slot back, dropping the oldest, with at most `operations` file operations before the
        process dies. */
    method Rotate(operations: nat) returns (died: bool)
      requires Valid()
      modifies this`files
      ensures Valid() && (old(WithinLimit()) ==> WithinLimit())
      ensures maxFiles > 1 && old(Slot(files, 0)) != [] ==> KeepsNewest()
      ensures !died ==> 0 !in files
      ensures operations > 2 * maxFiles ==> !died
      ensures !died ==> Shifted(old(files), files, 0, maxFiles)
    {
      if maxFiles == 1 {
        died := operations == 0;
        if !died {
          UnlinkKeepsSound(files, 0, written, maxFiles, maxBytes);
          files := Unlink(files, 0);
        }
      } else {
        ghost var writing := Slot(files, 0) != [];
        died := ShiftAll(operations);
        if writing {
          LastRetainedIsNewest(Retained(files, maxFiles), written);
        }
      }
    }

    /** From the oldest file to the one being written; the process dies before the last operation or not at all. */
    method ShiftAll(operations: nat) returns (died: bool)
      requires Valid() && maxFiles > 1
      modifies this`files
      ensures Valid() && (old(WithinLimit()) ==> WithinLimit())
      ensures old(Slot(files, 0)) != [] ==> Retained(files, maxFiles) != []
      ensures !died ==> 0 !in files && Shifted(old(files), files, 0, maxFiles)
      ensures died <==> operations <= 2 * (maxFiles - 1)
    {
      ghost var writing := Slot(files, 0) != [];
      SlotZeroIsRetained(files, maxFiles);
      var left := operations;
      var index := maxFiles - 1;
      while index >= 1
        invariant 0 <= index <= maxFiles - 1
        invariant left == operations - 2 * (maxFiles - 1 - index)
        invariant Valid() && (old(WithinLimit()) ==> WithinLimit())
        invariant writing ==> Retained(files, maxFiles) != [] && (index >= 1 ==> Slot(files, 0) != [])
        invariant index < maxFiles - 1 ==> index !in files
        invariant Shifted(old(files), files, index, maxFiles)
        invariant Untouched(old(files), files, if index == maxFiles - 1 then maxFiles else index)
      {
        died := ShiftInto(index, left);
        if died {
          return;
        }
        index := index - 1;
        left := left - 2;
      }
      died := left == 0;
    }

    /** The file in the slot before replaces whatever is left in slot `index`. */
    method ShiftInto(index: nat, left: nat) returns (died: bool)
      requires Valid() && 0 < index < maxFiles
      requires index < maxFiles - 1 ==> index !in files
      modifies this`files
      ensures Valid() && (old(WithinLimit()) ==> WithinLimit())
      ensures died <==> left < 2
      ensures !died ==> index - 1 !in files
      ensures !died ==> Slot(files, index) == Slot(old(files), index - 1)
      ensures !died ==> forall j :: j != index && j != index - 1 ==> Slot(files, j) == Slot(old(files), j)
      ensures old(Slot(files, 0)) != [] ==>
                Retained(files, maxFiles) != [] && (!died && index > 1 ==> Slot(files, 0) != [])
    {
      SlotZeroIsRetained(files, maxFiles);
      if left == 0 {
        return true;
      }
      UnlinkKeepsSound(files, index, written, maxFiles, maxBytes);
      files := Unlink(files, index);
      SlotZeroIsRetained(files, maxFiles);
      died := left == 1;
      if !died {
        MoveInto(index);
      }
    }

    method MoveInto(index: nat)
      requires Valid() && 0 < index < maxFiles && index !in files
      modifies this`files
      ensures Valid() && (old(WithinLimit()) ==> WithinLimit()) && index - 1 !in files
      ensures Retained(files, maxFiles) == Retained(old(files), maxFiles)
      ensures index > 1 ==> Slot(files, 0) == Slot(old(files), 0)
      ensures Slot(files, index) == Slot(old(files), index - 1)
      ensures forall j :: j != index && j != index - 1 ==> Slot(files, j) == Slot(old(files), j)
    {
      RenameKeepsSound(files, index, written, maxFiles, maxBytes);
      files := Rename(files, index - 1, index);
    }

    /** Rotates first when the line does not fit; then writes it, perhaps only in part. A line that could never fit is
        written all the same, into a file of its own. A crash can lose the newest line only where one file is all there
        is, or where such a line makes the files rotate although nothing is being written to. */
    method AppendRaw(line: Line, crash: Crash) returns (completed: bool)
      requires Valid() && !line.torn && (crash.TearsLine? ==> crash.bytes <= line.size)
      modifies this
      ensures Valid() && (old(WithinLimit()) && line.size <= maxBytes ==> WithinLimit())
      ensures completed ==> KeepsNewest()
      ensures maxFiles > 1 && old(KeepsNewest()) && (line.size <= maxBytes || old(Slot(files, 0)) != []) ==>
                KeepsNewest()
      ensures crash.NoCrash? ==> completed
      ensures completed ==> written == old(written) + [line] && EndsWith(Retained(files, maxFiles), line)
      ensures completed ==>
                if SizeOf(old(Slot(files, 0))) + line.size <= maxBytes then
                  files == old(files)[0 := old(Slot(files, 0)) + [line]]
                else Slot(files, 0) == [line] && Shifted(old(files), files, 0, maxFiles)
      ensures completed ==>
                (LastIsReadable(Slot(files, 0), separated) <==>
                 separated || EndsCleanly(old(Slot(files, 0))) || Size(old(Slot(files, 0))) + line.size > maxBytes)
      ensures !completed && !crash.TearsLine? ==> written == old(written)
      ensures !completed && crash.TearsLine? ==> written == old(written) + [Line(line.entry, crash.bytes, true)]
    {
      var died := MakeRoom(line.size, crash);
      if died {
        return false;
      }
      if SizeOf(old(Slot(files, 0))) + line.size > maxBytes {
        ShiftedStays(old(files), files, [line], maxFiles);
      }
      var stored := if crash.TearsLine? then Line(line.entry, crash.bytes, true) else line;
      completed := !crash.TearsLine?;
      Write(stored);
    }

    /** Rotates when so many bytes do not fit. */
    method MakeRoom(size: nat, crash: Crash) returns (died: bool)
      requires Valid()
      modifies this`files
      ensures Valid() && (old(WithinLimit()) ==> WithinLimit())
      ensures died ==> crash.DiesAfter?
      ensures maxFiles > 1 && old(KeepsNewest()) && (size <= maxBytes || old(Slot(files, 0)) != []) ==> KeepsNewest()
      ensures !died ==> if SizeOf(old(Slot(files, 0))) + size <= maxBytes then files == old(files)
                        else 0 !in files && Shifted(old(files), files, 0, maxFiles)
      ensures !died ==> Size(Slot(files, 0)) + size <= maxBytes || Slot(files, 0) == []
      ensures SizeOf(old(Slot(files, 0))) == Size(old(Slot(files, 0)))
    {
      SizeIsSum(Slot(files, 0));
      if Size(Slot(files, 0)) + size > maxBytes {
        died := Rotate(if crash.DiesAfter? then crash.operations else 2 * maxFiles + 1);
        died := died && crash.DiesAfter?;
      } else {
        died := crash == DiesAfter(0);
      }
    }

    method Write(stored: Line)
      requires Valid() && (Size(Slot(files, 0)) + stored.size <= maxBytes || Slot(files, 0) == [])
      modifies this
      ensures Valid() && KeepsNewest() && written == old(written) + [stored]
      ensures EndsWith(Retained(files, maxFiles), stored)
      ensures files == old(files)[0 := old(Slot(files, 0)) + [stored]]
      ensures old(WithinLimit()) && stored.size <= maxBytes ==> WithinLimit()
    {
      AppendKeepsSound(files, stored, written, maxFiles, maxBytes);
      AppendRetained(files, stored, maxFiles);
      assert (Slot(files, 0) + [stored])[..|Slot(files, 0)|] == Slot(files, 0);
      files := files[0 := Slot(files, 0) + [stored]];
      written := written + [stored];
    }

    /** The diagnostics log refuses a line that could never fit. */
    method Append(line: Line, crash: Crash) returns (result: Option<bool>)
      requires Valid() && !line.torn && (crash.TearsLine? ==> crash.bytes <= line.size)
      modifies this
      ensures Valid() && (maxFiles > 1 && old(KeepsNewest()) ==> KeepsNewest())
      ensures old(WithinLimit()) ==> WithinLimit()
      ensures result.None? <==> line.size > maxBytes
      ensures result.None? ==> files == old(files) && written == old(written)
      ensures result == Some(true) ==> written == old(written) + [line] && EndsWith(Retained(files, maxFiles), line)
    {
      if line.size > maxBytes {
        return None;
      }
      var completed := AppendRaw(line, crash);
      result := Some(completed);
    }

    /** The newest whole lines across the files, newest first, at most twenty. */
    method Recent() returns (events: seq<Line>)
      requires Valid() && separated && maxFiles == 3 && maxBytes <= 1_048_576
      requires WithinLimit()
      ensures events == Newest(Retained(files, 3), 20) && |events| <= 20
    {
      events := [];
      var index := 0;
      assert NewestFirst([]) == [];
      while index < ERROR_LOG_FILES && |events| < MAX_RECENT
        invariant 0 <= index <= ERROR_LOG_FILES
        invariant events == Newest(Retained(files, index), MAX_RECENT)
      {
        var lines := Slot(files, index);
        ghost var before := events;
        var left := |lines|;
        while left > 0 && |events| < MAX_RECENT
          invariant 0 <= left <= |lines|
          invariant events == before + NewestFirst(lines[left..]) && |events| <= MAX_RECENT
        {
          left := left - 1;
          NewestFirstMore(lines, left);
          if !lines[left].torn {
            events := events + [lines[left]];
          }
        }
        NewestOfMore(Retained(files, index), lines, left, before, events);
        index := index + 1;
      }
      NewestIsEnough(files, index, maxFiles);
    }
  }

  // ---------------------------------------------------------------- reading back

  predicate IsWhole(line: Line) {
    !line.torn
  }

  function Reversed(lines: seq<Line>): (r: seq<Line>)
    ensures |r| == |lines|
  {
    seq(|lines|, i requires 0 <= i < |lines| => lines[|lines| - 1 - i])
  }

  function NewestFirst(lines: seq<Line>): seq<Line> {
    Filter(IsWhole, Reversed(lines))
  }

  function Newest(lines: seq<Line>, n: nat): seq<Line> {
    if |NewestFirst(lines)| <= n then NewestFirst(lines) else NewestFirst(lines)[..n]
  }

  lemma NewestFirstAppend(older: seq<Line>, newer: seq<Line>)
    ensures NewestFirst(older + newer) == NewestFirst(newer) + NewestFirst(older)
  {
    assert Reversed(older + newer) == Reversed(newer) + Reversed(older);
    FilterAppend(IsWhole, Reversed(newer), Reversed(older));
  }

  lemma NewestFirstMore(lines: seq<Line>, i: nat)
    requires i < |lines|
    ensures NewestFirst(lines[i..]) == NewestFirst(lines[i + 1..]) + if lines[i].torn then [] else [lines[i]]
  {
    assert lines[i..] == [lines[i]] + lines[i + 1..];
    NewestFirstAppend([lines[i]], lines[i + 1..]);
    assert Reversed([lines[i]]) == [lines[i]];
    FilterOne(IsWhole, [], lines[i]);
    assert [] + [lines[i]] == [lines[i]];
  }

  /** Scanning stops inside a file only when enough was found. */
  lemma NewestOfMore(newer: seq<Line>, lines: seq<Line>, left: nat, before: seq<Line>, events: seq<Line>)
    requires before == Newest(newer, MAX_RECENT) && |before| < MAX_RECENT && left <= |lines|
    requires events == before + NewestFirst(lines[left..]) && |events| <= MAX_RECENT
    requires left == 0 || |events| == MAX_RECENT
    ensures events == Newest(lines + newer, MAX_RECENT)
  {
    NewestFirstAppend(lines, newer);
    assert lines == lines[..left] + lines[left..];
    NewestFirstAppend(lines[..left], lines[left..]);
    assert NewestFirst(lines + newer) == events + NewestFirst(lines[..left]);
    if left == 0 {
      assert NewestFirst([]) == [];
    }
  }

  lemma {:induction false} NewestIsEnough(files: Files, m: nat, n: nat)
    requires m <= n && (m == n || |Newest(Retained(files, m), MAX_RECENT)| == MAX_RECENT)
    ensures Newest(Retained(files, n), MAX_RECENT) == Newest(Retained(files, m), MAX_RECENT)
  {
    if m < n {
      NewestIsEnough(files, m, n - 1);
      NewestFirstAppend(Slot(files, n - 1), Retained(files, n - 1));
    }
  }

  /** In terms of everything ever written, `Recent` returns the newest whole lines, as far as they are retained. */
  lemma RecentIsSuffixOfWritten(retained: seq<Line>, written: seq<Line>)
    requires SuffixOf(retained, written)
    ensures Newest(retained, 20) <= NewestFirst(written)
    ensures |Newest(retained, 20)| ==
            if |Filter(IsWhole, Reversed(retained))| < 20 then |Filter(IsWhole, Reversed(retained))| else 20
  {
    var older := written[..|written| - |retained|];
    assert written == older + retained;
    NewestFirstAppend(older, retained);
  }

  /** Nothing was cut off at the end of the file. */
  predicate EndsCleanly(lines: seq<Line>) {
    lines == [] || !lines[|lines| - 1].torn
  }

  /** The last write stands on a line of its own and is whole. Without separators it continues a torn one before it. */
  predicate LastIsReadable(lines: seq<Line>, separated: bool) {
    lines != [] && !lines[|lines| - 1].torn && (separated || |lines| == 1 || !lines[|lines| - 2].torn)
  }

  /** One whole rotation of three files. */
  function ShiftedThree(files: Files): Files {
    Rename(Unlink(Rename(Unlink(files, 2), 1, 2), 1), 0, 1)
  }

  /** Where an oversized line is tried again and again and the process dies after each rotation, before writing: the
      third rotation drops the newest line. */
  lemma RepeatedCrashesCanLoseNewest(x: Line)
    ensures var twice := ShiftedThree(ShiftedThree(map[0 := [x]]));
            Retained(twice, 3) == [x] && Retained(Unlink(twice, 2), 3) == []
  {
    var once := ShiftedThree(map[0 := [x]]);
    assert once == map[1 := [x]];
    var twice := ShiftedThree(once);
    assert twice == map[2 := [x]];
    assert Retained(twice, 1) == [] && Retained(twice, 2) == [];
    assert Unlink(twice, 2) == map[];
    NothingRetained(3);
  }

  predicate EndsWith(lines: seq<Line>, line: Line) {
    lines != [] && lines[|lines| - 1] == line
  }
}
