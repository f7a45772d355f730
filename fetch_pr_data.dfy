/** The pure part of preparing a pull request for indexing: each file's unified diff is split
    into hunks, each file gets a change summary, and the pull request gets totals. */
module FetchPrData {
  import opened Common

  // ===========================================================================
  // Lines and hunks

  /** `s.split('\n')`. */
  function SplitLines(s: string): (r: seq<string>)
    ensures |r| >= 1
    ensures forall k :: 0 <= k < |r| ==> '\n' !in r[k]
    decreases |s|
  {
    var i := Find(s, '\n');
    if i < 0 then [s]
    else
      var rest := SplitLines(s[i + 1..]);
      assert forall k :: 1 <= k < |[s[..i]] + rest| ==> ([s[..i]] + rest)[k] == rest[k - 1];
      [s[..i]] + rest
  }

  /** Joining the lines with "\n" gives the text back. */
  lemma {:induction false} JoinSplitLines(s: string)
    ensures Join("\n", SplitLines(s)) == s
    decreases |s|
  {
    var i := Find(s, '\n');
    if i >= 0 {
      var rest := SplitLines(s[i + 1..]);
      JoinSplitLines(s[i + 1..]);
      assert ([s[..i]] + rest)[1..] == rest;
      assert s == s[..i] + "\n" + s[i + 1..];
    }
  }

  /** Splitting lines joined with "\n" gives the lines back, when none holds a line break. */
  lemma {:induction false} SplitJoinLines(lines: seq<string>)
    requires lines != []
    requires forall k :: 0 <= k < |lines| ==> '\n' !in lines[k]
    ensures SplitLines(Join("\n", lines)) == lines
    decreases |lines|
  {
    if |lines| > 1 {
      var text := Join("\n", lines);
      var tail := Join("\n", lines[1..]);
      assert text == lines[0] + "\n" + tail;
      SplitAtFirstBreak(lines[0], tail);
      SplitJoinLines(lines[1..]);
      assert lines == [lines[0]] + lines[1..];
    } else {
      assert Join("\n", lines) == lines[0];
      assert Find(lines[0], '\n') == -1;
    }
  }

  /** A line without a break, a break and a text split into that line and the text's lines. */
  lemma SplitAtFirstBreak(line: string, tail: string)
    requires '\n' !in line
    ensures SplitLines(line + "\n" + tail) == [line] + SplitLines(tail)
  {
    var text := line + "\n" + tail;
    assert text[|line|] == '\n';
    assert forall k :: 0 <= k < |line| ==> text[k] == line[k];
    assert Find(text, '\n') == |line|;
    assert text[..|line|] == line;
    assert text[|line| + 1..] == tail;
  }

  /** One line of the diff added to the groups so far: a line starting with "@@" opens a new
      group, unless it is the very first line; every other line joins the current group. */
  function AddLine(groups: seq<seq<string>>, line: string): seq<seq<string>>
  {
    if groups == [] || StartsWith(line, "@@") then groups + [[line]]
    else groups[..|groups| - 1] + [groups[|groups| - 1] + [line]]
  }

  /** The hunks of a diff as groups of lines. */
  function Hunks(lines: seq<string>): seq<seq<string>>
    decreases |lines|
  {
    if lines == [] then [] else AddLine(Hunks(lines[..|lines| - 1]), lines[|lines| - 1])
  }

  /** The concatenation of groups of lines. */
  function Flatten(groups: seq<seq<string>>): seq<string>
  {
    if groups == [] then [] else Flatten(groups[..|groups| - 1]) + groups[|groups| - 1]
  }

  /** The shape of a grouping: non-empty groups, where exactly the groups after the first start
      with a "@@" line and no other line of a group does. */
  predicate HunkShaped(groups: seq<seq<string>>)
  {
    && (forall k :: 0 <= k < |groups| ==> groups[k] != [])
    && (forall k :: 1 <= k < |groups| ==> StartsWith(groups[k][0], "@@"))
    && (forall k, j :: 0 <= k < |groups| && 1 <= j < |groups[k]| ==> !StartsWith(groups[k][j], "@@"))
  }

  /** One more line extends the grouping of the lines before it. */
  lemma HunksSnoc(lines: seq<string>, line: string)
    ensures Hunks(lines + [line]) == AddLine(Hunks(lines), line)
  {
    assert (lines + [line])[..|lines|] == lines;
  }

  /** The grouping is a partition of the lines, in order. */
  lemma {:induction false} HunksFlatten(lines: seq<string>)
    ensures Flatten(Hunks(lines)) == lines
    ensures Hunks(lines) == [] <==> lines == []
    decreases |lines|
  {
    if lines != [] {
      var init := lines[..|lines| - 1];
      var line := lines[|lines| - 1];
      HunksFlatten(init);
      assert lines == init + [line];
      HunksSnoc(init, line);
      var before := Hunks(init);
      var groups := Hunks(lines);
      if before == [] || StartsWith(line, "@@") {
        assert groups == before + [[line]];
        assert groups[..|groups| - 1] == before;
      } else {
        var m := |before| - 1;
        assert groups == before[..m] + [before[m] + [line]];
        assert groups[..m] == before[..m];
        assert Flatten(before) == Flatten(before[..m]) + before[m];
      }
    }
  }

  /** Adding a line keeps the groups hunk-shaped. */
  lemma AddLineShaped(groups: seq<seq<string>>, line: string)
    requires HunkShaped(groups)
    ensures HunkShaped(AddLine(groups, line))
  {
    var next := AddLine(groups, line);
    if groups == [] || StartsWith(line, "@@") {
      assert next == groups + [[line]];
      forall k | 0 <= k < |next|
        ensures next[k] != []
        ensures 1 <= k ==> StartsWith(next[k][0], "@@")
        ensures forall j :: 1 <= j < |next[k]| ==> !StartsWith(next[k][j], "@@")
      {
        if k < |groups| {
          assert next[k] == groups[k];
        } else {
          assert next[k] == [line];
        }
      }
    } else {
      var m := |groups| - 1;
      assert next == groups[..m] + [groups[m] + [line]];
      forall k | 0 <= k < |next|
        ensures next[k] != []
        ensures 1 <= k ==> StartsWith(next[k][0], "@@")
        ensures forall j :: 1 <= j < |next[k]| ==> !StartsWith(next[k][j], "@@")
      {
        if k < m {
          assert next[k] == groups[k];
        } else {
          assert next[k] == groups[m] + [line];
          forall j | 1 <= j < |next[k]|
            ensures !StartsWith(next[k][j], "@@")
          {
            if j < |groups[m]| {
              assert next[k][j] == groups[m][j];
            }
          }
        }
      }
    }
  }

  /** The groups are hunk-shaped. */
  lemma {:induction false} HunksShape(lines: seq<string>)
    ensures HunkShaped(Hunks(lines))
    decreases |lines|
  {
    if lines != [] {
      HunksShape(lines[..|lines| - 1]);
      AddLineShaped(Hunks(lines[..|lines| - 1]), lines[|lines| - 1]);
    }
  }

  /** The grouping is a partition of the lines, in order, into hunk-shaped groups. */
  lemma HunksPartition(lines: seq<string>)
    ensures Flatten(Hunks(lines)) == lines
    ensures Hunks(lines) == [] <==> lines == []
    ensures HunkShaped(Hunks(lines))
  {
    HunksFlatten(lines);
    HunksShape(lines);
  }

  /** Each group joined back into one text. */
  function JoinGroups(groups: seq<seq<string>>): (r: seq<string>)
    ensures |r| == |groups| && forall k :: 0 <= k < |groups| ==> r[k] == Join("\n", groups[k])
  {
    seq(|groups|, k requires 0 <= k < |groups| => Join("\n", groups[k]))
  }

  lemma JoinGroupsSnoc(groups: seq<seq<string>>, group: seq<string>)
    ensures JoinGroups(groups + [group]) == JoinGroups(groups) + [Join("\n", group)]
  {
  }

  /** The diff chunks of a file's diff. */
  function Chunks(diff: string): seq<string>
  {
    JoinGroups(Hunks(SplitLines(diff)))
  }

  lemma {:induction false} JoinConcat(sep: string, a: seq<string>, b: seq<string>)
    requires a != [] && b != []
    ensures Join(sep, a + b) == Join(sep, a) + sep + Join(sep, b)
    decreases |b|
  {
    if |b| == 1 {
      assert b == [b[0]];
      JoinAppend(sep, a, b[0]);
    } else {
      var init := b[..|b| - 1];
      JoinConcat(sep, a, init);
      assert a + b == (a + init) + [b[|b| - 1]];
      assert b == init + [b[|b| - 1]];
      JoinAppend(sep, a + init, b[|b| - 1]);
      JoinAppend(sep, init, b[|b| - 1]);
    }
  }

  lemma JoinStartsWithFirst(sep: string, parts: seq<string>)
    requires parts != []
    ensures StartsWith(Join(sep, parts), parts[0])
  {
  }

  lemma {:induction false} JoinGroupsFlatten(groups: seq<seq<string>>)
    requires forall k :: 0 <= k < |groups| ==> groups[k] != []
    ensures Join("\n", JoinGroups(groups)) == Join("\n", Flatten(groups))
    decreases |groups|
  {
    if groups != [] {
      var init := groups[..|groups| - 1];
      var last := groups[|groups| - 1];
      JoinGroupsFlatten(init);
      assert JoinGroups(groups) == JoinGroups(init) + [Join("\n", last)];
      if init == [] {
        assert Flatten(groups) == last;
      } else {
        JoinAppend("\n", JoinGroups(init), Join("\n", last));
        assert Flatten(init) == Flatten(init[..|init| - 1]) + init[|init| - 1];
        JoinConcat("\n", Flatten(init), last);
      }
    }
  }

  /** Joining the chunks with "\n" reproduces the diff exactly; there is at least one chunk;
      every chunk after the first starts with "@@". */
  lemma ChunksReassemble(diff: string)
    ensures Join("\n", Chunks(diff)) == diff
    ensures |Chunks(diff)| >= 1
    ensures forall k :: 1 <= k < |Chunks(diff)| ==> StartsWith(Chunks(diff)[k], "@@")
  {
    var groups := Hunks(SplitLines(diff));
    HunksPartition(SplitLines(diff));
    JoinGroupsFlatten(groups);
    JoinSplitLines(diff);
    forall k | 1 <= k < |groups|
      ensures StartsWith(Chunks(diff)[k], "@@")
    {
      JoinStartsWithFirst("\n", groups[k]);
    }
  }

  /** The hunk splitting loop of `process_pr_data`. */
  method ChunkDiff(diff: string) returns (chunks: seq<string>)
    ensures chunks == Chunks(diff)
  {
    var lines := SplitLines(diff);
    chunks := [];
    var current: seq<string> := [];
    ghost var closed: seq<seq<string>> := [];
    var i := 0;
    while i < |lines|
      invariant 0 <= i <= |lines|
      invariant current == [] <==> i == 0
      invariant i == 0 ==> closed == []
      invariant Hunks(lines[..i]) == closed + (if current == [] then [] else [current])
      invariant chunks == JoinGroups(closed)
    {
      var line := lines[i];
      assert lines[..i + 1] == lines[..i] + [line];
      HunksSnoc(lines[..i], line);
      ghost var before := Hunks(lines[..i]);
      if StartsWith(line, "@@") && current != [] {
        assert before == closed + [current];
        assert AddLine(before, line) == before + [[line]];
        JoinGroupsSnoc(closed, current);
        chunks := chunks + [Join("\n", current)];
        closed := closed + [current];
        current := [line];
      } else if current == [] {
        assert before == [];
        assert AddLine(before, line) == [[line]];
        current := [line];
      } else {
        assert before == closed + [current];
        assert before[..|before| - 1] == closed;
        assert AddLine(before, line) == closed + [current + [line]];
        current := current + [line];
      }
      i := i + 1;
    }
    assert lines[..i] == lines;
    JoinGroupsSnoc(closed, current);
    chunks := chunks + [Join("\n", current)];
    closed := closed + [current];
  }

  // ===========================================================================
  // Files

  /** A changed file as the pull-request files listing describes it; a missing count or status
      is a missing key. */
  datatype PrFile = PrFile(filename: string, additions: Option<int>, deletions: Option<int>, status: Option<string>)

  datatype FileSummary = FileSummary(totalChanges: int, additions: int, deletions: int, fileType: string, status: string)

  datatype ProcessedFile = ProcessedFile(filename: string, summary: FileSummary, diffChunks: seq<string>, fullDiff: string)

  /** `path[i]` is the last '.' of the path, no '/' follows it, and the last path component
      has a character other than '.' before it. */
  predicate ExtensionDot(path: string, i: int)
  {
    && 0 <= i < |path| && path[i] == '.'
    && (forall j :: i < j < |path| ==> path[j] != '.' && path[j] != '/')
    && exists k :: 0 <= k < i && path[k] != '.' && path[k] != '/' && forall j :: k < j < i ==> path[j] != '/'
  }

  /** `os.path.splitext(path)[1]`: from the last '.' of the last path component, when that
      component has something other than dots before it; otherwise empty. */
  function Extension(path: string): (r: string)
    ensures r != "" ==> r[0] == '.' && EndsWith(path, r) && '/' !in r && '.' !in r[1..]
    ensures r != "" ==> ExtensionDot(path, |path| - |r|)
    ensures forall i :: ExtensionDot(path, i) ==> r == path[i..]
    ensures '.' !in path ==> r == ""
  {
    var sep := RFind(path, '/');
    var dot := RFind(path, '.');
    ExtensionDotIsLast(path);
    if dot > sep && exists k :: sep < k < dot && path[k] != '.' then
      var ext := path[dot..];
      assert forall j :: 0 <= j < |ext| ==> ext[j] == path[dot + j];
      assert forall j :: 1 <= j < |ext| ==> ext[j] != '.';
      assert ExtensionDot(path, dot);
      ext
    else ""
  }

  /** A dot that starts an extension is the last '.' of the path, after its last '/', with a
      character other than '.' between them. */
  lemma ExtensionDotIsLast(path: string)
    ensures forall i :: ExtensionDot(path, i) ==>
      && i == RFind(path, '.') && RFind(path, '/') < i
      && exists k :: RFind(path, '/') < k < i && path[k] != '.'
  {
    forall i | ExtensionDot(path, i)
      ensures i == RFind(path, '.') && RFind(path, '/') < i
      ensures exists k :: RFind(path, '/') < k < i && path[k] != '.'
    {
      var k :| 0 <= k < i && path[k] != '.' && path[k] != '/' && forall j :: k < j < i ==> path[j] != '/';
      assert RFind(path, '/') < k;
    }
  }

  /** One file of the loop: its diff (empty when none was fetched) and its summary; a file
      whose counts or status are missing is skipped. */
  function ProcessFile(file: PrFile, diffs: map<string, string>): (r: Option<ProcessedFile>)
    ensures r.Some? <==> file.additions.Some? && file.deletions.Some? && file.status.Some?
    ensures r.Some? ==>
      && r.value.filename == file.filename
      && r.value.fullDiff == (if file.filename in diffs then diffs[file.filename] else "")
      && r.value.diffChunks == Chunks(r.value.fullDiff)
      && r.value.summary.totalChanges == r.value.summary.additions + r.value.summary.deletions
      && r.value.summary.additions == file.additions.value
      && r.value.summary.deletions == file.deletions.value
      && r.value.summary.fileType == Extension(file.filename)
      && r.value.summary.status == file.status.value
  {
    var diff := if file.filename in diffs then diffs[file.filename] else "";
    if file.additions.None? || file.deletions.None? || file.status.None? then None
    else
      var summary := FileSummary(file.additions.value + file.deletions.value, file.additions.value,
                                 file.deletions.value, Extension(file.filename), file.status.value);
      Some(ProcessedFile(file.filename, summary, Chunks(diff), diff))
  }

  /** The processed files, in order. */
  function ProcessedFiles(files: seq<PrFile>, diffs: map<string, string>): seq<ProcessedFile>
  {
    if files == [] then []
    else
      var last := ProcessFile(files[|files| - 1], diffs);
      ProcessedFiles(files[..|files| - 1], diffs) + (if last.Some? then [last.value] else [])
  }

  /** Each processed file comes from a listed file, its chunks reassemble its diff, and its
      total is the sum of its counts; when no file is malformed, every file is processed. */
  lemma ProcessedFilesSpec(files: seq<PrFile>, diffs: map<string, string>)
    ensures |ProcessedFiles(files, diffs)| <= |files|
    ensures forall p :: p in ProcessedFiles(files, diffs) ==>
      && (exists k :: 0 <= k < |files| && ProcessFile(files[k], diffs) == Some(p))
      && Join("\n", p.diffChunks) == p.fullDiff
      && p.summary.totalChanges == p.summary.additions + p.summary.deletions
    ensures (forall k :: 0 <= k < |files| ==> ProcessFile(files[k], diffs).Some?) ==>
      |ProcessedFiles(files, diffs)| == |files|
  {
    ProcessedFrom(files, diffs);
    forall p | p in ProcessedFiles(files, diffs)
      ensures Join("\n", p.diffChunks) == p.fullDiff
    {
      ChunksReassemble(p.fullDiff);
    }
  }

  lemma {:induction false} ProcessedFrom(files: seq<PrFile>, diffs: map<string, string>)
    ensures |ProcessedFiles(files, diffs)| <= |files|
    ensures forall p :: p in ProcessedFiles(files, diffs) ==>
      exists k :: 0 <= k < |files| && ProcessFile(files[k], diffs) == Some(p)
    ensures (forall k :: 0 <= k < |files| ==> ProcessFile(files[k], diffs).Some?) ==>
      |ProcessedFiles(files, diffs)| == |files|
    decreases |files|
  {
    if files != [] {
      var init := files[..|files| - 1];
      ProcessedFrom(init, diffs);
      assert forall k :: 0 <= k < |init| ==> init[k] == files[k];
    }
  }

  lemma ProcessedFilesSnoc(files: seq<PrFile>, file: PrFile, diffs: map<string, string>)
    ensures ProcessedFiles(files + [file], diffs)
            == ProcessedFiles(files, diffs)
               + (if ProcessFile(file, diffs).Some? then [ProcessFile(file, diffs).value] else [])
  {
    assert (files + [file])[..|files|] == files;
  }

  /** The file loop of `process_pr_data`. */
  method ProcessFiles(files: seq<PrFile>, diffs: map<string, string>) returns (processed: seq<ProcessedFile>)
    ensures processed == ProcessedFiles(files, diffs)
  {
    processed := [];
    var i := 0;
    while i < |files|
      invariant 0 <= i <= |files|
      invariant processed == ProcessedFiles(files[..i], diffs)
    {
      var file := files[i];
      assert files[..i + 1] == files[..i] + [file];
      ProcessedFilesSnoc(files[..i], file, diffs);
      var diff := if file.filename in diffs then diffs[file.filename] else "";
      var chunks := ChunkDiff(diff);
      if file.additions.Some? && file.deletions.Some? && file.status.Some? {
        var summary := FileSummary(file.additions.value + file.deletions.value, file.additions.value,
                                   file.deletions.value, Extension(file.filename), file.status.value);
        assert ProcessFile(file, diffs) == Some(ProcessedFile(file.filename, summary, chunks, diff));
        processed := processed + [ProcessedFile(file.filename, summary, chunks, diff)];
      }
      i := i + 1;
    }
    assert files[..i] == files;
  }

  // ===========================================================================
  // Pull-request summary

  datatype PrSummary = PrSummary(totalFilesChanged: int, totalAdditions: int, totalDeletions: int,
                                 fileTypes: seq<string>, mainChanges: seq<string>)

  function SumAdditions(files: seq<ProcessedFile>): int
  {
    if files == [] then 0 else SumAdditions(files[..|files| - 1]) + files[|files| - 1].summary.additions
  }

  function SumDeletions(files: seq<ProcessedFile>): int
  {
    if files == [] then 0 else SumDeletions(files[..|files| - 1]) + files[|files| - 1].summary.deletions
  }

  function SumChanges(files: seq<ProcessedFile>): int
  {
    if files == [] then 0 else SumChanges(files[..|files| - 1]) + files[|files| - 1].summary.totalChanges
  }

  function FileTypes(files: seq<ProcessedFile>): (r: seq<string>)
    ensures |r| == |files| && forall k :: 0 <= k < |files| ==> r[k] == files[k].summary.fileType
  {
    seq(|files|, k requires 0 <= k < |files| => files[k].summary.fileType)
  }

  /** The files with more than ten changed lines, in file order. */
  function MainChanges(files: seq<ProcessedFile>): seq<string>
  {
    if files == [] then []
    else
      var last := files[|files| - 1];
      MainChanges(files[..|files| - 1]) + (if last.summary.totalChanges > 10 then [last.filename] else [])
  }

  lemma {:induction false} MainChangesSpec(files: seq<ProcessedFile>)
    ensures |MainChanges(files)| <= |files|
    ensures forall name :: name in MainChanges(files) <==>
      exists k :: 0 <= k < |files| && files[k].filename == name && files[k].summary.totalChanges > 10
    decreases |files|
  {
    if files != [] {
      var init := files[..|files| - 1];
      MainChangesSpec(init);
      assert forall k :: 0 <= k < |init| ==> init[k] == files[k];
    }
  }

  /** The `pr_summary` of `process_pr_data`; the order of `file_types` is that of a set in the
      source and only its elements are specified. */
  function Summarize(files: seq<ProcessedFile>): (r: PrSummary)
    ensures r.totalFilesChanged == |files|
    ensures Distinct(r.fileTypes)
    ensures forall t :: t in r.fileTypes <==> exists k :: 0 <= k < |files| && files[k].summary.fileType == t
  {
    PrSummary(|files|, SumAdditions(files), SumDeletions(files), Dedup(FileTypes(files)), MainChanges(files))
  }

  /** When every file's total is its additions plus its deletions, the pull request's totals
      add up to the sum of the files' totals. */
  lemma {:induction false} TotalsAddUp(files: seq<ProcessedFile>)
    requires forall k :: 0 <= k < |files| ==>
      files[k].summary.totalChanges == files[k].summary.additions + files[k].summary.deletions
    ensures Summarize(files).totalAdditions + Summarize(files).totalDeletions == SumChanges(files)
    decreases |files|
  {
    if files != [] {
      TotalsAddUp(files[..|files| - 1]);
    }
  }

  /** The summary of the processed files of a pull request: one entry per well-formed file and
      totals that add up. */
  lemma PrSummaryOfFiles(files: seq<PrFile>, diffs: map<string, string>)
    ensures var processed := ProcessedFiles(files, diffs);
      && Summarize(processed).totalFilesChanged <= |files|
      && Summarize(processed).totalAdditions + Summarize(processed).totalDeletions == SumChanges(processed)
  {
    var processed := ProcessedFiles(files, diffs);
    ProcessedFilesSpec(files, diffs);
    forall k | 0 <= k < |processed|
      ensures processed[k].summary.totalChanges == processed[k].summary.additions + processed[k].summary.deletions
    {
      assert processed[k] in processed;
    }
    TotalsAddUp(processed);
  }
}
