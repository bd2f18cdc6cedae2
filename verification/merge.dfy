/**
 * create_merged_json.py: every record of every file a pattern matches is
 * stamped with the pattern's source tag, and all records are concatenated
 * in pattern order, then file order, then record order.
 *
 * `glob` and `json.load` are not modelled: a pattern arrives as the list of
 * already-loaded files it matched, in the order `glob` listed them.
 */
module Merge {
  import opened Seqs
  import opened Json

  const SourceKey := "source"

  /** The (pattern, source tag) table, in merge order. */
  const FilePatterns: seq<(string, string)> := [
    ("json_events/actividades.json", "actividad"),
    ("json_events/conferencias.json", "conferencia"),
    ("json_events/exposiciones.json", "exhibicion"),
    ("json_events/planetario.json", "planetario")
  ]

  /** The files one pattern matched, already loaded, and its tag. */
  datatype PatternMatch = PatternMatch(files: seq<seq<Record>>, tag: string)

  /**
   * `item['source'] = source`: the tag is set whether or not the record had
   * a `source` already, and nothing else changes.
   */
  function Stamp(r: Record, tag: string): (s: Record)
    ensures s.Keys == r.Keys + {SourceKey}
    ensures s[SourceKey] == Str(tag)
    ensures forall k :: k in r && k != SourceKey ==> s[k] == r[k]
  {
    r[SourceKey := Str(tag)]
  }

  /** Stamping twice keeps only the last tag. */
  lemma StampOverwrites(r: Record, t1: string, t2: string)
    ensures Stamp(Stamp(r, t1), t2) == Stamp(r, t2)
  {
  }

  /** The inner `for item in data` loop over one file. */
  function StampFile(data: seq<Record>, tag: string): (out: seq<Record>)
    ensures |out| == |data|
    ensures forall i :: 0 <= i < |data| ==> out[i] == Stamp(data[i], tag)
  {
    seq(|data|, i requires 0 <= i < |data| => Stamp(data[i], tag))
  }

  /** The `for file_path in glob.glob(pattern)` loop: stamp each file and extend. */
  function MergePattern(files: seq<seq<Record>>, tag: string): seq<Record>
    decreases |files|
  {
    if |files| == 0 then []
    else MergePattern(files[..|files| - 1], tag) + StampFile(files[|files| - 1], tag)
  }

  /** `merge_json_files(file_patterns)`: the outer loop over the patterns. */
  function MergeJsonFiles(patterns: seq<PatternMatch>): seq<Record>
    decreases |patterns|
  {
    if |patterns| == 0 then []
    else
      var last := patterns[|patterns| - 1];
      MergeJsonFiles(patterns[..|patterns| - 1]) + MergePattern(last.files, last.tag)
  }

  // Reference definitions: the output as blocks laid end to end.

  function FileBlocks(files: seq<seq<Record>>, tag: string): (blocks: seq<seq<Record>>)
    ensures |blocks| == |files|
    ensures forall j :: 0 <= j < |files| ==> blocks[j] == StampFile(files[j], tag)
  {
    seq(|files|, j requires 0 <= j < |files| => StampFile(files[j], tag))
  }

  function PatternBlocks(patterns: seq<PatternMatch>): (blocks: seq<seq<Record>>)
    ensures |blocks| == |patterns|
    ensures forall i :: 0 <= i < |patterns| ==>
      blocks[i] == Flatten(FileBlocks(patterns[i].files, patterns[i].tag))
  {
    seq(|patterns|, i requires 0 <= i < |patterns| =>
      Flatten(FileBlocks(patterns[i].files, patterns[i].tag)))
  }

  /** How many records a pattern's files hold. */
  function RecordCount(p: PatternMatch): nat
  {
    SumLengths(p.files)
  }

  /** How many records all patterns' files hold. */
  function TotalRecords(patterns: seq<PatternMatch>): nat
  {
    if |patterns| == 0 then 0 else RecordCount(patterns[0]) + TotalRecords(patterns[1..])
  }

  /** Where pattern `i`'s records start in the output. */
  function PatternOffset(patterns: seq<PatternMatch>, i: nat): nat
    requires i <= |patterns|
  {
    TotalRecords(patterns[..i])
  }

  lemma {:induction false} MergePatternIsFlatten(files: seq<seq<Record>>, tag: string)
    ensures MergePattern(files, tag) == Flatten(FileBlocks(files, tag))
    decreases |files|
  {
    if |files| != 0 {
      var n := |files|;
      MergePatternIsFlatten(files[..n - 1], tag);
      assert FileBlocks(files, tag)[..n - 1] == FileBlocks(files[..n - 1], tag);
    }
  }

  lemma {:induction false} MergeIsFlatten(patterns: seq<PatternMatch>)
    ensures MergeJsonFiles(patterns) == Flatten(PatternBlocks(patterns))
    decreases |patterns|
  {
    if |patterns| != 0 {
      var n := |patterns|;
      MergeIsFlatten(patterns[..n - 1]);
      MergePatternIsFlatten(patterns[n - 1].files, patterns[n - 1].tag);
      assert PatternBlocks(patterns)[..n - 1] == PatternBlocks(patterns[..n - 1]);
    }
  }

  /** Stamping keeps every file's length, so the blocks hold as many records as the files. */
  lemma {:induction false} FileBlocksLength(files: seq<seq<Record>>, tag: string)
    ensures SumLengths(FileBlocks(files, tag)) == SumLengths(files)
    decreases |files|
  {
    if |files| != 0 {
      FileBlocksLength(files[1..], tag);
      assert FileBlocks(files, tag)[1..] == FileBlocks(files[1..], tag);
    }
  }

  lemma {:induction false} PatternBlocksLength(patterns: seq<PatternMatch>)
    ensures SumLengths(PatternBlocks(patterns)) == TotalRecords(patterns)
    decreases |patterns|
  {
    if |patterns| != 0 {
      PatternBlocksLength(patterns[1..]);
      assert PatternBlocks(patterns)[1..] == PatternBlocks(patterns[1..]);
      FlattenLength(FileBlocks(patterns[0].files, patterns[0].tag));
      FileBlocksLength(patterns[0].files, patterns[0].tag);
    }
  }

  /**
   * The output holds exactly as many records as all matched files together;
   * in particular no patterns, or patterns matching nothing, give no records.
   */
  lemma MergeLength(patterns: seq<PatternMatch>)
    ensures |MergeJsonFiles(patterns)| == TotalRecords(patterns)
  {
    MergeIsFlatten(patterns);
    FlattenLength(PatternBlocks(patterns));
    PatternBlocksLength(patterns);
  }

  /**
   * Pattern `i`'s records form one contiguous block, after those of all
   * earlier patterns, holding its files' records stamped with its tag, in
   * file order.
   */
  lemma MergePatternBlock(patterns: seq<PatternMatch>, i: nat)
    requires i < |patterns|
    ensures PatternOffset(patterns, i) + RecordCount(patterns[i]) <= |MergeJsonFiles(patterns)|
    ensures MergeJsonFiles(patterns)[PatternOffset(patterns, i)..PatternOffset(patterns, i) + RecordCount(patterns[i])]
         == MergePattern(patterns[i].files, patterns[i].tag)
  {
    var blocks := PatternBlocks(patterns);
    MergeIsFlatten(patterns);
    FlattenBlock(blocks, i);
    assert blocks[..i] == PatternBlocks(patterns[..i]);
    PatternBlocksLength(patterns[..i]);
    MergePatternIsFlatten(patterns[i].files, patterns[i].tag);
    FlattenLength(FileBlocks(patterns[i].files, patterns[i].tag));
    FileBlocksLength(patterns[i].files, patterns[i].tag);
  }

  /** Within one pattern, record `m` of file `j` follows the records of the earlier files. */
  lemma MergePatternProvenance(files: seq<seq<Record>>, tag: string, j: nat, m: nat)
    requires j < |files| && m < |files[j]|
    ensures SumLengths(files[..j]) + m < |MergePattern(files, tag)|
    ensures MergePattern(files, tag)[SumLengths(files[..j]) + m] == Stamp(files[j][m], tag)
  {
    var fb := FileBlocks(files, tag);
    MergePatternIsFlatten(files, tag);
    FlattenBlock(fb, j);
    assert fb[..j] == FileBlocks(files[..j], tag);
    FileBlocksLength(files[..j], tag);
    var k := SumLengths(files[..j]);
    SliceIndex(Flatten(fb), k, k + |files[j]|, StampFile(files[j], tag), m);
  }

  /**
   * Where each input record lands: record `m` of file `j` of pattern `i` is
   * found, stamped with pattern `i`'s tag, after every record of the earlier
   * patterns and of the earlier files of the same pattern.
   */
  lemma MergeProvenance(patterns: seq<PatternMatch>, i: nat, j: nat, m: nat)
    requires i < |patterns| && j < |patterns[i].files| && m < |patterns[i].files[j]|
    ensures PatternOffset(patterns, i) + SumLengths(patterns[i].files[..j]) + m < |MergeJsonFiles(patterns)|
    ensures MergeJsonFiles(patterns)[PatternOffset(patterns, i) + SumLengths(patterns[i].files[..j]) + m]
         == Stamp(patterns[i].files[j][m], patterns[i].tag)
  {
    var p := patterns[i];
    var start := PatternOffset(patterns, i);
    var k := SumLengths(p.files[..j]);
    MergePatternBlock(patterns, i);
    MergePatternProvenance(p.files, p.tag, j, m);
    SliceIndex(MergeJsonFiles(patterns), start, start + RecordCount(p), MergePattern(p.files, p.tag), k + m);
  }

  /** Every record of pattern `i`'s block carries pattern `i`'s tag. */
  lemma MergeBlockTagged(patterns: seq<PatternMatch>, i: nat)
    requires i < |patterns|
    ensures forall k :: PatternOffset(patterns, i) <= k < PatternOffset(patterns, i) + RecordCount(patterns[i]) ==>
      k < |MergeJsonFiles(patterns)| &&
      SourceKey in MergeJsonFiles(patterns)[k] &&
      MergeJsonFiles(patterns)[k][SourceKey] == Str(patterns[i].tag)
  {
    MergePatternBlock(patterns, i);
    MergePatternTagged(patterns[i].files, patterns[i].tag);
    var out := MergeJsonFiles(patterns);
    var start := PatternOffset(patterns, i);
    var inner := MergePattern(patterns[i].files, patterns[i].tag);
    forall k | start <= k < start + RecordCount(patterns[i])
      ensures k < |out| && SourceKey in out[k] && out[k][SourceKey] == Str(patterns[i].tag)
    {
      assert out[k] == inner[k - start];
    }
  }

  lemma {:induction false} MergePatternTagged(files: seq<seq<Record>>, tag: string)
    ensures forall k :: 0 <= k < |MergePattern(files, tag)| ==>
      SourceKey in MergePattern(files, tag)[k] && MergePattern(files, tag)[k][SourceKey] == Str(tag)
    decreases |files|
  {
    if |files| != 0 {
      MergePatternTagged(files[..|files| - 1], tag);
    }
  }

  /** Every merged record carries the tag of one of the patterns. */
  lemma {:induction false} MergeTagged(patterns: seq<PatternMatch>)
    ensures forall k :: 0 <= k < |MergeJsonFiles(patterns)| ==>
      SourceKey in MergeJsonFiles(patterns)[k] &&
      exists i :: 0 <= i < |patterns| && MergeJsonFiles(patterns)[k][SourceKey] == Str(patterns[i].tag)
    decreases |patterns|
  {
    if |patterns| != 0 {
      var n := |patterns|;
      var prefix, last := patterns[..n - 1], patterns[n - 1];
      MergeTagged(prefix);
      MergePatternTagged(last.files, last.tag);
      var front, back := MergeJsonFiles(prefix), MergePattern(last.files, last.tag);
      assert MergeJsonFiles(patterns) == front + back;
      forall k | 0 <= k < |front + back|
        ensures SourceKey in (front + back)[k]
        ensures exists i :: 0 <= i < n && (front + back)[k][SourceKey] == Str(patterns[i].tag)
      {
        if k < |front| {
          var i :| 0 <= i < n - 1 && front[k][SourceKey] == Str(prefix[i].tag);
          assert prefix[i] == patterns[i];
        } else {
          assert (front + back)[k] == back[k - |front|];
          assert patterns[n - 1] == last;
        }
      }
    }
  }


  lemma {:induction false} MergeAppend(a: seq<PatternMatch>, b: seq<PatternMatch>)
    ensures MergeJsonFiles(a + b) == MergeJsonFiles(a) + MergeJsonFiles(b)
    decreases |b|
  {
    if |b| == 0 {
      assert a + b == a;
    } else {
      var n := |b|;
      var ab := a + b;
      var last := b[n - 1];
      assert ab[..|ab| - 1] == a + b[..n - 1];
      assert ab[|ab| - 1] == last;
      MergeAppend(a, b[..n - 1]);
      calc {
        MergeJsonFiles(ab);
        MergeJsonFiles(a + b[..n - 1]) + MergePattern(last.files, last.tag);
        MergeJsonFiles(a) + MergeJsonFiles(b[..n - 1]) + MergePattern(last.files, last.tag);
        MergeJsonFiles(a) + (MergeJsonFiles(b[..n - 1]) + MergePattern(last.files, last.tag));
        MergeJsonFiles(a) + MergeJsonFiles(b);
      }
    }
  }

  lemma MergeSnocEmpty(before: seq<PatternMatch>, p: PatternMatch)
    requires p.files == []
    ensures MergeJsonFiles(before + [p]) == MergeJsonFiles(before)
  {
    assert (before + [p])[..|before|] == before;
  }

  /** A pattern that matched no file adds nothing and is no error. */
  lemma EmptyPatternContributesNothing(patterns: seq<PatternMatch>, i: nat)
    requires i < |patterns| && patterns[i].files == []
    ensures MergeJsonFiles(patterns) == MergeJsonFiles(patterns[..i] + patterns[i + 1..])
  {
    var before, after := patterns[..i], patterns[i + 1..];
    var left := before + [patterns[i]];
    SplitAt(patterns, i);
    calc {
      MergeJsonFiles(patterns);
      { MergeAppend(left, after); }
      MergeJsonFiles(left) + MergeJsonFiles(after);
      { MergeSnocEmpty(before, patterns[i]); }
      MergeJsonFiles(before) + MergeJsonFiles(after);
      { MergeAppend(before, after); }
      MergeJsonFiles(before + after);
    }
  }

  /**
   * `glob.glob` of a pattern without wildcards: the one file at that path
   * when it exists, no file otherwise.
   */
  function Glob(files: map<string, seq<Record>>, path: string): (matched: seq<seq<Record>>)
    ensures |matched| <= 1
    ensures |matched| == 1 <==> path in files
    ensures path in files ==> matched[0] == files[path]
  {
    if path in files then [files[path]] else []
  }

  /** Each table entry resolved against the files under the working directory `cwd`. */
  function Resolve(files: map<string, seq<Record>>, cwd: string, table: seq<(string, string)>)
    : (patterns: seq<PatternMatch>)
    ensures |patterns| == |table|
    ensures forall i :: 0 <= i < |table| ==>
      patterns[i] == PatternMatch(Glob(files, cwd + table[i].0), table[i].1)
  {
    seq(|table|, i requires 0 <= i < |table| => PatternMatch(Glob(files, cwd + table[i].0), table[i].1))
  }

  /** The script: merge the configured table's files. */
  function MergeFiles(files: map<string, seq<Record>>, cwd: string): seq<Record>
  {
    MergeJsonFiles(Resolve(files, cwd, FilePatterns))
  }

  /**
   * Entry `i` of a resolved table contributes one block: the file at
   * `cwd + path`, stamped with the entry's tag, or nothing when that file does
   * not exist.
   */
  lemma ResolvedBlock(files: map<string, seq<Record>>, cwd: string, table: seq<(string, string)>, i: nat)
    requires i < |table|
    ensures var patterns := Resolve(files, cwd, table);
      var start := PatternOffset(patterns, i);
      var out := MergeJsonFiles(patterns);
      var path := cwd + table[i].0;
      start + RecordCount(patterns[i]) <= |out| &&
      out[start..start + RecordCount(patterns[i])] ==
        (if path in files then StampFile(files[path], table[i].1) else [])
  {
    var patterns := Resolve(files, cwd, table);
    var path := cwd + table[i].0;
    MergePatternBlock(patterns, i);
    if path in files {
      assert MergePattern([files[path]], table[i].1) == StampFile(files[path], table[i].1) by {
        assert [files[path]][..0] == [];
      }
    }
  }

  /** Every record of the script's output is tagged with one of the configured tags. */
  lemma MergeFilesTagged(files: map<string, seq<Record>>, cwd: string)
    ensures forall k :: 0 <= k < |MergeFiles(files, cwd)| ==>
      SourceKey in MergeFiles(files, cwd)[k] &&
      exists i :: 0 <= i < |FilePatterns| && MergeFiles(files, cwd)[k][SourceKey] == Str(FilePatterns[i].1)
  {
    var ps := Resolve(files, cwd, FilePatterns);
    var merged := MergeJsonFiles(ps);
    MergeTagged(ps);
    forall k | 0 <= k < |merged|
      ensures exists i :: 0 <= i < |FilePatterns| && merged[k][SourceKey] == Str(FilePatterns[i].1)
    {
      var i :| 0 <= i < |ps| && merged[k][SourceKey] == Str(ps[i].tag);
      assert ps[i].tag == FilePatterns[i].1;
    }
  }

  /** Paths under one directory are equal only when their relative parts are. */
  lemma JoinInjective(cwd: string, a: string, b: string)
    requires cwd + a == cwd + b
    ensures a == b
  {
    assert (cwd + a)[|cwd|..] == a;
    assert (cwd + b)[|cwd|..] == b;
  }

  /**
   * A partial run still merges: when only the actividades file exists, the
   * output is that file's records, in order, each tagged `actividad`.
   */
  lemma MergeWithOnlyActividades(cwd: string, records: seq<Record>)
    ensures MergeFiles(map[cwd + FilePatterns[0].0 := records], cwd) == StampFile(records, "actividad")
  {
    var files := map[cwd + FilePatterns[0].0 := records];
    var ps := Resolve(files, cwd, FilePatterns);
    forall k | 1 <= k < 4 ensures ps[k].files == [] {
      if cwd + FilePatterns[k].0 == cwd + FilePatterns[0].0 {
        JoinInjective(cwd, FilePatterns[k].0, FilePatterns[0].0);
      }
    }
    EmptyPatternContributesNothing(ps, 3);
    assert ps[..3] + ps[4..] == ps[..3];
    EmptyPatternContributesNothing(ps[..3], 2);
    assert ps[..3][..2] + ps[..3][3..] == ps[..2];
    EmptyPatternContributesNothing(ps[..2], 1);
    assert ps[..2][..1] + ps[..2][2..] == [ps[0]];
    assert ps[0] == PatternMatch([records], "actividad");
    assert MergeJsonFiles([ps[0]]) == MergeJsonFiles([]) + MergePattern([records], "actividad");
    assert MergePattern([records], "actividad") == MergePattern([], "actividad") + StampFile(records, "actividad");
  }

  /**
   * The configured table tags actividades, conferencias, exposiciones and
   * planetario, in that order, each with its own tag.
   */
  lemma ConfiguredTags()
    ensures |FilePatterns| == 4
    ensures FilePatterns[0].1 == "actividad" && FilePatterns[1].1 == "conferencia"
    ensures FilePatterns[2].1 == "exhibicion" && FilePatterns[3].1 == "planetario"
    ensures forall i, j :: 0 <= i < j < |FilePatterns| ==> FilePatterns[i].1 != FilePatterns[j].1
  {
  }
}
