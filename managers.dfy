/**
 * The evaluation run manager: it steps an optimizer until the optimizer is exhausted or
 * a step budget runs out, merges the per-step scores, stamps result tables with the run's
 * identity, and saves and loads those tables as CSV files named by that identity.
 */
module Managers {
  import opened Common
  import opened Text
  import opened Tables
  import opened Files
  import opened Optimizers

  /** A corpus, through the two descriptors the manager reads: `str(corpus.index.index)` and `str(corpus.storage)`. */
  datatype Corpus = Corpus(index: string, storage: string)

  /** The examinator that turns the merged scores into a score table; its logic is not part of this model. */
  type Examine = (string, Scores) -> Table

  /** `hashlib.md5(s.encode()).hexdigest()`, the MD5 digest of RFC 1321, left uninterpreted. */
  type Digest = string -> string

  // The identifier columns. Their literal names live in a module that is not part of
  // this model; what matters is that they are eight distinct names.
  const OPTIMIZER := "optimizer"
  const MODEL := "model"
  const ADAPTOR := "adaptor"
  const INDEX := "index"
  const STORAGE := "storage"
  const EMBEDDER := "embedder"
  const TIME := "time"
  const MD5 := "md5"

  const IdentifierColumns: set<string> := {OPTIMIZER, MODEL, ADAPTOR, INDEX, STORAGE, EMBEDDER, TIME, MD5}

  /** The seven descriptors of a run, in the order the identity hashes them. */
  function Descriptors(optimizer: string, corpus: Corpus, model: string, adaptor: string, embedder: string, time: string): seq<string>
  {
    [optimizer, embedder, corpus.index, corpus.storage, model, adaptor, time]
  }

  predicate SpaceFree(xs: seq<string>)
  {
    forall i :: 0 <= i < |xs| ==> ' ' !in xs[i]
  }

  /**
   * The string the identity hashes: the seven descriptors joined by single spaces.
   * When no descriptor holds a space, splitting it at spaces gives them back in order.
   */
  function Preimage(optimizer: string, corpus: Corpus, model: string, adaptor: string, embedder: string, time: string): (r: string)
    ensures r == optimizer + " " + embedder + " " + corpus.index + " " + corpus.storage + " " + model + " " + adaptor + " " + time
    ensures SpaceFree(Descriptors(optimizer, corpus, model, adaptor, embedder, time)) ==>
      Split(r, ' ') == [optimizer, embedder, corpus.index, corpus.storage, model, adaptor, time]
  {
    var data := Descriptors(optimizer, corpus, model, adaptor, embedder, time);
    PreimageSpelledOut(data);
    if SpaceFree(data) then SplitJoin(data, ' '); Join(' ', data) else Join(' ', data)
  }

  lemma PreimageSpelledOut(d: seq<string>)
    requires |d| == 7
    ensures Join(' ', d) == d[0] + " " + d[1] + " " + d[2] + " " + d[3] + " " + d[4] + " " + d[5] + " " + d[6]
  {
    assert d[..1] == [d[0]];
    JoinSnoc(' ', d[..1], d[1]);
    assert d[..1] + [d[1]] == d[..2];
    JoinSnoc(' ', d[..2], d[2]);
    assert d[..2] + [d[2]] == d[..3];
    JoinSnoc(' ', d[..3], d[3]);
    assert d[..3] + [d[3]] == d[..4];
    JoinSnoc(' ', d[..4], d[4]);
    assert d[..4] + [d[4]] == d[..5];
    JoinSnoc(' ', d[..5], d[5]);
    assert d[..5] + [d[5]] == d[..6];
    JoinSnoc(' ', d[..6], d[6]);
    assert d[..6] + [d[6]] == d;
  }

  /** The cells `with_identifier_cols` adds to every row. */
  function IdentifierCells(optimizer: string, corpus: Corpus, model: string, adaptor: string, embedder: string, time: string, md5: string): (r: map<string, string>)
    ensures r.Keys == IdentifierColumns
  {
    map[OPTIMIZER := optimizer, MODEL := model, ADAPTOR := adaptor, INDEX := corpus.index,
        STORAGE := corpus.storage, EMBEDDER := embedder, TIME := time, MD5 := md5]
  }

  /** `results.update(res)` over the yielded mappings in turn, starting from an empty dictionary. */
  function Accumulate(ms: seq<Scores>): (r: Scores)
    ensures forall k :: k in r <==> exists i :: 0 <= i < |ms| && k in ms[i]
  {
    if ms == [] then map[] else Accumulate(ms[..|ms| - 1]) + ms[|ms| - 1]
  }

  /** The value kept for a key is the one from the last mapping that holds it. */
  lemma {:induction false} AccumulateLastWriteWins(ms: seq<Scores>, i: nat, k: int)
    requires i < |ms| && k in ms[i]
    requires forall j :: i < j < |ms| ==> k !in ms[j]
    ensures k in Accumulate(ms) && Accumulate(ms)[k] == ms[i][k]
  {
    if i < |ms| - 1 {
      AccumulateLastWriteWins(ms[..|ms| - 1], i, k);
    }
  }

  /**
   * No space in any descriptor but the index one. An index descriptor may hold spaces
   * (a FAISS index prints as `FaissIndex(<spec>, <dim>)`); it sits between two fixed
   * fields on either side, so the preimage still determines it.
   */
  predicate SpaceFreeBesidesIndex(optimizer: string, corpus: Corpus, model: string, adaptor: string, embedder: string, time: string)
  {
    ' ' !in optimizer && ' ' !in embedder && ' ' !in corpus.storage && ' ' !in model && ' ' !in adaptor && ' ' !in time
  }

  /** Equal preimages come from equal descriptor lists, when only the index descriptor may hold spaces. */
  lemma PreimageInjective(optimizer: string, corpus: Corpus, model: string, adaptor: string, embedder: string, time: string,
                          optimizer': string, corpus': Corpus, model': string, adaptor': string, embedder': string, time': string)
    requires SpaceFreeBesidesIndex(optimizer, corpus, model, adaptor, embedder, time)
    requires SpaceFreeBesidesIndex(optimizer', corpus', model', adaptor', embedder', time')
    requires Preimage(optimizer, corpus, model, adaptor, embedder, time) == Preimage(optimizer', corpus', model', adaptor', embedder', time')
    ensures Descriptors(optimizer, corpus, model, adaptor, embedder, time) == Descriptors(optimizer', corpus', model', adaptor', embedder', time')
  {
    // Peel time, adaptor, model and storage off the back, then the optimizer and the
    // embedder off the front; what is left is the index descriptor.
    var m3 := optimizer + " " + embedder + " " + corpus.index;
    var m4 := m3 + " " + corpus.storage;
    var m5 := m4 + " " + model;
    var m6 := m5 + " " + adaptor;
    var m3' := optimizer' + " " + embedder' + " " + corpus'.index;
    var m4' := m3' + " " + corpus'.storage;
    var m5' := m4' + " " + model';
    var m6' := m5' + " " + adaptor';
    SplitLast(m6, time, m6', time', ' ');
    SplitLast(m5, adaptor, m5', adaptor', ' ');
    SplitLast(m4, model, m4', model', ' ');
    SplitLast(m3, corpus.storage, m3', corpus'.storage, ' ');
    Regroup(optimizer, embedder, corpus.index);
    Regroup(optimizer', embedder', corpus'.index);
    SplitFirst(optimizer, embedder + " " + corpus.index, optimizer', embedder' + " " + corpus'.index, ' ');
    SplitFirst(embedder, corpus.index, embedder', corpus'.index, ' ');
  }

  lemma Regroup(x: string, y: string, z: string)
    ensures x + " " + y + " " + z == x + " " + (y + " " + z)
  {
  }

  /**
   * When the digest does not collide on the two preimages and only the index descriptors
   * may hold spaces, changing any descriptor changes the identity.
   */
  lemma IdentitySensitive(hexdigest: Digest,
                          optimizer: string, corpus: Corpus, model: string, adaptor: string, embedder: string, time: string,
                          optimizer': string, corpus': Corpus, model': string, adaptor': string, embedder': string, time': string)
    requires hexdigest(Preimage(optimizer, corpus, model, adaptor, embedder, time)) == hexdigest(Preimage(optimizer', corpus', model', adaptor', embedder', time'))
      ==> Preimage(optimizer, corpus, model, adaptor, embedder, time) == Preimage(optimizer', corpus', model', adaptor', embedder', time')
    requires SpaceFreeBesidesIndex(optimizer, corpus, model, adaptor, embedder, time)
    requires SpaceFreeBesidesIndex(optimizer', corpus', model', adaptor', embedder', time')
    requires Descriptors(optimizer, corpus, model, adaptor, embedder, time) != Descriptors(optimizer', corpus', model', adaptor', embedder', time')
    ensures Manager.Md5(hexdigest, optimizer, corpus, model, adaptor, embedder, time)
         != Manager.Md5(hexdigest, optimizer', corpus', model', adaptor', embedder', time')
  {
    if Preimage(optimizer, corpus, model, adaptor, embedder, time) == Preimage(optimizer', corpus', model', adaptor', embedder', time') {
      PreimageInjective(optimizer, corpus, model, adaptor, embedder, time,
                        optimizer', corpus', model', adaptor', embedder', time');
    }
  }

  /** Without that hypothesis two different runs can share an identity, whatever the digest. */
  lemma IdentityCollision(hexdigest: Digest, corpus: Corpus, model: string, adaptor: string, time: string)
    ensures Descriptors("a b", corpus, model, adaptor, "c", time) != Descriptors("a", corpus, model, adaptor, "b c", time)
    ensures Manager.Md5(hexdigest, "a b", corpus, model, adaptor, "c", time)
         == Manager.Md5(hexdigest, "a", corpus, model, adaptor, "b c", time)
  {
    // Both preimages start with "a b c" and continue with the same five descriptors.
    assert "a b" + " " + "c" == "a" + " " + "b c";
  }

  /** Saving the same run twice leaves one file, holding the table of the second save. */
  lemma SaveSameRunTwice(entries: map<string, Entry>, dir: string, name: string, t: Table, t': Table)
    requires IsDirectory(entries, dir)
    ensures WriteFile(WriteFile(entries, dir, name, t), dir, name, t') == WriteFile(entries, dir, name, t')
    ensures WriteFile(WriteFile(entries, dir, name, t), dir, name, t')[dir].files.Keys == entries[dir].files.Keys + {name}
  {
    var once := WriteFile(entries, dir, name, t');
    var twice := WriteFile(WriteFile(entries, dir, name, t), dir, name, t');
    assert twice[dir] == once[dir];
  }

  lemma AppendSuffixInjective(a: string, b: string, suffix: string)
    requires a + suffix == b + suffix
    ensures a == b
  {
    assert |a| == |b|;
    assert a == (a + suffix)[..|a|];
    assert b == (b + suffix)[..|b|];
  }

  /**
   * Under the hypotheses of IdentitySensitive, saving two different runs into one directory
   * keeps two files, each with its own table.
   */
  lemma SaveDistinctRuns(hexdigest: Digest, entries: map<string, Entry>, dir: string, t: Table, t': Table,
                         optimizer: string, corpus: Corpus, model: string, adaptor: string, embedder: string, time: string,
                         optimizer': string, corpus': Corpus, model': string, adaptor': string, embedder': string, time': string)
    requires IsDirectory(entries, dir)
    requires hexdigest(Preimage(optimizer, corpus, model, adaptor, embedder, time)) == hexdigest(Preimage(optimizer', corpus', model', adaptor', embedder', time'))
      ==> Preimage(optimizer, corpus, model, adaptor, embedder, time) == Preimage(optimizer', corpus', model', adaptor', embedder', time')
    requires SpaceFreeBesidesIndex(optimizer, corpus, model, adaptor, embedder, time)
    requires SpaceFreeBesidesIndex(optimizer', corpus', model', adaptor', embedder', time')
    requires Descriptors(optimizer, corpus, model, adaptor, embedder, time) != Descriptors(optimizer', corpus', model', adaptor', embedder', time')
    ensures
      var name := Manager.Md5(hexdigest, optimizer, corpus, model, adaptor, embedder, time) + ".csv";
      var name' := Manager.Md5(hexdigest, optimizer', corpus', model', adaptor', embedder', time') + ".csv";
      var files := WriteFile(WriteFile(entries, dir, name, t), dir, name', t')[dir].files;
      && name != name'
      && files.Keys == entries[dir].files.Keys + {name, name'}
      && files[name] == t && files[name'] == t'
  {
    var md5 := Manager.Md5(hexdigest, optimizer, corpus, model, adaptor, embedder, time);
    var md5' := Manager.Md5(hexdigest, optimizer', corpus', model', adaptor', embedder', time');
    IdentitySensitive(hexdigest, optimizer, corpus, model, adaptor, embedder, time,
                      optimizer', corpus', model', adaptor', embedder', time');
    if md5 + ".csv" == md5' + ".csv" {
      AppendSuffixInjective(md5, md5', ".csv");
    }
  }

  predicate IsCsv(name: string)
  {
    |name| >= 4 && name[|name| - 4..] == ".csv"
  }

  /** `listing` names every file of the directory exactly once, in the order the OS lists them. */
  ghost predicate IsListing(listing: seq<string>, files: map<string, Table>)
  {
    && (forall n :: n in listing <==> n in files)
    && (forall i, j :: 0 <= i < j < |listing| ==> listing[i] != listing[j])
  }

  /** The names `glob("*.csv")` matches, in listing order; a listing without repeats gives none. */
  function CsvNames(listing: seq<string>): (r: seq<string>)
    ensures forall n :: n in r <==> n in listing && IsCsv(n)
    ensures (forall i, j :: 0 <= i < j < |listing| ==> listing[i] != listing[j]) ==>
      forall i, j :: 0 <= i < j < |r| ==> r[i] != r[j]
  {
    if listing == [] then []
    else if IsCsv(listing[0]) then [listing[0]] + CsvNames(listing[1..])
    else CsvNames(listing[1..])
  }

  predicate HasCsv(entries: map<string, Entry>, path: string)
  {
    IsDirectory(entries, path) && exists n :: n in entries[path].files && IsCsv(n)
  }

  /** `row` is a row of some CSV file among `files`. */
  ghost predicate RowOfCsv(files: map<string, Table>, row: Row)
  {
    exists n :: n in files && IsCsv(n) && row in files[n]
  }

  /** The tables of the named files, in order. */
  function FileTables(files: map<string, Table>, names: seq<string>): (r: seq<Table>)
    requires forall n :: n in names ==> n in files
  {
    seq(|names|, i requires 0 <= i < |names| => files[names[i]])
  }

  class Manager {
    /** The directory results are saved to, if any. */
    const path: Option<string>
    /** The start time of the run, `%Y-%m-%d-%H-%M-%S` of the clock when the manager was made. */
    const start: string
    const examinator: Examine

    constructor (path: Option<string>, start: string, examinator: Examine)
      ensures this.path == path && this.start == start && this.examinator == examinator
    {
      this.path := path;
      this.start := start;
      this.examinator := examinator;
    }

    /**
     * `Manager(path)`: refuses a path that exists and is not a directory, and otherwise
     * makes sure the directory exists.
     */
    static method Create(path: Option<string>, start: string, examinator: Examine, fs: FileSystem)
      returns (r: Result<Manager, Error>)
      modifies fs
      ensures r.Failure? <==> path.Some? && path.value in old(fs.entries) && old(fs.entries)[path.value].RegularFile?
      ensures r.Failure? ==> r.error == ValueError(path.value + " is not a directory") && fs.entries == old(fs.entries)
      ensures r.Success? ==> fresh(r.value) && r.value.path == path && r.value.start == start && r.value.examinator == examinator
      ensures r.Success? && path.Some? ==> fs.entries == MakeDirectory(old(fs.entries), path.value)
      ensures path.None? ==> fs.entries == old(fs.entries)
    {
      if path.Some? {
        var p := path.value;
        if p in fs.entries && fs.entries[p].RegularFile? {
          return Failure(ValueError(p + " is not a directory"));
        }
        fs.entries := MakeDirectory(fs.entries, p);
      }
      var m := new Manager(path, start, examinator);
      r := Success(m);
    }

    /** `Manager._launch`: the mappings `step()` hands out, collected in order. */
    static method Launch(opt: Optimizer, steps: Option<int>) returns (yielded: seq<Scores>)
      modifies opt
      ensures yielded == Yielded(Pending(opt.script, old(opt.calls)), steps)
      ensures opt.calls == old(opt.calls) + CallCount(Pending(opt.script, old(opt.calls)), steps)
    {
      ghost var s := Pending(opt.script, opt.calls);
      ghost var c0 := opt.calls;
      ghost var exhausted := false;
      yielded := [];
      var i := 0;
      while steps.None? || i < steps.value
        invariant 0 <= i <= |Leading(s)|
        invariant steps.Some? ==> i <= Max0(steps.value)
        invariant opt.calls == c0 + i
        invariant yielded == Leading(s)[..i]
        decreases |Leading(s)| - i
      {
        OutcomeAtPending(opt.script, c0, i);
        StepAfterLeading(s, i);
        var o := opt.Step();
        if o.Exhausted? {
          exhausted := true;
          break;
        }
        assert Leading(s)[..i + 1] == Leading(s)[..i] + [o.scores];
        yielded := yielded + [o.scores];
        i := i + 1;
      }
      RunEnds(s, steps, i, exhausted);
    }

    /** `Manager.run`: steps the optimizer, merges the mappings, and examines the merged scores. */
    method Run(opt: Optimizer, corpus: Corpus, steps: Option<int>) returns (results: Scores, scores: Table)
      modifies opt
      ensures results == Accumulate(Yielded(Pending(opt.script, old(opt.calls)), steps))
      ensures opt.calls == old(opt.calls) + CallCount(Pending(opt.script, old(opt.calls)), steps)
      ensures scores == examinator(corpus.index, results)
    {
      var yielded := Launch(opt, steps);
      results := map[];
      var i := 0;
      while i < |yielded|
        invariant 0 <= i <= |yielded|
        invariant results == Accumulate(yielded[..i])
      {
        assert yielded[..i + 1][..i] == yielded[..i];
        results := results + yielded[i];
        i := i + 1;
      }
      assert yielded[..i] == yielded;
      scores := examinator(corpus.index, results);
    }

    /** `Manager.md5`: the digest of the run's preimage. */
    static function Md5(hexdigest: Digest, optimizer: string, corpus: Corpus, model: string, adaptor: string, embedder: string, time: string): string
    {
      hexdigest(Preimage(optimizer, corpus, model, adaptor, embedder, time))
    }

    /**
     * `Manager.with_identifier_cols`: the run's identity, and a copy of `df` whose every
     * row carries the eight identifier columns (and keeps its other cells).
     */
    method WithIdentifierCols(hexdigest: Digest, df: Table, optimizer: string, corpus: Corpus, model: string, adaptor: string, embedder: string)
      returns (md5: string, out: Table)
      ensures md5 == Md5(hexdigest, optimizer, corpus, model, adaptor, embedder, start)
      ensures |out| == |df|
      ensures forall i :: 0 <= i < |out| ==> out[i].Keys == df[i].Keys + IdentifierColumns
      ensures forall i, c :: 0 <= i < |out| && c in df[i] && c !in IdentifierColumns ==> out[i][c] == df[i][c]
      ensures forall i :: 0 <= i < |out| ==>
        && out[i][OPTIMIZER] == optimizer && out[i][MODEL] == model && out[i][ADAPTOR] == adaptor
        && out[i][INDEX] == corpus.index && out[i][STORAGE] == corpus.storage && out[i][EMBEDDER] == embedder
        && out[i][TIME] == start && out[i][MD5] == md5
      ensures out == Stamp(df, IdentifierCells(optimizer, corpus, model, adaptor, embedder, start, md5))
    {
      out := df;
      md5 := Md5(hexdigest, optimizer, corpus, model, adaptor, embedder, start);
      out := AssignColumn(out, OPTIMIZER, optimizer);
      ghost var o1 := out;
      out := AssignColumn(out, MODEL, model);
      ghost var o2 := out;
      out := AssignColumn(out, ADAPTOR, adaptor);
      ghost var o3 := out;
      out := AssignColumn(out, INDEX, corpus.index);
      ghost var o4 := out;
      out := AssignColumn(out, STORAGE, corpus.storage);
      ghost var o5 := out;
      out := AssignColumn(out, EMBEDDER, embedder);
      ghost var o6 := out;
      out := AssignColumn(out, TIME, start);
      ghost var o7 := out;
      out := AssignColumn(out, MD5, md5);
      ghost var cells := IdentifierCells(optimizer, corpus, model, adaptor, embedder, start, md5);
      forall i | 0 <= i < |out|
        ensures out[i] == df[i] + cells
      {
        AssignColumnRow(df, OPTIMIZER, optimizer, i);
        AssignColumnRow(o1, MODEL, model, i);
        AssignColumnRow(o2, ADAPTOR, adaptor, i);
        AssignColumnRow(o3, INDEX, corpus.index, i);
        AssignColumnRow(o4, STORAGE, corpus.storage, i);
        AssignColumnRow(o5, EMBEDDER, embedder, i);
        AssignColumnRow(o6, TIME, start, i);
        AssignColumnRow(o7, MD5, md5, i);
        assert out[i] == df[i][OPTIMIZER := optimizer][MODEL := model][ADAPTOR := adaptor][INDEX := corpus.index]
                             [STORAGE := corpus.storage][EMBEDDER := embedder][TIME := start][MD5 := md5];
      }
      assert out == Stamp(df, cells);
    }

    /**
     * `Manager.save`: writes the stamped table to `<md5>.csv` in the manager's directory;
     * refuses when the manager has no directory.
     */
    method Save(hexdigest: Digest, scores: Table, optimizer: string, corpus: Corpus, model: string, adaptor: string, embedder: string, fs: FileSystem)
      returns (r: Outcome<Error>)
      modifies fs
      ensures path.None? ==> r == Fail(ValueError("No path specified. Set the path to save the scores.")) && fs.entries == old(fs.entries)
      ensures path.Some? && !IsDirectory(old(fs.entries), path.value) ==> r.Fail? && r.error.OSError? && fs.entries == old(fs.entries)
      ensures path.Some? && IsDirectory(old(fs.entries), path.value) ==>
        var md5 := Md5(hexdigest, optimizer, corpus, model, adaptor, embedder, start);
        && r == Pass
        && fs.entries == WriteFile(old(fs.entries), path.value, md5 + ".csv",
                                   Stamp(scores, IdentifierCells(optimizer, corpus, model, adaptor, embedder, start, md5)))
    {
      var md5, stamped := WithIdentifierCols(hexdigest, scores, optimizer, corpus, model, adaptor, embedder);
      if path.None? {
        return Fail(ValueError("No path specified. Set the path to save the scores."));
      }
      var dir := path.value;
      if !IsDirectory(fs.entries, dir) {
        return Fail(OSError(dir + "/" + md5 + ".csv"));
      }
      fs.entries := WriteFile(fs.entries, dir, md5 + ".csv", stamped);
      r := Pass;
    }

    /**
     * `Manager.load`: the concatenation of every CSV table in the directory at `path`;
     * fails when there is none, which covers a missing path and a path that is not a directory.
     */
    static function Load(entries: map<string, Entry>, path: string, listing: seq<string>): (r: Result<Table, Error>)
      requires IsDirectory(entries, path) ==> IsListing(listing, entries[path].files)
      ensures r.Failure? <==> !HasCsv(entries, path)
      ensures r.Failure? ==> r.error == ValueError("No csv files found in " + path)
      ensures r.Success? ==> |r.value| == TotalRows(FileTables(entries[path].files, CsvNames(listing)))
      ensures r.Success? ==> forall row :: row in r.value <==> RowOfCsv(entries[path].files, row)
      ensures r.Success? ==> multiset(r.value) == RowBag(FileTables(entries[path].files, CsvNames(listing)))
    {
      if !IsDirectory(entries, path) then Failure(ValueError("No csv files found in " + path))
      else
        var files := entries[path].files;
        var names := CsvNames(listing);
        if names == [] then
          assert forall n :: n in files ==> !IsCsv(n);
          Failure(ValueError("No csv files found in " + path))
        else
          var dfs := FileTables(files, names);
          assert HasCsv(entries, path) by { assert names[0] in files && IsCsv(names[0]); }
          ConcatRows(dfs);
          assert forall row :: row in Concat(dfs) <==> RowOfCsv(files, row) by {
            forall row
              ensures row in Concat(dfs) <==> RowOfCsv(files, row)
            {
              if RowOfCsv(files, row) {
                var n :| n in files && IsCsv(n) && row in files[n];
                var k :| 0 <= k < |names| && names[k] == n;
                assert row in dfs[k];
              }
              if row in Concat(dfs) {
                var k :| 0 <= k < |dfs| && row in dfs[k];
                assert names[k] in names;
              }
            }
          }
          Success(Concat(dfs))
    }
  }
}
