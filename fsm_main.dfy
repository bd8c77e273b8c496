/** The command-line driver of the FSM stream: the candidate-file scan and the
    statistics loop over those files. Directory listing, file reading, logging
    and argument parsing are outside the model: the listing is given in the
    order it is walked, and reading and parsing are functions of the path. */
module FsmMain {
  import opened Wrappers
  import Detector
  import FsmExtractor
  import Sandbox
  import DotValidator
  import IdGenerator

  /** A path as its components, from the root. */
  datatype Path = Path(parts: seq<string>)

  const ExcludedParts: seq<string> := ["__pycache__", ".git", ".tox", "venv", "env"]

  /** Some component of the path names a directory that is never scanned. */
  predicate InExcludedDir(p: Path) {
    exists part :: part in ExcludedParts && part in p.parts
  }

  /** `path.name` */
  function Name(p: Path): string {
    if p.parts == [] then "" else p.parts[|p.parts| - 1]
  }

  /** What the run needs from the outside world: each file's text (`None` when
      it cannot be read or decoded), each file as the detector sees it, the
      sandbox's child process, the validator and the MD5 digest. */
  datatype Environment = Environment(
    read: Path -> Option<string>,
    load: Path -> Detector.SourceFile,
    run: string -> Sandbox.ProcessOutcome,
    elapsed: real,
    validate: string -> DotValidator.Outcome,
    md5: string -> IdGenerator.Md5Hex)

  /** A listed file `scan_directory` keeps. */
  predicate IsCandidate(f: Path, read: Path -> Option<string>) {
    !InExcludedDir(f) && Detector.HasFsmImports(read(f))
  }

  /** The files of the listing that `scan_directory` keeps, in listing order. */
  function Candidates(found: seq<Path>, read: Path -> Option<string>): (files: seq<Path>)
    ensures |files| <= |found|
  {
    if found == [] then []
    else
      var init := Candidates(found[..|found| - 1], read);
      if IsCandidate(found[|found| - 1], read) then init + [found[|found| - 1]] else init
  }

  /** A listed file is kept exactly when no component of its path is an
      excluded directory and its text has an FSM import; an unreadable file is
      never kept. */
  lemma {:induction false} CandidatesMeaning(found: seq<Path>, read: Path -> Option<string>)
    ensures forall f :: f in Candidates(found, read) <==>
              f in found && !InExcludedDir(f) && read(f).Some? && Detector.HasFsmImports(read(f))
  {
    if found != [] {
      var init := found[..|found| - 1];
      CandidatesMeaning(init, read);
      assert found == init + [found[|found| - 1]];
    }
  }

  /** `scan_directory` */
  method ScanDirectory(found: seq<Path>, read: Path -> Option<string>) returns (files: seq<Path>)
    ensures files == Candidates(found, read)
  {
    files := [];
    for i := 0 to |found|
      invariant files == Candidates(found[..i], read)
    {
      assert found[..i + 1][..i] == found[..i];
      if !InExcludedDir(found[i]) && Detector.HasFsmImports(read(found[i])) {
        files := files + [found[i]];
      }
    }
    assert found[..|found|] == found;
  }

  /** The counters `process_directory` returns. */
  datatype Stats = Stats(filesScanned: nat, pairsExtracted: nat, pairsValid: nat, pairsInvalid: nat)

  /** The context of the default extractor (30-second sandbox, 2000-character
      context) for one file of `directory`. */
  function FileContext(directory: Path, f: Path, license: string, env: Environment): FsmExtractor.Context {
    FsmExtractor.Context(Name(f), Name(directory), license, 30, 2000, env.run, env.elapsed, env.validate, env.md5)
  }

  /** Every pair yielded for `files`, file by file, including those a file
      yielded before it raised. */
  function AllPairs(files: seq<Path>, directory: Path, license: string, env: Environment): seq<FsmExtractor.TrainingPair> {
    Concat(files, FilePairs(directory, license, env))
  }

  /** The pairs one file yields. */
  function FilePairs(directory: Path, license: string, env: Environment): Path -> seq<FsmExtractor.TrainingPair> {
    f => FsmExtractor.ExtractionOf(env.load(f), FileContext(directory, f, license, env)).pairs
  }

  function Concat(files: seq<Path>, pairsOf: Path -> seq<FsmExtractor.TrainingPair>): seq<FsmExtractor.TrainingPair> {
    if files == [] then []
    else Concat(files[..|files| - 1], pairsOf) + pairsOf(files[|files| - 1])
  }

  /** How many pairs compiled. */
  function CountPassed(ps: seq<FsmExtractor.TrainingPair>): (n: nat)
    ensures n <= |ps|
  {
    if ps == [] then 0
    else CountPassed(ps[..|ps| - 1]) + (if ps[|ps| - 1].verificationStatus == "passed_compiler" then 1 else 0)
  }

  /** `process_directory`: every candidate file is counted, even one whose
      extraction raises; every yielded pair is counted as valid or invalid and,
      outside a dry run, written, failed_compiler pairs included. */
  method ProcessDirectory(directory: Path, found: seq<Path>, license: string, dryRun: bool, env: Environment)
    returns (stats: Stats, written: seq<FsmExtractor.TrainingPair>)
    ensures var files := Candidates(found, env.read);
            var all := AllPairs(files, directory, license, env);
            stats.filesScanned == |files| && stats.pairsExtracted == |all|
            && stats.pairsValid == CountPassed(all) && stats.pairsInvalid == |all| - CountPassed(all)
            && written == (if dryRun then [] else all)
    ensures stats.pairsExtracted == stats.pairsValid + stats.pairsInvalid
  {
    var files := ScanDirectory(found, env.read);
    if files == [] {
      return Stats(0, 0, 0, 0), [];
    }
    var extractor := new FsmExtractor.Extractor(None, 2000);
    stats, written := ProcessFiles(extractor, directory, files, license, dryRun, env);
  }

  /** The loop over the candidate files. */
  method ProcessFiles(extractor: FsmExtractor.Extractor, directory: Path, files: seq<Path>,
                      license: string, dryRun: bool, env: Environment)
    returns (stats: Stats, written: seq<FsmExtractor.TrainingPair>)
    requires extractor.sandbox.timeout == 30 && extractor.maxContextChars == 2000
    ensures var all := AllPairs(files, directory, license, env);
            stats == Stats(|files|, |all|, CountPassed(all), |all| - CountPassed(all))
            && written == (if dryRun then [] else all)
  {
    stats := Stats(0, 0, 0, 0);
    written := [];
    ghost var done: seq<FsmExtractor.TrainingPair> := [];
    var i := 0;
    while i < |files|
      invariant 0 <= i <= |files|
      invariant done == AllPairs(files[..i], directory, license, env)
      invariant stats == Stats(i, |done|, CountPassed(done), |done| - CountPassed(done))
      invariant written == (if dryRun then [] else done)
    {
      var f := files[i];
      var ex := extractor.ExtractFromFile(env.load(f), Name(f), Name(directory), license,
                                          env.run, env.elapsed, env.validate, env.md5);
      AllPairsStep(files, i, directory, license, env);
      stats, written := CountPairs(stats.(filesScanned := stats.filesScanned + 1), written, done, ex.pairs, dryRun);
      done := done + ex.pairs;
      i := i + 1;
    }
    assert files[..i] == files;
  }

  /** One more file adds the pairs extracted from it. */
  lemma AllPairsStep(files: seq<Path>, i: nat, directory: Path, license: string, env: Environment)
    requires i < |files|
    ensures AllPairs(files[..i + 1], directory, license, env)
            == AllPairs(files[..i], directory, license, env)
               + FsmExtractor.ExtractionOf(env.load(files[i]), FileContext(directory, files[i], license, env)).pairs
  {
    assert files[..i + 1][..i] == files[..i];
  }

  /** The inner loop over one file's pairs. */
  method CountPairs(stats0: Stats, written0: seq<FsmExtractor.TrainingPair>,
                    ghost done: seq<FsmExtractor.TrainingPair>, pairs: seq<FsmExtractor.TrainingPair>, dryRun: bool)
    returns (stats: Stats, written: seq<FsmExtractor.TrainingPair>)
    requires stats0.pairsExtracted == |done| && stats0.pairsValid == CountPassed(done)
    requires stats0.pairsInvalid == |done| - CountPassed(done)
    requires written0 == (if dryRun then [] else done)
    ensures stats == Stats(stats0.filesScanned, |done + pairs|, CountPassed(done + pairs), |done + pairs| - CountPassed(done + pairs))
    ensures written == (if dryRun then [] else done + pairs)
  {
    stats, written := stats0, written0;
    assert done + pairs[..0] == done;
    for j := 0 to |pairs|
      invariant var seen := done + pairs[..j];
                stats == Stats(stats0.filesScanned, |seen|, CountPassed(seen), |seen| - CountPassed(seen))
                && written == (if dryRun then [] else seen)
    {
      assert (done + pairs[..j + 1])[..|done| + j] == done + pairs[..j];
      assert done + pairs[..j + 1] == (done + pairs[..j]) + [pairs[j]];
      var pair := pairs[j];
      stats := stats.(pairsExtracted := stats.pairsExtracted + 1);
      if pair.verificationStatus == "passed_compiler" {
        stats := stats.(pairsValid := stats.pairsValid + 1);
      } else {
        stats := stats.(pairsInvalid := stats.pairsInvalid + 1);
      }
      if !dryRun {
        written := written + [pair];
      }
    }
    assert pairs[..|pairs|] == pairs;
  }
}
