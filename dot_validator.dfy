/** Validation of DOT text with the Graphviz compiler. The compiler itself is
    outside the model: a `Toolchain` says whether `dot` is on the path, which
    version it reports, how a run on given text, output format and timeout ends,
    and how long the call took. */
module DotValidator {
  import opened Wrappers
  import PyStr
  import Json
  import Schema
  import IdGenerator

  /** The verdict for one DOT text. */
  datatype ValidationResult = ValidationResult(
    isValid: bool,
    errorMessage: Option<string>,
    validationMethod: string,
    compilerVersion: Option<string>,
    validationDuration: real)

  /** `ValidationResult.to_schema_status()` */
  function ToSchemaStatus(v: ValidationResult): (s: string)
    ensures s in Schema.Statuses
    ensures s == "passed_compiler" <==> v.isValid
    ensures s == "failed_compiler" <==> !v.isValid
  {
    if v.isValid then "passed_compiler" else "failed_compiler"
  }

  /** `ValidationResult.to_dict()` */
  function ToDict(v: ValidationResult): (d: map<string, Json.Value>)
    ensures d.Keys == {"is_valid", "error_message", "validation_method", "compiler_version", "validation_duration"}
    ensures d["is_valid"] == Json.JBool(v.isValid)
  {
    map["is_valid" := Json.JBool(v.isValid),
        "error_message" := OptionalText(v.errorMessage),
        "validation_method" := Json.JString(v.validationMethod),
        "compiler_version" := OptionalText(v.compilerVersion),
        "validation_duration" := Json.JNumber(v.validationDuration)]
  }

  function OptionalText(o: Option<string>): Json.Value {
    match o
    case Some(s) => Json.JString(s)
    case None => Json.JNull
  }

  /** How one run of `dot` ended: it exited (with its decoded stderr), it was
      killed at the timeout, or launching it raised some other exception. */
  datatype CompilerRun = Exited(returnCode: int, stderr: string) | TimedOut | Crashed(error: string)

  /** The machine the validator runs on, for one call. */
  datatype Toolchain = Toolchain(
    dotOnPath: bool,
    version: Option<string>,
    compile: (string, string, int) -> CompilerRun,
    elapsed: real)

  /** A call either returns a verdict or raises `GraphvizNotFoundError`. */
  datatype Outcome = Returned(result: ValidationResult) | GraphvizNotFound

  const Method := "graphviz_compiler"
  const MaxBytes := 10 * 1024 * 1024

  /** Length of the UTF-8 encoding of one code point. */
  function Utf8Width(c: char): nat {
    if c as int < 0x80 then 1 else if c as int < 0x800 then 2 else if c as int < 0x10000 then 3 else 4
  }

  /** `len(s.encode('utf-8'))` */
  function Utf8Length(s: string): (n: nat)
    ensures |s| <= n <= 4 * |s|
  {
    if s == [] then 0 else Utf8Width(s[0]) + Utf8Length(s[1..])
  }

  function Invalid(message: string): ValidationResult {
    ValidationResult(false, Some(message), Method, None, 0.0)
  }

  /** The checks `validate_dot` makes before any compiler run: blank text and
      text over 10 MiB of UTF-8 are rejected outright. */
  function PreCheck(code: string): (r: Option<ValidationResult>)
    ensures PyStr.AllSpace(code) ==> r == Some(Invalid("Empty DOT code provided"))
    ensures !PyStr.AllSpace(code) && Utf8Length(code) > MaxBytes ==>
              r == Some(Invalid("DOT code exceeds maximum size limit (10MB)"))
    ensures r.None? <==> !PyStr.AllSpace(code) && Utf8Length(code) <= MaxBytes
    ensures r.Some? ==> !r.value.isValid
  {
    PyStr.StripEmpty(code);
    if PyStr.Strip(code) == "" then Some(Invalid("Empty DOT code provided"))
    else if Utf8Length(code) > MaxBytes then Some(Invalid("DOT code exceeds maximum size limit (10MB)"))
    else None
  }

  /** `_validate_impl`: run the compiler once and turn its outcome into a verdict.
      The text is valid exactly when `dot` exits with 0 and, in strict mode,
      writes nothing to stderr. */
  function Compile(code: string, timeout: int, strict: bool, format: string, tc: Toolchain): (r: Outcome)
    ensures r.GraphvizNotFound? <==> !tc.dotOnPath
    ensures r.Returned? ==>
      (r.result.isValid <==> tc.compile(code, format, timeout).Exited?
                              && tc.compile(code, format, timeout).returnCode == 0
                              && !(strict && tc.compile(code, format, timeout).stderr != ""))
    ensures r.Returned? ==> (r.result.errorMessage.None? <==> r.result.isValid)
    ensures r.Returned? ==> r.result.compilerVersion == tc.version && r.result.validationMethod == Method
  {
    if !tc.dotOnPath then GraphvizNotFound
    else
      var message :=
        match tc.compile(code, format, timeout)
        case Exited(rc, stderr) =>
          if rc != 0 then
            Some(if stderr != "" then PyStr.Strip(stderr)
                 else "Compilation failed with exit code " + PyStr.IntToString(rc))
          else if strict && stderr != "" then
            Some("Warnings treated as errors (strict mode): " + PyStr.Strip(stderr))
          else None
        case TimedOut => Some("Compilation timeout after " + PyStr.IntToString(timeout) + " seconds")
        case Crashed(e) => Some("Unexpected error: " + e);
      Returned(ValidationResult(message.None?, message, Method, tc.version, tc.elapsed))
  }

  /** Strict mode only ever rejects more: a text valid in strict mode is valid
      without it, and a non-zero exit is invalid in both modes. */
  lemma StrictOnlyRejectsMore(code: string, timeout: int, format: string, tc: Toolchain)
    ensures Compile(code, timeout, true, format, tc).Returned? ==>
      (Compile(code, timeout, true, format, tc).result.isValid ==> Compile(code, timeout, false, format, tc).result.isValid)
  {
  }

  /** `validate_dot` with `use_cache=False`. */
  function ValidateUncached(code: string, timeout: int, strict: bool, format: string, tc: Toolchain): (r: Outcome)
    ensures PreCheck(code).Some? ==> r == Returned(PreCheck(code).value)
    ensures PreCheck(code).None? ==> r == Compile(code, timeout, strict, format, tc)
  {
    match PreCheck(code)
    case Some(v) => Returned(v)
    case None => Compile(code, timeout, strict, format, tc)
  }

  /** Blank and oversized texts never reach the compiler: their verdict is the
      same whatever the toolchain, even when `dot` is missing. */
  lemma RejectedBeforeCompiling(code: string, timeout: int, strict: bool, format: string, tc1: Toolchain, tc2: Toolchain)
    requires PyStr.AllSpace(code) || Utf8Length(code) > MaxBytes
    ensures ValidateUncached(code, timeout, strict, format, tc1) == ValidateUncached(code, timeout, strict, format, tc2)
    ensures ValidateUncached(code, timeout, strict, format, tc1).Returned?
    ensures !ValidateUncached(code, timeout, strict, format, tc1).result.isValid
  {
  }

  /** The key the memoised validation is looked up under. */
  datatype CacheKey = CacheKey(digest: string, code: string, timeout: int, strict: bool)

  const Capacity := 1000

  /** The distinct elements of `s` are as many as its length. */
  predicate Distinct(s: seq<CacheKey>) {
    forall i, j :: 0 <= i < j < |s| ==> s[i] != s[j]
  }

  lemma {:induction false} DistinctCardinality(s: seq<CacheKey>)
    requires Distinct(s)
    ensures |set x | x in s| == |s|
  {
    if s != [] {
      var t := s[1..];
      assert Distinct(t);
      DistinctCardinality(t);
      assert (set x | x in s) == (set x | x in t) + {s[0]};
      assert s[0] !in t;
    }
  }

  /** `s` without `k`. */
  function Without(s: seq<CacheKey>, k: CacheKey): (r: seq<CacheKey>)
    ensures forall x :: x in r <==> x in s && x != k
    ensures k !in s ==> r == s
    ensures Distinct(s) ==> Distinct(r)
    ensures |r| <= |s|
    ensures k in s && Distinct(s) ==> |r| == |s| - 1
  {
    if s == [] then []
    else
      assert Distinct(s) ==> Distinct(s[1..]) && s[0] !in s[1..];
      if s[0] == k then Without(s[1..], k)
      else [s[0]] + Without(s[1..], k)
  }

  /** Hit and miss counts and the share of lookups that hit. */
  datatype CacheStats = CacheStats(hits: nat, misses: nat, maxSize: nat, currentSize: nat, hitRate: real)

  /** The memo `_cached_validate` keeps (an `lru_cache` of 1000 entries): the
      stored verdicts, the keys from least to most recently used, and counters. */
  class ValidationCache {
    var memo: map<CacheKey, ValidationResult>
    var recency: seq<CacheKey>
    var hits: nat
    var misses: nat

    ghost predicate Valid()
      reads this
    {
      Distinct(recency) && (forall k :: k in memo <==> k in recency) && |recency| <= Capacity
    }

    constructor()
      ensures Valid() && memo == map[] && recency == [] && hits == 0 && misses == 0
    {
      memo := map[];
      recency := [];
      hits := 0;
      misses := 0;
    }

    /** The memo never holds more than `Capacity` verdicts. */
    lemma SizeBounded()
      requires Valid()
      ensures |memo| <= Capacity
    {
      DistinctCardinality(recency);
      assert memo.Keys == set x | x in recency;
    }

    /** `get_cache_stats()` */
    function Stats(): (s: CacheStats)
      reads this
      ensures 0.0 <= s.hitRate <= 1.0
      ensures s.hits + s.misses > 0 ==> s.hitRate * (s.hits + s.misses) as real == s.hits as real
    {
      var total := hits + misses;
      CacheStats(hits, misses, Capacity, |memo|, if total > 0 then hits as real / total as real else 0.0)
    }

    /** `clear_cache()` */
    method Clear()
      modifies this
      ensures Valid() && memo == map[] && recency == [] && hits == 0 && misses == 0
    {
      memo := map[];
      recency := [];
      hits := 0;
      misses := 0;
    }

    /** A hit makes its key the most recently used. */
    method Touch(key: CacheKey) returns (v: ValidationResult)
      requires Valid() && key in memo
      modifies this
      ensures Valid() && memo == old(memo) && v == old(memo)[key]
      ensures recency == Without(old(recency), key) + [key]
      ensures hits == old(hits) + 1 && misses == old(misses)
    {
      hits := hits + 1;
      recency := Without(recency, key) + [key];
      v := memo[key];
    }

    /** Storing a verdict for a new key evicts the least recently used entry
        when the memo is full. */
    method Store(key: CacheKey, v: ValidationResult)
      requires Valid() && key !in memo
      modifies this
      ensures Valid() && key in memo && memo[key] == v
      ensures forall k :: k in memo && k != key ==> k in old(memo) && memo[k] == old(memo)[k]
      ensures hits == old(hits) && misses == old(misses)
    {
      if |recency| == Capacity {
        var oldest := recency[0];
        assert oldest !in recency[1..];
        memo := memo - {oldest};
        recency := recency[1..];
      }
      memo := memo[key := v];
      recency := recency + [key];
    }

    /** The key a text is memoised under. */
    static function KeyOf(code: string, timeout: int, strict: bool, sha256: string -> IdGenerator.Sha256Hex): CacheKey {
      CacheKey(sha256(code), code, timeout, strict)
    }

    /** `validate_dot`: blank and oversized text is rejected before the cache;
        with the cache on, a key seen before returns the stored verdict (the
        output format is then ignored and "png" is what a miss compiles to), and
        a fresh verdict is stored, evicting the least recently used entry when
        the memo is full; `GraphvizNotFoundError` is never stored. */
    method ValidateDot(code: string, timeout: int, strict: bool, useCache: bool, format: string,
                       sha256: string -> IdGenerator.Sha256Hex, tc: Toolchain) returns (r: Outcome)
      requires Valid()
      modifies this
      ensures Valid()
      ensures PreCheck(code).Some? || !useCache ==> unchanged(this)
      ensures PreCheck(code).Some? ==> r == Returned(PreCheck(code).value)
      ensures PreCheck(code).None? && !useCache ==> r == Compile(code, timeout, strict, format, tc)
      ensures PreCheck(code).None? && useCache && KeyOf(code, timeout, strict, sha256) in old(memo) ==>
        r == Returned(old(memo)[KeyOf(code, timeout, strict, sha256)]) && memo == old(memo)
        && hits == old(hits) + 1 && misses == old(misses)
        && recency == Without(old(recency), KeyOf(code, timeout, strict, sha256)) + [KeyOf(code, timeout, strict, sha256)]
      ensures PreCheck(code).None? && useCache && KeyOf(code, timeout, strict, sha256) !in old(memo) ==>
        r == Compile(code, timeout, strict, "png", tc) && hits == old(hits) && misses == old(misses) + 1
        && (r.Returned? ==> KeyOf(code, timeout, strict, sha256) in memo && memo[KeyOf(code, timeout, strict, sha256)] == r.result)
        && (r.GraphvizNotFound? ==> memo == old(memo) && recency == old(recency))
      ensures forall k :: k in memo ==>
        (k in old(memo) && memo[k] == old(memo)[k]) || (k == KeyOf(code, timeout, strict, sha256) && r == Returned(memo[k]))
    {
      var pre := PreCheck(code);
      if pre.Some? {
        return Returned(pre.value);
      }
      if !useCache {
        return Compile(code, timeout, strict, format, tc);
      }
      var key := KeyOf(code, timeout, strict, sha256);
      if key in memo {
        var v := Touch(key);
        return Returned(v);
      }
      misses := misses + 1;
      r := Compile(code, timeout, strict, "png", tc);
      if r.Returned? {
        Store(key, r.result);
      }
    }

    /** The verdict a batch element may carry: a fresh one, or the one stored
        for it before the batch began. */
    static ghost predicate BatchAgrees(code: string, v: ValidationResult, timeout: int, strict: bool, useCache: bool,
                                format: string, sha256: string -> IdGenerator.Sha256Hex, tc: Toolchain,
                                before: map<CacheKey, ValidationResult>)
    {
      Returned(v) == ValidateUncached(code, timeout, strict, if useCache then "png" else format, tc)
      || (useCache && CacheKey(sha256(code), code, timeout, strict) in before
          && v == before[CacheKey(sha256(code), code, timeout, strict)])
    }

    /** Every stored verdict is either from before or a fresh compilation. */
    ghost predicate MemoFrom(before: map<CacheKey, ValidationResult>, tc: Toolchain)
      reads this
    {
      forall k :: k in memo ==>
        (k in before && memo[k] == before[k]) || Returned(memo[k]) == Compile(k.code, k.timeout, k.strict, "png", tc)
    }

    /** One `validate_dot` call of a batch, seen from the start of the batch. */
    method BatchStep(code: string, timeout: int, strict: bool, useCache: bool, format: string,
                     sha256: string -> IdGenerator.Sha256Hex, tc: Toolchain, ghost before: map<CacheKey, ValidationResult>)
      returns (r: Outcome)
      requires Valid() && MemoFrom(before, tc)
      modifies this
      ensures Valid() && MemoFrom(before, tc)
      ensures r.GraphvizNotFound? ==> !tc.dotOnPath
      ensures r.Returned? ==> BatchAgrees(code, r.result, timeout, strict, useCache, format, sha256, tc, before)
    {
      ghost var prior := memo;
      r := ValidateDot(code, timeout, strict, useCache, format, sha256, tc);
      var key := KeyOf(code, timeout, strict, sha256);
      if r.Returned? && PreCheck(code).None? && useCache && key in prior {
        assert r.result == prior[key];
      }
      assert MemoFrom(before, tc) by {
        forall k | k in memo
          ensures (k in before && memo[k] == before[k]) || Returned(memo[k]) == Compile(k.code, k.timeout, k.strict, "png", tc)
        {
          if !(k in prior && memo[k] == prior[k]) {
            assert k == key && r == Returned(memo[k]);
          }
        }
      }
    }

    /** The values of a list whose every slot has been filled. */
    static function Filled(slots: seq<Option<ValidationResult>>): (r: seq<ValidationResult>)
      requires forall j :: 0 <= j < |slots| ==> slots[j].Some?
      ensures |r| == |slots| && forall j :: 0 <= j < |slots| ==> slots[j] == Some(r[j])
    {
      seq(|slots|, j requires 0 <= j < |slots| => slots[j].value)
    }

    /** `validate_batch` run sequentially: one verdict per input, in input order,
        each agreeing with validating that input alone; a missing compiler
        aborts the whole batch. */
    method ValidateBatch(codes: seq<string>, timeout: int, strict: bool, useCache: bool, format: string,
                         sha256: string -> IdGenerator.Sha256Hex, tc: Toolchain)
      returns (results: Option<seq<ValidationResult>>)
      requires Valid()
      modifies this
      ensures Valid()
      ensures results.None? ==> !tc.dotOnPath
      ensures results.Some? ==>
        |results.value| == |codes|
        && forall i :: 0 <= i < |codes| ==>
             BatchAgrees(codes[i], results.value[i], timeout, strict, useCache, format, sha256, tc, old(memo))
    {
      ghost var before := memo;
      var slots: seq<Option<ValidationResult>> := seq(|codes|, _ => None);
      for i := 0 to |codes|
        invariant Valid() && MemoFrom(before, tc) && |slots| == |codes|
        invariant forall j :: 0 <= j < i ==>
          slots[j].Some? && BatchAgrees(codes[j], slots[j].value, timeout, strict, useCache, format, sha256, tc, before)
      {
        var r := BatchStep(codes[i], timeout, strict, useCache, format, sha256, tc, before);
        if r.GraphvizNotFound? {
          return None;
        }
        slots := slots[i := Some(r.result)];
      }
      results := Some(Filled(slots));
    }

  }
}
