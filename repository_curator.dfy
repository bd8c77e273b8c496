/** Curation of candidate repositories: a repository record from the search
    API is reduced to the fields the curator reviews, and a list of reduced
    records is filtered down to those under an OSI-approved licence. */
module RepositoryCurator {
  import opened Wrappers
  import PyStr
  import Lists

  /** A value of a repository record as the search API returns it. */
  datatype RepoValue = Text(s: string) | Count(n: int) | Null | Record(fields: map<string, RepoValue>) | OtherValue

  type Repo = map<string, RepoValue>

  /** `d.get(key, default)` */
  function Get(d: Repo, key: string, default: RepoValue): RepoValue {
    if key in d then d[key] else default
  }

  /** The licence keys accepted as OSI-approved. */
  const ApprovedLicenses: set<string> :=
    {"mit", "apache-2.0", "bsd-2-clause", "bsd-3-clause", "isc", "mpl-2.0", "lgpl-3.0", "gpl-3.0"}

  /** The error `license.get("key", ...)` raises when the licence is not a
      mapping, or `.lower()` raises when a licence is not a string. */
  const AttributeError: string := "AttributeError"

  /** `analyze_repository(repo_data)` as written: the name, URL, licence key,
      stars, description and language, each with its default; a `license`
      entry that is present but not a mapping (GitHub's `null` for a
      repository without a licence) makes `.get` raise. */
  function AnalyzeRepositoryAsWritten(repo: Repo): (r: Result<Repo, string>)
    ensures r.Err? <==> "license" in repo && !repo["license"].Record?
  {
    var license := Get(repo, "license", Record(map[]));
    if !license.Record? then Err(AttributeError)
    else Ok(Summary(repo, Get(license.fields, "key", Text("unknown"))))
  }

  /** The reviewed fields with their defaults, around a given licence key. */
  function Summary(repo: Repo, licenseKey: RepoValue): (r: Repo)
    ensures r.Keys == {"name", "url", "license", "stars", "description", "language"}
    ensures r["license"] == licenseKey
  {
    map[
      "name" := Get(repo, "full_name", Text("unknown")),
      "url" := Get(repo, "html_url", Text("")),
      "license" := licenseKey,
      "stars" := Get(repo, "stargazers_count", Count(0)),
      "description" := Get(repo, "description", Text("")),
      "language" := Get(repo, "language", Text(""))
    ]
  }

  /** `analyze_repository(repo_data)` with a missing or null licence both
      read as no licence, whose key is "unknown". */
  function AnalyzeRepository(repo: Repo): (r: Result<Repo, string>)
    ensures r.Err? <==> "license" in repo && !repo["license"].Record? && !repo["license"].Null?
    ensures r.Ok? ==> r.value.Keys == {"name", "url", "license", "stars", "description", "language"}
    ensures r.Ok? && ("license" !in repo || repo["license"].Null?) ==> r.value["license"] == Text("unknown")
  {
    var license := Get(repo, "license", Null);
    if license.Null? then Ok(Summary(repo, Text("unknown")))
    else if !license.Record? then Err(AttributeError)
    else Ok(Summary(repo, Get(license.fields, "key", Text("unknown"))))
  }

  /** The record of a repository without a licence, as the search API
      reports it, fails as written. */
  lemma NullLicenseRaises(repo: Repo)
    requires "license" in repo && repo["license"] == Null
    ensures AnalyzeRepositoryAsWritten(repo) == Err(AttributeError)
    ensures AnalyzeRepository(repo).Ok? && AnalyzeRepository(repo).value["license"] == Text("unknown")
  {
  }

  /** The corrected analysis agrees with the one as written wherever the one
      as written succeeds. */
  lemma AnalyzeRepositoryAgrees(repo: Repo)
    requires AnalyzeRepositoryAsWritten(repo).Ok?
    ensures AnalyzeRepository(repo) == AnalyzeRepositoryAsWritten(repo)
  {
  }

  /** Without any of the keys, the summary holds the documented defaults. */
  lemma AnalyzeEmptyRecord()
    ensures AnalyzeRepository(map[])
            == Ok(map["name" := Text("unknown"), "url" := Text(""), "license" := Text("unknown"),
                      "stars" := Count(0), "description" := Text(""), "language" := Text("")])
  {
  }

  /** `repo.get('license', 'unknown').lower()`: the lower-cased licence key,
      or `AttributeError` when the licence is not a string. */
  function LicenseKey(repo: Repo): (r: Result<string, string>)
    ensures "license" !in repo ==> r == Ok("unknown")
    ensures r.Err? <==> "license" in repo && !repo["license"].Text?
  {
    PyStr.LowerKeepsLower("unknown");
    match Get(repo, "license", Text("unknown"))
    case Text(s) => Ok(PyStr.Lower(s))
    case _ => Err(AttributeError)
  }

  /** A repository kept by the filter. */
  predicate Approved(repo: Repo) {
    LicenseKey(repo).Ok? && LicenseKey(repo).value in ApprovedLicenses
  }

  /** The kept repositories so far, or the error that stopped the loop. */
  function Filtered(repos: seq<Repo>): Result<seq<Repo>, string>
    decreases |repos|
  {
    if repos == [] then Ok([])
    else
      var init := Filtered(repos[..|repos| - 1]);
      var repo := repos[|repos| - 1];
      if init.Err? then init
      else if LicenseKey(repo).Err? then Err(LicenseKey(repo).error)
      else if LicenseKey(repo).value in ApprovedLicenses then Ok(init.value + [repo])
      else init
  }

  /** `filter_by_license(repos)`. */
  method FilterByLicense(repos: seq<Repo>) returns (r: Result<seq<Repo>, string>)
    ensures r == Filtered(repos)
  {
    var filtered: seq<Repo> := [];
    for i := 0 to |repos|
      invariant Filtered(repos[..i]) == Ok(filtered)
    {
      assert repos[..i + 1][..i] == repos[..i];
      var licenseKey := LicenseKey(repos[i]);
      if licenseKey.Err? {
        FilteredErrorSticks(repos, i + 1);
        return Err(licenseKey.error);
      }
      if licenseKey.value in ApprovedLicenses {
        filtered := filtered + [repos[i]];
      }
    }
    assert repos[..|repos|] == repos;
    return Ok(filtered);
  }

  lemma {:induction false} FilteredErrorSticks(repos: seq<Repo>, i: nat)
    requires i <= |repos| && Filtered(repos[..i]).Err?
    ensures Filtered(repos) == Filtered(repos[..i])
    decreases |repos| - i
  {
    if i < |repos| {
      assert repos[..i + 1][..i] == repos[..i];
      FilteredErrorSticks(repos, i + 1);
    } else {
      assert repos[..i] == repos;
    }
  }

  /** The filter fails exactly when some licence is not a string; otherwise
      it keeps exactly the approved repositories, in their original order. */
  lemma {:induction false} FilteredMeaning(repos: seq<Repo>)
    ensures Filtered(repos).Err? <==> exists i :: 0 <= i < |repos| && LicenseKey(repos[i]).Err?
    ensures Filtered(repos).Ok? ==> Filtered(repos).value == Lists.Select(repos, Approved, (r: Repo) => r)
    decreases |repos|
  {
    if repos != [] {
      FilteredMeaning(repos[..|repos| - 1]);
      assert forall i :: 0 <= i < |repos| - 1 ==> repos[..|repos| - 1][i] == repos[i];
    }
  }

  /** A kept repository is in the input and approved, and every approved
      repository is kept. */
  lemma FilteredKeepsApproved(repos: seq<Repo>)
    requires Filtered(repos).Ok?
    ensures forall repo :: repo in Filtered(repos).value <==> repo in repos && Approved(repo)
  {
    FilteredMeaning(repos);
    Lists.SelectMeaning(repos, Approved, (r: Repo) => r);
  }

  /** Matching ignores case, and a repository without a licence is dropped. */
  lemma LicenseMatchIgnoresCase()
    ensures Approved(map["license" := Text("MIT")])
    ensures !Approved(map[])
  {
    assert PyStr.Lower("MIT") == "mit";
  }
}
