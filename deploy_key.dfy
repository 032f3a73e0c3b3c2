/**
 * Deploy keys on the source-control host: the checks `addDeployKey`
 * makes on its environment before calling the registry, the split of
 * `owner/repo`, `RandomString` and the title of the bootstrap key.
 */
module DeployKey {
  import opened Wrappers
  import opened Text

  /** Why `addDeployKey` returns an error; Rejected is the registry's own refusal. */
  datatype KeyError = MissingToken | MissingRepository | MalformedRepository | Rejected

  /** The repository a key is added to. */
  datatype Target = Target(owner: string, repo: string)

  /**
   * `addDeployKey`'s checks of `GH_TOKEN` and `GITHUB_REPOSITORY` (an unset
   * variable reads as ""), in the order it makes them, and
   * `strings.SplitN(repository, "/", 2)`.
   */
  function KeyTarget(token: string, repository: string): (r: Result<Target, KeyError>)
    ensures r == Failure(MissingToken) <==> token == ""
    ensures r == Failure(MissingRepository) <==> token != "" && repository == ""
    ensures r == Failure(MalformedRepository) <==> token != "" && repository != "" && '/' !in repository
    ensures r.Success? <==> token != "" && '/' in repository
    ensures r.Success? ==> r.value.owner + "/" + r.value.repo == repository && '/' !in r.value.owner
  {
    if token == "" then Failure(MissingToken)
    else if repository == "" then Failure(MissingRepository)
    else match IndexOf(repository, '/')
      case None => Failure(MalformedRepository)
      case Some(i) =>
        assert repository == repository[..i] + "/" + repository[i + 1..];
        Success(Target(repository[..i], repository[i + 1..]))
  }

  /** Splitting is the inverse of joining: the owner is everything before the first '/'. */
  lemma KeyTargetRoundTrip(token: string, owner: string, repo: string)
    requires token != "" && '/' !in owner
    ensures KeyTarget(token, owner + "/" + repo) == Success(Target(owner, repo))
  {
    var s := owner + "/" + repo;
    assert s[|owner|] == '/';
    var i := IndexOf(s, '/').value;
    assert i == |owner|;
    assert s[..i] == owner;
    assert s[i + 1..] == repo;
  }

  /** `characterRunes`: the 62 letters and digits random strings are drawn from. */
  const Alphabet: string := "abcdefghijklmnopqrstuvwxyzABCDEFGHIJKLMNOPQRSTUVWXYZ0123456789"

  /**
   * `RandomString`: fills a buffer of `n` characters, each drawn from the
   * alphabet at an index the random source picks (any index may come up).
   */
  method RandomString(n: nat) returns (s: string)
    ensures |s| == n
    ensures forall i :: 0 <= i < |s| ==> s[i] in Alphabet
  {
    var b := new char[n];
    for i := 0 to n
      invariant forall j :: 0 <= j < i ==> b[j] in Alphabet
    {
      var k :| 0 <= k < |Alphabet|;
      b[i] := Alphabet[k];
    }
    s := b[..];
  }

  const BootstrapPrefix: string := "push-key-"
  const SuffixLength: nat := 10

  /** The title of the per-run bootstrap key: the prefix and a random suffix. */
  function BootstrapTitle(suffix: string): string {
    BootstrapPrefix + suffix
  }

  /** Titles `generateKeyAndAllowDeployKey` can produce. */
  predicate IsBootstrapTitle(title: string) {
    && |title| == |BootstrapPrefix| + SuffixLength
    && title[..|BootstrapPrefix|] == BootstrapPrefix
    && forall i :: |BootstrapPrefix| <= i < |title| ==> title[i] in Alphabet
  }

  /** The fixed title of the GitOps agent's key. */
  const AgentTitle: string := "flux"

  /** A drawn suffix yields a bootstrap title, and no bootstrap title is the agent's. */
  lemma BootstrapTitleShape(suffix: string)
    requires |suffix| == SuffixLength && forall i :: 0 <= i < |suffix| ==> suffix[i] in Alphabet
    ensures IsBootstrapTitle(BootstrapTitle(suffix))
    ensures BootstrapTitle(suffix) != AgentTitle
  {
    var t := BootstrapTitle(suffix);
    forall i | |BootstrapPrefix| <= i < |t| ensures t[i] in Alphabet {
      assert t[i] == suffix[i - |BootstrapPrefix|];
    }
  }
}
