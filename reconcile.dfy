/**
 * The run main.go performs: observe the cluster, reconcile it toward the
 * desired state (create, nothing, delete until gone, or write the
 * kubeconfig), then, gated on fresh observations of Present, bootstrap
 * GitOps and enable the configured profiles, and finally report.
 *
 * Every external command the run issues is recorded, in order, in the
 * trace of a `Runner`; the answers the provider gives to successive
 * cluster queries are a script the runner replays.
 */
module Reconcile {
  import opened Wrappers
  import opened Text
  import opened ClusterState
  import opened DeployKey

  /**
   * What the run reads from `cluster.yaml` and from its environment. Each
   * `...Out` field is the raw output of one `yq read`, None when that read
   * failed; an unset environment variable reads as "".
   */
  datatype Config = Config(
    stateOut: Option<string>,
    nameOut: Option<string>,
    regionOut: Option<string>,
    timeoutOut: Option<string>,
    templateOut: Option<string>,
    profilesOut: Option<seq<string>>,
    token: string,
    repository: string)
  {
    function Desired(): State { ParseDesiredState(stateOut) }
    function Name(): string { DesiredField(nameOut) }
    function Region(): string { DesiredField(regionOut) }
    function Timeout(): string { DesiredTimeout(timeoutOut) }
    function GitUrl(): string { "git@github.com:" + repository }
    /** `readDesiredProfiles`: nil when the read or its decoding fails. */
    function Profiles(): seq<string> { if profilesOut.Some? then profilesOut.value else [] }
  }

  /** How the collaborators other than the cluster listing answer. */
  datatype World = World(
    keygenOk: bool,               // exit status of ssh-keygen
    publicKey: Option<string>,    // the generated public key file, None when unreadable
    fluxIdentity: Option<string>, // output of `fluxctl identity`, None when it fails
    rejectedTitles: set<string>,  // titles under which the registry refuses a key
    failingProfiles: set<string>) // profiles whose `eksctl enable profile` fails

  /** The external commands and registry calls the run issues. */
  datatype Action =
    | EksctlCreate(template: string, timeout: string)
    | EksctlDelete(name: string)
    | Sleep(seconds: nat)
    | EksctlWriteKubeconfig(name: string)
    | SshKeygen
    | EksctlEnableRepo(gitUrl: string, cluster: string, region: string)
    | FluxctlIdentity
    | GitHubCreateKey(owner: string, repo: string, title: string, key: string)
    | EksctlEnableProfile(gitUrl: string, cluster: string, region: string, profile: string)

  /** Why `generateKeyAndAllowDeployKey` fails; main.go discards it. */
  datatype BootstrapError = KeygenFailed | KeyUnreadable | KeyNotAdded(cause: KeyError)

  /** The two state pairs main.go prints, before reconciling and at the end. */
  datatype Report = Report(observed: State, desired: State, finalObserved: State, finalDesired: State)

  /** A run either reaches its final report or stops in `log.Fatal` when the agent key cannot be added. */
  datatype RunResult = Finished(report: Report) | Fatal(error: KeyError)

  const BackoffSeconds: nat := 30

  /** `createCluster`: no command when the template cannot be read. */
  function CreateActions(cfg: Config): seq<Action> {
    match cfg.templateOut
    case None => []
    case Some(template) => [EksctlCreate(template, cfg.Timeout())]
  }

  /** `k` rounds of the delete loop that did not end it: a delete, then the wait. */
  function Backoffs(name: string, k: nat): seq<Action> {
    if k == 0 then [] else Backoffs(name, k - 1) + [EksctlDelete(name), Sleep(BackoffSeconds)]
  }

  /** The delete loop when its `n`-th delete is the first one followed by an Absent observation. */
  function DeleteRounds(name: string, n: nat): seq<Action>
    requires n >= 1
  {
    Backoffs(name, n - 1) + [EksctlDelete(name)]
  }

  lemma {:induction false} BackoffsShape(name: string, k: nat)
    ensures |Backoffs(name, k)| == 2 * k
    ensures forall i :: 0 <= i < 2 * k ==>
      Backoffs(name, k)[i] == if i % 2 == 0 then EksctlDelete(name) else Sleep(BackoffSeconds)
    ensures multiset(Backoffs(name, k))[EksctlDelete(name)] == k
  {
    if k > 0 {
      var prev, round := Backoffs(name, k - 1), [EksctlDelete(name), Sleep(BackoffSeconds)];
      BackoffsShape(name, k - 1);
      assert Backoffs(name, k) == prev + round;
      forall i | 0 <= i < 2 * (k - 1) ensures Backoffs(name, k)[i] == prev[i] { }
      assert multiset(prev + round) == multiset(prev) + multiset(round);
    }
  }

  /**
   * The delete loop deletes `n` times, waits 30 seconds between two
   * deletes and nowhere else, and issues nothing else.
   */
  lemma DeleteRoundsShape(name: string, n: nat)
    requires n >= 1
    ensures |DeleteRounds(name, n)| == 2 * n - 1
    ensures forall i :: 0 <= i < 2 * n - 1 ==>
      DeleteRounds(name, n)[i] == if i % 2 == 0 then EksctlDelete(name) else Sleep(BackoffSeconds)
    ensures multiset(DeleteRounds(name, n))[EksctlDelete(name)] == n
  {
    BackoffsShape(name, n - 1);
  }

  /** The commands of main.go's switch on (observed, desired); `rounds` is the number of deletes. */
  function ReconcileActions(cfg: Config, observed: State, desired: State, rounds: nat): seq<Action>
    requires observed == Present && desired == Absent ==> rounds >= 1
  {
    if observed == Absent && desired == Present then CreateActions(cfg)
    else if observed == Present && desired == Absent then DeleteRounds(cfg.Name(), rounds)
    else if observed == Present && desired == Present then [EksctlWriteKubeconfig(cfg.Name())]
    else []
  }

  predicate IsClusterCommand(a: Action) {
    a.EksctlCreate? || a.EksctlDelete? || a.EksctlWriteKubeconfig?
  }

  /**
   * The decision table: Absent/Present creates once (when the template is
   * readable) and deletes nothing; Present/Absent deletes `rounds` times and
   * creates nothing; Present/Present only writes the kubeconfig; Absent/Absent
   * and any Unknown side issue nothing.
   */
  lemma DecisionTable(cfg: Config, observed: State, desired: State, rounds: nat)
    requires observed == Present && desired == Absent ==> rounds >= 1
    ensures var t := ReconcileActions(cfg, observed, desired, rounds);
      && (observed == Absent && desired == Present ==>
            t == CreateActions(cfg) && |t| == (if cfg.templateOut.Some? then 1 else 0)
            && forall i :: 0 <= i < |t| ==> t[i].EksctlCreate?)
      && (observed == Present && desired == Absent ==>
            multiset(t)[EksctlDelete(cfg.Name())] == rounds
            && forall i :: 0 <= i < |t| ==> t[i] == EksctlDelete(cfg.Name()) || t[i] == Sleep(BackoffSeconds))
      && (observed == Present && desired == Present ==> t == [EksctlWriteKubeconfig(cfg.Name())])
      && (observed == Unknown || desired == Unknown || observed == desired == Absent ==> t == [])
  {
    if observed == Present && desired == Absent {
      DeleteRoundsShape(cfg.Name(), rounds);
    }
  }

  /** Reconciling issues only cluster commands and the backoff wait. */
  lemma ReconcileClusterOnly(cfg: Config, observed: State, desired: State, rounds: nat)
    requires observed == Present && desired == Absent ==> rounds >= 1
    ensures forall i :: 0 <= i < |ReconcileActions(cfg, observed, desired, rounds)| ==>
      IsClusterCommand(ReconcileActions(cfg, observed, desired, rounds)[i])
      || ReconcileActions(cfg, observed, desired, rounds)[i] == Sleep(BackoffSeconds)
  {
    DecisionTable(cfg, observed, desired, rounds);
  }

  /** `addDeployKey`: the registry call it makes, none when its checks fail. */
  function KeyAttempt(cfg: Config, title: string, key: string): seq<Action> {
    match KeyTarget(cfg.token, cfg.repository)
    case Failure(_) => []
    case Success(t) => [GitHubCreateKey(t.owner, t.repo, title, key)]
  }

  /** `addDeployKey`'s error: a failed check, or the registry's refusal. */
  function KeyOutcome(cfg: Config, world: World, title: string): Option<KeyError> {
    match KeyTarget(cfg.token, cfg.repository)
    case Failure(e) => Some(e)
    case Success(_) => if title in world.rejectedTitles then Some(Rejected) else None
  }

  /** `generateKeyAndAllowDeployKey`: keygen, then the bootstrap key when the public key could be read. */
  function PushKeyActions(cfg: Config, world: World, title: string): seq<Action> {
    [SshKeygen] + if world.keygenOk && world.publicKey.Some? then KeyAttempt(cfg, title, world.publicKey.value) else []
  }

  /**
   * `getDeployKeyFromFlux` (main.go:216-225): the trimmed identity, "" when
   * fluxctl fails. It has the shape of `DesiredField` but mirrors a different
   * Go function, which reads the agent's output rather than `cluster.yaml`.
   */
  function FluxKey(world: World): string {
    match world.fluxIdentity
    case None => ""
    case Some(out) => TrimSpace(out)
  }

  /** main.go:301-310: bootstrap key, enable the repository, fetch the agent's key, add it. */
  function GitOpsActions(cfg: Config, world: World, title: string): seq<Action> {
    PushKeyActions(cfg, world, title)
    + [EksctlEnableRepo(cfg.GitUrl(), cfg.Name(), cfg.Region()), FluxctlIdentity]
    + KeyAttempt(cfg, AgentTitle, FluxKey(world))
  }

  /** The loop of main.go:320-322 over `profiles`. */
  function ProfileActions(cfg: Config, profiles: seq<string>): seq<Action> {
    if profiles == [] then []
    else
      var last := EksctlEnableProfile(cfg.GitUrl(), cfg.Name(), cfg.Region(), profiles[|profiles| - 1]);
      ProfileActions(cfg, profiles[..|profiles| - 1]) + [last]
  }

  /** Each profile is enabled exactly once, in list order, and nothing else is issued. */
  lemma {:induction false} ProfilesInOrder(cfg: Config, profiles: seq<string>)
    ensures |ProfileActions(cfg, profiles)| == |profiles|
    ensures forall i :: 0 <= i < |profiles| ==>
      ProfileActions(cfg, profiles)[i] == EksctlEnableProfile(cfg.GitUrl(), cfg.Name(), cfg.Region(), profiles[i])
  {
    if profiles != [] {
      var init := profiles[..|profiles| - 1];
      ProfilesInOrder(cfg, init);
      forall i | 0 <= i < |init| ensures profiles[i] == init[i] { }
    }
  }

  /**
   * With the registry reachable and the key generated, bootstrap issues in
   * order: keygen, the bootstrap key, the repository, the agent's identity,
   * the agent key titled "flux".
   */
  lemma BootstrapOrder(cfg: Config, world: World, title: string)
    requires world.keygenOk && world.publicKey.Some?
    requires KeyTarget(cfg.token, cfg.repository).Success?
    ensures var t := KeyTarget(cfg.token, cfg.repository).value;
      GitOpsActions(cfg, world, title) == [
        SshKeygen,
        GitHubCreateKey(t.owner, t.repo, title, world.publicKey.value),
        EksctlEnableRepo(cfg.GitUrl(), cfg.Name(), cfg.Region()),
        FluxctlIdentity,
        GitHubCreateKey(t.owner, t.repo, AgentTitle, FluxKey(world))]
  {
  }

  /**
   * A missing token or a malformed repository stops every registry call:
   * bootstrap then issues only the three commands, and the run ends fatally.
   */
  lemma MisconfiguredRegistry(cfg: Config, world: World, title: string)
    requires KeyTarget(cfg.token, cfg.repository).Failure?
    ensures GitOpsActions(cfg, world, title) ==
      [SshKeygen, EksctlEnableRepo(cfg.GitUrl(), cfg.Name(), cfg.Region()), FluxctlIdentity]
    ensures KeyOutcome(cfg, world, AgentTitle) == Some(KeyTarget(cfg.token, cfg.repository).error)
  {
  }

  /** Some answer at or after `i` observes Absent. */
  ghost predicate EventuallyAbsent(obs: nat -> State, i: nat) {
    exists k :: i <= k && obs(k) == Absent
  }

  lemma {:induction false} FirstAbsentExists(obs: nat -> State, i: nat, k: nat)
    requires i <= k && obs(k) == Absent
    ensures exists f :: i <= f <= k && obs(f) == Absent && forall j :: i <= j < f ==> obs(j) != Absent
    decreases k - i
  {
    if obs(i) != Absent {
      FirstAbsentExists(obs, i + 1, k);
      var f :| i + 1 <= f <= k && obs(f) == Absent && forall j :: i + 1 <= j < f ==> obs(j) != Absent;
      assert forall j :: i <= j < f ==> obs(j) != Absent;
    }
  }

  /** The first answer at or after `i` that observes Absent. */
  ghost function FirstAbsentFrom(obs: nat -> State, i: nat): (f: nat)
    requires EventuallyAbsent(obs, i)
    ensures i <= f && obs(f) == Absent
    ensures forall j :: i <= j < f ==> obs(j) != Absent
  {
    var k :| i <= k && obs(k) == Absent;
    FirstAbsentExists(obs, i, k);
    var f :| i <= f <= k && obs(f) == Absent && (forall j :: i <= j < f ==> obs(j) != Absent);
    f
  }

  /**
   * Regrouping a trace extended phase by phase. Stated once here so that
   * `Runner.Run` does not have to reason about sequence concatenation in its
   * own, much larger, proof context.
   */
  lemma Concat3(t: seq<Action>, a: seq<Action>, b: seq<Action>, c: seq<Action>)
    ensures t + a + b + c == t + (a + b + c)
  {
  }

  class Runner {
    const cfg: Config
    const world: World
    /**
     * The answers successive `eksctl get cluster` queries give: the lines
     * `yq read - .name` prints, None when the pipeline fails.
     */
    const listings: nat -> Option<seq<string>>
    /** The external commands issued so far, in order. */
    var trace: seq<Action>
    /** How many cluster queries have been answered. */
    var queries: nat

    constructor (cfg: Config, world: World, listings: nat -> Option<seq<string>>)
      ensures this.cfg == cfg && this.world == world && this.listings == listings
      ensures trace == [] && queries == 0
    {
      this.cfg := cfg;
      this.world := world;
      this.listings := listings;
      trace := [];
      queries := 0;
    }

    /** What `getClusterState` reports when the `i`-th answer of the script serves its query. */
    function ObservedAt(i: nat): State {
      ObserveCluster(cfg.nameOut, listings(i))
    }

    /** The query index after one `getClusterState`: no query is made for an empty name. */
    function Next(q: nat): nat {
      if cfg.Name() == "" then q else q + 1
    }

    /** The script as the sequence of states it makes `getClusterState` report. */
    ghost function Observations(): nat -> State {
      (i: nat) => ObservedAt(i)
    }

    /**
     * The hypothesis under which the run ends: when the query at `q` sees
     * the cluster Present and Absent is desired, some later query sees it
     * Absent. main.go has no retry cap, so without it the delete loop runs forever.
     */
    ghost predicate Converges(q: nat) {
      ObservedAt(q) == Present && cfg.Desired() == Absent ==> EventuallyAbsent(Observations(), q + 1)
    }

    /** How many deletes reconciling from query `q` issues. */
    ghost function Rounds(q: nat): nat
      requires Converges(q)
    {
      if ObservedAt(q) == Present && cfg.Desired() == Absent then FirstAbsentFrom(Observations(), q + 1) - q else 0
    }

    /** `getClusterState`, answered by the next listing of the script. */
    method GetClusterState() returns (s: State)
      modifies this`queries
      ensures s == ObservedAt(old(queries))
      ensures queries == Next(old(queries))
    {
      var name := DesiredField(cfg.nameOut);
      if name == "" {
        return Unknown;
      }
      s := ObserveByName(name, listings(queries));
      queries := queries + 1;
    }

    /** `createCluster`; its error is not modelled since main.go discards it. */
    method CreateCluster()
      modifies this`trace
      ensures trace == old(trace) + CreateActions(cfg)
    {
      match cfg.templateOut {
        case None =>
        case Some(template) =>
          var timeout := DesiredTimeout(cfg.timeoutOut);
          trace := trace + [EksctlCreate(template, timeout)];
      }
    }

    /** `deleteCluster`. */
    method DeleteCluster()
      modifies this`trace
      ensures trace == old(trace) + [EksctlDelete(cfg.Name())]
    {
      trace := trace + [EksctlDelete(cfg.Name())];
    }

    /** `writeKubeConfig`. */
    method WriteKubeConfig()
      modifies this`trace
      ensures trace == old(trace) + [EksctlWriteKubeconfig(cfg.Name())]
    {
      trace := trace + [EksctlWriteKubeconfig(cfg.Name())];
    }

    /** `time.Sleep(30 * time.Second)`, recorded rather than waited. */
    method Backoff()
      modifies this`trace
      ensures trace == old(trace) + [Sleep(BackoffSeconds)]
    {
      trace := trace + [Sleep(BackoffSeconds)];
    }

    /**
     * The loop of main.go:280-288: delete, re-observe, stop at the first
     * Absent, otherwise wait and delete again. It has no cap; the requires
     * is the hypothesis that the script eventually answers Absent.
     */
    method DeleteUntilAbsent()
      requires cfg.Name() != ""
      requires EventuallyAbsent(Observations(), queries)
      modifies this`trace, this`queries
      ensures queries == FirstAbsentFrom(Observations(), old(queries)) + 1
      ensures trace == old(trace) + DeleteRounds(cfg.Name(), queries - old(queries))
    {
      ghost var first := FirstAbsentFrom(Observations(), queries);
      ghost var q0 := queries;
      while true
        invariant q0 <= queries <= first
        invariant trace == old(trace) + Backoffs(cfg.Name(), queries - q0)
        decreases first - queries
      {
        DeleteCluster();
        var s := GetClusterState();
        assert Observations()(queries - 1) == s;
        if s == Absent {
          break;
        }
        Backoff();
      }
    }

    /**
     * main.go:263-296: read the desired state, observe, and act on the
     * pair: create, nothing, delete until gone, or write the kubeconfig.
     */
    method Reconcile() returns (observed: State, desired: State)
      requires Converges(queries)
      modifies this`trace, this`queries
      ensures desired == cfg.Desired() && observed == ObservedAt(old(queries))
      ensures queries == Next(old(queries)) + Rounds(old(queries))
      ensures trace == old(trace) + ReconcilePhase(old(queries))
    {
      desired := ParseDesiredState(cfg.stateOut);
      observed := GetClusterState();
      if observed == Absent {
        if desired == Present {
          CreateCluster();
        }
      } else if observed == Present {
        if desired == Absent {
          DeleteUntilAbsent();
        } else if desired == Present {
          WriteKubeConfig();
        }
      }
    }

    /** `addDeployKey`: the checks, then the registry's `CreateKey`. */
    method AddDeployKey(title: string, key: string) returns (err: Option<KeyError>)
      modifies this`trace
      ensures trace == old(trace) + KeyAttempt(cfg, title, key)
      ensures err == KeyOutcome(cfg, world, title)
    {
      var target := KeyTarget(cfg.token, cfg.repository);
      if target.Failure? {
        return Some(target.error);
      }
      trace := trace + [GitHubCreateKey(target.value.owner, target.value.repo, title, key)];
      err := if title in world.rejectedTitles then Some(Rejected) else None;
    }

    /**
     * `generateKeyAndAllowDeployKey`: generate a keypair, read its public
     * half, and add it under "push-key-" and ten random characters.
     */
    method GenerateKeyAndAllowDeployKey() returns (err: Option<BootstrapError>, ghost title: string)
      modifies this`trace
      ensures world.keygenOk && world.publicKey.Some? ==> IsBootstrapTitle(title)
      ensures trace == old(trace) + PushKeyActions(cfg, world, title)
      ensures err.None? <==>
        world.keygenOk && world.publicKey.Some? && KeyOutcome(cfg, world, title).None?
      ensures !world.keygenOk ==> err == Some(KeygenFailed)
      ensures world.keygenOk && world.publicKey.None? ==> err == Some(KeyUnreadable)
      ensures world.keygenOk && world.publicKey.Some? && KeyOutcome(cfg, world, title).Some? ==>
        err == Some(KeyNotAdded(KeyOutcome(cfg, world, title).value))
    {
      title := "";
      trace := trace + [SshKeygen];
      if !world.keygenOk {
        return Some(KeygenFailed), title;
      }
      if world.publicKey.None? {
        return Some(KeyUnreadable), title;
      }
      var suffix := RandomString(SuffixLength);
      BootstrapTitleShape(suffix);
      var pushTitle := BootstrapTitle(suffix);
      title := pushTitle;
      var keyErr := AddDeployKey(pushTitle, world.publicKey.value);
      err := if keyErr.Some? then Some(KeyNotAdded(keyErr.value)) else None;
    }

    /** `enableGitOpsRepository`; its error is discarded by main.go. */
    method EnableGitOpsRepository()
      modifies this`trace
      ensures trace == old(trace) + [EksctlEnableRepo(cfg.GitUrl(), cfg.Name(), cfg.Region())]
    {
      trace := trace + [EksctlEnableRepo(cfg.GitUrl(), cfg.Name(), cfg.Region())];
    }

    /** `getDeployKeyFromFlux`. */
    method GetDeployKeyFromFlux() returns (key: string)
      modifies this`trace
      ensures trace == old(trace) + [FluxctlIdentity]
      ensures key == FluxKey(world)
    {
      trace := trace + [FluxctlIdentity];
      key := FluxKey(world);
    }

    /** `enableProfile`: reports whether the command succeeded. */
    method EnableProfile(profile: string) returns (ok: bool)
      modifies this`trace
      ensures trace == old(trace) + [EksctlEnableProfile(cfg.GitUrl(), cfg.Name(), cfg.Region(), profile)]
      ensures ok <==> profile !in world.failingProfiles
    {
      trace := trace + [EksctlEnableProfile(cfg.GitUrl(), cfg.Name(), cfg.Region(), profile)];
      ok := profile !in world.failingProfiles;
    }

    /** main.go:319-322: every profile in order; a failing one does not stop the loop. */
    method EnableProfiles(profiles: seq<string>)
      modifies this`trace
      ensures trace == old(trace) + ProfileActions(cfg, profiles)
    {
      for i := 0 to |profiles|
        invariant trace == old(trace) + ProfileActions(cfg, profiles[..i])
      {
        assert profiles[..i + 1][..i] == profiles[..i];
        var ok := EnableProfile(profiles[i]);
      }
      assert profiles[..|profiles|] == profiles;
    }

    /** The commands of main.go's switch when the run starts at query `q0`. */
    ghost function ReconcilePhase(q0: nat): seq<Action>
      requires Converges(q0)
    {
      ReconcileActions(cfg, ObservedAt(q0), cfg.Desired(), Rounds(q0))
    }

    /** main.go:300-314 when its gating query is the `q`-th. */
    function BootstrapPhase(q: nat, title: string): seq<Action> {
      if ObservedAt(q) == Present then GitOpsActions(cfg, world, title) else []
    }

    /** The `log.Fatal` of main.go:311-313 when the gating query is the `q`-th. */
    function FatalAt(q: nat): Option<KeyError> {
      if ObservedAt(q) == Present then KeyOutcome(cfg, world, AgentTitle) else None
    }

    /** main.go:318-323 when its gating query is the `q`-th. */
    function ProfilePhase(q: nat): seq<Action> {
      if ObservedAt(q) == Present then ProfileActions(cfg, cfg.Profiles()) else []
    }

    /** The query index at which the bootstrap gate observes, for a run starting at `q0`. */
    ghost function GateQuery(q0: nat): nat
      requires Converges(q0)
    {
      Next(q0) + Rounds(q0)
    }

    /** What a whole run starting at query `q0` returns. */
    ghost function RunResultSpec(q0: nat): RunResult
      requires Converges(q0)
    {
      var q1 := GateQuery(q0);
      if FatalAt(q1).Some? then Fatal(FatalAt(q1).value)
      else Finished(Report(ObservedAt(q0), cfg.Desired(), ObservedAt(Next(Next(q1))), cfg.Desired()))
    }

    /** What a whole run starting at query `q0` issues; `title` is the bootstrap key's title. */
    ghost function RunTrace(q0: nat, title: string): seq<Action>
      requires Converges(q0)
    {
      var q1 := GateQuery(q0);
      ReconcilePhase(q0) + BootstrapPhase(q1, title)
      + if FatalAt(q1).Some? then [] else ProfilePhase(Next(q1))
    }

    /**
     * main.go:300-314: when a fresh observation sees the cluster Present,
     * add the bootstrap key, enable the repository, fetch the agent's key
     * and add it; only a failure to add the agent key is reported.
     */
    method BootstrapGitOps() returns (fatal: Option<KeyError>, ghost title: string)
      modifies this`trace, this`queries
      ensures queries == Next(old(queries))
      ensures trace == old(trace) + BootstrapPhase(old(queries), title)
      ensures fatal == FatalAt(old(queries))
      ensures ObservedAt(old(queries)) == Present && world.keygenOk && world.publicKey.Some? ==> IsBootstrapTitle(title)
    {
      title := "";
      fatal := None;
      var gate := GetClusterState();
      if gate == Present {
        ghost var t0 := trace;
        var bootstrapErr;
        bootstrapErr, title := GenerateKeyAndAllowDeployKey();
        ghost var pushed := PushKeyActions(cfg, world, title);
        EnableGitOpsRepository();
        var key := GetDeployKeyFromFlux();
        ghost var middle := [EksctlEnableRepo(cfg.GitUrl(), cfg.Name(), cfg.Region()), FluxctlIdentity];
        assert trace == t0 + pushed + middle;
        fatal := AddDeployKey(AgentTitle, key);
        Concat3(t0, pushed, middle, KeyAttempt(cfg, AgentTitle, FluxKey(world)));
      }
    }

    /** main.go:318-323: when a fresh observation sees the cluster Present, enable the profiles. */
    method ApplyProfiles()
      modifies this`trace, this`queries
      ensures queries == Next(old(queries))
      ensures trace == old(trace) + ProfilePhase(old(queries))
    {
      var gate := GetClusterState();
      if gate == Present {
        var profiles := cfg.Profiles();
        EnableProfiles(profiles);
      }
    }

    /** `main`: reconcile, bootstrap GitOps and enable profiles while the cluster is Present, report. */
    method Run() returns (result: RunResult, ghost title: string)
      requires Converges(queries)
      modifies this`trace, this`queries
      ensures ObservedAt(GateQuery(old(queries))) == Present && world.keygenOk && world.publicKey.Some?
        ==> IsBootstrapTitle(title)
      ensures result == RunResultSpec(old(queries))
      ensures trace == old(trace) + RunTrace(old(queries), title)
      ensures queries == if FatalAt(GateQuery(old(queries))).Some? then Next(GateQuery(old(queries)))
        else Next(Next(Next(GateQuery(old(queries)))))
    {
      ghost var q0, t0 := queries, trace;
      var observed, desired := Reconcile();
      ghost var q1, reconciled := queries, ReconcilePhase(q0);
      assert q1 == GateQuery(q0);
      var fatal;
      fatal, title := BootstrapGitOps();
      ghost var bootstrapped := BootstrapPhase(q1, title);
      if fatal.Some? {
        Concat3(t0, reconciled, bootstrapped, []);
        return Fatal(fatal.value), title;
      }
      ApplyProfiles();
      Concat3(t0, reconciled, bootstrapped, ProfilePhase(Next(q1)));
      var finalObserved := GetClusterState();
      var finalDesired := ParseDesiredState(cfg.stateOut);
      result := Finished(Report(observed, desired, finalObserved, finalDesired));
    }

    /**
     * GitOps is bootstrapped only when the gating observation is Present:
     * otherwise the run issues no keygen, no registry call and no
     * repository enablement at all.
     */
    lemma NoBootstrapUnlessPresent(q0: nat, title: string)
      requires Converges(q0)
      requires ObservedAt(GateQuery(q0)) != Present
      ensures forall i :: 0 <= i < |RunTrace(q0, title)| ==>
        var a := RunTrace(q0, title)[i];
        !a.SshKeygen? && !a.GitHubCreateKey? && !a.EksctlEnableRepo? && !a.FluxctlIdentity?
    {
      var r := ReconcilePhase(q0);
      var p := ProfilePhase(Next(GateQuery(q0)));
      ReconcileClusterOnly(cfg, ObservedAt(q0), cfg.Desired(), Rounds(q0));
      ProfilesInOrder(cfg, cfg.Profiles());
      assert forall i :: 0 <= i < |p| ==> p[i].EksctlEnableProfile?;
      assert RunTrace(q0, title) == r + p;
    }

    /**
     * Within a whole run whose gate observes Present, with the key generated
     * and the registry target valid: the reconciliation's cluster commands
     * and waits come first, then keygen, the bootstrap key titled `title`,
     * the repository, the agent's identity and the `flux` key, in that order.
     */
    lemma BootstrapOrderInRun(q0: nat, title: string)
      requires Converges(q0)
      requires ObservedAt(GateQuery(q0)) == Present
      requires world.keygenOk && world.publicKey.Some?
      requires KeyTarget(cfg.token, cfg.repository).Success?
      ensures var r, run := ReconcilePhase(q0), RunTrace(q0, title);
        var t := KeyTarget(cfg.token, cfg.repository).value;
        |run| >= |r| + 5
        && (forall i :: 0 <= i < |r| ==> IsClusterCommand(run[i]) || run[i] == Sleep(BackoffSeconds))
        && run[|r|..|r| + 5] == [
          SshKeygen,
          GitHubCreateKey(t.owner, t.repo, title, world.publicKey.value),
          EksctlEnableRepo(cfg.GitUrl(), cfg.Name(), cfg.Region()),
          FluxctlIdentity,
          GitHubCreateKey(t.owner, t.repo, AgentTitle, FluxKey(world))]
    {
      var r := ReconcilePhase(q0);
      var g := GitOpsActions(cfg, world, title);
      var p := if FatalAt(GateQuery(q0)).Some? then [] else ProfilePhase(Next(GateQuery(q0)));
      ReconcileClusterOnly(cfg, ObservedAt(q0), cfg.Desired(), Rounds(q0));
      BootstrapOrder(cfg, world, title);
      assert RunTrace(q0, title) == r + g + p;
      assert (r + g + p)[|r|..|r| + 5] == g;
    }

    /**
     * When the agent key cannot be added, the run stops fatally before any
     * profile is enabled and before the final report.
     */
    lemma FatalSkipsProfiles(q0: nat, title: string)
      requires Converges(q0)
      requires FatalAt(GateQuery(q0)).Some?
      ensures RunResultSpec(q0).Fatal?
      ensures forall i :: 0 <= i < |RunTrace(q0, title)| ==> !RunTrace(q0, title)[i].EksctlEnableProfile?
    {
      var r := ReconcilePhase(q0);
      var g := GitOpsActions(cfg, world, title);
      ReconcileClusterOnly(cfg, ObservedAt(q0), cfg.Desired(), Rounds(q0));
      assert forall i :: 0 <= i < |r| ==> !r[i].EksctlEnableProfile?;
      assert forall i :: 0 <= i < |g| ==> !g[i].EksctlEnableProfile?;
      assert RunTrace(q0, title) == r + g;
      assert forall i :: 0 <= i < |r + g| ==> !(r + g)[i].EksctlEnableProfile?;
    }

    /** An Unknown answer after a delete does not end the loop: at least one more delete follows. */
    lemma UnknownKeepsDeleting(q0: nat)
      requires Converges(q0)
      requires ObservedAt(q0) == Present && cfg.Desired() == Absent
      requires ObservedAt(q0 + 1) == Unknown
      ensures Rounds(q0) >= 2
    {
      var f := FirstAbsentFrom(Observations(), q0 + 1);
      assert Observations()(q0 + 1) == Unknown;
    }

    /**
     * Deleting a present cluster that disappears after the second delete:
     * delete, wait 30 seconds, delete; no bootstrap; the report shows
     * Present/Absent before and Absent/Absent after.
     */
    lemma DeleteScenario(q0: nat, title: string)
      requires ObservedAt(q0) == Present && cfg.Desired() == Absent
      requires ObservedAt(q0 + 1) == Present
      requires forall j :: q0 + 2 <= j <= q0 + 5 ==> ObservedAt(j) == Absent
      ensures Converges(q0)
      ensures RunTrace(q0, title) == [EksctlDelete(cfg.Name()), Sleep(BackoffSeconds), EksctlDelete(cfg.Name())]
      ensures RunResultSpec(q0) == Finished(Report(Present, Absent, Absent, Absent))
    {
      assert Observations()(q0 + 2) == Absent;
      var f := FirstAbsentFrom(Observations(), q0 + 1);
      assert Observations()(q0 + 1) == Present;
      assert f == q0 + 2;
      assert GateQuery(q0) == q0 + 3;
      assert Backoffs(cfg.Name(), 1) == [] + [EksctlDelete(cfg.Name()), Sleep(BackoffSeconds)];
    }
  }
}
