# eksctl reconciliation action — Dafny model

This project models the core of `main.go` of a GitHub Action that keeps an
EKS cluster in the state `cluster.yaml` declares and then bootstraps Flux
GitOps on it. The model covers:

- the cluster **states** `unknown` / `present` / `absent`, how the desired
  state is parsed from `spec.state`, how the creation timeout defaults to
  `25m`, and how the observed state is derived from the provider's cluster
  listing filtered by the desired name (`wrappers.dfy`, `text.dfy`,
  `cluster_state.dfy`);
- `addDeployKey`'s checks of `GH_TOKEN` and `GITHUB_REPOSITORY` and the
  `owner/repo` split, `RandomString` and the `push-key-` title
  (`deploy_key.dfy`);
- `main` itself (`reconcile.dfy`). A `Runner` object records every external
  command except the cluster queries, in issue order, in its `trace`
  field. The commands are eksctl
  create, delete, write-kubeconfig, enable repo and enable profile, plus
  ssh-keygen, `fluxctl identity`, the registry's `CreateKey` and the
  30-second sleep. The runner answers each cluster query with the next
  entry of a scripted listing sequence. Its `queries` field is the cursor
  and counts the cluster queries (`eksctl get cluster -o yaml | yq read -
  .name`), which do not enter `trace`.
  The methods `GetClusterState`, `CreateCluster`, `DeleteCluster`,
  `WriteKubeConfig`, `EnableGitOpsRepository`, `EnableProfile`,
  `GetDeployKeyFromFlux`, `AddDeployKey` and `GenerateKeyAndAllowDeployKey`
  are main.go's functions of those names. `Reconcile`, `DeleteUntilAbsent`,
  `Backoff`, `BootstrapGitOps`, `ApplyProfiles` and `EnableProfiles` are
  blocks of `main` (main.go:267-323) given names of their own, and `Run` is
  `main`. main.go's functions that only run a query and compute on its
  output — `getClusterDesiredState`, `getDesiredField`, `getDesiredTimeout`,
  `getClusterStateByName` and `readDesiredProfiles` — are pure functions of
  that output (`ParseDesiredState`, `DesiredField`, `DesiredTimeout`,
  `ObserveByName`, `Config.Profiles`), since they change nothing the model
  tracks. `getClusterState`'s answer for one listing is the pure function
  `ObserveCluster`, which the method `GetClusterState` is proved against. Each method is proved
  against a pure function of the configuration and the script
  (`ReconcileActions`, `GitOpsActions`, `ProfileActions`, `RunTrace`,
  `RunResultSpec`), and lemmas state the source's promises about those functions.

The model follows main.go. The code never deletes the bootstrap key. It
does not replace an existing key with the same title. It runs no SSH agent session and does
not wait for the registry to settle. It has no cap on delete retries. It
discards the errors of `createCluster`, `deleteCluster`, `writeKubeConfig`,
`generateKeyAndAllowDeployKey`, `enableGitOpsRepository` and `enableProfile`, and only a failure to add the
`flux` key stops the run (`log.Fatal`). The model does exactly that.

One consequence of the filter stage, proved in
`ObservePresentIffUnique`: the cluster is observed Present only when
exactly one listed name equals the desired name. Two equal names join to
`name\nname`, which is not the name, and read as Absent.

## Model

| member | source | states |
|---|---|---|
| Text.TrimLeftShape | main.go:89 | the left trim is the longest suffix not starting with Go white space; what it drops is all white space |
| Text.TrimRightShape | main.go:89 | the right trim is the longest prefix not ending with Go white space; what it drops is all white space |
| Text.TrimSpace | main.go:70 | `strings.TrimSpace` yields text with no white space at either end, never longer than its input |
| Text.TrimSpacePadded | main.go:130 | TrimSpace gives back any trimmed text from between arbitrary white-space padding |
| Text.TrimSpaceIdempotent | main.go:89 | TrimSpace leaves trimmed text unchanged and is idempotent |
| Text.IndexOf | main.go:237 | the first occurrence of the separator, None exactly when it does not occur |
| ClusterState.ParseDesiredState | main.go:60-78 | Present iff the read succeeded and its trimmed text is `present`, Absent iff it is `absent`; a failed read is Unknown, never Absent |
| ClusterState.ParseStateText | main.go:23-29 | parsing a state's own text, padded with any white space, gives back that state |
| ClusterState.DesiredField | main.go:80-90 | a field read is empty when the read fails and the read's text without surrounding white space otherwise |
| ClusterState.DesiredFieldPadded | main.go:80-90 | a successful read of a field's text padded with any white space gives back exactly that text |
| ClusterState.DesiredTimeout | main.go:100-107 | the timeout is `25m` when the field is empty and the field unchanged otherwise |
| ClusterState.TimeoutResolved | main.go:100-107 | the timeout is never empty, and resolving an already resolved timeout gives it back |
| ClusterState.FilterIsRepeat | main.go:122-125 | the filtered output is the name plus a line break, repeated once per listed line equal to the name |
| ClusterState.ObserveByName | main.go:117-135 | a failed listing pipeline, and only that, yields Unknown |
| ClusterState.ObservePresentIffUnique | main.go:130-134 | for a trimmed non-empty name, Present iff exactly one listed line equals it, Absent otherwise |
| ClusterState.ObserveClusterMeaning | main.go:109-135 | `ObserveCluster` (`getClusterState` on one listing): an empty desired name or a failed listing gives Unknown; otherwise Present iff the name is listed exactly once |
| DeployKey.KeyTarget | main.go:227-242 | missing token, then missing repository, then no `/` are errors in that order; otherwise owner (no `/`) + `/` + repo is the input |
| DeployKey.KeyTargetRoundTrip | main.go:237-242 | splitting `owner/repo` with a slash-free owner gives back exactly that owner and repo |
| DeployKey.RandomString | main.go:365-374 | the result has length n and every character is one of the 62 alphabet characters |
| DeployKey.BootstrapTitleShape | main.go:343-344 | a 10-character alphabet suffix makes a `push-key-` title of 19 characters, never equal to `flux` |
| Reconcile.BackoffsShape | main.go:280-288 | k unfinished delete rounds alternate delete and a 30-second wait, with k deletes |
| Reconcile.DeleteRoundsShape | main.go:280-288 | n rounds issue n deletes, with a 30-second wait between two deletes and none after the last |
| Reconcile.DecisionTable | main.go:267-296 | Absent/Present creates once (if the template is readable) and deletes nothing; Present/Absent deletes `rounds` times and only waits otherwise; Present/Present only writes the kubeconfig; Absent/Absent or any Unknown issues nothing |
| Reconcile.ReconcileClusterOnly | main.go:267-296 | reconciling issues only create, delete, write-kubeconfig and the backoff wait |
| Reconcile.ProfilesInOrder | main.go:319-322 | each profile is enabled exactly once, in list order, and nothing else is issued |
| Reconcile.BootstrapOrder | main.go:300-313 | with a generated key and a valid registry target: keygen, bootstrap key, enable repo, fetch the Flux identity, `flux` key, in that order |
| Reconcile.Runner.BootstrapOrderInRun | main.go:261-314 | in a whole run whose gate is Present, with a generated key and a valid registry target: the reconciliation's cluster commands and waits, then keygen, the `push-key-` key, enable repo, fetch the Flux identity and the `flux` key, in that order |
| Reconcile.MisconfiguredRegistry | main.go:227-242 | without a token or a well-formed repository no registry call is made, and adding the `flux` key fails with that error |
| Reconcile.FirstAbsentExists | main.go:280-288 | if some answer at or after i is Absent, a first such answer exists |
| Reconcile.FirstAbsentFrom | main.go:282-284 | the first answer at or after i that observes Absent: all earlier ones are not Absent |
| Reconcile.Runner.GetClusterState | main.go:109-135 | the state the next scripted listing yields; an empty name issues no query |
| Reconcile.Runner.CreateCluster | main.go:137-155 | one create with the template and the defaulted timeout, none if the template cannot be read |
| Reconcile.Runner.DeleteCluster | main.go:157-165 | one delete of the desired name |
| Reconcile.Runner.WriteKubeConfig | main.go:167-175 | one write-kubeconfig for the desired name |
| Reconcile.Runner.Backoff | main.go:285-287 | one 30-second wait |
| Reconcile.Runner.DeleteUntilAbsent | main.go:280-288 | the loop stops at the first Absent answer after a delete, having issued one delete more than the answers before it, with waits in between |
| Reconcile.Runner.Reconcile | main.go:263-296 | the commands of the decision table for the first observation and the desired state, and the number of queries used |
| Reconcile.Runner.AddDeployKey | main.go:227-259 | a failed check issues nothing and returns that error; otherwise one CreateKey on owner/repo, failing only when the registry refuses |
| Reconcile.Runner.GenerateKeyAndAllowDeployKey | main.go:329-345 | keygen, then (if the key was generated and read) the public key under a `push-key-` title; succeeds iff every step does, and otherwise returns the first failing step's error: keygen's, then the key read's, then the registry's |
| Reconcile.Runner.EnableGitOpsRepository | main.go:177-195 | one enable-repo on `git@github.com:` + repository for the desired cluster and region |
| Reconcile.Runner.GetDeployKeyFromFlux | main.go:216-225 | one `fluxctl identity`; the key is its trimmed output, empty when it fails |
| Reconcile.Runner.EnableProfile | main.go:197-214 | one enable-profile command, reporting whether it succeeded |
| Reconcile.Runner.EnableProfiles | main.go:319-322 | the trace grows by exactly the in-order profile commands, whatever each one's outcome |
| Reconcile.Runner.BootstrapGitOps | main.go:298-314 | a fresh observation gates the bootstrap sequence; the result is the `flux` key's error, if any |
| Reconcile.Runner.ApplyProfiles | main.go:316-323 | a fresh observation gates enabling the profiles |
| Reconcile.Runner.Run | main.go:261-327 | the whole run issues `RunTrace` and returns `RunResultSpec`; the bootstrap title is a `push-key-` title; it makes the reconciliation's queries, the bootstrap gate's query, and (unless the `flux` key fails) the profile gate's and the final report's |
| Reconcile.Runner.NoBootstrapUnlessPresent | main.go:298-314 | when the gating observation is not Present, no keygen, registry call, enable-repo or Flux query is issued |
| Reconcile.Runner.FatalSkipsProfiles | main.go:309-323 | a failure to add the `flux` key ends the run fatally, with no profile enabled |
| Reconcile.Runner.UnknownKeepsDeleting | main.go:280-288 | an Unknown answer after the first delete does not end the loop: at least two deletes are issued |
| Reconcile.Runner.DeleteScenario | main.go:261-327 | Present/Absent with the cluster gone after the second delete issues delete, wait, delete, no bootstrap, and reports Absent/Absent |

## Left out

- Reconcile.Runner.DeleteUntilAbsent: requires that some later query answers Absent. main.go's loop has no cap and never ends otherwise, and a verified loop must terminate. `Reconcile.Runner.Reconcile` and `Reconcile.Runner.Run` carry the same hypothesis (`Converges`).
- Process execution, pipes, stdout/stderr wiring and `fmt.Printf`/`log` output: I/O. Each command other than a cluster query appears as one trace entry; a cluster query advances `queries`. The final report is a returned value, not printed text.
- The GitHub client and OAuth2: a foreign library. `CreateKey` succeeds or fails according to a set of refused titles.
- Reading `cluster.yaml` and the environment: inputs. Each `yq read` is an optional string (`Config`), read once, since the file does not change during a run. The `spec.profiles` YAML decoding is an optional list of strings. An unset environment variable is "".
- Splitting `yq` output into lines: the listing is given as its lines without line terminators. The filter stage re-terminates each kept line with a line break, which TrimSpace treats like the original terminator.
- Go strings are byte sequences and TrimSpace decodes them as UTF-8. The model's strings are sequences of Unicode characters, so invalid UTF-8 is not modelled.
- `time.Sleep` is a recorded `Sleep(30)` step that takes no time. `rand.Seed`/`rand.Intn` are a nondeterministic choice of alphabet index.
- The argument lists of ssh-keygen and eksctl create (key type, passphrase, key path) are not modelled beyond what the trace records.
- `eksctl enable repo` and `eksctl enable profile` also pass `--git-email=flux@noreply.gitops` and run with `EKSCTL_EXPERIMENTAL=true` added to the environment (main.go:184-189, 204-210). These are constants of both commands, so the trace entries leave them out.
- The error values of `createCluster`, `deleteCluster`, `writeKubeConfig`, `enableGitOpsRepository` and `enableProfile`: main.go discards them. Only `enableProfile`'s success is returned, to show the loop ignores it.
- `NewSHA1Hash` (SHA-1 is a library primitive, unused by the core) and the commented-out structured `Profile` and its disable branch (dead code).
