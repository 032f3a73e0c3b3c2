/**
 * Cluster states and the pure decisions main.go takes on the text its
 * pipelines print: the desired state read from `spec.state`, the
 * defaulted creation timeout, and the observed state obtained by filtering
 * the provider's cluster listing for the desired name.
 */
module ClusterState {
  import opened Wrappers
  import opened Text

  /** `State` of main.go:23-29. Unknown comes only from a failed read or a missing name. */
  datatype State = Unknown | Present | Absent

  /** The text each state carries as a Go `State` string. */
  function StateText(s: State): string {
    match s
    case Unknown => "unknown"
    case Present => "present"
    case Absent => "absent"
  }

  /**
   * `getClusterDesiredState`: `out` is what `yq read - spec.state` printed,
   * None when the pipeline failed.
   */
  function ParseDesiredState(out: Option<string>): (r: State)
    ensures r == Present <==> out.Some? && TrimSpace(out.value) == "present"
    ensures r == Absent <==> out.Some? && TrimSpace(out.value) == "absent"
    ensures out.None? ==> r == Unknown
  {
    if out.None? then Unknown
    else
      var text := TrimSpace(out.value);
      if text == "present" then Present
      else if text == "absent" then Absent
      else Unknown
  }

  /** Parsing gives back every state from its own text, whatever white space surrounds it. */
  lemma ParseStateText(s: State, pre: string, post: string)
    requires AllSpace(pre) && AllSpace(post)
    ensures ParseDesiredState(Some(pre + StateText(s) + post)) == s
  {
    TrimSpacePadded(pre, StateText(s), post);
  }

  /** `getDesiredField`: the trimmed output of a `yq read`, or "" when it failed. */
  function DesiredField(out: Option<string>): (r: string)
    ensures Trimmed(r)
    ensures out.None? ==> r == ""
    ensures out.Some? ==> r == TrimSpace(out.value)
  {
    match out
    case None => ""
    case Some(text) => TrimSpace(text)
  }

  /** A successful read padded with any white space yields exactly the field's text. */
  lemma DesiredFieldPadded(pre: string, v: string, post: string)
    requires AllSpace(pre) && AllSpace(post) && Trimmed(v)
    ensures DesiredField(Some(pre + v + post)) == v
  {
    TrimSpacePadded(pre, v, post);
  }

  const DefaultTimeout: string := "25m"

  /** `getDesiredTimeout`: the `timeout` field, or 25 minutes when it is empty. */
  function DesiredTimeout(out: Option<string>): (r: string)
    ensures DesiredField(out) == "" ==> r == DefaultTimeout
    ensures DesiredField(out) != "" ==> r == DesiredField(out)
  {
    var timeout := DesiredField(out);
    if timeout == "" then DefaultTimeout else timeout
  }

  /**
   * The timeout is never empty, and a configuration that already holds the
   * resolved timeout resolves to the same value again.
   */
  lemma TimeoutResolved(out: Option<string>)
    ensures DesiredTimeout(out) != ""
    ensures DesiredTimeout(Some(DesiredTimeout(out))) == DesiredTimeout(out)
  {
    var t := DesiredTimeout(out);
    assert Trimmed(t);
    TrimSpaceIdempotent(t);
  }

  /** The filter stage of `getClusterStateByName`: every listed line equal to `name`, each with its line break. */
  function FilterLines(lines: seq<string>, name: string): string {
    if lines == [] then ""
    else (if lines[0] == name then name + "\n" else "") + FilterLines(lines[1..], name)
  }

  /** How many listed lines are exactly `name`. */
  function Count(lines: seq<string>, name: string): nat {
    if lines == [] then 0
    else (if lines[0] == name then 1 else 0) + Count(lines[1..], name)
  }

  function Repeat(w: string, k: nat): string {
    if k == 0 then "" else w + Repeat(w, k - 1)
  }

  lemma {:induction false} FilterIsRepeat(lines: seq<string>, name: string)
    ensures FilterLines(lines, name) == Repeat(name + "\n", Count(lines, name))
  {
    if lines != [] {
      FilterIsRepeat(lines[1..], name);
      if lines[0] != name {
        assert "" + FilterLines(lines[1..], name) == FilterLines(lines[1..], name);
      }
    }
  }

  /**
   * `getClusterStateByName`: `listing` holds the lines `eksctl get cluster`
   * piped through `yq read - .name` printed, None when that pipeline failed.
   */
  function ObserveByName(name: string, listing: Option<seq<string>>): (r: State)
    ensures r == Unknown <==> listing.None?
  {
    match listing
    case None => Unknown
    case Some(lines) => if TrimSpace(FilterLines(lines, name)) == name then Present else Absent
  }

  /**
   * For a trimmed, non-empty name (the only kind `getDesiredField` yields),
   * the cluster is observed Present exactly when one listed line is its name:
   * none gives Absent, and so do two or more, whose joined output is not the name.
   */
  lemma ObservePresentIffUnique(name: string, lines: seq<string>)
    requires name != "" && Trimmed(name)
    ensures ObserveByName(name, Some(lines)) == Present <==> Count(lines, name) == 1
  {
    FilterIsRepeat(lines, name);
    var k := Count(lines, name);
    if k == 1 {
      RepeatOnceTrims(name);
    } else if k >= 2 {
      RepeatTwiceTrims(name, k);
    }
  }

  lemma RepeatOnceTrims(name: string)
    requires Trimmed(name)
    ensures TrimSpace(Repeat(name + "\n", 1)) == name
  {
    assert Repeat(name + "\n", 1) == [] + name + "\n";
    assert AllSpace("\n");
    TrimSpacePadded([], name, "\n");
  }

  lemma RepeatTwiceTrims(name: string, k: nat)
    requires name != "" && Trimmed(name) && k >= 2
    ensures |TrimSpace(Repeat(name + "\n", k))| > |name|
  {
    var w := name + "\n";
    var out := Repeat(w, k);
    assert Repeat(w, k - 1) == w + Repeat(w, k - 2);
    assert out == w + (w + Repeat(w, k - 2));
    var p := 2 * |name|;
    assert out[p] == name[|name| - 1];
    assert out[0] == name[0];
    TrimSpaceKeeps(out, p);
  }

  /**
   * `getClusterState`: the desired name is read first; an empty name gives
   * Unknown and the provider is not queried.
   */
  function ObserveCluster(nameOut: Option<string>, listing: Option<seq<string>>): (r: State)
  {
    var name := DesiredField(nameOut);
    if name == "" then Unknown else ObserveByName(name, listing)
  }

  /** The whole observation, stated on the listing rather than on the filtered text. */
  lemma ObserveClusterMeaning(nameOut: Option<string>, listing: Option<seq<string>>)
    ensures ObserveCluster(nameOut, listing) == Unknown <==> DesiredField(nameOut) == "" || listing.None?
    ensures ObserveCluster(nameOut, listing) == Present <==>
      DesiredField(nameOut) != "" && listing.Some? && Count(listing.value, DesiredField(nameOut)) == 1
  {
    var name := DesiredField(nameOut);
    if name != "" && listing.Some? {
      ObservePresentIffUnique(name, listing.value);
    }
  }
}
