/**
  The allow-lists of the restricted deploy command (pkg/deploy/kapp_restrict.go): which
  raw kapp flags a user may pass through an App's deploy settings, for deploy, inspect
  and delete. The lists are package-level constants; a flag set is built from several
  lists by exec.NewFlagSet, which is defined outside this file and is taken here to
  allow exactly the flags that appear in any of its lists.
*/
module KappRestrict {

  /** kappAllowedSharedOpts (lines 11-33): flags allowed for every kapp command. */
  const SharedOpts: seq<string> := [
    "--column", "--debug", "--json", "--tty",
    "--dangerous-ignore-" + "failing-api-services",
    "--dangerous-scope-to-" + "fallback-allowed-namespaces",
    "--filter", "--filter-age", "--filter-kind", "--filter-kind-name", "--filter-kind-ns",
    "--filter-kind-ns-name", "--filter-name", "--filter-ns",
    "--kube-api-qps", "--kube-api-burst"]

  /** kappAllowedChangeOpts (lines 35-58): flags of commands that change the cluster. */
  const ChangeOpts: seq<string> := [
    "--diff-changes", "--diff-against-last-applied", "--diff-context", "--diff-line-numbers",
    "--diff-mask", "--diff-run", "--diff-summary",
    "--apply-check-interval", "--apply-concurrency", "--apply-default-update-strategy",
    "--apply-ignored", "--apply-timeout",
    "--wait", "--wait-check-interval", "--wait-concurrency", "--wait-ignored", "--wait-timeout"]

  /** The third list of the deploy flag set (lines 62-76). */
  const DeployOnlyOpts: seq<string> := [
    "--dangerous-allow-" + "empty-list-of-resources",
    "--dangerous-override-" + "ownership-of-existing-resources",
    "--into-ns", "--map-ns", "--logs", "--logs-all", "--app-changes-max-to-keep",
    "--labels", "--patch"]

  /** The second list of the inspect flag set (lines 78-82). */
  const InspectOnlyOpts: seq<string> := ["--raw", "--status", "--tree"]

  /** The flags a list holds. */
  function Elems(list: seq<string>): set<string>
  {
    set f | f in list
  }

  /** exec.NewFlagSet(lists...): a flag is allowed when some list names it. */
  function NewFlagSet(lists: seq<seq<string>>): (allowed: set<string>)
    ensures forall f :: f in allowed <==> exists i :: 0 <= i < |lists| && f in lists[i]
  {
    if lists == [] then {}
    else Elems(lists[0]) + NewFlagSet(lists[1..])
  }

  /** kappAllowedDeployFlagSet (line 62): the shared, change and deploy-only flags. */
  function DeployFlagSet(): (allowed: set<string>)
    ensures allowed == Elems(SharedOpts) + Elems(ChangeOpts) + Elems(DeployOnlyOpts)
  {
    NewFlagSetOfThree(SharedOpts, ChangeOpts, DeployOnlyOpts);
    NewFlagSet([SharedOpts, ChangeOpts, DeployOnlyOpts])
  }

  /** kappAllowedInspectFlagSet (line 78): the shared flags and "--raw", "--status", "--tree". */
  function InspectFlagSet(): (allowed: set<string>)
    ensures allowed == Elems(SharedOpts) + {"--raw", "--status", "--tree"}
  {
    NewFlagSetOfTwo(SharedOpts, InspectOnlyOpts);
    assert Elems(InspectOnlyOpts) == {"--raw", "--status", "--tree"};
    NewFlagSet([SharedOpts, InspectOnlyOpts])
  }

  /** kappAllowedDeleteFlagSet (line 84): the shared and change flags. */
  function DeleteFlagSet(): (allowed: set<string>)
    ensures allowed == Elems(SharedOpts) + Elems(ChangeOpts)
  {
    NewFlagSetOfTwo(SharedOpts, ChangeOpts);
    NewFlagSet([SharedOpts, ChangeOpts])
  }

  // ---- the shape of the lists ----

  /** A long-form command-line flag: two dashes and a name. */
  predicate IsLongFlag(f: string)
  {
    |f| > 2 && f[0] == '-' && f[1] == '-'
  }

  predicate NoDuplicates(list: seq<string>)
  {
    forall i, j :: 0 <= i < j < |list| ==> list[i] != list[j]
  }

  predicate Disjoint(a: seq<string>, b: seq<string>)
  {
    forall i, j :: 0 <= i < |a| && 0 <= j < |b| ==> a[i] != b[j]
  }

  /** Every listed flag is a long flag (lines 11-82). */
  lemma ListsHoldLongFlags()
    ensures forall i :: 0 <= i < |SharedOpts| ==> IsLongFlag(SharedOpts[i])
    ensures forall i :: 0 <= i < |ChangeOpts| ==> IsLongFlag(ChangeOpts[i])
    ensures forall i :: 0 <= i < |DeployOnlyOpts| ==> IsLongFlag(DeployOnlyOpts[i])
    ensures forall i :: 0 <= i < |InspectOnlyOpts| ==> IsLongFlag(InspectOnlyOpts[i])
  {
  }

  lemma SharedOptsHaveNoDuplicates()
    ensures NoDuplicates(SharedOpts)
  {
  }

  lemma ChangeOptsHaveNoDuplicates()
    ensures NoDuplicates(ChangeOpts)
  {
  }

  /** No list names a flag twice (lines 11-82). */
  lemma ListsHaveNoDuplicates()
    ensures NoDuplicates(SharedOpts) && NoDuplicates(ChangeOpts)
    ensures NoDuplicates(DeployOnlyOpts) && NoDuplicates(InspectOnlyOpts)
  {
    SharedOptsHaveNoDuplicates();
    ChangeOptsHaveNoDuplicates();
  }

  /** The change flags are not shared flags and not inspect flags. */
  lemma ChangeFlagsAreSeparate()
    ensures Disjoint(ChangeOpts, SharedOpts) && Disjoint(ChangeOpts, InspectOnlyOpts)
  {
  }

  /** The deploy-only flags appear in no other list. */
  lemma DeployOnlyFlagsAreSeparate()
    ensures Disjoint(DeployOnlyOpts, SharedOpts) && Disjoint(DeployOnlyOpts, ChangeOpts)
    ensures Disjoint(DeployOnlyOpts, InspectOnlyOpts)
  {
  }

  lemma DisjointElems(a: seq<string>, b: seq<string>)
    requires Disjoint(a, b)
    ensures Elems(a) * Elems(b) == {}
  {
  }

  // ---- the three flag sets ----

  /** A flag set built from two lists allows the flags of either. */
  lemma NewFlagSetOfTwo(a: seq<string>, b: seq<string>)
    ensures NewFlagSet([a, b]) == Elems(a) + Elems(b)
  {
    assert [a, b][1..] == [b];
    assert [b][1..] == [];
  }

  /** A flag set built from three lists allows the flags of any of them. */
  lemma NewFlagSetOfThree(a: seq<string>, b: seq<string>, c: seq<string>)
    ensures NewFlagSet([a, b, c]) == Elems(a) + Elems(b) + Elems(c)
  {
    assert [a, b, c][1..] == [b, c];
    NewFlagSetOfTwo(b, c);
  }

  /** Whatever delete allows, deploy allows; deploy allows exactly the deploy-only flags
      beyond that. */
  lemma DeleteWithinDeploy()
    ensures DeleteFlagSet() <= DeployFlagSet()
    ensures DeployFlagSet() - DeleteFlagSet() == Elems(DeployOnlyOpts)
  {
    DeployOnlyFlagsAreSeparate();
    DisjointElems(DeployOnlyOpts, SharedOpts);
    DisjointElems(DeployOnlyOpts, ChangeOpts);
  }

  /** A list that shares no flag with two others: a flag set built from those two refuses
      all of its flags. */
  lemma SeparateListRefused(x: seq<string>, a: seq<string>, b: seq<string>)
    requires Disjoint(x, a) && Disjoint(x, b)
    ensures forall f :: f in x ==> f !in NewFlagSet([a, b])
  {
    NewFlagSetOfTwo(a, b);
    DisjointElems(x, a);
    DisjointElems(x, b);
  }

  /** Inspect allows no flag of a changing command; "--wait" in particular (lines 78-82). */
  lemma InspectAllowsNoChangeFlag()
    ensures forall f :: f in ChangeOpts ==> f !in InspectFlagSet()
    ensures "--wait" !in InspectFlagSet()
  {
    ChangeFlagsAreSeparate();
    SeparateListRefused(ChangeOpts, SharedOpts, InspectOnlyOpts);
    assert "--wait" == ChangeOpts[12];
  }

  /** Every shared flag is allowed by all three commands, "--json" and "--filter-ns" among them. */
  lemma SharedFlagsAllowedEverywhere()
    ensures forall f :: f in SharedOpts ==> f in DeployFlagSet() && f in InspectFlagSet() && f in DeleteFlagSet()
    ensures "--json" in DeployFlagSet() && "--json" in InspectFlagSet() && "--json" in DeleteFlagSet()
    ensures "--filter-ns" in DeployFlagSet() && "--filter-ns" in InspectFlagSet() && "--filter-ns" in DeleteFlagSet()
  {
    assert "--json" == SharedOpts[2];
    assert "--filter-ns" == SharedOpts[13];
  }

  /** Deploy-only flags are allowed by deploy and refused by delete and inspect. */
  lemma DeployOnlyFlagsRefusedElsewhere()
    ensures forall f :: f in DeployOnlyOpts ==> f in DeployFlagSet() && f !in DeleteFlagSet() && f !in InspectFlagSet()
  {
    DeployOnlyFlagsAreSeparate();
    NewFlagSetOfThree(SharedOpts, ChangeOpts, DeployOnlyOpts);
    SeparateListRefused(DeployOnlyOpts, SharedOpts, ChangeOpts);
    SeparateListRefused(DeployOnlyOpts, SharedOpts, InspectOnlyOpts);
  }

  /** "--into-ns" and "--patch" may be passed to deploy but not to delete or inspect. */
  lemma IntoNsAndPatchOnlyForDeploy()
    ensures "--into-ns" in DeployFlagSet() && "--into-ns" !in DeleteFlagSet() && "--into-ns" !in InspectFlagSet()
    ensures "--patch" in DeployFlagSet() && "--patch" !in DeleteFlagSet() && "--patch" !in InspectFlagSet()
  {
    DeployOnlyFlagsRefusedElsewhere();
    assert "--into-ns" == DeployOnlyOpts[2];
    assert "--patch" == DeployOnlyOpts[8];
  }

  /** "--kubeconfig" is named by none of the lists. */
  lemma KubeconfigUnlisted()
    ensures "--kubeconfig" !in SharedOpts && "--kubeconfig" !in ChangeOpts
    ensures "--kubeconfig" !in DeployOnlyOpts && "--kubeconfig" !in InspectOnlyOpts
  {
  }

  /** A flag no list names, such as "--kubeconfig", is refused by every command. */
  lemma KubeconfigRefusedEverywhere()
    ensures "--kubeconfig" !in DeployFlagSet() && "--kubeconfig" !in InspectFlagSet()
    ensures "--kubeconfig" !in DeleteFlagSet()
  {
    KubeconfigUnlisted();
    NewFlagSetOfThree(SharedOpts, ChangeOpts, DeployOnlyOpts);
    NewFlagSetOfTwo(SharedOpts, InspectOnlyOpts);
    NewFlagSetOfTwo(SharedOpts, ChangeOpts);
  }
}
