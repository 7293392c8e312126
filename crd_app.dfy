/**
  The PackageRepository hooks adapter (pkg/pkgrepository/crd_app.go): the finalizer and
  status hooks a reconciliation engine calls, implemented as read-modify-write cycles
  against the cluster's copy of one PackageRepository.

  The cluster client is a RepositoryStore object: Get, Update and UpdateStatus each
  consume the next scripted outcome (once the script is used up, calls succeed) and are
  recorded in a call log. Update writes the object's metadata and UpdateStatus writes
  only its status, as the status subresource of a custom resource does.

  The helpers containsString and removeString, and the reconciliation engine (NewApp,
  App.Reconcile, SecretRefs), are defined outside this file; their meaning here is
  stated where they are used: list membership, removal of every occurrence, and a
  reconcile outcome and reference set the engine hands back.
*/
module PkgRepositoryApp {
  import opened Wrappers
  import opened KappStatus

  datatype ObjectMeta = ObjectMeta(namespace: string, name: string, finalizers: seq<string>)

  /** PackageRepositoryStatus: the part of an App's status the repository publishes. */
  datatype PackageRepositoryStatus = PackageRepositoryStatus(
    fetch: Option<StageStatus>,
    template: Option<StageStatus>,
    deploy: Option<DeployStatus>,
    genericStatus: GenericStatus,
    consecutiveReconcileSuccesses: int,
    consecutiveReconcileFailures: int)

  datatype PackageRepository = PackageRepository(meta: ObjectMeta, status: PackageRepositoryStatus)

  /** The scripted outcome of one store call. */
  datatype Fault = Succeed | Fail(reason: string)

  datatype StoreCall = GetCall | UpdateCall | UpdateStatusCall

  /** The outcome of the i-th next store call under a script. */
  function FaultAt(script: seq<Fault>, i: nat): Fault
  {
    if i < |script| then script[i] else Succeed
  }

  /** The script left after n calls. */
  function Drop(script: seq<Fault>, n: nat): (rest: seq<Fault>)
  {
    if n >= |script| then [] else script[n..]
  }

  lemma DropDrop(script: seq<Fault>, a: nat, b: nat)
    ensures Drop(Drop(script, a), b) == Drop(script, a + b)
  {
  }

  // ---- the finalizer list ----

  /** containsString, taken to be list membership. */
  predicate ContainsString(list: seq<string>, s: string)
  {
    s in list
  }

  /** removeString, taken to drop every occurrence of s and keep the rest in order. */
  function RemoveString(list: seq<string>, s: string): (r: seq<string>)
    ensures s !in r
    ensures forall x :: x in r ==> x in list
    ensures forall x :: x != s && x in list ==> x in r
    ensures |r| <= |list|
  {
    if list == [] then []
    else if list[0] == s then RemoveString(list[1..], s)
    else [list[0]] + RemoveString(list[1..], s)
  }

  /** Number of copies of s in a list. */
  function Count(list: seq<string>, s: string): nat
  {
    if list == [] then 0 else (if list[0] == s then 1 else 0) + Count(list[1..], s)
  }

  lemma {:induction false} CountAppend(a: seq<string>, b: seq<string>, s: string)
    ensures Count(a + b, s) == Count(a, s) + Count(b, s)
  {
    if a == [] {
      assert a + b == b;
    } else {
      assert (a + b)[1..] == a[1..] + b;
      CountAppend(a[1..], b, s);
    }
  }

  lemma {:induction false} CountZero(list: seq<string>, s: string)
    ensures Count(list, s) == 0 <==> s !in list
  {
    if list != [] {
      CountZero(list[1..], s);
      assert list == [list[0]] + list[1..];
    }
  }

  /** removeString keeps every other entry as often as it was there. */
  lemma {:induction false} RemoveStringKeepsOthers(list: seq<string>, s: string, x: string)
    requires x != s
    ensures Count(RemoveString(list, s), x) == Count(list, x)
  {
    if list != [] {
      RemoveStringKeepsOthers(list[1..], s, x);
      if list[0] != s {
        var rest := RemoveString(list[1..], s);
        assert ([list[0]] + rest)[1..] == rest;
      }
    }
  }

  /** The closure blockDeletion hands to updatePackageRepository (lines 55-57). */
  function AddFinalizer(list: seq<string>, name: string): (r: seq<string>)
    ensures name in r
    ensures |r| >= |list| && r[..|list|] == list
    ensures name in list ==> r == list
    ensures name !in list ==> r == list + [name]
  {
    if ContainsString(list, name) then list else list + [name]
  }

  /** The closure unblockDeletion hands to updatePackageRepository (lines 63-67). */
  function RemoveFinalizers(list: seq<string>, name: string, prevName: string): (r: seq<string>)
    ensures name !in r && prevName !in r
  {
    RemoveString(RemoveString(list, name), prevName)
  }

  /** Adding the finalizer a second time changes nothing, so the list keeps one copy of it
      more than it had, at most. */
  lemma AddFinalizerIdempotent(list: seq<string>, name: string)
    ensures AddFinalizer(AddFinalizer(list, name), name) == AddFinalizer(list, name)
    ensures Count(AddFinalizer(list, name), name) == (if name in list then Count(list, name) else 1)
  {
    if name !in list {
      CountAppend(list, [name], name);
      CountZero(list, name);
      assert [name][1..] == [];
    }
  }

  /** Unblocking removes both finalizer names whichever were present, keeps every other
      entry as often as it was there, and undoes a block. */
  lemma RemoveFinalizersUndoesBlock(list: seq<string>, name: string, prevName: string, other: string)
    requires other != name && other != prevName
    ensures Count(RemoveFinalizers(list, name, prevName), other) == Count(list, other)
    ensures RemoveFinalizers(AddFinalizer(list, name), name, prevName) == RemoveFinalizers(list, name, prevName)
  {
    RemoveStringKeepsOthers(list, name, other);
    RemoveStringKeepsOthers(RemoveString(list, name), prevName, other);
    if name !in list {
      RemoveStringAppendRemoved(list, name);
    }
  }

  lemma {:induction false} RemoveStringAppendRemoved(list: seq<string>, s: string)
    ensures RemoveString(list + [s], s) == RemoveString(list, s)
  {
    if list == [] {
      assert [s][1..] == [];
    } else {
      assert (list + [s])[1..] == list[1..] + [s];
      RemoveStringAppendRemoved(list[1..], s);
    }
  }

  /** The two closures passed to updatePackageRepository. */
  datatype FinalizerEdit = BlockEdit(name: string) | UnblockEdit(name: string, prevName: string)

  /** The repository as the closure leaves it: only the finalizer list changes; a block
      leaves its name present, an unblock leaves neither name. */
  function ApplyEdit(edit: FinalizerEdit, repo: PackageRepository): (r: PackageRepository)
    ensures r.status == repo.status
    ensures r.meta.namespace == repo.meta.namespace && r.meta.name == repo.meta.name
    ensures edit.BlockEdit? ==> edit.name in r.meta.finalizers
    ensures edit.UnblockEdit? ==> edit.name !in r.meta.finalizers && edit.prevName !in r.meta.finalizers
  {
    var fs := repo.meta.finalizers;
    match edit
    case BlockEdit(name) => repo.(meta := repo.meta.(finalizers := AddFinalizer(fs, name)))
    case UnblockEdit(name, prevName) => repo.(meta := repo.meta.(finalizers := RemoveFinalizers(fs, name, prevName)))
  }

  /** The published status built from the engine's status (lines 90-97). */
  function RepositoryStatusOf(s: AppStatus): (r: PackageRepositoryStatus)
    ensures r.fetch == s.fetch && r.template == s.template && r.deploy == s.deploy
    ensures r.genericStatus == s.genericStatus
    ensures r.consecutiveReconcileSuccesses == s.consecutiveReconcileSuccesses
    ensures r.consecutiveReconcileFailures == s.consecutiveReconcileFailures
  {
    PackageRepositoryStatus(s.fetch, s.template, s.deploy, s.genericStatus,
                            s.consecutiveReconcileSuccesses, s.consecutiveReconcileFailures)
  }

  // ---- the outcome of one read-modify-write, as a function of the script ----

  const UpdatingPrefix := "Updating PackageRepository: "
  const FetchingPrefix := "Fetching PackageRepository: "

  /** What one attempt of a store write leaves behind. */
  datatype WriteOutcome = WriteOutcome(err: Option<string>, repo: PackageRepository, calls: seq<StoreCall>, used: nat)

  /** updatePackageRepository (lines 107-123): Get, apply the edit, Update. */
  function EditOutcome(repo: PackageRepository, script: seq<Fault>, edit: FinalizerEdit): (o: WriteOutcome)
    ensures o.used == |o.calls| && 1 <= o.used <= 2
    ensures o.err.None? <==> FaultAt(script, 0).Succeed? && FaultAt(script, 1).Succeed?
    ensures o.err.Some? ==> o.repo == repo
    ensures o.err.None? ==> o.repo == repo.(meta := ApplyEdit(edit, repo).meta)
    ensures FaultAt(script, 0).Fail? ==> o.calls == [GetCall] && o.err == Some(UpdatingPrefix + FaultAt(script, 0).reason)
    ensures FaultAt(script, 0).Succeed? ==> o.calls == [GetCall, UpdateCall]
  {
    if FaultAt(script, 0).Fail? then
      WriteOutcome(Some(UpdatingPrefix + FaultAt(script, 0).reason), repo, [GetCall], 1)
    else if FaultAt(script, 1).Fail? then
      WriteOutcome(Some(UpdatingPrefix + FaultAt(script, 1).reason), repo, [GetCall, UpdateCall], 2)
    else
      WriteOutcome(None, repo.(meta := ApplyEdit(edit, repo).meta), [GetCall, UpdateCall], 2)
  }

  /** updateStatusOnce (lines 84-105): Get, overwrite the status, UpdateStatus. */
  function StatusOutcome(repo: PackageRepository, script: seq<Fault>, status: AppStatus): (o: WriteOutcome)
    ensures o.used == |o.calls| && 1 <= o.used <= 2
    ensures o.err.None? <==> FaultAt(script, 0).Succeed? && FaultAt(script, 1).Succeed?
    ensures o.err.Some? ==> o.repo == repo
    ensures o.err.None? ==> o.repo == repo.(status := RepositoryStatusOf(status))
    ensures FaultAt(script, 0).Fail? ==> o.calls == [GetCall] && o.err == Some(FetchingPrefix + FaultAt(script, 0).reason)
    ensures FaultAt(script, 0).Succeed? ==> o.calls == [GetCall, UpdateStatusCall]
  {
    if FaultAt(script, 0).Fail? then
      WriteOutcome(Some(FetchingPrefix + FaultAt(script, 0).reason), repo, [GetCall], 1)
    else if FaultAt(script, 1).Fail? then
      WriteOutcome(Some(FaultAt(script, 1).reason), repo, [GetCall, UpdateStatusCall], 2)
    else
      WriteOutcome(None, repo.(status := RepositoryStatusOf(status)), [GetCall, UpdateStatusCall], 2)
  }

  /** The attempts updateStatus makes with a budget of attempts left: it stops at the first
      success and otherwise runs the budget out. */
  datatype RetryOutcome = RetryOutcome(errs: seq<Option<string>>, repo: PackageRepository, calls: seq<StoreCall>, rest: seq<Fault>)

  function StatusRetry(repo: PackageRepository, script: seq<Fault>, status: AppStatus, budget: nat): (r: RetryOutcome)
    ensures |r.errs| <= budget
    decreases budget
  {
    if budget == 0 then RetryOutcome([], repo, [], script)
    else
      var o := StatusOutcome(repo, script, status);
      if o.err.None? then RetryOutcome([None], o.repo, o.calls, Drop(script, o.used))
      else
        var tail := StatusRetry(repo, Drop(script, o.used), status, budget - 1);
        RetryOutcome([o.err] + tail.errs, tail.repo, o.calls + tail.calls, tail.rest)
  }

  /** A retry outcome preceded by attempts that failed with errs, making calls. */
  function AfterFailures(errs: seq<Option<string>>, calls: seq<StoreCall>, r: RetryOutcome): RetryOutcome
  {
    RetryOutcome(errs + r.errs, r.repo, calls + r.calls, r.rest)
  }

  /** The same attempts, counted the way the loop of updateStatus runs them: after some
      failed attempts that produced errs and made calls, with budget attempts left. */
  function RetryFrom(repo: PackageRepository, script: seq<Fault>, status: AppStatus, budget: nat,
                     errs: seq<Option<string>>, calls: seq<StoreCall>): (w: RetryOutcome)
    ensures |errs| <= |w.errs| <= |errs| + budget
    ensures budget >= 1 ==> |w.errs| > |errs|
    decreases budget
  {
    if budget == 0 then RetryOutcome(errs, repo, calls, script)
    else
      var o := StatusOutcome(repo, script, status);
      if o.err.None? then RetryOutcome(errs + [None], o.repo, calls + o.calls, Drop(script, o.used))
      else RetryFrom(repo, Drop(script, o.used), status, budget - 1, errs + [o.err], calls + o.calls)
  }

  /** Running the loop from a point is the recursive definition preceded by what the loop
      has done so far. */
  lemma {:induction false} RetryFromIsStatusRetry(repo: PackageRepository, script: seq<Fault>, status: AppStatus,
                                                  budget: nat, errs: seq<Option<string>>, calls: seq<StoreCall>)
    ensures RetryFrom(repo, script, status, budget, errs, calls) == AfterFailures(errs, calls, StatusRetry(repo, script, status, budget))
    decreases budget
  {
    if budget == 0 {
      assert errs + [] == errs && calls + [] == calls;
    } else {
      var o := StatusOutcome(repo, script, status);
      if o.err.Some? {
        var tail := StatusRetry(repo, Drop(script, o.used), status, budget - 1);
        RetryFromIsStatusRetry(repo, Drop(script, o.used), status, budget - 1, errs + [o.err], calls + o.calls);
        AfterFailuresTwice(errs, calls, [o.err], o.calls, tail);
      }
    }
  }

  /** The loop's view of the attempts, starting with nothing done, agrees with the
      recursive definition. */
  lemma RetryFromStart(repo: PackageRepository, script: seq<Fault>, status: AppStatus, budget: nat, calls: seq<StoreCall>)
    ensures var w, r := RetryFrom(repo, script, status, budget, [], calls), StatusRetry(repo, script, status, budget);
      w.errs == r.errs && w.repo == r.repo && w.calls == calls + r.calls && w.rest == r.rest
  {
    RetryFromIsStatusRetry(repo, script, status, budget, [], calls);
    assert [] + StatusRetry(repo, script, status, budget).errs == StatusRetry(repo, script, status, budget).errs;
  }

  /** One attempt of the loop: a success ends it, a failure leaves one attempt fewer. */
  lemma RetryFromStep(repo: PackageRepository, script: seq<Fault>, status: AppStatus, budget: nat,
                      errs: seq<Option<string>>, calls: seq<StoreCall>)
    requires budget >= 1
    ensures var o := StatusOutcome(repo, script, status);
      RetryFrom(repo, script, status, budget, errs, calls) ==
        if o.err.None? then RetryOutcome(errs + [None], o.repo, calls + o.calls, Drop(script, o.used))
        else RetryFrom(repo, Drop(script, o.used), status, budget - 1, errs + [o.err], calls + o.calls)
  {
  }

  lemma AfterFailuresTwice(e1: seq<Option<string>>, c1: seq<StoreCall>, e2: seq<Option<string>>, c2: seq<StoreCall>, r: RetryOutcome)
    ensures AfterFailures(e1, c1, AfterFailures(e2, c2, r)) == AfterFailures(e1 + e2, c1 + c2, r)
  {
    assert e1 + (e2 + r.errs) == (e1 + e2) + r.errs;
    assert c1 + (c2 + r.calls) == (c1 + c2) + r.calls;
  }

  function GetCount(calls: seq<StoreCall>): nat
  {
    if calls == [] then 0 else (if calls[0] == GetCall then 1 else 0) + GetCount(calls[1..])
  }

  lemma {:induction false} GetCountAppend(a: seq<StoreCall>, b: seq<StoreCall>)
    ensures GetCount(a + b) == GetCount(a) + GetCount(b)
  {
    if a == [] {
      assert a + b == b;
    } else {
      assert (a + b)[1..] == a[1..] + b;
      GetCountAppend(a[1..], b);
    }
  }

  /** One attempt begins with exactly one Get. */
  lemma OneGetPerAttempt(repo: PackageRepository, script: seq<Fault>, status: AppStatus)
    ensures GetCount(StatusOutcome(repo, script, status).calls) == 1
  {
    var o := StatusOutcome(repo, script, status);
    if o.used == 1 {
      assert o.calls[1..] == [];
    } else {
      assert o.calls[1..] == [UpdateStatusCall];
      assert o.calls[1..][1..] == [];
    }
  }

  /** updateStatus makes at least one and at most budget attempts; every attempt but the
      last failed; it stops early only on a success. Any error, not only a conflict, is
      retried. */
  lemma {:induction false} StatusRetryAttempts(repo: PackageRepository, script: seq<Fault>, status: AppStatus, budget: nat)
    requires budget >= 1
    ensures var r := StatusRetry(repo, script, status, budget);
      && 1 <= |r.errs| <= budget
      && (forall i :: 0 <= i < |r.errs| - 1 ==> r.errs[i].Some?)
      && (|r.errs| < budget ==> r.errs[|r.errs| - 1].None?)
    decreases budget
  {
    var o := StatusOutcome(repo, script, status);
    if o.err.Some? && budget > 1 {
      var tail := StatusRetry(repo, Drop(script, o.used), status, budget - 1);
      StatusRetryAttempts(repo, Drop(script, o.used), status, budget - 1);
      var r := StatusRetry(repo, script, status, budget);
      assert r.errs == [o.err] + tail.errs;
      assert forall i :: 1 <= i < |r.errs| ==> r.errs[i] == tail.errs[i - 1];
    }
  }

  /** Each attempt of updateStatus issues one Get. */
  lemma {:induction false} StatusRetryGets(repo: PackageRepository, script: seq<Fault>, status: AppStatus, budget: nat)
    ensures var r := StatusRetry(repo, script, status, budget);
      GetCount(r.calls) == |r.errs|
    decreases budget
  {
    if budget >= 1 {
      var o := StatusOutcome(repo, script, status);
      OneGetPerAttempt(repo, script, status);
      if o.err.Some? {
        var tail := StatusRetry(repo, Drop(script, o.used), status, budget - 1);
        StatusRetryGets(repo, Drop(script, o.used), status, budget - 1);
        GetCountAppend(o.calls, tail.calls);
      }
    }
  }

  /** After updateStatus the stored status is the engine's exactly when the last attempt
      succeeded; otherwise the repository is as it was. */
  lemma {:induction false} StatusRetryRepo(repo: PackageRepository, script: seq<Fault>, status: AppStatus, budget: nat)
    requires budget >= 1
    ensures var r := StatusRetry(repo, script, status, budget);
      |r.errs| >= 1 &&
      r.repo == (if r.errs[|r.errs| - 1].None? then repo.(status := RepositoryStatusOf(status)) else repo)
    decreases budget
  {
    var o := StatusOutcome(repo, script, status);
    if o.err.Some? && budget > 1 {
      var tail := StatusRetry(repo, Drop(script, o.used), status, budget - 1);
      StatusRetryRepo(repo, Drop(script, o.used), status, budget - 1);
      var r := StatusRetry(repo, script, status, budget);
      var k := |tail.errs|;
      assert r.errs == [o.err] + tail.errs && r.repo == tail.repo;
      assert |r.errs| == k + 1 && r.errs[k] == tail.errs[k - 1];
    } else if o.err.Some? {
      assert StatusRetry(repo, script, status, budget) == RetryOutcome([o.err], repo, o.calls, Drop(script, o.used));
    } else {
      assert StatusRetry(repo, script, status, budget) == RetryOutcome([None], o.repo, o.calls, Drop(script, o.used));
    }
  }

  /** An attempt whose Get succeeds and whose UpdateStatus fails with reason c is retried
      on the rest of the script. */
  lemma ConflictThen(repo: PackageRepository, status: AppStatus, c: string, rest: seq<Fault>, budget: nat)
    requires budget >= 1
    ensures var r, t := StatusRetry(repo, [Succeed, Fail(c)] + rest, status, budget), StatusRetry(repo, rest, status, budget - 1);
      r.errs == [Some(c)] + t.errs && r.repo == t.repo
  {
    assert Drop([Succeed, Fail(c)] + rest, 2) == rest;
  }

  /** A script in which every attempt's Get succeeds and its UpdateStatus fails, with the
      reasons cs in turn (a run of conflicts, say). */
  function Conflicts(cs: seq<string>): (script: seq<Fault>)
    ensures |script| == 2 * |cs|
  {
    if cs == [] then [] else [Succeed, Fail(cs[0])] + Conflicts(cs[1..])
  }

  /** The errors those attempts report. */
  function ConflictErrors(cs: seq<string>): (errs: seq<Option<string>>)
    ensures |errs| == |cs|
  {
    if cs == [] then [] else [Some(cs[0])] + ConflictErrors(cs[1..])
  }

  /** Fewer failed attempts than the budget, then a success: updateStatus reports each
      failure, then succeeds and stores the engine's status (four conflicts and a success
      within five attempts, for one). */
  lemma {:induction false} ConflictsThenSuccess(repo: PackageRepository, status: AppStatus, cs: seq<string>, budget: nat)
    requires |cs| < budget
    ensures var r := StatusRetry(repo, Conflicts(cs) + [Succeed, Succeed], status, budget);
      r.errs == ConflictErrors(cs) + [None] && r.repo == repo.(status := RepositoryStatusOf(status))
    decreases cs
  {
    var s := Conflicts(cs) + [Succeed, Succeed];
    if cs == [] {
      assert s == [Succeed, Succeed];
      assert StatusRetry(repo, s, status, budget).errs == [None];
    } else {
      var rest := Conflicts(cs[1..]) + [Succeed, Succeed];
      assert s == [Succeed, Fail(cs[0])] + rest;
      ConflictThen(repo, status, cs[0], rest, budget);
      ConflictsThenSuccess(repo, status, cs[1..], budget - 1);
      assert ConflictErrors(cs) + [None] == [Some(cs[0])] + (ConflictErrors(cs[1..]) + [None]);
    }
  }

  /** As many failed attempts as the budget: updateStatus gives up, reports every failure
      and so returns the last one (the fifth of five conflicts, for one), and leaves the
      repository as it was. */
  lemma {:induction false} ConflictsExhaustBudget(repo: PackageRepository, status: AppStatus, cs: seq<string>, rest: seq<Fault>)
    ensures var r := StatusRetry(repo, Conflicts(cs) + rest, status, |cs|);
      r.errs == ConflictErrors(cs) && r.repo == repo && r.rest == rest
    decreases cs
  {
    if cs == [] {
      assert Conflicts(cs) + rest == rest;
    } else {
      var tail := Conflicts(cs[1..]) + rest;
      assert Conflicts(cs) + rest == [Succeed, Fail(cs[0])] + tail;
      assert Drop([Succeed, Fail(cs[0])] + tail, 2) == tail;
      ConflictsExhaustBudget(repo, status, cs[1..], rest);
    }
  }

  // ---- the objects ----

  /** The cluster's copy of one PackageRepository, reached through a client whose calls
      fail as the script says. */
  class RepositoryStore {
    var repo: PackageRepository
    var script: seq<Fault>
    var calls: seq<StoreCall>

    constructor (repo: PackageRepository, script: seq<Fault>)
      ensures this.repo == repo && this.script == script && calls == []
    {
      this.repo := repo;
      this.script := script;
      calls := [];
    }

    /** Get: a copy of the stored repository, or the scripted error. */
    method Get() returns (r: Result<PackageRepository, string>)
      modifies this
      ensures repo == old(repo)
      ensures script == Drop(old(script), 1)
      ensures calls == old(calls) + [GetCall]
      ensures r == if FaultAt(old(script), 0).Succeed? then Success(old(repo)) else Failure(FaultAt(old(script), 0).reason)
    {
      var outcome := FaultAt(script, 0);
      script := Drop(script, 1);
      calls := calls + [GetCall];
      if outcome.Succeed? {
        r := Success(repo);
      } else {
        r := Failure(outcome.reason);
      }
    }

    /** Update: writes the object's metadata; the stored status is left alone. */
    method Update(r: PackageRepository) returns (err: Option<string>)
      modifies this
      ensures repo == if FaultAt(old(script), 0).Succeed? then old(repo).(meta := r.meta) else old(repo)
      ensures script == Drop(old(script), 1)
      ensures calls == old(calls) + [UpdateCall]
      ensures err == if FaultAt(old(script), 0).Succeed? then None else Some(FaultAt(old(script), 0).reason)
    {
      var outcome := FaultAt(script, 0);
      script := Drop(script, 1);
      calls := calls + [UpdateCall];
      if outcome.Succeed? {
        repo := repo.(meta := r.meta);
        err := None;
      } else {
        err := Some(outcome.reason);
      }
    }

    /** UpdateStatus: writes the object's status only. */
    method UpdateStatus(r: PackageRepository) returns (err: Option<string>)
      modifies this
      ensures repo == if FaultAt(old(script), 0).Succeed? then old(repo).(status := r.status) else old(repo)
      ensures script == Drop(old(script), 1)
      ensures calls == old(calls) + [UpdateStatusCall]
      ensures err == if FaultAt(old(script), 0).Succeed? then None else Some(FaultAt(old(script), 0).reason)
    {
      var outcome := FaultAt(script, 0);
      script := Drop(script, 1);
      calls := calls + [UpdateStatusCall];
      if outcome.Succeed? {
        repo := repo.(status := r.status);
        err := None;
      } else {
        err := Some(outcome.reason);
      }
    }
  }

  datatype RefKey = RefKey(kind: string, namespace: string, name: string)

  /** reconcile.Result: whether and after how many seconds to requeue. */
  datatype ReconcileResult = ReconcileResult(requeue: bool, requeueAfter: int)

  /** The reconciliation engine the adapter wraps, reduced to what the adapter reads: its
      status, the references it tracks, and the outcome its next Reconcile returns. */
  class App {
    var status: AppStatus
    var secretRefs: set<RefKey>
    var outcome: (ReconcileResult, Option<string>)

    constructor (status: AppStatus, secretRefs: set<RefKey>, outcome: (ReconcileResult, Option<string>))
      ensures this.status == status && this.secretRefs == secretRefs && this.outcome == outcome
    {
      this.status := status;
      this.secretRefs := secretRefs;
      this.outcome := outcome;
    }

    method Reconcile(force: bool) returns (r: (ReconcileResult, Option<string>))
      ensures r == outcome
    {
      r := outcome;
    }
  }

  /** CRDApp: the hooks of one PackageRepository. The cached finalizers are those of the
      repository object the adapter was built from (pkgrModel), which these hooks never write. */
  class CRDApp {
    const app: App
    const store: RepositoryStore
    const modelFinalizers: seq<string>
    const deleteFinalizerName: string
    const deletePrevFinalizerName: string

    constructor (app: App, store: RepositoryStore, modelFinalizers: seq<string>,
                 deleteFinalizerName: string, deletePrevFinalizerName: string)
      ensures this.app == app && this.store == store && this.modelFinalizers == modelFinalizers
      ensures this.deleteFinalizerName == deleteFinalizerName
      ensures this.deletePrevFinalizerName == deletePrevFinalizerName
    {
      this.app := app;
      this.store := store;
      this.modelFinalizers := modelFinalizers;
      this.deleteFinalizerName := deleteFinalizerName;
      this.deletePrevFinalizerName := deletePrevFinalizerName;
    }

    /** updatePackageRepository (lines 107-123) with one of the two finalizer closures. */
    method UpdatePackageRepository(edit: FinalizerEdit) returns (err: Option<string>)
      modifies store
      ensures var o := EditOutcome(old(store.repo), old(store.script), edit);
        && err == o.err && store.repo == o.repo
        && store.calls == old(store.calls) + o.calls && store.script == Drop(old(store.script), o.used)
    {
      var got := store.Get();
      if got.Failure? {
        return Some(UpdatingPrefix + got.error);
      }
      var existing := ApplyEdit(edit, got.value);
      var updateErr := store.Update(existing);
      if updateErr.Some? {
        DropDrop(old(store.script), 1, 1);
        return Some(UpdatingPrefix + updateErr.value);
      }
      DropDrop(old(store.script), 1, 1);
      return None;
    }

    /** blockDeletion (lines 46-59): nothing is read or written when the cached model
      already carries the finalizer; otherwise the finalizer is appended to the stored
      list unless the freshly fetched copy already has it. */
    method BlockDeletion() returns (err: Option<string>)
      modifies store
      ensures deleteFinalizerName in modelFinalizers ==> err.None? && unchanged(store)
      ensures deleteFinalizerName !in modelFinalizers ==>
        var o := EditOutcome(old(store.repo), old(store.script), BlockEdit(deleteFinalizerName));
        && err == o.err && store.repo == o.repo
        && store.calls == old(store.calls) + o.calls && store.script == Drop(old(store.script), o.used)
      ensures err.None? ==> (deleteFinalizerName in modelFinalizers
        || (deleteFinalizerName in store.repo.meta.finalizers
            && store.repo.meta.finalizers == AddFinalizer(old(store.repo.meta.finalizers), deleteFinalizerName)))
    {
      if ContainsString(modelFinalizers, deleteFinalizerName) {
        return None;
      }
      err := UpdatePackageRepository(BlockEdit(deleteFinalizerName));
    }

    /** unblockDeletion (lines 61-68): removes the current and the previous finalizer name. */
    method UnblockDeletion() returns (err: Option<string>)
      modifies store
      ensures var o := EditOutcome(old(store.repo), old(store.script), UnblockEdit(deleteFinalizerName, deletePrevFinalizerName));
        && err == o.err && store.repo == o.repo
        && store.calls == old(store.calls) + o.calls && store.script == Drop(old(store.script), o.used)
      ensures err.None? ==> (deleteFinalizerName !in store.repo.meta.finalizers
                          && deletePrevFinalizerName !in store.repo.meta.finalizers)
      ensures err.Some? ==> store.repo == old(store.repo)
    {
      err := UpdatePackageRepository(UnblockEdit(deleteFinalizerName, deletePrevFinalizerName));
    }

    /** updateStatusOnce (lines 84-105). */
    method UpdateStatusOnce() returns (err: Option<string>)
      modifies store
      ensures var o := StatusOutcome(old(store.repo), old(store.script), app.status);
        && err == o.err && store.repo == o.repo
        && store.calls == old(store.calls) + o.calls && store.script == Drop(old(store.script), o.used)
    {
      var got := store.Get();
      if got.Failure? {
        return Some(FetchingPrefix + got.error);
      }
      var existing := got.value.(status := RepositoryStatusOf(app.status));
      err := store.UpdateStatus(existing);
      DropDrop(old(store.script), 1, 1);
    }

    /** The loop of updateStatus (lines 72-81) with a given number of attempts: runs
      updateStatusOnce until it succeeds or the attempts run out, and returns the last
      error, or nil after a success. Stated the way the loop counts its attempts. */
    method RetryLoop(attempts: nat) returns (err: Option<string>)
      requires attempts >= 1
      modifies store
      ensures var w := RetryFrom(old(store.repo), old(store.script), app.status, attempts, [], old(store.calls));
        && err == w.errs[|w.errs| - 1] && store.repo == w.repo
        && store.calls == w.calls && store.script == w.rest
    {
      ghost var repo0, st := store.repo, app.status;
      ghost var whole := RetryFrom(repo0, store.script, st, attempts, [], store.calls);
      ghost var doneErrs: seq<Option<string>> := [];
      var lastErr: Option<string> := None;
      var left := attempts;
      while left > 0
        invariant left <= attempts && |doneErrs| == attempts - left
        invariant left < attempts ==> lastErr == doneErrs[|doneErrs| - 1]
        invariant store.repo == repo0 && app.status == st
        invariant whole == RetryFrom(repo0, store.script, st, left, doneErrs, store.calls)
      {
        RetryFromStep(repo0, store.script, st, left, doneErrs, store.calls);
        lastErr := UpdateStatusOnce();
        if lastErr.None? {
          return None;
        }
        doneErrs := doneErrs + [lastErr];
        left := left - 1;
      }
      return lastErr;
    }

    /** The same loop, stated by the recursive definition of the attempts. */
    method UpdateStatusWithin(attempts: nat) returns (err: Option<string>)
      requires attempts >= 1
      modifies store
      ensures var r := StatusRetry(old(store.repo), old(store.script), app.status, attempts);
        && err == r.errs[|r.errs| - 1] && store.repo == r.repo
        && store.calls == old(store.calls) + r.calls && store.script == r.rest
    {
      RetryFromStart(store.repo, store.script, app.status, attempts, store.calls);
      err := RetryLoop(attempts);
    }

    /** updateStatus (lines 70-82): up to five attempts of updateStatusOnce, stopping at
      the first success; after five failures the fifth error is returned. */
    method UpdateStatus(desc: string) returns (err: Option<string>)
      modifies store
      ensures var r := StatusRetry(old(store.repo), old(store.script), app.status, 5);
        && err == r.errs[|r.errs| - 1] && store.repo == r.repo
        && store.calls == old(store.calls) + r.calls && store.script == r.rest
    {
      err := UpdateStatusWithin(5);
    }

    /** Reconcile (lines 125-127): the engine's result, unchanged. */
    method Reconcile(force: bool) returns (r: (ReconcileResult, Option<string>))
      ensures r == app.outcome
    {
      r := app.Reconcile(force);
    }

    /** ResourceRefs (lines 129-131): the engine's tracked references, unchanged. */
    function ResourceRefs(): (refs: set<RefKey>)
      reads this, app
      ensures refs == app.secretRefs
    {
      app.secretRefs
    }
  }
}
