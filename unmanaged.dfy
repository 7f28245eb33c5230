/** The dispatcher for resources that a federated resource no longer manages:
    for each member cluster it either deletes the resource or strips the managed
    label from it.  Each request bumps the shared dispatcher's count of initiated
    operations and launches a per-cluster operation; the operation reports its
    progress, talks to the cluster, and turns the answer into a status, reporting
    a failure exactly once. */
module Unmanaged {
  import opened Wrappers
  import opened Errors

  /** The statuses a per-cluster operation of this dispatcher returns (the other
      reconciliation statuses are never produced here). */
  datatype ReconciliationStatus = StatusAllOK | StatusError

  /** The reason code handed to the recorder with a failed operation. */
  datatype Reason = DeletionFailed | LabelRemovalFailed

  /** A namespaced name; printed as "namespace/name", or just the name when the
      namespace is empty. */
  datatype QualifiedName = QualifiedName(namespace: string, name: string)
  {
    function String(): (s: string)
      ensures namespace == "" ==> s == name
      ensures namespace != "" ==> |s| == |namespace| + 1 + |name| && s[|namespace|] == '/'
      ensures namespace != "" ==> s[..|namespace|] == namespace && s[|namespace| + 1..] == name
    {
      if namespace == "" then name else namespace + "/" + name
    }
  }

  /** What a per-cluster operation leaves behind besides its status: a progress
      event for the recorder, a progress log line, a failure given to the
      recorder with its reason, or a failure given to the process-wide error
      handler. */
  datatype Notice =
    | EventRecorded(cluster: string, operation: string, progress: string)
    | Logged(line: string)
    | OperationErrorRecorded(reason: Reason, cluster: string, operation: string, err: Error)
    | ErrorHandled(err: Error)

  /** The request an operation sends to the member cluster. */
  datatype Request =
    | DeleteRequest(namespace: string, name: string)
    | UpdateRequest(namespace: string, obj: ObjectValue)

  /** One run of a per-cluster operation: the request it sent, what it reported,
      and the status it returned. */
  datatype Run = Run(request: Request, notices: seq<Notice>, status: ReconciliationStatus)

  /** Whether a notice reports a failure. */
  predicate IsFailureReport(n: Notice) {
    n.OperationErrorRecorded? || n.ErrorHandled?
  }

  /** How many failure reports a sequence of notices holds. */
  function FailureReports(ns: seq<Notice>): (k: nat)
    ensures k <= |ns|
    ensures k == 0 <==> forall i :: 0 <= i < |ns| ==> !IsFailureReport(ns[i])
  {
    if ns == [] then 0
    else FailureReports(ns[..|ns| - 1]) + (if IsFailureReport(ns[|ns| - 1]) then 1 else 0)
  }

  /** Failure reports of two runs of notices add up. */
  lemma {:induction false} FailureReportsAppend(a: seq<Notice>, b: seq<Notice>)
    ensures FailureReports(a + b) == FailureReports(a) + FailureReports(b)
    decreases |b|
  {
    if b != [] {
      var b' := b[..|b| - 1];
      assert (a + b)[..|a + b| - 1] == a + b';
      FailureReportsAppend(a, b');
    } else {
      assert a + b == a;
    }
  }

  /** The error a failure report carries, with the message the operation put
      around it taken off. */
  function ReportedError(n: Notice): Error
    requires IsFailureReport(n)
  {
    if n.OperationErrorRecorded? then n.err
    else if n.err.Wrapped? then n.err.cause
    else n.err
  }

  /** The event template: "<verb> <kind> <quoted name> in cluster <quoted cluster>". */
  function EventMessage(verb: string, kind: string, name: string, cluster: string): (m: string)
    ensures |m| > |verb| + |kind| + 2
    ensures m[..|verb| + |kind| + 2] == verb + " " + kind + " "
  {
    verb + " " + kind + " " + Quote(name) + " in cluster " + Quote(cluster)
  }

  /** `wrapOperationError`: the error wrapped under "Failed to " and the event
      template filled with the operation. */
  function WrapOperationError(err: Error, operation: string, kind: string, name: string, cluster: string): (w: Error)
    ensures w.Wrapped? && w.cause == err && Cause(w) == Cause(err)
    ensures |w.message| > 10 && w.message[..10] == "Failed to "
  {
    Wrapped("Failed to " + EventMessage(operation, kind, name, cluster), err)
  }

  /** Past the verb and the kind, a filled-in template holds the quoted name,
      then the cluster part. */
  lemma EventMessageSuffix(verb: string, kind: string, name: string, cluster: string)
    ensures EventMessage(verb, kind, name, cluster)[|verb| + |kind| + 2..]
            == Quote(name) + (" in cluster " + Quote(cluster))
  {
    var head := verb + " " + kind + " ";
    assert EventMessage(verb, kind, name, cluster) == head + (Quote(name) + (" in cluster " + Quote(cluster)));
  }

  /** The name and the cluster can be read back from a filled-in template: two
      messages for the same verb and kind agree only when they name the same
      resource in the same cluster. */
  lemma EventMessageInjective(verb: string, kind: string, name: string, cluster: string,
                              name': string, cluster': string)
    requires EventMessage(verb, kind, name, cluster) == EventMessage(verb, kind, name', cluster')
    ensures name == name' && cluster == cluster'
  {
    var tail := " in cluster " + Quote(cluster);
    var tail' := " in cluster " + Quote(cluster');
    EventMessageSuffix(verb, kind, name, cluster);
    EventMessageSuffix(verb, kind, name', cluster');
    ReadQuotedOfQuote(name, tail);
    ReadQuotedOfQuote(name', tail');
    assert tail[12..] == Quote(cluster);
    assert tail'[12..] == Quote(cluster');
    QuoteInjective(cluster, cluster');
  }

  /** The wrapped error names the operation, the resource and the cluster
      unambiguously: equal wrapped errors of one operation and kind come from the
      same error about the same resource in the same cluster. */
  lemma WrapOperationErrorInjective(err: Error, operation: string, kind: string, name: string, cluster: string,
                                    err': Error, name': string, cluster': string)
    requires WrapOperationError(err, operation, kind, name, cluster)
             == WrapOperationError(err', operation, kind, name', cluster')
    ensures err == err' && name == name' && cluster == cluster'
  {
    var m := EventMessage(operation, kind, name, cluster);
    var m' := EventMessage(operation, kind, name', cluster');
    assert ("Failed to " + m)[10..] == m;
    assert ("Failed to " + m')[10..] == m';
    EventMessageInjective(operation, kind, name, cluster, name', cluster');
  }

  /** A Kubernetes object as a value: namespace, name, labels and the rest of its
      content. */
  datatype ObjectValue = ObjectValue(namespace: string, name: string, labels: map<string, string>, content: string)

  /** The label that marks a member-cluster resource as managed by the federation. */
  const ManagedLabelKey: string := "kubefed.io/managed"

  /** An unstructured object that the informer cache holds and hands out by
      reference. */
  class Unstructured {
    var namespace: string
    var name: string
    var labels: map<string, string>
    var content: string

    constructor (v: ObjectValue)
      ensures Value() == v
    {
      namespace, name, labels, content := v.namespace, v.name, v.labels, v.content;
    }

    function Value(): ObjectValue
      reads this
    {
      ObjectValue(namespace, name, labels, content)
    }

    /** `DeepCopy`: a new object with the same value, sharing nothing. */
    method DeepCopy() returns (c: Unstructured)
      ensures fresh(c) && c.Value() == Value()
    {
      c := new Unstructured(Value());
    }

    /** Strips the managed label, leaving every other label and field alone. */
    method RemoveManagedLabel()
      modifies this
      ensures Value() == old(Value()).(labels := old(labels) - {ManagedLabelKey})
    {
      labels := labels - {ManagedLabelKey};
    }
  }

  /** A per-cluster operation launched by the dispatcher. */
  datatype ClusterOperation =
    | DeleteOperation(cluster: string)
    | LabelRemoval(cluster: string, source: Unstructured)

  /** One step of the shared dispatcher's history. */
  datatype DispatchEvent = Initiated | Launched(op: ClusterOperation)

  /** How many initiations a history holds. */
  function Initiations(trace: seq<DispatchEvent>): (k: nat)
    ensures k <= |trace|
  {
    if trace == [] then 0
    else Initiations(trace[..|trace| - 1]) + (if trace[|trace| - 1].Initiated? then 1 else 0)
  }

  /** Whether every launch in a history comes right after an initiation. */
  predicate LaunchesInitiated(trace: seq<DispatchEvent>) {
    forall i :: 0 <= i < |trace| && trace[i].Launched? ==> 0 < i && trace[i - 1].Initiated?
  }

  /** How many launches a history holds. */
  function Launches(trace: seq<DispatchEvent>): (k: nat)
    ensures k <= |trace|
  {
    if trace == [] then 0
    else Launches(trace[..|trace| - 1]) + (if trace[|trace| - 1].Launched? then 1 else 0)
  }

  /** In a history where every launch follows an initiation there are never more
      launches than initiations, so the count the dispatcher waits for covers
      every operation launched. */
  lemma {:induction false} LaunchesCounted(trace: seq<DispatchEvent>)
    requires LaunchesInitiated(trace)
    ensures Launches(trace) <= Initiations(trace)
    ensures trace != [] && trace[|trace| - 1].Initiated? ==> Launches(trace) < Initiations(trace)
  {
    if trace != [] {
      var init := trace[..|trace| - 1];
      assert LaunchesInitiated(init) by {
        forall i | 0 <= i < |init| && init[i].Launched?
          ensures 0 < i && init[i - 1].Initiated?
        {
          assert trace[i] == init[i];
        }
      }
      LaunchesCounted(init);
      if trace[|trace| - 1].Launched? {
        assert init[|init| - 1] == trace[|trace| - 2];
      }
    }
  }

  /** The dispatcher the unmanaged dispatcher shares: it counts the operations
      initiated and launches them. */
  class OperationDispatcher {
    var operationsInitiated: nat
    var trace: seq<DispatchEvent>

    ghost predicate Valid()
      reads this
    {
      operationsInitiated == Initiations(trace) && LaunchesInitiated(trace)
    }

    constructor ()
      ensures Valid() && operationsInitiated == 0 && trace == []
    {
      operationsInitiated := 0;
      trace := [];
    }

    /** `incrementOperationsInitiated`: one more operation to wait for. */
    method IncrementOperationsInitiated()
      requires Valid()
      modifies this
      ensures Valid()
      ensures operationsInitiated == old(operationsInitiated) + 1
      ensures trace == old(trace) + [Initiated]
    {
      operationsInitiated := operationsInitiated + 1;
      trace := trace + [Initiated];
      assert trace[..|trace| - 1] == old(trace);
    }

    /** Starts a per-cluster operation; it may only follow its initiation. */
    method Launch(op: ClusterOperation)
      requires Valid() && trace != [] && trace[|trace| - 1].Initiated?
      modifies this
      ensures Valid()
      ensures operationsInitiated == old(operationsInitiated)
      ensures trace == old(trace) + [Launched(op)]
    {
      trace := trace + [Launched(op)];
      assert trace[..|trace| - 1] == old(trace);
    }
  }

  /** The unmanaged dispatcher: the shared dispatcher, the target resource and
      its kind, and whether an event recorder is attached. */
  class UnmanagedDispatcher {
    const dispatcher: OperationDispatcher
    const targetName: QualifiedName
    const targetKind: string
    const hasRecorder: bool

    constructor (dispatcher: OperationDispatcher, hasRecorder: bool, targetKind: string, targetName: QualifiedName)
      ensures this.dispatcher == dispatcher && this.hasRecorder == hasRecorder
      ensures this.targetKind == targetKind && this.targetName == targetName
    {
      this.dispatcher := dispatcher;
      this.hasRecorder := hasRecorder;
      this.targetKind := targetKind;
      this.targetName := targetName;
    }

    /** Requests deletion of the target in a cluster: counts the operation once,
        then launches it. */
    method Delete(cluster: string)
      requires dispatcher.Valid()
      modifies dispatcher
      ensures dispatcher.Valid()
      ensures dispatcher.operationsInitiated == old(dispatcher.operationsInitiated) + 1
      ensures dispatcher.trace == old(dispatcher.trace) + [Initiated, Launched(DeleteOperation(cluster))]
    {
      dispatcher.IncrementOperationsInitiated();
      dispatcher.Launch(DeleteOperation(cluster));
    }

    /** Requests removal of the managed label from a cluster's copy of the target:
        counts the operation once, then launches it. */
    method RemoveManagedLabel(cluster: string, clusterObj: Unstructured)
      requires dispatcher.Valid()
      modifies dispatcher
      ensures dispatcher.Valid()
      ensures dispatcher.operationsInitiated == old(dispatcher.operationsInitiated) + 1
      ensures dispatcher.trace == old(dispatcher.trace) + [Initiated, Launched(LabelRemoval(cluster, clusterObj))]
    {
      dispatcher.IncrementOperationsInitiated();
      dispatcher.Launch(LabelRemoval(cluster, clusterObj));
    }

    /** The dispatcher's `wrapOperationError`: the target's printed name goes in.
        The error handler prints the result's text, which starts with
        "Failed to <operation> <kind> ", and the original error stays its cause. */
    function WrapError(err: Error, cluster: string, operation: string): (w: Error)
      ensures w.Wrapped? && w.cause == err
      ensures var head := "Failed to " + operation + " " + targetKind + " ";
              |Text(w)| > |head| && Text(w)[..|head|] == head
    {
      var m := EventMessage(operation, targetKind, targetName.String(), cluster);
      var w := WrapOperationError(err, operation, targetKind, targetName.String(), cluster);
      var head := "Failed to " + operation + " " + targetKind + " ";
      assert w.message == "Failed to " + m;
      assert m[..|operation| + |targetKind| + 2] == operation + " " + targetKind + " ";
      assert w.message[..|head|] == head;
      assert Text(w)[..|w.message| + 2] == w.message + ": ";
      assert Text(w)[..|head|] == w.message[..|head|];
      w
    }

    /** The one progress notice an operation gives before it acts: an event for
        the recorder, or else a log line from the event template. */
    function Progress(cluster: string, operation: string, progress: string): (n: Notice)
      ensures !IsFailureReport(n)
      ensures hasRecorder ==> n == EventRecorded(cluster, operation, progress)
      ensures !hasRecorder ==> n == Logged(EventMessage(progress, targetKind, targetName.String(), cluster))
    {
      if hasRecorder then EventRecorded(cluster, operation, progress)
      else Logged(EventMessage(progress, targetKind, targetName.String(), cluster))
    }

    /** What an operation does with the error left after the call: none gives
        success with no report; an error gives failure and one report, to the
        recorder with its reason or, without a recorder, wrapped to the error
        handler. */
    function Conclude(reason: Reason, cluster: string, operation: string, err: Option<Error>)
      : (r: (ReconciliationStatus, seq<Notice>))
      ensures r.0 == StatusAllOK <==> err.None?
      ensures FailureReports(r.1) == |r.1| == (if err.None? then 0 else 1)
      ensures err.Some? ==> ReportedError(r.1[0]) == err.value
      ensures err.Some? && hasRecorder ==> r.1[0] == OperationErrorRecorded(reason, cluster, operation, err.value)
      ensures err.Some? && !hasRecorder ==> r.1[0] == ErrorHandled(WrapError(err.value, cluster, operation))
    {
      match err
      case None => (StatusAllOK, [])
      case Some(e) =>
        if hasRecorder then (StatusError, [OperationErrorRecorded(reason, cluster, operation, e)])
        else (StatusError, [ErrorHandled(WrapError(e, cluster, operation))])
    }

    /** The deletion operation for one cluster, given the cluster's answer to the
        delete request.  A "not found" answer means the resource is already gone
        and counts as success. */
    function DeleteRun(cluster: string, answer: Option<Error>): (r: Run)
      ensures r.request == DeleteRequest(targetName.namespace, targetName.name)
      ensures r.status == StatusAllOK <==> answer.None? || IsNotFound(answer.value)
      ensures |r.notices| >= 1 && r.notices[0] == Progress(cluster, "delete", "Deleting")
      ensures r.status == StatusAllOK ==> r.notices == [Progress(cluster, "delete", "Deleting")]
      ensures FailureReports(r.notices) == (if r.status == StatusError then 1 else 0)
      ensures r.status == StatusError ==>
                |r.notices| == 2 && ReportedError(r.notices[1]) == answer.value
                && r.notices[1] == (if hasRecorder then OperationErrorRecorded(DeletionFailed, cluster, "delete", answer.value)
                                    else ErrorHandled(WrapError(answer.value, cluster, "delete")))
    {
      var err := if answer.Some? && IsNotFound(answer.value) then None else answer;
      var (status, reports) := Conclude(DeletionFailed, cluster, "delete", err);
      var notices := [Progress(cluster, "delete", "Deleting")] + reports;
      FailureReportsAppend([notices[0]], reports);
      assert [notices[0]][..0] == [];
      Run(DeleteRequest(targetName.namespace, targetName.name), notices, status)
    }

    /** The label-removal operation for one cluster, given the cluster's answer to
        the update request.  It edits a deep copy and sends that; the object it was
        handed (the informer cache's copy) is left exactly as it was. */
    method LabelRemovalRun(cluster: string, clusterObj: Unstructured, answer: Option<Error>)
      returns (r: Run, sent: Unstructured)
      ensures fresh(sent)
      ensures sent.Value() == clusterObj.Value().(labels := clusterObj.labels - {ManagedLabelKey})
      ensures ManagedLabelKey !in sent.labels
      ensures r.request == UpdateRequest(clusterObj.namespace, sent.Value())
      ensures r.status == StatusAllOK <==> answer.None?
      ensures |r.notices| >= 1 && r.notices[0] == Progress(cluster, "remove managed label from", "Removing managed label from")
      ensures r.status == StatusAllOK ==>
                r.notices == [Progress(cluster, "remove managed label from", "Removing managed label from")]
      ensures FailureReports(r.notices) == (if r.status == StatusError then 1 else 0)
      ensures r.status == StatusError ==>
                |r.notices| == 2 && ReportedError(r.notices[1]) == answer.value
                && r.notices[1] == (if hasRecorder
                                    then OperationErrorRecorded(LabelRemovalFailed, cluster, "remove managed label from", answer.value)
                                    else ErrorHandled(WrapError(answer.value, cluster, "remove managed label from")))
    {
      var progress := Progress(cluster, "remove managed label from", "Removing managed label from");
      sent := clusterObj.DeepCopy();
      sent.RemoveManagedLabel();
      var request := UpdateRequest(sent.namespace, sent.Value());
      var (status, reports) := Conclude(LabelRemovalFailed, cluster, "remove managed label from", answer);
      var notices := [progress] + reports;
      FailureReportsAppend([progress], reports);
      assert [progress][..0] == [];
      r := Run(request, notices, status);
    }
  }
}
