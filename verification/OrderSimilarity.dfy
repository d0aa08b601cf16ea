/**
 Orders that differ only in the ids under which they took their own requests. The live session applies a
 modification or cancellation request under the id of its event, replay under the id in its payload.
*/
module OrderSimilarity {
  import opened Base
  import opened OrderStateMachine

  /** The id of a request's event, and the id in its payload. Both are digests that contain the intent. */
  function AttemptId(intentId: string): string {
    "#a" + intentId
  }

  function RequestId(intentId: string): string {
    "#u" + intentId
  }

  /** Ids of requests. No broker's id is one of these digests. */
  predicate Own(id: string) {
    |id| >= 2 && id[0] == '#' && (id[1] == 'a' || id[1] == 'u')
  }

  lemma OwnIds(i: string, j: string)
    ensures Own(AttemptId(i)) && Own(RequestId(i)) && AttemptId(i) != RequestId(j)
    ensures AttemptId(i) == AttemptId(j) ==> i == j
    ensures RequestId(i) == RequestId(j) ==> i == j
  {
    assert AttemptId(i)[2..] == i && AttemptId(j)[2..] == j;
    assert RequestId(i)[2..] == i && RequestId(j)[2..] == j;
    assert AttemptId(i)[1] == 'a' && RequestId(j)[1] == 'u';
  }

  function Bare(o: Order): Order {
    o.(evidence := [])
  }

  /** No request of an intent outside `known` has been applied. */
  ghost predicate OnlyKnownRequests(evidence: seq<AppliedEvidence>, known: set<string>) {
    forall i :: i !in known ==> FindEvidence(evidence, AttemptId(i)).None? && FindEvidence(evidence, RequestId(i)).None?
  }

  ghost predicate SameForeignEvidence(a: seq<AppliedEvidence>, b: seq<AppliedEvidence>) {
    forall id :: !Own(id) ==> FindEvidence(a, id) == FindEvidence(b, id)
  }

  ghost predicate Similar(a: Order, b: Order, known: set<string>) {
    && Bare(a) == Bare(b) && SameForeignEvidence(a.evidence, b.evidence)
    && OnlyKnownRequests(a.evidence, known) && OnlyKnownRequests(b.evidence, known)
  }

  /** Two updates with the same content. */
  predicate SameContent(u: Evidence, v: Evidence) {
    u.(updateId := "") == v.(updateId := "")
  }

  // ---------------------------------------------------------------- a step reads evidence through its id only

  /** A transition without the evidence list. */
  function Core(t: Transition): Transition {
    t.(order := Bare(t.order))
  }

  lemma {:induction false} FillReadsCore(a: Order, b: Order, u: Evidence, v: Evidence)
    requires Bare(a) == Bare(b) && SameContent(u, v)
    ensures Core(ApplyFill(a, u)) == Core(ApplyFill(b, v))
  {
  }

  lemma {:induction false} ReconcileReadsCore(a: Order, b: Order, u: Evidence, v: Evidence)
    requires Bare(a) == Bare(b) && SameContent(u, v)
    ensures Core(ApplyReconcileWorking(a, u)) == Core(ApplyReconcileWorking(b, v))
  {
  }

  lemma {:induction false} EndingReadsCore(a: Order, b: Order, u: Evidence, v: Evidence, target: OrderState)
    requires Bare(a) == Bare(b) && SameContent(u, v)
    ensures Core(ApplyReconcileTerminal(a, u, target)) == Core(ApplyReconcileTerminal(b, v, target))
  {
  }

  lemma {:induction false} ModifyReadsCore(a: Order, b: Order, u: Evidence, v: Evidence)
    requires Bare(a) == Bare(b) && SameContent(u, v)
    ensures Core(ApplyModifyRequested(a, u)) == Core(ApplyModifyRequested(b, v))
    ensures Core(ApplyModifyRejected(a, u)) == Core(ApplyModifyRejected(b, v))
  {
  }

  lemma {:induction false} ModifyAcceptedReadsCore(a: Order, b: Order, u: Evidence, v: Evidence)
    requires Bare(a) == Bare(b) && SameContent(u, v)
    ensures Core(ApplyModifyAccepted(a, u)) == Core(ApplyModifyAccepted(b, v))
  {
  }

  lemma {:induction false} CancelReadsCore(a: Order, b: Order, u: Evidence, v: Evidence)
    requires Bare(a) == Bare(b) && SameContent(u, v)
    ensures Core(ApplyCancelRequested(a, u)) == Core(ApplyCancelRequested(b, v))
    ensures Core(ApplyCancelAccepted(a, u)) == Core(ApplyCancelAccepted(b, v))
    ensures Core(ApplyCancelRejected(a, u)) == Core(ApplyCancelRejected(b, v))
  {
  }

  lemma {:induction false} SubmissionReadsCore(a: Order, b: Order, u: Evidence, v: Evidence)
    requires Bare(a) == Bare(b) && SameContent(u, v)
    ensures Core(ApplySubmissionStarted(a, u)) == Core(ApplySubmissionStarted(b, v))
    ensures Core(ApplyAcknowledged(a, u)) == Core(ApplyAcknowledged(b, v))
    ensures Core(ApplyBrokerRejected(a, u)) == Core(ApplyBrokerRejected(b, v))
    ensures Core(ApplyAmbiguous(a, u)) == Core(ApplyAmbiguous(b, v))
  {
  }

  lemma {:induction false} NewStepReadsCore(a: Order, b: Order, u: Evidence, v: Evidence)
    requires Bare(a) == Bare(b) && SameContent(u, v)
    ensures Core(ApplyNew(a, u)) == Core(ApplyNew(b, v))
  {
    hide Core, ApplyFill, ApplyReconcileWorking, ApplyReconcileTerminal, ApplyModifyRequested, ApplyModifyAccepted,
         ApplyModifyRejected, ApplyCancelRequested, ApplyCancelAccepted, ApplyCancelRejected, ApplySubmissionStarted,
         ApplyAcknowledged, ApplyBrokerRejected, ApplyAmbiguous;
    FillReadsCore(a, b, u, v);
    ReconcileReadsCore(a, b, u, v);
    EndingReadsCore(a, b, u, v, Cancelled);
    EndingReadsCore(a, b, u, v, Rejected);
    ModifyReadsCore(a, b, u, v);
    ModifyAcceptedReadsCore(a, b, u, v);
    CancelReadsCore(a, b, u, v);
    SubmissionReadsCore(a, b, u, v);
  }

  /** What a valid order records of an update. */
  lemma {:induction false} FreshStep(o: Order, u: Evidence)
    requires ValidTerms(o) && Fresh(o, u)
    ensures ApplyOrderUpdate(o, u) == ApplyNew(o, u) && RecordsEvidence(o, u, ApplyNew(o, u))
  {
    hide ApplyNew, RecordsEvidence;
    NewStepIsGood(o, u);
  }

  /** Fresh updates of the same content take similar orders to similar orders. */
  lemma {:induction false} SimilarFreshStep(a: Order, b: Order, u: Evidence, v: Evidence)
    requires ValidTerms(a) && ValidTerms(b) && Bare(a) == Bare(b) && SameContent(u, v) && Fresh(a, u) && Fresh(b, v)
    ensures Core(ApplyOrderUpdate(a, u)) == Core(ApplyOrderUpdate(b, v))
    ensures RecordsEvidence(a, u, ApplyOrderUpdate(a, u)) && RecordsEvidence(b, v, ApplyOrderUpdate(b, v))
  {
    hide ApplyNew, RecordsEvidence, ValidTerms, ApplyOrderUpdate;
    NewStepReadsCore(a, b, u, v);
    FreshStep(a, u);
    FreshStep(b, v);
  }

  /** Recording one more item is seen under its id only. */
  lemma {:induction false} ForeignItemKeepsSame(a: seq<AppliedEvidence>, b: seq<AppliedEvidence>, item: AppliedEvidence,
                                                known: set<string>)
    requires SameForeignEvidence(a, b) && OnlyKnownRequests(a, known) && OnlyKnownRequests(b, known)
    requires !Own(item.updateId)
    ensures SameForeignEvidence(a + [item], b + [item])
    ensures OnlyKnownRequests(a + [item], known) && OnlyKnownRequests(b + [item], known)
  {
    hide FindEvidence, Own;
    forall id ensures FindEvidence(a + [item], id)
                      == if FindEvidence(a, id).Some? then FindEvidence(a, id)
                         else if item.updateId == id then Some(item.fingerprint) else None
      ensures FindEvidence(b + [item], id)
              == if FindEvidence(b, id).Some? then FindEvidence(b, id)
                 else if item.updateId == id then Some(item.fingerprint) else None
    {
      FindEvidenceAfterAppend(a, item, id);
      FindEvidenceAfterAppend(b, item, id);
    }
    forall i ensures AttemptId(i) != item.updateId && RequestId(i) != item.updateId {
      OwnIds(i, i);
    }
  }

  lemma {:induction false} OwnItemIsUnseen(a: seq<AppliedEvidence>, item: AppliedEvidence, intentId: string, known: set<string>)
    requires OnlyKnownRequests(a, known) && item.updateId in {AttemptId(intentId), RequestId(intentId)}
    ensures OnlyKnownRequests(a + [item], known + {intentId})
    ensures forall id :: !Own(id) ==> FindEvidence(a + [item], id) == FindEvidence(a, id)
  {
    hide FindEvidence, Own;
    forall id ensures FindEvidence(a + [item], id)
                      == if FindEvidence(a, id).Some? then FindEvidence(a, id)
                         else if item.updateId == id then Some(item.fingerprint) else None
    {
      FindEvidenceAfterAppend(a, item, id);
    }
    forall i | i !in known + {intentId} ensures AttemptId(i) != item.updateId && RequestId(i) != item.updateId {
      OwnIds(i, intentId);
      OwnIds(intentId, i);
    }
    OwnIds(intentId, intentId);
  }

  /** Main result: a broker's update has the same effect on both orders, and leaves them similar. */
  lemma {:induction false} SimilarUnderUpdate(a: Order, b: Order, u: Evidence, known: set<string>)
    requires ValidTerms(a) && ValidTerms(b) && Similar(a, b, known) && !Own(u.updateId)
    ensures var r, q := ApplyOrderUpdate(a, u), ApplyOrderUpdate(b, u);
            Core(r) == Core(q) && Similar(r.order, q.order, known)
  {
    hide ValidTerms, ApplyNew, OnlyKnownRequests, FindEvidence, Own;
    if u.updateId == "" || FindEvidence(a.evidence, u.updateId).None? {
      SimilarFreshStep(a, b, u, u);
      ForeignItemKeepsSame(a.evidence, b.evidence, AppliedEvidence(u.updateId, u.Fingerprint()), known);
    }
  }

  /** A request of an intent not yet known has the same effect on both orders, each under its own id. */
  lemma {:induction false} SimilarUnderRequest(a: Order, b: Order, u: Evidence, v: Evidence, intentId: string, known: set<string>)
    requires ValidTerms(a) && ValidTerms(b) && Similar(a, b, known) && intentId !in known
    requires SameContent(u, v) && u.updateId == AttemptId(intentId) && v.updateId == RequestId(intentId)
    ensures var r, q := ApplyOrderUpdate(a, u), ApplyOrderUpdate(b, v);
            Core(r) == Core(q) && Similar(r.order, q.order, known + {intentId})
  {
    hide ValidTerms, ApplyNew, FindEvidence, Own, AttemptId, RequestId;
    SimilarFreshStep(a, b, u, v);
    OwnItemIsUnseen(a.evidence, AppliedEvidence(u.updateId, u.Fingerprint()), intentId, known);
    OwnItemIsUnseen(b.evidence, AppliedEvidence(v.updateId, v.Fingerprint()), intentId, known);
    hide ApplyOrderUpdate;
    SimilarGrows(a, b, known, intentId);
  }

  lemma SimilarGrows(a: Order, b: Order, known: set<string>, intentId: string)
    requires Similar(a, b, known)
    ensures Similar(a, b, known + {intentId})
  {
  }
}
