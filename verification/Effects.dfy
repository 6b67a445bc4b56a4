// What one reconcile of the lifecycle controller does to a Pod, in terms of its labels,
// its gate and its finalizers.

module Effects {
  import opened Options
  import opened Pods
  import opened Admission
  import opened Validation
  import opened Server
  import opened Checker
  import opened Controller
  import opened Shapes
  import opened Rewrites

  // What a Pod needs to go online, besides an accepted write.
  predicate MayGoOnline(p: Pod) {
    && !Unparsable(p.labels) && Ids(p.labels) == {} && StayOffline !in p.labels && p.ready
    && match p.conditions
       case NoConditions => true
       case Malformed => false
       case Expects(wanted) => wanted <= p.finalizers + p.protections
  }

  function WentOnline(p: Pod, now: Text): Pod {
    p.(labels := p.labels[ServiceAvailable := now] - {Creating, CompletingMark})
  }

  lemma StoredKeepsOffline(was: Pod, sent: Pod, validated: bool, now: Text)
    requires ServiceAvailable !in was.labels && ServiceAvailable !in sent.labels
    ensures ServiceAvailable !in Stored(was, sent, validated, now).labels
  {
    if Accepted(was, sent, validated, now) && Controlled(sent.labels) {
      ServiceGoesOnlyForOperations(Some(was.labels), sent, now, Stored(was, sent, validated, now).labels);
    }
  }

  // Without a lifecycle an accepted write is stored as it is sent.
  lemma IdleIsStored(was: Pod, sent: Pod, validated: bool, now: Text)
    requires Ids(sent.labels) == {} && !Unparsable(sent.labels) && Accepted(was, sent, validated, now)
    ensures Stored(was, sent, validated, now) == sent
  {
    IdleShape(sent.labels, sent, now);
  }

  // Exactly when a reconcile puts a Pod into service.
  lemma GoesOnlineIff(p: Pod, passed: Option<Stage>, now: Text)
    requires !Available(p)
    ensures Available(Reconciled(p, passed, now)) <==> MayGoOnline(p) && Accepted(p, WentOnline(p, now), true, now)
  {
    if MayGoOnline(p) {
      OnlineIsIdle(p, now);
      if Accepted(p, WentOnline(p, now), true, now) {
        IdleIsStored(p, WentOnline(p, now), true, now);
      }
    } else {
      OtherwiseOffline(p, passed, now);
    }
  }

  lemma OnlineIsIdle(p: Pod, now: Text)
    requires !Unparsable(p.labels) && Ids(p.labels) == {}
    ensures !Unparsable(WentOnline(p, now).labels) && Ids(WentOnline(p, now).labels) == {}
  {
    var l := WentOnline(p, now).labels;
    assert forall k :: k in l ==> k == ServiceAvailable || k in p.labels;
    assert forall q, id :: Has(l, q, id) <==> Has(p.labels, q, id);
    assert Ids(l) <= Ids(p.labels);
  }

  lemma OtherwiseOffline(p: Pod, passed: Option<Stage>, now: Text)
    requires !Available(p) && !MayGoOnline(p)
    ensures !Available(Reconciled(p, passed, now))
  {
    StoredKeepsOffline(p, p.(gate := Up), false, now);
    StoredKeepsOffline(p, p.(labels := Stamp(p.labels, Adds(p.labels, passed), now)), true, now);
    var up := GateWanted(p.labels);
    if up.Some? {
      StoredKeepsOffline(p, p.(gate := GateAt(up.value)), false, now);
      var q := Stored(p, p.(gate := GateAt(up.value)), false, now);
      StoredKeepsOffline(q, q.(labels := q.labels - {ServiceAvailable}), true, now);
    }
    StoredKeepsOffline(p, p.(labels := p.labels - {ServiceAvailable}), true, now);
  }

  // And what it then looks like: the marks of creation and completion are gone, and
  // nothing else has changed.
  lemma OnlineIsStored(p: Pod, passed: Option<Stage>, now: Text)
    requires !Available(p) && Available(Reconciled(p, passed, now))
    ensures Reconciled(p, passed, now) == WentOnline(p, now)
  {
    GoesOnlineIff(p, passed, now);
    OnlineIsIdle(p, now);
    IdleIsStored(p, WentOnline(p, now), true, now);
  }

  // ------------------------------------------------------------------ the gate

  predicate NoneCarries(l: Labels, p: Prefix) {
    forall id :: id in Ids(l) ==> Tag(p, id) !in l
  }

  // Nothing goes before the gate: the lifecycle is there and no check is to be recorded.
  predicate ComesToGate(p: Pod, passed: Option<Stage>) {
    !Unparsable(p.labels) && Ids(p.labels) != {} && Adds(p.labels, passed) == {}
  }

  lemma GateWritten(p: Pod, now: Text, up: bool)
    requires GateWanted(p.labels) == Some(up) && p.gated
    requires p.gate == GateAt(up) || Accepted(p, p.(gate := GateAt(up)), false, now)
    ensures GateThenOffline(p, now).gate == GateAt(up)
  {
  }

  // While a lifecycle prepares, the gate of a gated Pod is put down.
  lemma PreparingLowersGate(p: Pod, passed: Option<Stage>, now: Text, id: Text)
    requires ComesToGate(p, passed) && p.gated && id in Ids(p.labels) && Tag(Preparing, id) in p.labels
    requires p.gate == Down || Accepted(p, p.(gate := Down), false, now)
    ensures Reconciled(p, passed, now).gate == Down
  {
    GateWritten(p, now, false);
  }

  // When a lifecycle completes, and none prepares, it is put up.
  lemma CompletingRaisesGate(p: Pod, passed: Option<Stage>, now: Text, id: Text)
    requires ComesToGate(p, passed) && p.gated && NoneCarries(p.labels, Preparing)
    requires id in Ids(p.labels) && Tag(Completing, id) in p.labels
    requires p.gate == Up || Accepted(p, p.(gate := Up), false, now)
    ensures Reconciled(p, passed, now).gate == Up
  {
    GateWritten(p, now, true);
  }

  // Otherwise a Pod with a lifecycle keeps its gate, and so does a Pod without a gate.
  lemma GateIsLeftAlone(p: Pod, passed: Option<Stage>, now: Text)
    requires !p.gated || (Ids(p.labels) != {} && NoneCarries(p.labels, Completing) && NoneCarries(p.labels, Preparing))
    ensures Reconciled(p, passed, now).gate == p.gate
  {
  }

  // An idle Pod that stays as it is otherwise gets its gate put up.
  lemma IdleRaisesGate(p: Pod, passed: Option<Stage>, now: Text)
    requires !Unparsable(p.labels) && Ids(p.labels) == {} && StayOffline !in p.labels && p.gated && Available(p)
    requires p.gate == Up || Accepted(p, p.(gate := Up), false, now)
    ensures Reconciled(p, passed, now).gate == Up
  {
    if p.gate == Up {
      assert !SomeHas(p.labels, Preparing) && !SomeHas(p.labels, Completing);
    }
  }

  // A Pod that is not ready goes out of service once nothing else is to be written.
  lemma UnreadyGoesOffline(p: Pod, passed: Option<Stage>, now: Text)
    requires ComesToGate(p, passed) && !p.ready && NoneCarries(p.labels, Preparing) && NoneCarries(p.labels, Completing)
    requires Accepted(p, p.(labels := p.labels - {ServiceAvailable}), true, now)
    ensures !Available(Reconciled(p, passed, now))
  {
    StoredOffline(p, now);
  }

  lemma StoredOffline(p: Pod, now: Text)
    requires Accepted(p, p.(labels := p.labels - {ServiceAvailable}), true, now)
    ensures !Available(Stored(p, p.(labels := p.labels - {ServiceAvailable}), true, now))
  {
    var sent := p.(labels := p.labels - {ServiceAvailable});
    if Controlled(sent.labels) {
      ServiceGoesOnlyForOperations(Some(p.labels), sent, now, Stored(p, sent, true, now).labels);
    }
  }

  // ------------------------------------------------------------------- failure

  // A reconcile that reports no failure has done what the Pod called for: the gate is where
  // the lifecycles want it, and a Pod that may go online is online.
  lemma SilenceMovesGate(p: Pod, passed: Option<Stage>, now: Text, id: Text)
    requires !ReconcileFails(p, passed, now) && ComesToGate(p, passed) && p.gated && id in Ids(p.labels)
    ensures Tag(Preparing, id) in p.labels ==> Reconciled(p, passed, now).gate == Down
    ensures Tag(Completing, id) in p.labels && NoneCarries(p.labels, Preparing) ==> Reconciled(p, passed, now).gate == Up
  {
    if Tag(Preparing, id) in p.labels {
      GateWritten(p, now, false);
    } else if Tag(Completing, id) in p.labels && NoneCarries(p.labels, Preparing) {
      GateWritten(p, now, true);
    }
  }

  lemma SilenceGoesOnline(p: Pod, passed: Option<Stage>, now: Text)
    requires !ReconcileFails(p, passed, now) && MayGoOnline(p) && !Available(p)
    ensures Available(Reconciled(p, passed, now))
  {
    GoesOnlineIff(p, passed, now);
  }

  // It fails on labels that it cannot parse and on an annotation that it needs and cannot
  // read, and then leaves the Pod alone.
  lemma UnreadableFails(p: Pod, passed: Option<Stage>, now: Text)
    requires Unparsable(p.labels)
             || (Ids(p.labels) == {} && StayOffline !in p.labels && ServiceAvailable !in p.labels && p.conditions == Malformed)
    ensures ReconcileFails(p, passed, now) && Reconciled(p, passed, now) == p
  {
  }

  // ---------------------------------------------------------------- the checks

  // A passed check is recorded on every lifecycle: pre-checked and a permission of its
  // type, or post-checked.
  lemma ChecksAreRecorded(l: Labels, stage: Stage, now: Text, id: Text)
    requires id in Ids(l)
    ensures var k := Stamp(l, Adds(l, Some(stage)), now);
      && (stage == PreCheckStage && Tag(OperationType, id) in l ==>
            Tag(PreChecked, id) in k && Permission(l[Tag(OperationType, id)]) in k)
      && (stage == PreCheckStage && Tag(OperationType, id) !in l ==> (Tag(PreChecked, id) in k <==> Tag(PreChecked, id) in l))
      && (stage == PostCheckStage ==> Tag(PostChecked, id) in k)
  {
    if Tag(OperationType, id) in l {
      assert Tag(PreChecked, id) in PreCheckAdds(l, Ids(l)) + l.Keys;
      assert Permission(l[Tag(OperationType, id)]) in PreCheckAdds(l, Ids(l)) + l.Keys;
    }
    assert Tag(PostChecked, id) in PostCheckAdds(l, Ids(l)) + l.Keys;
  }

  // And nothing else: a permission is only given for the type of some lifecycle.
  lemma ChecksAddNothingElse(l: Labels, passed: Option<Stage>, now: Text, k: Key)
    requires k in Stamp(l, Adds(l, passed), now) && k !in l
    ensures match passed
            case None => false
            case Some(PostCheckStage) => k.Tag? && k.prefix == PostChecked && k.id in Ids(l)
            case Some(PreCheckStage) =>
              exists id :: id in Ids(l) && Tag(OperationType, id) in l &&
                           (k == Tag(PreChecked, id) || k == Permission(l[Tag(OperationType, id)]))
    ensures Stamp(l, Adds(l, passed), now)[k] == now
  {
  }

  // Nor does it touch a label that is there.
  lemma ChecksKeepLabels(l: Labels, passed: Option<Stage>, now: Text, k: Key)
    requires k in l
    ensures k in Stamp(l, Adds(l, passed), now) && Stamp(l, Adds(l, passed), now)[k] == l[k]
  {
  }
}
