// Traffic and the readiness gate during operations.

module Traffic {
  import opened Options
  import opened Pods
  import opened Admission
  import opened Validation
  import opened Server
  import opened Client
  import opened Checker
  import opened Controller
  import opened Machine
  import opened Shapes

  // Out of service while any lifecycle, of however many, prepares, operates or has
  // operated.  The first two conditions carry the third through every write.
  ghost predicate OffDuringOps(l: Labels) {
    forall id ::
      && (Has(l, Preparing, id) ==> Has(l, Operating, id))
      && !(Has(l, Preparing, id) && Has(l, Operate, id))
      && (Has(l, Preparing, id) || Has(l, Operate, id) || Has(l, Operated, id) ==> ServiceAvailable !in l)
  }

  lemma MarkedHas(l: Labels, ready: bool, now: Text, p: Prefix, id: Text)
    ensures Has(Withdraw(Marks(l, Ids(l), ready, now), l), p, id) <==>
            if id in Ids(l) then MarkAfter(MarkSet(l, id), ready, p) else Has(l, p, id)
  {
    var mid := Marks(l, Ids(l), ready, now);
    assert Tag(p, id) in mid <==> KeyAfterMarks(l, Ids(l), ready, Tag(p, id));
  }

  // The marks of a lifecycle that are in order stay in order.
  lemma MarksStayOff(m: set<Prefix>, ready: bool)
    requires (Preparing in m ==> Operating in m) && !(Preparing in m && Operate in m)
    ensures MarkAfter(m, ready, Preparing) ==> MarkAfter(m, ready, Operating)
    ensures !(MarkAfter(m, ready, Preparing) && MarkAfter(m, ready, Operate))
    ensures MarkAfter(m, ready, Preparing) || MarkAfter(m, ready, Operate) || MarkAfter(m, ready, Operated) ==>
              Preparing in m || Operate in m || Operated in m || CutsTraffic(m)
  {
  }

  lemma FirstLoopService(l: Labels, ready: bool, now: Text)
    ensures ServiceAvailable in Withdraw(Marks(l, Ids(l), ready, now), l) <==>
            ServiceAvailable in l && forall id :: id in Ids(l) ==> !CutsTraffic(MarkSet(l, id))
  {
    assert KeyAfterMarks(l, Ids(l), ready, ServiceAvailable) <==>
           ServiceAvailable in l && forall id :: id in Ids(l) ==> !CutsTraffic(MarkSet(l, id));
  }

  lemma FirstLoopOffAt(l: Labels, ready: bool, now: Text, id: Text)
    requires OffDuringOps(l)
    ensures var one := Withdraw(Marks(l, Ids(l), ready, now), l);
      && (Has(one, Preparing, id) ==> Has(one, Operating, id))
      && !(Has(one, Preparing, id) && Has(one, Operate, id))
      && (Has(one, Preparing, id) || Has(one, Operate, id) || Has(one, Operated, id) ==> ServiceAvailable !in one)
  {
    MarkedHas(l, ready, now, Preparing, id);
    MarkedHas(l, ready, now, Operating, id);
    MarkedHas(l, ready, now, Operate, id);
    MarkedHas(l, ready, now, Operated, id);
    FirstLoopService(l, ready, now);
    assert forall p :: p in MarkSet(l, id) <==> Has(l, p, id);
    MarksStayOff(MarkSet(l, id), ready);
  }

  lemma FirstLoopOff(l: Labels, ready: bool, now: Text)
    requires OffDuringOps(l)
    ensures OffDuringOps(Withdraw(Marks(l, Ids(l), ready, now), l))
    ensures ServiceAvailable in Withdraw(Marks(l, Ids(l), ready, now), l) ==> ServiceAvailable in l
  {
    var one := Withdraw(Marks(l, Ids(l), ready, now), l);
    forall id
      ensures Has(one, Preparing, id) ==> Has(one, Operating, id)
      ensures !(Has(one, Preparing, id) && Has(one, Operate, id))
      ensures Has(one, Preparing, id) || Has(one, Operate, id) || Has(one, Operated, id) ==> ServiceAvailable !in one
    {
      FirstLoopOffAt(l, ready, now, id);
    }
    FirstLoopService(l, ready, now);
  }

  lemma SettleOff(one: Labels, l: Labels, was: Labels, now: Text)
    requires OffDuringOps(one) && ServiceAvailable !in one
    ensures OffDuringOps(Settle(one, l, was, Ids(l), now)) && ServiceAvailable !in Settle(one, l, was, Ids(l), now)
  {
    var two := Settle(one, l, was, Ids(l), now);
    forall k ensures k in two <==> KeyAfterSettle(one, l, was, Ids(l), k) {
    }
    forall id
      ensures Has(two, Preparing, id) <==> Has(one, Preparing, id)
      ensures Has(two, Operating, id) <==> Has(one, Operating, id)
      ensures Has(two, Operate, id) ==> Has(one, Operate, id)
    {
      assert Tag(Preparing, id) in two <==> KeyAfterSettle(one, l, was, Ids(l), Tag(Preparing, id));
      assert Tag(Operating, id) in two <==> KeyAfterSettle(one, l, was, Ids(l), Tag(Operating, id));
    }
  }

  lemma PostCheckOff(one: Labels, l: Labels, now: Text)
    requires OffDuringOps(one)
    ensures OffDuringOps(EnterPostCheck(one, l, Ids(l), now))
  {
    var two := EnterPostCheck(one, l, Ids(l), now);
    forall p, id | p != PostCheck ensures Has(two, p, id) <==> Has(one, p, id) {
    }
  }

  lemma SweepOff(one: Labels, ids: set<Text>)
    requires OffDuringOps(one)
    ensures OffDuringOps(Sweep(one, ids))
  {
    var two := Sweep(one, ids);
    forall p, id ensures Has(two, p, id) <==> Has(one, p, id) && !(id in ids && Swept(p)) {
    }
  }

  lemma OperatedIsOff(l: Labels)
    requires OffDuringOps(l) && !AllHave(l, Completing) && AllHave(l, Operate)
    ensures ServiceAvailable !in l
  {
    var id :| id in Ids(l);
    assert Has(l, Operate, id);
  }

  lemma ConcludedOff(was: Labels, l: Labels, malformed: bool, satisfied: bool, one: Labels, now: Text)
    requires OffDuringOps(l) && OffDuringOps(one) && (ServiceAvailable in one ==> ServiceAvailable in l)
    ensures match Concluded(Some(was), l, malformed, satisfied, one, now) case Fails(_) => true case Writes(k) => OffDuringOps(k)
  {
    SweepOff(one, Ids(l));
    PostCheckOff(one, l, now);
    if !AllHave(l, Completing) && AllHave(l, Operate) {
      OperatedIsOff(l);
      SettleOff(one, l, was, now);
      PostCheckOff(Settle(one, l, was, Ids(l), now), l, now);
    }
  }

  // The rewrite keeps a Pod with operations out of service.
  lemma RewriteOff(was: Labels, sent: Pod, now: Text)
    requires OffDuringOps(sent.labels)
    ensures match Rewritten(Some(was), sent, now) case Fails(_) => true case Writes(l) => OffDuringOps(l)
  {
    var l := sent.labels;
    FirstLoopOff(l, ReadyToOperate(sent), now);
    ConcludedOff(was, l, sent.conditions.Malformed?, FinalizersSatisfied(sent),
                 Withdraw(Marks(l, Ids(l), ReadyToOperate(sent), now), l), now);
  }

  lemma UnanchoredPods(l: Labels, id: Text)
    requires OffDuringOps(l) && Ids(l) == {}
    ensures !Has(l, Operating, id) && !Has(l, Operate, id) && !Has(l, Operated, id) && !Has(l, Preparing, id)
  {
    forall q | Anchor(q) && Has(l, q, id) ensures false {
      AnchoredIsPresent(l, q, id);
    }
  }

  // Finishes wait until the lifecycle is no longer preparing.
  predicate Patient(p: Pod, mv: Move) {
    mv.Finishes? ==> !Has(p.labels, Preparing, mv.a.id)
  }

  // Labels that show the same phases, and no more service, are as good.
  lemma SamePhasesOff(l: Labels, k: Labels)
    requires OffDuringOps(l) && (ServiceAvailable in k ==> ServiceAvailable in l)
    requires forall id :: Has(l, Operating, id) ==> Has(k, Operating, id)
    requires forall p, id :: (p == Preparing || p == Operate || p == Operated) && Has(k, p, id) ==> Has(l, p, id)
    ensures OffDuringOps(k)
  {
  }

  lemma OnlineOff(p: Pod, now: Text)
    requires OffDuringOps(p.labels) && Ids(p.labels) == {}
    ensures OffDuringOps(Online(p, now).labels)
  {
    var l := Online(p, now).labels;
    forall id { UnanchoredPods(p.labels, id); }
    assert forall q, id :: Has(l, q, id) <==> Has(p.labels, q, id);
  }

  lemma ForeignOff(p: Pod, to: Pod)
    requires OffDuringOps(p.labels) && Foreign(p, to)
    ensures OffDuringOps(to.labels)
  {
    forall q, id ensures Has(to.labels, q, id) <==> Has(p.labels, q, id) {
      assert LifecycleKey(Tag(q, id));
    }
    assert LifecycleKey(ServiceAvailable);
    SamePhasesOff(p.labels, to.labels);
  }

  lemma SentOff(p: Pod, mv: Move, now: Text)
    requires OffDuringOps(p.labels) && Enabled(p, mv) && Patient(p, mv)
    ensures OffDuringOps(Sent(p, mv, now).labels)
  {
    match mv
    case Finishes(a) => FinishKeepsOffIffNotPreparing(p.labels, a);
    case GoesOnline => OnlineOff(p, now);
    case Touches(to, _) => ForeignOff(p, to);
    case _ => SamePhasesOff(p.labels, Sent(p, mv, now).labels);
  }

  // A finish may be sent while the lifecycle prepares, and then breaks the condition
  // that carries the others.
  lemma FinishKeepsOffIffNotPreparing(l: Labels, a: Adapter)
    requires OffDuringOps(l)
    ensures OffDuringOps(Finished(l, a)) <==> !Has(l, Preparing, a.id)
  {
    var k := Finished(l, a);
    assert forall q, id :: Has(k, q, id) <==> Has(l, q, id) && !(q == Operating && id == a.id);
    assert OffDuringOps(k) ==> (Has(k, Preparing, a.id) ==> Has(k, Operating, a.id));
  }

  ghost predicate PatientRun(p: Pod, events: seq<Event>)
    decreases |events|
  {
    events == [] ||
    (Enabled(p, events[0].move) && Patient(p, events[0].move) &&
     PatientRun(Next(p, events[0].move, events[0].now), events[1..]))
  }

  lemma StepOff(p: Pod, mv: Move, now: Text)
    requires OffDuringOps(p.labels) && Enabled(p, mv) && Patient(p, mv)
    ensures OffDuringOps(Next(p, mv, now).labels)
  {
    SentOff(p, mv, now);
    RewriteOff(p.labels, Sent(p, mv, now), now);
  }

  // As long as no lifecycle is finished while it prepares, and with any number of them
  // overlapping, traffic is off whenever one of them prepares, operates or has operated.
  lemma {:induction false} OffInEveryRun(p: Pod, events: seq<Event>)
    requires OffDuringOps(p.labels) && PatientRun(p, events)
    ensures OffDuringOps(Run(p, events).labels)
    decreases |events|
  {
    if events != [] {
      StepOff(p, events[0].move, events[0].now);
      OffInEveryRun(Next(p, events[0].move, events[0].now), events[1..]);
    }
  }

  ghost predicate GrantedRun(p: Pod, events: seq<Event>)
    decreases |events|
  {
    events == [] ||
    (Enabled(p, events[0].move) && (events[0].move.Finishes? ==> AllowOps(p.labels, events[0].move.a)) &&
     GrantedRun(Next(p, events[0].move, events[0].now), events[1..]))
  }

  // Operators that finish only what is granted are patient, so the same holds for them.
  lemma {:induction false} GrantedRunsAreOff(p: Pod, events: seq<Event>)
    requires OffDuringOps(p.labels) && GrantedRun(p, events)
    ensures PatientRun(p, events) && OffDuringOps(Run(p, events).labels)
    decreases |events|
  {
    if events != [] {
      StepOff(p, events[0].move, events[0].now);
      GrantedRunsAreOff(Next(p, events[0].move, events[0].now), events[1..]);
    }
  }

  lemma {:induction false} WithoutFinishesIsPatient(p: Pod, events: seq<Event>)
    requires Possible(p, events) && forall i :: 0 <= i < |events| ==> !events[i].move.Finishes?
    ensures PatientRun(p, events)
    decreases |events|
  {
    if events != [] {
      WithoutFinishesIsPatient(Next(p, events[0].move, events[0].now), events[1..]);
    }
  }

  // The same across whole reconciles of the lifecycle controller.
  lemma OffAfterReconcile(p: Pod, passed: Option<Stage>, now: Text)
    requires OffDuringOps(p.labels) && Honest(p.labels, passed)
    ensures OffDuringOps(Reconciled(p, passed, now).labels)
  {
    var events := ReconcileIsMoves(p, passed, now);
    WithoutFinishesIsPatient(p, events);
    OffInEveryRun(p, events);
  }

  // ------------------------------------------------------------ early finishes

  // A lifecycle that is being undone loses all its labels with the next write.
  predicate BeingUndone(l: Labels, a: Adapter) {
    Has(l, Undo, a.id) && a.id in Ids(Finished(l, a))
  }

  lemma SettleKeeps(one: Labels, l: Labels, was: Labels, now: Text, p: Prefix, id: Text)
    requires p == Operating || p == Preparing
    ensures Has(Settle(one, l, was, Ids(l), now), p, id) <==> Has(one, p, id)
  {
    assert KeyAfterSettle(one, l, was, Ids(l), Tag(p, id)) <==> Has(one, p, id);
  }

  lemma SweepAndPostCheckKeep(one: Labels, l: Labels, now: Text, p: Prefix, id: Text)
    requires p == Operating || p == Preparing
    ensures Has(Sweep(one, Ids(l)), p, id) <==> Has(one, p, id)
    ensures Has(EnterPostCheck(one, l, Ids(l), now), p, id) <==> Has(one, p, id)
  {
  }

  lemma ConclusionKeeps(was: Labels, l: Labels, malformed: bool, satisfied: bool, one: Labels, now: Text, p: Prefix, id: Text)
    requires p == Operating || p == Preparing
    ensures match Concluded(Some(was), l, malformed, satisfied, one, now)
            case Fails(_) => true
            case Writes(k) => Has(k, p, id) <==> Has(one, p, id)
  {
    SettleKeeps(one, l, was, now, p, id);
    SweepAndPostCheckKeep(one, l, now, p, id);
    SweepAndPostCheckKeep(Settle(one, l, was, Ids(l), now), l, now, p, id);
  }

  // After the first loop nothing moves the operating and preparing labels.
  lemma RewriteKeepsMarks(was: Labels, sent: Pod, now: Text, p: Prefix, id: Text)
    requires p == Operating || p == Preparing
    ensures match Rewritten(Some(was), sent, now)
            case Fails(_) => true
            case Writes(k) =>
              Has(k, p, id) <==>
              if Controlled(sent.labels) && id in Ids(sent.labels)
              then MarkAfter(MarkSet(sent.labels, id), ReadyToOperate(sent), p)
              else Has(sent.labels, p, id)
  {
    var l := sent.labels;
    MarkedHas(l, ReadyToOperate(sent), now, p, id);
    ConclusionKeeps(was, l, sent.conditions.Malformed?, FinalizersSatisfied(sent),
                    Withdraw(Marks(l, Ids(l), ReadyToOperate(sent), now), l), now, p, id);
  }

  // Exactly when an accepted finish keeps the invariant.
  lemma AcceptedFinishKeepsOffIff(p: Pod, a: Adapter, now: Text)
    requires OffDuringOps(p.labels) && Accepted(p, Sent(p, Finishes(a), now), true, now) && !BeingUndone(p.labels, a)
    ensures OffDuringOps(Next(p, Finishes(a), now).labels) <==> !Has(p.labels, Preparing, a.id)
  {
    FinishKeepsOffIffNotPreparing(p.labels, a);
    if Has(p.labels, Preparing, a.id) {
      EarlyFinishStays(p.labels, Sent(p, Finishes(a), now), a, now);
    } else {
      RewriteOff(p.labels, Sent(p, Finishes(a), now), now);
    }
  }

  lemma EarlyFinishStays(was: Labels, sent: Pod, a: Adapter, now: Text)
    requires sent.labels == Finished(was, a) && Has(was, Preparing, a.id) && !BeingUndone(was, a)
    ensures match Rewritten(Some(was), sent, now)
            case Fails(_) => true
            case Writes(k) => Has(k, Preparing, a.id) && !Has(k, Operating, a.id)
  {
    assert Has(sent.labels, Preparing, a.id) && !Has(sent.labels, Operating, a.id);
    assert Has(sent.labels, Undo, a.id) <==> Has(was, Undo, a.id);
    RewriteKeepsMarks(was, sent, now, Preparing, a.id);
    RewriteKeepsMarks(was, sent, now, Operating, a.id);
  }

  function StrandedKeys(id: Text, t: Text): set<Key> {
    {Control, Tag(OperationType, id), Tag(PreChecked, id), Tag(Preparing, id), Permission(t)}
  }

  // A ready Pod with one lifecycle, which is preparing.
  function PreparingPod(id: Text, t: Text, stamp: Text): (p: Pod)
    ensures p.labels.Keys == StrandedKeys(id, t) + {Tag(Operating, id)}
    ensures p.ready && p.gate == Up && p.conditions == NoConditions
  {
    var keys := StrandedKeys(id, t) + {Tag(Operating, id)};
    Pod(map k | k in keys :: if k == Tag(OperationType, id) then t else stamp, true, Up, true, false, {}, {}, NoConditions)
  }

  // The labels of a lifecycle that was finished while it prepared.
  ghost predicate Stranded(l: Labels, id: Text, t: Text) {
    StrandedKeys(id, t) <= l.Keys <= StrandedKeys(id, t) + {ServiceAvailable}
  }

  lemma StrandedIsIdle(l: Labels, id: Text, t: Text)
    requires Stranded(l, id, t)
    ensures Controlled(l) && !Unparsable(l) && Ids(l) == {} && Idle(l)
  {
    assert forall k :: k in l ==> AnchorId(k) == None && !k.Odd?;
  }

  lemma StrandedIsValid(l: Labels, id: Text, t: Text)
    requires Stranded(l, id, t)
    ensures WellLabelled(l)
  {
    assert Tag(PreChecked, id) in l && KindOf(Tag(PreChecked, id)) == Some(PreCheckedKind);
    assert Permission(t) in l && KindOf(Permission(t)) == Some(PermissionKind);
    assert forall k :: k in l ==> !k.Odd? && !(k.Tag? && (k.prefix == Operated || k.prefix == Done));
  }

  // Without an anchor label the Pod counts as idle, and every write goes through as it is.
  lemma StrandedIsKept(sent: Pod, was: Pod, id: Text, t: Text, now: Text)
    requires Stranded(sent.labels, id, t) && sent.conditions == NoConditions
    ensures Stored(was, sent, true, now) == sent
  {
    StrandedIsIdle(sent.labels, id, t);
    IdleShape(sent.labels, sent, now);
    StrandedIsValid(sent.labels, id, t);
  }

  lemma PreparingIsOff(p: Pod, id: Text, t: Text)
    requires p.labels.Keys == StrandedKeys(id, t) + {Tag(Operating, id)}
    ensures OffDuringOps(p.labels) && Ids(p.labels) == {id}
  {
    AnchoredIsPresent(p.labels, Operating, id);
    assert forall i, q :: Has(p.labels, q, i) ==> i == id && q in {Operating, OperationType, PreChecked, Preparing};
  }

  // A Pod whose lifecycle is finished while it prepares: the preparing label stays, but
  // the Pod counts as idle and goes back into service.
  lemma EarlyFinishLeaks(id: Text, t: Text, now: Text) returns (p: Pod, events: seq<Event>)
    ensures OffDuringOps(p.labels) && Possible(p, events)
    ensures |events| == 2 && events[0].move == Finishes(Adapter(id, t, false)) && events[1].move == GoesOnline
    ensures Ids(p.labels) == {id} && Ids(Next(p, events[0].move, events[0].now).labels) == {}
    ensures Has(Run(p, events).labels, Preparing, id) && Available(Run(p, events))
  {
    p := PreparingPod(id, t, now);
    PreparingIsOff(p, id, t);
    var e, f := Event(Finishes(Adapter(id, t, false)), now), Event(GoesOnline, now);
    events := [e, f];
    RunTwo(p, e, f);
    LeakSteps(p, Sent(p, e.move, now), id, t, now);
  }

  lemma LeakSteps(p: Pod, q: Pod, id: Text, t: Text, now: Text)
    requires p.labels.Keys == StrandedKeys(id, t) + {Tag(Operating, id)}
    requires p.ready && p.conditions == NoConditions && q == p.(labels := p.labels - {Tag(Operating, id)})
    ensures Next(p, Finishes(Adapter(id, t, false)), now) == q && Ids(q.labels) == {} && Enabled(q, GoesOnline)
    ensures Next(q, GoesOnline, now) == Online(q, now)
  {
    assert Stranded(q.labels, id, t) && Stranded(Online(q, now).labels, id, t);
    StrandedIsIdle(q.labels, id, t);
    StrandedIsKept(q, p, id, t, now);
    StrandedIsKept(Online(q, now), q, id, t, now);
  }
}

module GateDiscipline {
  import opened Options
  import opened Pods
  import opened Admission
  import opened Validation
  import opened Server
  import opened Client
  import opened Checker
  import opened Controller
  import opened Machine
  import opened Phases

  // No reconcile puts the gate up while any lifecycle, of however many, prepares.
  lemma PreparingKeepsGateFromRising(p: Pod, passed: Option<Stage>, now: Text)
    requires SomeHas(p.labels, Preparing)
    ensures Reconciled(p, passed, now).gate == Up ==> p.gate == Up
    ensures Reconciled(p, passed, now).gate in {p.gate, Down}
  {
    assert Ids(p.labels) != {};
  }

  // Operations start only with the gate down and no protection finalizer left, or on
  // a Pod that never had the gate condition.
  lemma GrantNeedsGateDown(p: Pod, mv: Move, now: Text)
    requires SixPhased(p.labels) && Enabled(p, mv) && Guarded(p, mv)
    requires PhaseOf(p.labels) != OperatePhase && PhaseOf(Next(p, mv, now).labels) == OperatePhase
    ensures var q := Next(p, mv, now); q.gate == Absent || (q.gate == Down && q.protections == {})
  {
    var q := Next(p, mv, now);
    var ph, id, t :| InPhase(p.labels, ph, id, t);
    MoveFits(p, mv, ph, id, t);
    PhaseStep(p, mv, now, ph, id, t);
    PhaseIsReadable(p.labels, ph, id, t);
    if Accepted(p, Sent(p, mv, now), Validates(mv), now) {
      PhaseIsReadable(q.labels, PhaseAfter(ph, mv, ReadyToOperate(q), FinalizersSatisfied(q)), IdAfter(id, mv), TypeAfter(t, mv));
    }
  }

  // Between the grant and the completing phase nobody moves the gate.
  lemma GateStandsStill(p: Pod, mv: Move, now: Text)
    requires SixPhased(p.labels) && Enabled(p, mv) && Guarded(p, mv)
    requires PhaseOf(p.labels) == OperatePhase || PhaseOf(p.labels) == PostCheckPhase
    ensures Next(p, mv, now).gate == p.gate
  {
    var ph, id, t :| InPhase(p.labels, ph, id, t);
    MoveFits(p, mv, ph, id, t);
    PhaseStep(p, mv, now, ph, id, t);
    PhaseIsReadable(p.labels, ph, id, t);
  }

  // All states of the run but the last are operating or in the post-check.
  ghost predicate UnderwayUntilEnd(p: Pod, events: seq<Event>)
    decreases |events|
  {
    events != [] ==>
      && (PhaseOf(p.labels) == OperatePhase || PhaseOf(p.labels) == PostCheckPhase)
      && UnderwayUntilEnd(Next(p, events[0].move, events[0].now), events[1..])
  }

  // A gate that was down at the grant is down until the run has left the post-check.
  lemma {:induction false} GateStaysDown(p: Pod, events: seq<Event>)
    requires SixPhased(p.labels) && GuardedRun(p, events) && UnderwayUntilEnd(p, events)
    ensures Run(p, events).gate == p.gate
    decreases |events|
  {
    if events != [] {
      GateStandsStill(p, events[0].move, events[0].now);
      RankFalls(p, events[0].move, events[0].now);
      GateStaysDown(Next(p, events[0].move, events[0].now), events[1..]);
    }
  }

  // ----------------------------------------------------------- no dead ends

  // The Pod's surroundings let a lifecycle end: finalizers as expected, none that
  // protects, and a gate the controller can move.
  predicate Favourable(p: Pod) {
    && (match p.conditions
        case NoConditions => true
        case Malformed => false
        case Expects(wanted) => wanted <= p.finalizers)
    && p.protections == {}
    && (p.gated || p.gate == Absent || p.gate == Down)
  }

  // What the lifecycle is waiting for in each phase.
  ghost function Awaited(p: Pod, ph: Phase, id: Text, t: Text): Move {
    match ph
    case PreCheckPhase => Passes(PreCheckStage)
    case PreparingPhase => if NeedsGate(p, false) then MovesGate else Touches(p, true)
    case OperatePhase => Finishes(Adapter(id, t, true))
    case PostCheckPhase => Passes(PostCheckStage)
    case _ => Touches(p, true)
  }

  lemma AwaitedIsEnabled(p: Pod, ph: Phase, id: Text, t: Text)
    requires InPhase(p.labels, ph, id, t) && ph != Resting
    ensures Enabled(p, Awaited(p, ph, id, t)) && Guarded(p, Awaited(p, ph, id, t))
  {
    var l := p.labels;
    PhaseIds(l, ph, id, t);
    match ph
    case PreCheckPhase =>
      assert Tag(PreCheck, id) in l && PrefixOf(Tag(PreCheck, id)) == Some(PreCheck);
      PreCheckAddsShape(l, id, t);
    case PostCheckPhase =>
      assert Tag(PostCheck, id) in l && PrefixOf(Tag(PostCheck, id)) == Some(PostCheck);
      assert Tag(PostChecked, id) in Adds(l, Some(PostCheckStage));
    case PreparingPhase =>
      assert SomeHas(l, Preparing);
    case _ =>
  }

  lemma AwaitedAdvances(p: Pod, now: Text, ph: Phase, id: Text, t: Text)
    requires InPhase(p.labels, ph, id, t) && ph != Resting && Favourable(p)
    ensures var q := Next(p, Awaited(p, ph, id, t), now);
      && Enabled(p, Awaited(p, ph, id, t)) && Guarded(p, Awaited(p, ph, id, t))
      && SixPhased(q.labels) && Favourable(q)
      && Rank(PhaseOf(q.labels)) < Rank(PhaseOf(p.labels))
  {
    var mv := Awaited(p, ph, id, t);
    AwaitedIsEnabled(p, ph, id, t);
    PhaseIsReadable(p.labels, ph, id, t);
    PhaseStep(p, mv, now, ph, id, t);
    RankFalls(p, mv, now);
  }

  // From every phase the awaited moves, without an undo, lead back to rest in at most
  // five writes.
  lemma {:induction false} RoadHome(p: Pod, now: Text) returns (events: seq<Event>)
    requires SixPhased(p.labels) && Favourable(p)
    ensures GuardedRun(p, events) && PhaseOf(Run(p, events).labels) == Resting
    ensures |events| <= Rank(PhaseOf(p.labels))
    ensures forall i :: 0 <= i < |events| ==> !events[i].move.Starts? && !events[i].move.Cancels?
    decreases Rank(PhaseOf(p.labels))
  {
    var ph, id, t :| InPhase(p.labels, ph, id, t);
    PhaseIsReadable(p.labels, ph, id, t);
    if ph == Resting {
      return [];
    }
    var mv := Awaited(p, ph, id, t);
    AwaitedAdvances(p, now, ph, id, t);
    var q := Next(p, mv, now);
    var rest := RoadHome(q, now);
    events := [Event(mv, now)] + rest;
    assert events[1..] == rest;
  }

  // --------------------------------------------------- led home by reconciles

  // What every admission leaves behind: a Pod that still prepares, or still completes,
  // waits for its gate or its finalizers.
  ghost predicate Waiting(p: Pod) {
    match PhaseOf(p.labels)
    case PreparingPhase => p.gate == Up || p.gate == Unknown || (p.gate == Down && p.protections != {})
    case OperatePhase => p.gate == Absent || p.gate == Down
    case PostCheckPhase => p.gate == Absent || p.gate == Down
    case CompletingPhase => p.gate != Up || !FinalizersSatisfied(p)
    case _ => true
  }

  lemma MoveKeepsWaiting(p: Pod, mv: Move, now: Text)
    requires SixPhased(p.labels) && Enabled(p, mv) && Guarded(p, mv) && Waiting(p)
    ensures SixPhased(Next(p, mv, now).labels) && Waiting(Next(p, mv, now))
  {
    var q := Next(p, mv, now);
    var ph, id, t :| InPhase(p.labels, ph, id, t);
    MoveFits(p, mv, ph, id, t);
    PhaseStep(p, mv, now, ph, id, t);
    PhaseIsReadable(p.labels, ph, id, t);
    if Accepted(p, Sent(p, mv, now), Validates(mv), now) {
      PhaseIsReadable(q.labels, PhaseAfter(ph, mv, ReadyToOperate(q), FinalizersSatisfied(q)), IdAfter(id, mv), TypeAfter(t, mv));
      GateAfter(p, mv, now, ph, id, t);
    }
  }

  lemma PhaseWantsGate(p: Pod, ph: Phase, id: Text, t: Text)
    requires InPhase(p.labels, ph, id, t)
    ensures ph == PreparingPhase ==> GateWanted(p.labels) == Some(false)
    ensures ph == CompletingPhase ==> GateWanted(p.labels) == Some(true)
  {
    PhaseIds(p.labels, ph, id, t);
    assert ph == PreparingPhase ==> SomeHas(p.labels, Preparing);
    assert ph == CompletingPhase ==> SomeHas(p.labels, Completing) && !SomeHas(p.labels, Preparing);
  }

  // Where the gate of the object that a move sends stands.
  lemma GateAfter(p: Pod, mv: Move, now: Text, ph: Phase, id: Text, t: Text)
    requires InPhase(p.labels, ph, id, t) && Enabled(p, mv) && Guarded(p, mv)
    ensures mv.MovesGate? ==> Sent(p, mv, now).gate == if ph == PreparingPhase then Down else Up
    ensures !mv.MovesGate? && !mv.RaisesGate? ==> Sent(p, mv, now).gate == p.gate
  {
    MoveFits(p, mv, ph, id, t);
    PhaseWantsGate(p, ph, id, t);
  }

  lemma {:induction false} GuardedRunsWait(p: Pod, events: seq<Event>)
    requires SixPhased(p.labels) && Waiting(p) && GuardedRun(p, events)
    ensures SixPhased(Run(p, events).labels) && Waiting(Run(p, events))
    decreases |events|
  {
    if events != [] {
      MoveKeepsWaiting(p, events[0].move, events[0].now);
      GuardedRunsWait(Next(p, events[0].move, events[0].now), events[1..]);
    }
  }

  // A reconcile on the word of the rules, or the operator's finish.
  datatype Act = Reconciling(passed: Option<Stage>) | Finishing(a: Adapter)

  function Acted(p: Pod, act: Act, now: Text): Pod {
    match act
    case Reconciling(passed) => Reconciled(p, passed, now)
    case Finishing(a) => Next(p, Finishes(a), now)
  }

  function ActAll(p: Pod, acts: seq<Act>, now: Text): Pod
    decreases |acts|
  {
    if acts == [] then p else ActAll(Acted(p, acts[0], now), acts[1..], now)
  }

  // Every act is called for: the rules pass the Pod in the stage that it is in, and the
  // operator finishes what is granted.
  ghost predicate CalledFor(p: Pod, acts: seq<Act>, now: Text)
    decreases |acts|
  {
    acts == [] ||
    ((match acts[0] case Reconciling(passed) => Honest(p.labels, passed) case Finishing(a) => AllowOps(p.labels, a))
     && CalledFor(Acted(p, acts[0], now), acts[1..], now))
  }

  ghost function AwaitedAct(ph: Phase, id: Text, t: Text): Act {
    match ph
    case PreCheckPhase => Reconciling(Some(PreCheckStage))
    case PostCheckPhase => Reconciling(Some(PostCheckStage))
    case OperatePhase => Finishing(Adapter(id, t, true))
    case _ => Reconciling(None)
  }

  // The part of the surroundings that no act changes.
  ghost predicate Bound(p: Pod) {
    SixPhased(p.labels) && Waiting(p) && Favourable(p) && p.gated
  }

  lemma MoveStaysBound(p: Pod, mv: Move, now: Text)
    requires Bound(p) && Enabled(p, mv) && Guarded(p, mv) && !mv.Touches? && !mv.Starts?
    ensures Bound(Next(p, mv, now)) && Rank(PhaseOf(Next(p, mv, now).labels)) <= Rank(PhaseOf(p.labels))
  {
    MoveKeepsWaiting(p, mv, now);
    RankFalls(p, mv, now);
    var ph, id, t :| InPhase(p.labels, ph, id, t);
    PhaseStep(p, mv, now, ph, id, t);
  }

  // The move that the awaited act makes first.
  ghost function FirstMove(ph: Phase, id: Text, t: Text): Move {
    match ph
    case PreCheckPhase => Passes(PreCheckStage)
    case PostCheckPhase => Passes(PostCheckStage)
    case OperatePhase => Finishes(Adapter(id, t, true))
    case _ => MovesGate
  }

  lemma FirstMoveIsEnabled(p: Pod, ph: Phase, id: Text, t: Text)
    requires InPhase(p.labels, ph, id, t) && ph != Resting && Bound(p)
    ensures Enabled(p, FirstMove(ph, id, t)) && Guarded(p, FirstMove(ph, id, t))
  {
    AwaitedIsEnabled(p, ph, id, t);
    PhaseIds(p.labels, ph, id, t);
    PhaseIsReadable(p.labels, ph, id, t);
    if ph == CompletingPhase {
      assert SomeHas(p.labels, Completing) && !SomeHas(p.labels, Preparing);
    }
  }

  // It is accepted, and it lowers the rank.
  lemma FirstMoveAdvances(p: Pod, now: Text, ph: Phase, id: Text, t: Text)
    requires InPhase(p.labels, ph, id, t) && ph != Resting && Bound(p)
    ensures var mv := FirstMove(ph, id, t);
      && Accepted(p, Sent(p, mv, now), Validates(mv), now) && Bound(Next(p, mv, now))
      && Rank(PhaseOf(Next(p, mv, now).labels)) < Rank(PhaseOf(p.labels))
  {
    var mv := FirstMove(ph, id, t);
    FirstMoveIsEnabled(p, ph, id, t);
    PhaseIsReadable(p.labels, ph, id, t);
    GateAfter(p, mv, now, ph, id, t);
    PhaseStep(p, mv, now, ph, id, t);
    MoveStaysBound(p, mv, now);
    RankFalls(p, mv, now);
  }

  lemma CheckIsRecorded(p: Pod, now: Text, stage: Stage)
    requires Ids(p.labels) != {} && !Unparsable(p.labels) && Adds(p.labels, Some(stage)) != {}
    ensures Reconciled(p, Some(stage), now) == Next(p, Passes(stage), now)
  {
  }

  lemma GateIsMoved(p: Pod, now: Text)
    requires Ids(p.labels) != {} && Enabled(p, MovesGate) && Accepted(p, Sent(p, MovesGate, now), false, now)
    ensures var q := Next(p, MovesGate, now); Reconciled(p, None, now) == if p.ready then q else Next(q, GoesOffline, now)
  {
  }

  lemma AwaitedActAdvances(p: Pod, now: Text, ph: Phase, id: Text, t: Text)
    requires InPhase(p.labels, ph, id, t) && ph != Resting && Bound(p)
    ensures CalledFor(p, [AwaitedAct(ph, id, t)], now)
    ensures var q := Acted(p, AwaitedAct(ph, id, t), now); Bound(q) && Rank(PhaseOf(q.labels)) < Rank(PhaseOf(p.labels))
  {
    var mv := FirstMove(ph, id, t);
    FirstMoveIsEnabled(p, ph, id, t);
    FirstMoveAdvances(p, now, ph, id, t);
    PhaseIds(p.labels, ph, id, t);
    match AwaitedAct(ph, id, t)
    case Finishing(_) =>
    case Reconciling(Some(stage)) =>
      CheckIsRecorded(p, now, stage);
    case Reconciling(None) =>
      GateIsMoved(p, now);
      OfflineStaysBound(Next(p, mv, now), now);
  }

  lemma OfflineStaysBound(q: Pod, now: Text)
    requires Bound(q)
    ensures !q.ready ==> Bound(Next(q, GoesOffline, now)) && Rank(PhaseOf(Next(q, GoesOffline, now).labels)) <= Rank(PhaseOf(q.labels))
  {
    SixPhasedIsParsable(q.labels);
    if !q.ready {
      MoveStaysBound(q, GoesOffline, now);
    }
  }

  // In favourable surroundings at most as many reconciles as the rank, and one finish if
  // the operation is still to be done, lead a Pod with a gate back to rest from every
  // state that a guarded run reaches.
  lemma {:induction false} ReconcilesLeadHome(p: Pod, now: Text) returns (acts: seq<Act>)
    requires Bound(p)
    ensures CalledFor(p, acts, now) && PhaseOf(ActAll(p, acts, now).labels) == Resting && |acts| <= Rank(PhaseOf(p.labels))
    decreases Rank(PhaseOf(p.labels))
  {
    var ph, id, t :| InPhase(p.labels, ph, id, t);
    PhaseIsReadable(p.labels, ph, id, t);
    if ph == Resting {
      return [];
    }
    AwaitedActAdvances(p, now, ph, id, t);
    var act := AwaitedAct(ph, id, t);
    var rest := ReconcilesLeadHome(Acted(p, act, now), now);
    acts := [act] + rest;
    assert acts[1..] == rest;
  }

  lemma SixPhasedIsParsable(l: Labels)
    requires SixPhased(l)
    ensures !Unparsable(l)
  {
    var ph, id, t :| InPhase(l, ph, id, t);
    PhaseIds(l, ph, id, t);
  }
}
