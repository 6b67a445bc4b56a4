// What the rewrite of the labels amounts to, in terms of the labels alone and for any
// number of lifecycles.

module Rewrites {
  import opened Options
  import opened Pods
  import opened Admission

  // The labels that an accepted rewrite leaves.
  ghost predicate Becomes(was: Option<Labels>, pod: Pod, now: Text, after: Labels) {
    Control in pod.labels && Rewritten(was, pod, now) == Writes(after)
  }

  predicate LastPrefix(p: Prefix) {
    p in {Operate, Operated, Done, PostCheck, PostChecked, Completing}
  }

  // The labels of a lifecycle that is not cancelled, and of one that is.
  predicate Live(l: Labels, id: Text) {
    id in Ids(l) && Tag(Prefix.Undo, id) !in l
  }

  // What the first loop and the withdrawal of permissions leave.
  function FirstLoop(l: Labels, ready: bool, now: Text): Labels {
    Withdraw(Marks(l, Ids(l), ready, now), l)
  }

  lemma FirstLoopKey(l: Labels, ready: bool, now: Text, k: Key)
    ensures var one := FirstLoop(l, ready, now);
      && (k in one <==> KeyAfterMarks(l, Ids(l), ready, k) && !(k.Permission? && Withdrawn(l, k.opType)))
      && (k in one && k in l ==> one[k] == l[k])
  {
    assert k in Marks(l, Ids(l), ready, now) <==> KeyAfterMarks(l, Ids(l), ready, k);
  }

  // Labels that the last steps of the rewrite never set.
  predicate Untimed(k: Key) {
    !k.Tag? || k.prefix == OperationType
  }

  predicate TradesType(l: Labels, was: Labels, k: Key) {
    k.Tag? && k.prefix == Done && k.id in Ids(l) && OldType(was, k.id).Some?
  }

  lemma SettledKeyAndPostCheck(one: Labels, l: Labels, was: Labels, now: Text, k: Key)
    ensures var two := Settle(one, l, was, Ids(l), now);
      && (k in two <==> KeyAfterSettle(one, l, was, Ids(l), k))
      && (k in EnterPostCheck(two, l, Ids(l), now) <==> k in two || EntersPostCheck(l, Ids(l), k))
      && (Untimed(k) && k in two ==> two[k] == one[k])
      && (Untimed(k) && k in two ==> EnterPostCheck(two, l, Ids(l), now)[k] == two[k])
      && (TradesType(l, was, k) ==> k in two && EnterPostCheck(two, l, Ids(l), now)[k] == OldType(was, k.id).value)
  {
  }

  lemma SweptKey(one: Labels, l: Labels, now: Text, k: Key)
    ensures k in Sweep(one, Ids(l)) <==> k in one && !(k.Tag? && k.id in Ids(l) && Swept(k.prefix))
    ensures k in EnterPostCheck(one, l, Ids(l), now) <==> k in one || EntersPostCheck(l, Ids(l), k)
    ensures Untimed(k) && k in one ==> k in Sweep(one, Ids(l)) && Sweep(one, Ids(l))[k] == one[k]
    ensures Untimed(k) && k in one ==> EnterPostCheck(one, l, Ids(l), now)[k] == one[k]
  {
  }

  // All lifecycles are completing and none is cancelled or operating.
  predicate AllComplete(l: Labels) {
    forall id :: id in Ids(l) ==> Tag(Completing, id) in l && Tag(Prefix.Undo, id) !in l && Tag(Prefix.Operating, id) !in l
  }

  // All are operating under a permission.
  predicate AllAtOperate(l: Labels) {
    forall id :: id in Ids(l) ==> Tag(Operate, id) in l && Tag(Prefix.Undo, id) !in l && Tag(Prefix.Operating, id) !in l
  }

  // All have operated.
  predicate AllOperated(l: Labels) {
    forall id :: id in Ids(l) ==> Tag(Operated, id) in l && Tag(Prefix.Undo, id) !in l && Tag(Prefix.Operating, id) !in l
  }

  lemma AllQuestions(l: Labels)
    ensures NoneOperating(l) && AllHave(l, Completing) <==> AllComplete(l)
    ensures NoneOperating(l) && AllHave(l, Operate) <==> AllAtOperate(l)
    ensures NoneOperating(l) && AllHave(l, Operated) <==> AllOperated(l)
  {
  }

  // Where a key stands after the whole rewrite, `one` being the labels of the first loop.
  predicate KeyInTheEnd(was: Option<Labels>, l: Labels, one: Labels, satisfied: bool, k: Key) {
    if AllComplete(l) then k in one && !(satisfied && k.Tag? && k.id in Ids(l) && Swept(k.prefix))
    else if AllAtOperate(l) then was.Some? && (KeyAfterSettle(one, l, was.value, Ids(l), k) || EntersPostCheck(l, Ids(l), k))
    else if AllOperated(l) then k in one || EntersPostCheck(l, Ids(l), k)
    else k in one
  }

  lemma FinalKey(was: Option<Labels>, pod: Pod, now: Text, after: Labels, k: Key)
    requires Becomes(was, pod, now, after)
    ensures k in after <==> KeyInTheEnd(was, pod.labels, FirstLoop(pod.labels, ReadyToOperate(pod), now), FinalizersSatisfied(pod), k)
  {
    var l, one := pod.labels, FirstLoop(pod.labels, ReadyToOperate(pod), now);
    AllQuestions(l);
    SweptKey(one, l, now, k);
    if was.Some? {
      SettledKeyAndPostCheck(one, l, was.value, now, k);
    }
  }

  // A key that is no lifecycle's, and no permission, stands where the first loop left it.
  lemma UntaggedInTheEnd(was: Option<Labels>, l: Labels, one: Labels, satisfied: bool, k: Key)
    requires !k.Tag? && !k.Permission? && (AllAtOperate(l) && !AllComplete(l) ==> was.Some?)
    ensures KeyInTheEnd(was, l, one, satisfied, k) <==> k in one
  {
  }

  // Without an old Pod nothing is settled.
  lemma WritesHadOldPod(was: Option<Labels>, pod: Pod, now: Text, after: Labels)
    requires Becomes(was, pod, now, after)
    ensures AllAtOperate(pod.labels) && !AllComplete(pod.labels) ==> was.Some?
  {
    AllQuestions(pod.labels);
  }

  // The values after the rewrite.
  lemma ConcludedValue(was: Option<Labels>, l: Labels, malformed: bool, satisfied: bool, one: Labels, now: Text, k: Key)
    requires Concluded(was, l, malformed, satisfied, one, now).Writes?
    ensures var after := Concluded(was, l, malformed, satisfied, one, now).labels;
      && (Untimed(k) && k in after ==> k in one && after[k] == one[k])
      && (AllHave(l, Operate) && !AllHave(l, Completing) && TradesType(l, was.value, k) ==>
            k in after && after[k] == OldType(was.value, k.id).value)
  {
    SweptKey(one, l, now, k);
    if was.Some? {
      SettledKeyAndPostCheck(one, l, was.value, now, k);
    }
  }

  lemma FinalValue(was: Option<Labels>, pod: Pod, now: Text, after: Labels, k: Key)
    requires Becomes(was, pod, now, after) && Untimed(k) && k in after
    ensures var one := FirstLoop(pod.labels, ReadyToOperate(pod), now); k in one && after[k] == one[k]
  {
    var l, one := pod.labels, FirstLoop(pod.labels, ReadyToOperate(pod), now);
    if NoneOperating(l) {
      ConcludedValue(was, l, pod.conditions.Malformed?, FinalizersSatisfied(pod), one, now, k);
    }
  }

  // The last labels of completing lifecycles go exactly when every expected finalizer
  // is on the Pod.
  lemma CompletionWaitsForFinalizers(was: Option<Labels>, pod: Pod, now: Text, after: Labels, wanted: set<Text>, id: Text, p: Prefix)
    requires Becomes(was, pod, now, after) && AllComplete(pod.labels)
    requires pod.conditions == Expects(wanted) || (pod.conditions == NoConditions && wanted == {})
    requires id in Ids(pod.labels) && LastPrefix(p)
    ensures wanted <= pod.finalizers + pod.protections ==> Tag(p, id) !in after
    ensures !(wanted <= pod.finalizers + pod.protections) ==>
      (p != PostCheck ==> (Tag(p, id) in after <==> Tag(p, id) in pod.labels)) && Tag(Completing, id) in after
  {
    var l := pod.labels;
    FirstLoopKey(l, ReadyToOperate(pod), now, Tag(p, id));
    FirstLoopKey(l, ReadyToOperate(pod), now, Tag(Completing, id));
    FinalKey(was, pod, now, after, Tag(p, id));
    FinalKey(was, pod, now, after, Tag(Completing, id));
    assert Completing in MarkSet(l, id) && Operating !in MarkSet(l, id) && Undo !in MarkSet(l, id);
  }

  // An annotation that cannot be read stops the completion.
  lemma CompletionNeedsReadableConditions(was: Option<Labels>, pod: Pod, now: Text)
    requires Control in pod.labels && !Unparsable(pod.labels) && AllComplete(pod.labels) && pod.conditions == Malformed
    ensures Rewritten(was, pod, now) == Fails(BadConditions)
  {
    assert NoneOperating(pod.labels) && AllHave(pod.labels, Completing);
  }

  // ----------------------------------------------------------- one lifecycle

  // Operations may start.
  predicate GateIsDown(p: Pod) {
    p.gate == Absent || (p.gate == Down && p.protections == {})
  }

  // Labels that do not belong to the lifecycle are not touched.
  lemma OthersKeep(was: Option<Labels>, pod: Pod, now: Text, after: Labels, k: Key)
    requires Becomes(was, pod, now, after) && !k.Tag? && !k.Permission? && k != ServiceAvailable
    ensures (k in after <==> k in pod.labels) && (k in after ==> after[k] == pod.labels[k])
  {
    FirstLoopKey(pod.labels, ReadyToOperate(pod), now, k);
    FinalKey(was, pod, now, after, k);
    WritesHadOldPod(was, pod, now, after);
    UntaggedInTheEnd(was, pod.labels, FirstLoop(pod.labels, ReadyToOperate(pod), now), FinalizersSatisfied(pod), k);
    if k in after {
      FinalValue(was, pod, now, after, k);
    }
  }

  // A cancelled lifecycle loses all its labels.
  lemma CancelledIsPurged(was: Option<Labels>, pod: Pod, now: Text, after: Labels, id: Text, p: Prefix)
    requires Becomes(was, pod, now, after) && id in Ids(pod.labels) && Tag(Prefix.Undo, id) in pod.labels
    ensures Tag(p, id) !in after
  {
    var l := pod.labels;
    FirstLoopKey(l, ReadyToOperate(pod), now, Tag(p, id));
    assert Undo in MarkSet(l, id);
    assert !AllHave(l, Completing) && !AllHave(l, Operate) && !AllHave(l, Operated);
  }

  // One label of a lifecycle after the first loop.
  lemma LoopTag(l: Labels, ready: bool, now: Text, p: Prefix, id: Text)
    requires id in Ids(l)
    ensures Tag(p, id) in FirstLoop(l, ready, now) <==> MarkAfter(MarkSet(l, id), ready, p)
    ensures p in MarkSet(l, id) <==> Tag(p, id) in l
  {
    FirstLoopKey(l, ready, now, Tag(p, id));
  }

  lemma OperatingIsFirstLoop(was: Option<Labels>, pod: Pod, now: Text, after: Labels, id: Text)
    requires Becomes(was, pod, now, after) && Live(pod.labels, id) && Tag(Prefix.Operating, id) in pod.labels
    ensures after == FirstLoop(pod.labels, ReadyToOperate(pod), now)
    ensures Undo !in MarkSet(pod.labels, id) && Operating in MarkSet(pod.labels, id)
  {
  }

  // While a lifecycle operates it is in the pre-check until it is pre-checked.
  lemma OperatingChecks(was: Option<Labels>, pod: Pod, now: Text, after: Labels, id: Text)
    requires Becomes(was, pod, now, after) && Live(pod.labels, id) && Tag(Prefix.Operating, id) in pod.labels
    ensures Tag(Prefix.Operating, id) in after
    ensures Tag(PreCheck, id) in after <==> Tag(PreChecked, id) !in pod.labels
  {
    OperatingIsFirstLoop(was, pod, now, after, id);
    LoopTag(pod.labels, ReadyToOperate(pod), now, Prefix.Operating, id);
    LoopTag(pod.labels, ReadyToOperate(pod), now, PreCheck, id);
    LoopTag(pod.labels, ReadyToOperate(pod), now, PreChecked, id);
  }

  // A lifecycle starts to operate.
  predicate Starting(l: Labels, id: Text) {
    Tag(PreChecked, id) in l && Tag(Operate, id) !in l
  }

  // Once it is pre-checked it prepares, and operates as soon as the gate is down.
  lemma OperatingAdvances(was: Option<Labels>, pod: Pod, now: Text, after: Labels, id: Text)
    requires Becomes(was, pod, now, after) && Live(pod.labels, id) && Tag(Prefix.Operating, id) in pod.labels
    ensures Tag(Operate, id) in after <==> if Starting(pod.labels, id) then GateIsDown(pod) else Tag(Operate, id) in pod.labels
    ensures Tag(Preparing, id) in after <==> if Starting(pod.labels, id) then !GateIsDown(pod) else Tag(Preparing, id) in pod.labels
    ensures Starting(pod.labels, id) && Tag(Preparing, id) !in pod.labels ==> ServiceAvailable !in after
  {
    OperatingIsFirstLoop(was, pod, now, after, id);
    LoopTag(pod.labels, ReadyToOperate(pod), now, PreChecked, id);
    LoopTag(pod.labels, ReadyToOperate(pod), now, Operate, id);
    LoopTag(pod.labels, ReadyToOperate(pod), now, Preparing, id);
    StartingMarks(MarkSet(pod.labels, id), ReadyToOperate(pod));
    FirstLoopKey(pod.labels, ReadyToOperate(pod), now, ServiceAvailable);
  }

  lemma StartingMarks(m: set<Prefix>, ready: bool)
    requires Undo !in m && Operating in m
    ensures MarkAfter(m, ready, Operate) <==> if PreChecked in m && Operate !in m then ready else Operate in m
    ensures MarkAfter(m, ready, Preparing) <==> if PreChecked in m && Operate !in m then !ready else Preparing in m
    ensures CutsTraffic(m) <==> PreChecked in m && Operate !in m && Preparing !in m
  {
  }

  // Service-available goes only when some lifecycle leaves the pre-check.
  lemma ServiceGoesOnlyForOperations(was: Option<Labels>, pod: Pod, now: Text, after: Labels)
    requires Becomes(was, pod, now, after)
    ensures ServiceAvailable in after ==> ServiceAvailable in pod.labels
    ensures ServiceAvailable in pod.labels && ServiceAvailable !in after ==>
      exists id :: Live(pod.labels, id) && Tag(Prefix.Operating, id) in pod.labels && Tag(PreChecked, id) in pod.labels
                   && Tag(Preparing, id) !in pod.labels && Tag(Operate, id) !in pod.labels
  {
    var l, ready := pod.labels, ReadyToOperate(pod);
    FirstLoopKey(l, ready, now, ServiceAvailable);
    FinalKey(was, pod, now, after, ServiceAvailable);
    WritesHadOldPod(was, pod, now, after);
    UntaggedInTheEnd(was, l, FirstLoop(l, ready, now), FinalizersSatisfied(pod), ServiceAvailable);
    if ServiceAvailable in l && ServiceAvailable !in after {
      var id :| id in Ids(l) && CutsTraffic(MarkSet(l, id));
      assert forall p :: p in MarkSet(l, id) <==> Tag(p, id) in l;
    }
  }

  // Every lifecycle that is post-checked starts completing, unless all of them are swept
  // away already.
  lemma PostCheckedCompletes(was: Option<Labels>, pod: Pod, now: Text, after: Labels, id: Text)
    requires Becomes(was, pod, now, after) && Live(pod.labels, id) && Tag(PostChecked, id) in pod.labels
    requires !AllComplete(pod.labels)
    ensures Tag(Completing, id) in after && Tag(PostCheck, id) !in after
  {
    var l, ready := pod.labels, ReadyToOperate(pod);
    LoopTag(l, ready, now, PostChecked, id);
    LoopTag(l, ready, now, Completing, id);
    LoopTag(l, ready, now, PostCheck, id);
    LoopTag(l, ready, now, Undo, id);
    PostCheckedMarks(MarkSet(l, id), ready);
    CompletingStands(was, pod, now, after, id);
    PostCheckStands(was, pod, now, after, id);
  }

  lemma PostCheckedMarks(m: set<Prefix>, ready: bool)
    requires PostChecked in m && Undo !in m
    ensures MarkAfter(m, ready, Completing) && !MarkAfter(m, ready, PostCheck)
  {
  }

  lemma CompletingStands(was: Option<Labels>, pod: Pod, now: Text, after: Labels, id: Text)
    requires Becomes(was, pod, now, after) && !AllComplete(pod.labels)
    ensures Tag(Completing, id) in after <==> Tag(Completing, id) in FirstLoop(pod.labels, ReadyToOperate(pod), now)
  {
    FinalKey(was, pod, now, after, Tag(Completing, id));
    CompletingInTheEnd(was, pod.labels, FirstLoop(pod.labels, ReadyToOperate(pod), now), FinalizersSatisfied(pod), id);
    WritesHadOldPod(was, pod, now, after);
  }

  lemma CompletingInTheEnd(was: Option<Labels>, l: Labels, one: Labels, satisfied: bool, id: Text)
    requires !AllComplete(l) && (AllAtOperate(l) ==> was.Some?)
    ensures KeyInTheEnd(was, l, one, satisfied, Tag(Completing, id)) <==> Tag(Completing, id) in one
  {
  }

  lemma PostCheckStands(was: Option<Labels>, pod: Pod, now: Text, after: Labels, id: Text)
    requires Becomes(was, pod, now, after) && Tag(PostChecked, id) in pod.labels
    ensures Tag(PostCheck, id) in after ==> Tag(PostCheck, id) in FirstLoop(pod.labels, ReadyToOperate(pod), now)
  {
    FinalKey(was, pod, now, after, Tag(PostCheck, id));
  }

  // --------------------------------------------------------------- permissions

  // Cancellations name the types of the lifecycles that they cancel.
  ghost predicate HonestUndo(l: Labels) {
    forall id :: id in Ids(l) && Tag(Prefix.Undo, id) in l ==> TypeNamed(l, id, l[Tag(Prefix.Undo, id)])
  }

  // The type of a lifecycle, or of a done one.
  predicate TypeNamed(l: Labels, id: Text, t: Text) {
    if Tag(OperationType, id) in l then l[Tag(OperationType, id)] == t
    else Tag(Done, id) in l && l[Tag(Done, id)] == t
  }

  // Some lifecycle of the type is cancelled, and no other one of the type is left.
  ghost predicate LastCancelled(l: Labels, t: Text) {
    && (exists id :: id in Ids(l) && Tag(Prefix.Undo, id) in l && l[Tag(Prefix.Undo, id)] == t)
    && (forall id :: id in Ids(l) && TypeNamed(l, id, t) ==> Tag(Prefix.Undo, id) in l)
  }

  // The last lifecycle of a type that is cancelled takes the permission with it, and
  // while another one is there the permission stays.
  lemma WithdrawnWithTheLast(l: Labels, t: Text)
    requires HonestUndo(l)
    ensures Withdrawn(l, t) <==> LastCancelled(l, t)
  {
    var undone, carriers := UndoneOf(l, Ids(l), t), OfType(l, Ids(l), t);
    assert forall id :: id in carriers <==> id in Ids(l) && TypeNamed(l, id, t);
    assert undone <= carriers;
    if |undone| == |carriers| {
      SameSizeSubset(undone, carriers);
    }
    if forall id :: id in Ids(l) && TypeNamed(l, id, t) ==> Tag(Prefix.Undo, id) in l {
      assert undone == carriers;
    }
  }

  // What an admission that does not settle does to a permission.
  lemma PermissionStaysWhileUsed(was: Option<Labels>, pod: Pod, now: Text, after: Labels, t: Text)
    requires Becomes(was, pod, now, after) && HonestUndo(pod.labels) && !NoneOperating(pod.labels)
    ensures Permission(t) in after <==> Permission(t) in pod.labels && !LastCancelled(pod.labels, t)
  {
    FirstLoopKey(pod.labels, ReadyToOperate(pod), now, Permission(t));
    WithdrawnWithTheLast(pod.labels, t);
  }

  // Labels keep their values, and new ones carry the time of the admission; only
  // done-operation-type carries a type.
  lemma ConcludedStamps(was: Option<Labels>, l: Labels, malformed: bool, satisfied: bool, one: Labels, now: Text, k: Key)
    requires Concluded(was, l, malformed, satisfied, one, now).Writes? && !(k.Tag? && k.prefix == Done)
    requires k in one ==> one[k] == if k in l then l[k] else now
    ensures var after := Concluded(was, l, malformed, satisfied, one, now).labels;
      k in after ==> (k in one && after[k] == one[k]) || (k !in l && after[k] == now)
  {
  }

  lemma NewLabelsAreStamped(was: Option<Labels>, pod: Pod, now: Text, after: Labels, k: Key)
    requires Becomes(was, pod, now, after) && k in after && !(k.Tag? && k.prefix == Done)
    ensures after[k] == if k in pod.labels then pod.labels[k] else now
  {
    var l, one := pod.labels, FirstLoop(pod.labels, ReadyToOperate(pod), now);
    assert k in one ==> one[k] == if k in l then l[k] else now;
    if NoneOperating(l) {
      ConcludedStamps(was, l, pod.conditions.Malformed?, FinalizersSatisfied(pod), one, now, k);
    }
  }

  // The operation types of lifecycles only go.
  lemma TypesOnlyGo(was: Option<Labels>, pod: Pod, now: Text, after: Labels, k: Key)
    requires Becomes(was, pod, now, after) && (k.Tag? || k.Odd?) && k.prefix == OperationType && k in after
    ensures k in pod.labels && after[k] == pod.labels[k]
  {
    FirstLoopKey(pod.labels, ReadyToOperate(pod), now, k);
    FinalKey(was, pod, now, after, k);
    FinalValue(was, pod, now, after, k);
    if k.Tag? {
      assert OperationType in MarkSet(pod.labels, k.id) <==> k in pod.labels;
    }
  }

  // When the rewrite fails: labels that cannot be parsed, an annotation that cannot be
  // read when all lifecycles complete, and no old Pod, or one that cannot be parsed, to
  // settle all lifecycles with.
  lemma RewriteFailsIff(was: Option<Labels>, pod: Pod, now: Text)
    ensures var l := pod.labels;
      Rewritten(was, pod, now).Fails? <==>
      Control in l &&
      ((exists k :: k in l && NoSlash(k))
       || (AllComplete(l) && pod.conditions == Malformed)
       || (AllAtOperate(l) && !AllComplete(l) && (was.None? || exists k :: k in was.value && NoSlash(k))))
  {
    AllQuestions(pod.labels);
  }

  // ------------------------------------------------------------------ settling

  // A lifecycle turns from operate to operated only together with all others.
  lemma OperatedTogether(was: Option<Labels>, pod: Pod, now: Text, after: Labels, id: Text)
    requires Becomes(was, pod, now, after) && Live(pod.labels, id) && Tag(Operated, id) !in pod.labels
    ensures Tag(Operated, id) in after <==> AllAtOperate(pod.labels) && !AllComplete(pod.labels)
  {
    FinalKey(was, pod, now, after, Tag(Operated, id));
    WritesHadOldPod(was, pod, now, after);
    OperatedInTheEnd(was, pod.labels, ReadyToOperate(pod), now, FinalizersSatisfied(pod), id);
  }

  lemma OperatedInTheEnd(was: Option<Labels>, l: Labels, ready: bool, now: Text, satisfied: bool, id: Text)
    requires Live(l, id) && Tag(Operated, id) !in l && (AllAtOperate(l) && !AllComplete(l) ==> was.Some?)
    ensures KeyInTheEnd(was, l, FirstLoop(l, ready, now), satisfied, Tag(Operated, id)) <==> AllAtOperate(l) && !AllComplete(l)
  {
    LoopTag(l, ready, now, Operated, id);
  }

  // Settling leaves the lifecycle operated, and in the post-check.
  lemma SettledInTheEnd(was: Labels, l: Labels, ready: bool, now: Text, satisfied: bool, id: Text)
    requires Live(l, id) && AllAtOperate(l) && !AllComplete(l)
    ensures var one := FirstLoop(l, ready, now);
      && (KeyInTheEnd(Some(was), l, one, satisfied, Tag(Operate, id)) <==> Tag(Operated, id) in l)
      && (Tag(PostChecked, id) !in l ==> KeyInTheEnd(Some(was), l, one, satisfied, Tag(PostCheck, id)))
  {
    LoopTag(l, ready, now, Operate, id);
    LoopTag(l, ready, now, PostCheck, id);
    LoopTag(l, ready, now, PostChecked, id);
  }

  lemma TypeIsSettled(was: Labels, l: Labels, one: Labels, satisfied: bool, id: Text, t: Text)
    requires Live(l, id) && AllAtOperate(l) && !AllComplete(l)
    requires id in Ids(was) && Tag(OperationType, id) in was && was[Tag(OperationType, id)] == t
    ensures !KeyInTheEnd(Some(was), l, one, satisfied, Tag(OperationType, id))
    ensures !KeyInTheEnd(Some(was), l, one, satisfied, Tag(PreChecked, id))
    ensures !KeyInTheEnd(Some(was), l, one, satisfied, Permission(t))
  {
    assert OldType(was, id) == Some(t);
  }

  // A lifecycle whose type was recorded trades its operating labels, and the permission
  // of the type, for a done one, and enters the post-check.
  lemma SettledTrade(was: Labels, pod: Pod, now: Text, after: Labels, id: Text, t: Text)
    requires Becomes(Some(was), pod, now, after) && Live(pod.labels, id)
    requires AllAtOperate(pod.labels) && !AllComplete(pod.labels)
    requires id in Ids(was) && Tag(OperationType, id) in was && was[Tag(OperationType, id)] == t
    ensures Tag(OperationType, id) !in after && Tag(PreChecked, id) !in after && Permission(t) !in after
    ensures Tag(Operate, id) in after <==> Tag(Operated, id) in pod.labels
    ensures Tag(PostChecked, id) !in pod.labels ==> Tag(PostCheck, id) in after
  {
    SettledInTheEnd(was, pod.labels, ReadyToOperate(pod), now, FinalizersSatisfied(pod), id);
    TypeIsSettled(was, pod.labels, FirstLoop(pod.labels, ReadyToOperate(pod), now), FinalizersSatisfied(pod), id, t);
    FinalKey(Some(was), pod, now, after, Tag(OperationType, id));
    FinalKey(Some(was), pod, now, after, Tag(PreChecked, id));
    FinalKey(Some(was), pod, now, after, Permission(t));
    FinalKey(Some(was), pod, now, after, Tag(Operate, id));
    FinalKey(Some(was), pod, now, after, Tag(PostCheck, id));
  }

  lemma SettledRecordsType(was: Labels, pod: Pod, now: Text, after: Labels, id: Text, t: Text)
    requires Becomes(Some(was), pod, now, after) && Live(pod.labels, id)
    requires AllAtOperate(pod.labels) && !AllComplete(pod.labels)
    requires id in Ids(was) && Tag(OperationType, id) in was && was[Tag(OperationType, id)] == t
    ensures Tag(Done, id) in after && after[Tag(Done, id)] == t
  {
    AllQuestions(pod.labels);
    ConcludedValue(Some(was), pod.labels, pod.conditions.Malformed?, FinalizersSatisfied(pod),
                   FirstLoop(pod.labels, ReadyToOperate(pod), now), now, Tag(Done, id));
  }

  // When all lifecycles have operated they enter the post-check.
  lemma OperatedEnters(was: Option<Labels>, pod: Pod, now: Text, after: Labels, id: Text)
    requires Becomes(was, pod, now, after) && id in Ids(pod.labels) && Tag(PostChecked, id) !in pod.labels
    requires AllOperated(pod.labels) && !AllComplete(pod.labels)
    ensures Tag(PostCheck, id) in after
  {
    FinalKey(was, pod, now, after, Tag(PostCheck, id));
    WritesHadOldPod(was, pod, now, after);
    PostCheckInTheEnd(was, pod.labels, ReadyToOperate(pod), now, FinalizersSatisfied(pod), id);
  }

  lemma PostCheckInTheEnd(was: Option<Labels>, l: Labels, ready: bool, now: Text, satisfied: bool, id: Text)
    requires id in Ids(l) && Tag(PostChecked, id) !in l && AllOperated(l) && !AllComplete(l)
    requires AllAtOperate(l) ==> was.Some?
    ensures KeyInTheEnd(was, l, FirstLoop(l, ready, now), satisfied, Tag(PostCheck, id))
  {
    LoopTag(l, ready, now, PostCheck, id);
    LoopTag(l, ready, now, PostChecked, id);
  }
}
