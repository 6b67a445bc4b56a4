// Pods that carry at most one lifecycle, and what an admission makes of them.

module Shapes {
  import opened Options
  import opened Pods
  import opened Admission
  import opened Validation
  import opened Server

  // The lifecycle labels of l are exactly the marks m of lifecycle id with operation
  // type t, and the permission of t when `permitted`.
  ghost predicate Shape(l: Labels, id: Text, t: Text, m: set<Prefix>, permitted: bool) {
    && Controlled(l)
    && (forall k :: k in l ==> !k.Odd?)
    && (forall k: Key :: k.Tag? ==> (k in l <==> k.id == id && k.prefix in m))
    && (forall k: Key :: k.Permission? ==> (k in l <==> permitted && k.opType == t))
    && (OperationType in m ==> l[Tag(OperationType, id)] == t)
    && (Done in m ==> l[Tag(Done, id)] == t)
    && (Undo in m ==> l[Tag(Undo, id)] == t)
  }

  predicate Anchored(m: set<Prefix>) {
    Operating in m || Operate in m || Operated in m
  }

  lemma ShapeIds(l: Labels, id: Text, t: Text, m: set<Prefix>, permitted: bool)
    requires Shape(l, id, t, m, permitted)
    ensures !Unparsable(l)
    ensures Ids(l) == if Anchored(m) then {id} else {}
    ensures MarkSet(l, id) == m
  {
    forall i ensures i in Ids(l) <==> i == id && Anchored(m) {
      if i in Ids(l) {
        var k :| k in l && AnchorId(k) == Some(i);
        assert k.Tag?;
      }
      if i == id && Anchored(m) {
        var p :| p in m && Anchor(p);
        AnchoredIsPresent(l, p, id);
      }
    }
  }

  // The marks that the first loop turns m into.
  function Treated(m: set<Prefix>, ready: bool): set<Prefix> {
    set p: Prefix | MarkAfter(m, ready, p)
  }

  // The marks that one admission turns m into.
  function Advance(m: set<Prefix>, ready: bool, satisfied: bool): set<Prefix> {
    var one := Treated(m, ready);
    if Undo in m then {}
    else if Operating in m then one
    else if Completing in m then (if satisfied then one - {Operate, Operated, Done, PostCheck, PostChecked, Completing} else one)
    else if Operate in m then
      one - {PreChecked, OperationType} - (if Operated in m then {} else {Operate}) + {Operated, Done} + Enters(m)
    else if Operated in m then one + Enters(m)
    else one
  }

  function Enters(m: set<Prefix>): set<Prefix> {
    if PostCheck in m || PostChecked in m then {} else {PostCheck}
  }

  // Whether the permission outlives the admission.
  predicate Permits(m: set<Prefix>, permitted: bool) {
    permitted && Undo !in m && (Operating in m || Completing in m || Operate !in m)
  }

  lemma WithdrawnShape(l: Labels, id: Text, t: Text, m: set<Prefix>, permitted: bool, u: Text)
    requires Shape(l, id, t, m, permitted) && Anchored(m)
    requires Undo in m ==> OperationType in m || Done in m
    ensures Withdrawn(l, u) <==> u == t && Undo in m
  {
    ShapeIds(l, id, t, m, permitted);
    if Undo in m {
      assert UndoneOf(l, Ids(l), u) == if u == t then {id} else {};
      assert OfType(l, Ids(l), u) == if u == t then {id} else {};
    } else {
      assert UndoneOf(l, Ids(l), u) == {};
    }
  }

  // The first loop and the withdrawal of permissions, on one lifecycle.
  lemma FirstLoopShape(l: Labels, id: Text, t: Text, m: set<Prefix>, permitted: bool, ready: bool, now: Text)
    requires Shape(l, id, t, m, permitted) && Anchored(m)
    requires Undo in m ==> OperationType in m || Done in m
    ensures var one := Withdraw(Marks(l, {id}, ready, now), l);
      && Shape(one, id, t, Treated(m, ready), permitted && Undo !in m)
      && (ServiceAvailable in one <==> ServiceAvailable in l && !CutsTraffic(m))
  {
    ShapeIds(l, id, t, m, permitted);
    forall u { WithdrawnShape(l, id, t, m, permitted, u); }
    var mid := Marks(l, {id}, ready, now);
    forall k ensures k in mid <==> KeyAfterMarks(l, {id}, ready, k) {
    }
  }

  // The settling of one lifecycle whose old labels name its type.
  lemma SettleShape(one: Labels, l: Labels, was: Labels, id: Text, t: Text, n: set<Prefix>, permitted: bool, now: Text)
    requires Shape(one, id, t, n, permitted) && OldType(was, id) == Some(t) && Undo !in n
    ensures Shape(Settle(one, l, was, {id}, now), id, t, SettledMarks(n, Has(l, Operated, id)), false)
    ensures ServiceAvailable in Settle(one, l, was, {id}, now) <==> ServiceAvailable in one
  {
    var two := Settle(one, l, was, {id}, now);
    forall k: Key
      ensures k.Tag? ==> (k in two <==> k.id == id && k.prefix in SettledMarks(n, Has(l, Operated, id)))
      ensures k.Permission? ==> k !in two
      ensures !k.Tag? && !k.Permission? ==> (k in two <==> k in one)
    {
      SettledKey(one, l, was, id, t, n, permitted, now, k);
    }
    assert Tag(Done, id) in two && two[Tag(Done, id)] == t;
  }

  // The marks after the settling of a lifecycle that was operated already, or not.
  function SettledMarks(n: set<Prefix>, operated: bool): set<Prefix> {
    n - {PreChecked, OperationType} - (if operated then {} else {Operate}) + {Done} + (if operated then {} else {Operated})
  }

  lemma SettledKey(one: Labels, l: Labels, was: Labels, id: Text, t: Text, n: set<Prefix>, permitted: bool, now: Text, k: Key)
    requires Shape(one, id, t, n, permitted) && OldType(was, id) == Some(t)
    ensures k.Tag? ==>
      (k in Settle(one, l, was, {id}, now) <==> k.id == id && k.prefix in SettledMarks(n, Has(l, Operated, id)))
    ensures k.Permission? ==> k !in Settle(one, l, was, {id}, now)
    ensures !k.Tag? && !k.Permission? ==> (k in Settle(one, l, was, {id}, now) <==> k in one)
  {
    assert k in Settle(one, l, was, {id}, now) <==> KeyAfterSettle(one, l, was, {id}, k);
  }

  lemma PostCheckShape(one: Labels, l: Labels, id: Text, t: Text, n: set<Prefix>, permitted: bool, now: Text)
    requires Shape(one, id, t, n, permitted)
    ensures Shape(EnterPostCheck(one, l, {id}, now), id, t, n + Enters(MarkSet(l, id)), permitted)
    ensures ServiceAvailable in EnterPostCheck(one, l, {id}, now) <==> ServiceAvailable in one
  {
  }

  lemma SweepShape(one: Labels, id: Text, t: Text, n: set<Prefix>, permitted: bool)
    requires Shape(one, id, t, n, permitted)
    ensures Shape(Sweep(one, {id}), id, t, n - {Operate, Operated, Done, PostCheck, PostChecked, Completing}, permitted)
    ensures ServiceAvailable in Sweep(one, {id}) <==> ServiceAvailable in one
  {
  }

  lemma SingleQuestions(l: Labels, id: Text, t: Text, m: set<Prefix>, permitted: bool)
    requires Shape(l, id, t, m, permitted) && Anchored(m)
    ensures NoneOperating(l) <==> Undo in m || Operating !in m
    ensures forall p :: AllHave(l, p) <==> Undo !in m && p in m
  {
    ShapeIds(l, id, t, m, permitted);
    forall p ensures Has(l, p, id) <==> p in m {
    }
  }

  lemma SettledIsAdvance(m: set<Prefix>, ready: bool, satisfied: bool)
    requires Operate in m && Operating !in m && Completing !in m && Undo !in m
    ensures SettledMarks(Treated(m, ready), Operated in m) + Enters(m) == Advance(m, ready, satisfied)
  {
  }

  lemma SettlingShape(was: Labels, l: Labels, one: Labels, id: Text, t: Text, m: set<Prefix>, n: set<Prefix>, permitted: bool, now: Text)
    requires Shape(l, id, t, m, permitted) && Shape(one, id, t, n, permitted)
    requires OldType(was, id) == Some(t) && Undo !in n
    ensures var done := EnterPostCheck(Settle(one, l, was, {id}, now), l, {id}, now);
      && Shape(done, id, t, SettledMarks(n, Operated in m) + Enters(m), false)
      && (ServiceAvailable in done <==> ServiceAvailable in one)
  {
    SettleShape(one, l, was, id, t, n, permitted, now);
    assert Has(l, Operated, id) <==> Operated in m;
    assert MarkSet(l, id) == m;
    PostCheckShape(Settle(one, l, was, {id}, now), l, id, t, SettledMarks(n, Operated in m), false, now);
  }

  // The same for the branches that are taken when nothing operates.
  lemma ConcludedShape(was: Labels, sent: Pod, one: Labels, id: Text, t: Text, m: set<Prefix>, permitted: bool, now: Text)
    requires Shape(sent.labels, id, t, m, permitted) && Anchored(m) && Undo !in m && Operating !in m
    requires Shape(one, id, t, Treated(m, ReadyToOperate(sent)), permitted)
    requires Operate in m && Completing !in m ==> !Unparsable(was) && OldType(was, id) == Some(t)
    ensures match Concluded(Some(was), sent.labels, sent.conditions.Malformed?, FinalizersSatisfied(sent), one, now)
            case Fails(_) => sent.conditions.Malformed?
            case Writes(l) =>
              && Shape(l, id, t, Advance(m, ReadyToOperate(sent), FinalizersSatisfied(sent)), Permits(m, permitted))
              && (ServiceAvailable in l <==> ServiceAvailable in one)
  {
    var l, ready, satisfied, n := sent.labels, ReadyToOperate(sent), FinalizersSatisfied(sent), Treated(m, ReadyToOperate(sent));
    ShapeIds(l, id, t, m, permitted);
    SingleQuestions(l, id, t, m, permitted);
    if Completing in m {
      SweepShape(one, id, t, n, permitted);
    } else if Operate in m {
      SettlingShape(was, l, one, id, t, m, n, permitted, now);
      SettledIsAdvance(m, ready, satisfied);
    } else {
      PostCheckShape(one, l, id, t, n, permitted, now);
    }
  }

  // What one admission makes of a Pod with at most one lifecycle.
  lemma AdmissionShape(was: Labels, sent: Pod, id: Text, t: Text, m: set<Prefix>, permitted: bool, now: Text)
    requires Shape(sent.labels, id, t, m, permitted)
    requires m == {} || Anchored(m)
    requires Undo in m ==> OperationType in m || Done in m
    requires Operate in m && Operating !in m && Completing !in m && Undo !in m ==>
               !Unparsable(was) && OldType(was, id) == Some(t)
    ensures match Rewritten(Some(was), sent, now)
            case Fails(_) => sent.conditions.Malformed?
            case Writes(l) =>
              && Shape(l, id, t, Advance(m, ReadyToOperate(sent), FinalizersSatisfied(sent)), Permits(m, permitted))
              && (ServiceAvailable in l <==> ServiceAvailable in sent.labels && !CutsTraffic(m))
  {
    var l, ready := sent.labels, ReadyToOperate(sent);
    ShapeIds(l, id, t, m, permitted);
    if m == {} {
      IdleShape(l, sent, now);
      assert Treated({}, ready) == {};
      return;
    }
    SingleQuestions(l, id, t, m, permitted);
    FirstLoopShape(l, id, t, m, permitted, ready, now);
    if Undo in m {
      assert Treated(m, ready) == {};
    } else if Operating !in m {
      ConcludedShape(was, sent, Withdraw(Marks(l, {id}, ready, now), l), id, t, m, permitted, now);
    }
  }

  // Without a lifecycle an admission keeps every label.
  lemma IdleShape(l: Labels, sent: Pod, now: Text)
    requires sent.labels == l && Ids(l) == {} && !Unparsable(l)
    ensures Withdraw(Marks(l, {}, ReadyToOperate(sent), now), l) == l
    ensures Sweep(l, {}) == l
  {
    forall t ensures !Withdrawn(l, t) {
      assert UndoneOf(l, {}, t) == {};
    }
    assert Marks(l, {}, ReadyToOperate(sent), now) == l;
  }
}
