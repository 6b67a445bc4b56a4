// The API server as far as one Pod is concerned, and the operators that begin,
// finish and undo a lifecycle (controllers/utils/podopslifecycle/utils.go and
// controllers/operationjob/utils/lifecycle.go).

module Server {
  import opened Options
  import opened Pods
  import opened Admission
  import opened Validation

  // Whether the admissions let a write of `sent` over `was` through.
  predicate Accepted(was: Pod, sent: Pod, validated: bool, now: Text) {
    match Rewritten(Some(was.labels), sent, now)
    case Fails(_) => false
    case Writes(labels) => validated ==> Judged(sent.(labels := labels), Update) == Admitted
  }

  // What a write of `sent` over `was` leaves on the server: nothing new when an
  // admission refuses.  Writes to the status are rewritten but not validated.
  function Stored(was: Pod, sent: Pod, validated: bool, now: Text): Pod {
    if Accepted(was, sent, validated, now)
    then sent.(labels := Rewritten(Some(was.labels), sent, now).labels)
    else was
  }

  // What is stored by a validated write reads well, and nothing that does is refused
  // unless the rewrite itself fails.
  lemma AcceptedReads(was: Pod, sent: Pod, validated: bool, now: Text)
    ensures Accepted(was, sent, validated, now) <==>
      match Rewritten(Some(was.labels), sent, now)
      case Fails(_) => false
      case Writes(l) => validated && Control in l ==> sent.conditions != Malformed && ReadsWell(l)
  {
    match Rewritten(Some(was.labels), sent, now)
    case Fails(_) =>
    case Writes(l) => WellLabelledReads(l);
  }

  class ApiServer {
    var stored: Pod

    constructor (p: Pod)
      ensures stored == p
    {
      stored := p;
    }

    method Get() returns (obj: PodObject)
      ensures fresh(obj) && obj.Value() == stored
    {
      obj := new PodObject(stored);
    }

    method Write(obj: PodObject, validated: bool, now: Text) returns (ok: bool)
      modifies this, obj
      ensures stored == Stored(old(stored), old(obj.Value()), validated, now)
      ensures ok <==> Accepted(old(stored), old(obj.Value()), validated, now)
      ensures !ok ==> stored == old(stored)
      ensures ok && validated && Control in stored.labels ==> stored.conditions != Malformed && ReadsWell(stored.labels)
    {
      var was := new PodObject(stored);
      var v := Mutating(was, obj, Update, now);
      if v != Admitted {
        return false;
      }
      if validated {
        v := Validating(obj, Update);
        if v != Admitted {
          return false;
        }
      }
      stored := obj.Value();
      return true;
    }
  }
}

module Client {
  import opened Options
  import opened Pods
  import opened Admission
  import opened Validation
  import opened Server

  datatype Adapter = Adapter(id: Text, opType: Text, multi: bool)

  // checkOperationType: a missing label reads as the empty type.
  predicate HasType(l: Labels, a: Adapter) {
    a.opType == if Has(l, OperationType, a.id) then l[Tag(OperationType, a.id)] else EMPTY
  }

  predicate IsDuringOps(l: Labels, a: Adapter) {
    Has(l, Operating, a.id) && HasType(l, a)
  }

  predicate AllowOps(l: Labels, a: Adapter) {
    IsDuringOps(l, a) && Has(l, Operate, a.id)
  }

  // queryByOperationType finds something.
  predicate TypeInUse(l: Labels, t: Text) {
    exists k :: k in l && PrefixOf(k) == Some(OperationType) && l[k] == t
  }

  predicate BeginRefused(l: Labels, a: Adapter) {
    !IsDuringOps(l, a) && TypeInUse(l, a.opType) && !a.multi
  }

  function Begun(l: Labels, a: Adapter, now: Text): Labels {
    var started := if Has(l, Operating, a.id) then l else l[Tag(Operating, a.id) := now];
    if HasType(l, a) then started else started[Tag(OperationType, a.id) := a.opType]
  }

  function Finished(l: Labels, a: Adapter): Labels {
    l - {Tag(Operating, a.id)}
  }

  function Cancelled(l: Labels, a: Adapter): Labels {
    l[Tag(Prefix.Undo, a.id) := a.opType]
  }

  // What the adapter's type is compared with: the label, or the empty text without one.
  lemma HasTypeReads(l: Labels, a: Adapter)
    ensures Tag(OperationType, a.id) in l ==> (HasType(l, a) <==> l[Tag(OperationType, a.id)] == a.opType)
    ensures Tag(OperationType, a.id) !in l ==> (HasType(l, a) <==> a.opType == EMPTY)
  {
  }

  // A begin sends the operating label and the type, and nothing else that is new.
  lemma BegunReads(l: Labels, a: Adapter, now: Text, k: Key)
    requires a.opType != EMPTY
    ensures k in Begun(l, a, now) <==> k in l || k == Tag(Operating, a.id) || k == Tag(OperationType, a.id)
    ensures k in Begun(l, a, now) ==>
      Begun(l, a, now)[k] == if k == Tag(OperationType, a.id) then a.opType else if k in l then l[k] else now
  {
  }

  // No two lifecycles carry the same operation type.
  ghost predicate TypesDistinct(l: Labels) {
    forall j: Key, k: Key :: j in l && k in l && j != k && TypeKey(j) && TypeKey(k) ==> l[j] != l[k]
  }

  predicate TypeKey(k: Key) {
    (k.Tag? || k.Odd?) && k.prefix == OperationType
  }

  // A begin of an operation that is not meant to run several times at once keeps it so.
  lemma BegunIsDistinct(l: Labels, a: Adapter, now: Text)
    requires TypesDistinct(l) && !a.multi && !BeginRefused(l, a) && !IsDuringOps(l, a)
    ensures TypesDistinct(Begun(l, a, now))
  {
    forall k | k in l && TypeKey(k) ensures l[k] != a.opType {
      assert PrefixOf(k) == Some(OperationType);
    }
  }

  // Begin: nothing is written when the lifecycle is already there.
  method Begin(server: ApiServer, a: Adapter, obj: PodObject, now: Text) returns (failed: bool)
    modifies server, obj
    ensures !a.multi && (exists id :: id != a.id && Tag(OperationType, id) in old(obj.labels)
                                     && old(obj.labels)[Tag(OperationType, id)] == a.opType) ==>
      server.stored == old(server.stored)
    ensures BeginRefused(old(obj.labels), a) ==> failed && server.stored == old(server.stored)
    ensures !BeginRefused(old(obj.labels), a) && IsDuringOps(old(obj.labels), a) ==> !failed && server.stored == old(server.stored)
    ensures !BeginRefused(old(obj.labels), a) && !IsDuringOps(old(obj.labels), a) ==>
      var sent := old(obj.Value()).(labels := Begun(old(obj.labels), a, now));
      server.stored == Stored(old(server.stored), sent, true, now) && failed == !Accepted(old(server.stored), sent, true, now)
  {
    if id :| Tag(OperationType, id) in obj.labels && obj.labels[Tag(OperationType, id)] == a.opType {
      assert PrefixOf(Tag(OperationType, id)) == Some(OperationType);
    }
    var hasId, hasType := Has(obj.labels, Operating, a.id), HasType(obj.labels, a);
    var needUpdate := false;
    if !(hasId && hasType) {
      if TypeInUse(obj.labels, a.opType) && !a.multi {
        return true;
      }
      if !hasId {
        needUpdate := true;
        obj.labels := obj.labels[Tag(Operating, a.id) := now];
      }
      if !hasType {
        needUpdate := true;
        obj.labels := obj.labels[Tag(OperationType, a.id) := a.opType];
      }
    }
    if needUpdate {
      var ok := server.Write(obj, true, now);
      return !ok;
    }
    return false;
  }

  // Finish: the operating label goes, the rest is the webhook's business.
  method Finish(server: ApiServer, a: Adapter, obj: PodObject, now: Text) returns (failed: bool)
    modifies server, obj
    ensures Tag(Operating, a.id) in old(obj.labels) || HasType(old(obj.labels), a) ==>
      var sent := old(obj.Value()).(labels := old(obj.labels) - {Tag(Operating, a.id)});
      server.stored == Stored(old(server.stored), sent, true, now) && failed == !Accepted(old(server.stored), sent, true, now)
    ensures Tag(Operating, a.id) !in old(obj.labels) && !HasType(old(obj.labels), a) ==> !failed && server.stored == old(server.stored)
  {
    if Has(obj.labels, Operating, a.id) || HasType(obj.labels, a) {
      obj.labels := obj.labels - {Tag(Operating, a.id)};
      var ok := server.Write(obj, true, now);
      return !ok;
    }
    return false;
  }

  method Undo(server: ApiServer, a: Adapter, obj: PodObject, now: Text) returns (failed: bool)
    modifies server, obj
    ensures var sent := old(obj.Value()).(labels := old(obj.labels)[Tag(Prefix.Undo, a.id) := a.opType]);
      server.stored == Stored(old(server.stored), sent, true, now) && failed == !Accepted(old(server.stored), sent, true, now)
  {
    obj.labels := obj.labels[Tag(Prefix.Undo, a.id) := a.opType];
    var ok := server.Write(obj, true, now);
    return !ok;
  }

  // BeginOperateLifecycle: not before every other lifecycle is gone.
  method BeginOperateLifecycle(server: ApiServer, a: Adapter, obj: PodObject, now: Text) returns (begun: bool, failed: bool)
    modifies server, obj
    ensures Unparsable(old(obj.labels)) || Ids(old(obj.labels)) != {} ==> !begun && server.stored == old(server.stored)
    ensures Unparsable(old(obj.labels)) || BeginRefused(old(obj.labels), a) ==> !begun && server.stored == old(server.stored)
    ensures Unparsable(old(obj.labels)) ==> failed
    ensures !Unparsable(old(obj.labels)) && Ids(old(obj.labels)) != {} ==> !failed
    ensures !Unparsable(old(obj.labels)) && Ids(old(obj.labels)) == {} ==> failed == !begun
    ensures !Unparsable(old(obj.labels)) && Ids(old(obj.labels)) == {} && !BeginRefused(old(obj.labels), a) ==>
      var sent := old(obj.Value()).(labels := Begun(old(obj.labels), a, now));
      server.stored == Stored(old(server.stored), sent, true, now) && begun == Accepted(old(server.stored), sent, true, now)
  {
    var parsed := IDToLabelsMap(obj.labels);
    if parsed.ParseError? {
      return false, true;
    }
    if |parsed.byId.Keys| > 0 {
      return false, false;
    }
    assert !Has(obj.labels, Operating, a.id) by {
      if Has(obj.labels, Operating, a.id) {
        AnchoredIsPresent(obj.labels, Operating, a.id);
      }
    }
    failed := Begin(server, a, obj, now);
    begun := !failed;
  }

  // CancelOpsLifecycle: only a lifecycle that is on the Pod.
  method CancelOpsLifecycle(server: ApiServer, a: Adapter, obj: PodObject, now: Text) returns (failed: bool)
    modifies server, obj
    ensures Unparsable(old(obj.labels)) || a.id !in Ids(old(obj.labels)) ==>
      server.stored == old(server.stored) && failed == Unparsable(old(obj.labels))
    ensures !Unparsable(old(obj.labels)) && a.id in Ids(old(obj.labels)) ==>
      var sent := old(obj.Value()).(labels := Cancelled(old(obj.labels), a));
      server.stored == Stored(old(server.stored), sent, true, now) && failed == !Accepted(old(server.stored), sent, true, now)
  {
    var parsed := IDToLabelsMap(obj.labels);
    if parsed.ParseError? {
      return true;
    }
    if a.id !in parsed.byId {
      return false;
    }
    failed := Undo(server, a, obj, now);
  }
}
