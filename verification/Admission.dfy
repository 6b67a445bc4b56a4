// The admission webhook of the operation lifecycle: it rewrites the labels of a
// Pod on every write (mutating.go) and then judges them (validating.go).

module Admission {
  import opened Options
  import opened Pods

  datatype Operation = Create | Update | Delete

  // What an admission answers.  `NoOldPod` is the nil dereference that a create
  // request with finished operations runs into.
  datatype Verdict = Admitted | BadLabel | BadConditions | NoOldPod | Rejected

  // ------------------------------------------------ what the rewrite amounts to

  predicate Undone(l: Labels, id: Text) {
    Has(l, Undo, id)
  }

  // Whether a lifecycle with the marks m carries mark p once the first loop has
  // treated it.
  predicate MarkAfter(m: set<Prefix>, ready: bool, p: Prefix) {
    if Undo in m then false
    else match p
      case PreCheck => if Operating in m then PreChecked !in m else p in m
      case Preparing => if {Operating, PreChecked} <= m && Operate !in m then !ready else p in m
      case Operate => p in m || ({Operating, PreChecked} <= m && ready)
      case PostCheck => p in m && PostChecked !in m
      case Completing => p in m || PostChecked in m
      case _ => p in m
  }

  // A lifecycle that leaves the pre-check takes the Pod out of service.
  predicate CutsTraffic(m: set<Prefix>) {
    Undo !in m && {Operating, PreChecked} <= m && Preparing !in m && Operate !in m
  }

  predicate KeyAfterMarks(l: Labels, seen: set<Text>, ready: bool, k: Key) {
    match k
    case Tag(p, id) => if id in seen then MarkAfter(MarkSet(l, id), ready, p) else k in l
    case ServiceAvailable => k in l && forall id :: id in seen ==> !CutsTraffic(MarkSet(l, id))
    case _ => k in l
  }

  function TagsOf(ids: set<Text>): set<Key> {
    set p: Prefix, id | id in ids :: Tag(p, id)
  }

  // The labels after the first loop has treated the lifecycles in `seen`.
  function Marks(l: Labels, seen: set<Text>, ready: bool, now: Text): Labels {
    map k | k in l.Keys + TagsOf(seen) && KeyAfterMarks(l, seen, ready, k) :: if k in l then l[k] else now
  }

  // The lifecycles among `ids` whose cancellation names operation type t.
  function UndoneOf(l: Labels, ids: set<Text>, t: Text): set<Text> {
    set id | id in ids && Undone(l, id) && l[Tag(Undo, id)] == t
  }

  // The permission of a type is withdrawn when as many lifecycles are cancelled
  // under that type as carry it.
  predicate Withdrawn(l: Labels, t: Text) {
    UndoneOf(l, Ids(l), t) != {} && |UndoneOf(l, Ids(l), t)| == |OfType(l, Ids(l), t)|
  }

  function Withdraw(cur: Labels, l: Labels): Labels {
    map k | k in cur && !(k.Permission? && Withdrawn(l, k.opType)) :: cur[k]
  }

  predicate NoneOperating(l: Labels) {
    forall id :: id in Ids(l) ==> Undone(l, id) || !Has(l, Operating, id)
  }

  predicate AllHave(l: Labels, p: Prefix) {
    forall id :: id in Ids(l) ==> !Undone(l, id) && Has(l, p, id)
  }

  predicate Swept(p: Prefix) {
    p == Operate || p == Operated || p == Done || p == PostCheck || p == PostChecked || p == Completing
  }

  // All operations are completed: their last labels are swept away.
  function Sweep(cur: Labels, ids: set<Text>): Labels {
    map k | k in cur && !(k.Tag? && k.id in ids && Swept(k.prefix)) :: cur[k]
  }

  function OldType(was: Labels, id: Text): Option<Text> {
    if id in Ids(was) && Has(was, OperationType, id) then Some(was[Tag(OperationType, id)]) else None
  }

  predicate KeyAfterSettle(cur: Labels, l: Labels, was: Labels, seen: set<Text>, k: Key) {
    match k
    case Tag(p, id) =>
      if id !in seen then k in cur
      else (match p
            case PreChecked => false
            case Operate => k in cur && Has(l, Operated, id)
            case Operated => k in cur || !Has(l, Operated, id)
            case OperationType => k in cur && OldType(was, id).None?
            case Done => k in cur || OldType(was, id).Some?
            case _ => k in cur)
    case Permission(t) => k in cur && forall id :: id in seen ==> OldType(was, id) != Some(t)
    case _ => k in cur
  }

  // All operations are going to be done: the lifecycles in `seen` trade their
  // operating labels for operated and done-operation-type.
  function Settle(cur: Labels, l: Labels, was: Labels, seen: set<Text>, now: Text): Labels {
    map k | k in cur.Keys + TagsOf(seen) && KeyAfterSettle(cur, l, was, seen, k) ::
      if k.Tag? && k.id in seen && k.prefix == Done && OldType(was, k.id).Some? then OldType(was, k.id).value
      else if k.Tag? && k.id in seen && k.prefix == Operated && !Has(l, Operated, k.id) then now
      else if k in cur then cur[k] else now
  }

  predicate EntersPostCheck(l: Labels, seen: set<Text>, k: Key) {
    k.Tag? && k.prefix == PostCheck && k.id in seen && !Has(l, PostCheck, k.id) && !Has(l, PostChecked, k.id)
  }

  // All operations are done: the lifecycles in `seen` enter the post-check.
  function EnterPostCheck(cur: Labels, l: Labels, seen: set<Text>, now: Text): Labels {
    map k | k in cur.Keys + TagsOf(seen) && (k in cur || EntersPostCheck(l, seen, k)) ::
      if EntersPostCheck(l, seen, k) then now else cur[k]
  }

  datatype Rewrite = Fails(why: Verdict) | Writes(labels: Labels)

  // What becomes of the labels `one`, that the first loop left of l, when no
  // lifecycle is operating.
  function Concluded(was: Option<Labels>, l: Labels, malformed: bool, satisfied: bool, one: Labels, now: Text): Rewrite {
    if AllHave(l, Completing) then
      if malformed then Fails(BadConditions)
      else if satisfied then Writes(Sweep(one, Ids(l)))
      else Writes(one)
    else if AllHave(l, Operate) then
      if was.None? then Fails(NoOldPod)
      else if Unparsable(was.value) then Fails(BadLabel)
      else Writes(EnterPostCheck(Settle(one, l, was.value, Ids(l), now), l, Ids(l), now))
    else if AllHave(l, Operated) then Writes(EnterPostCheck(one, l, Ids(l), now))
    else Writes(one)
  }

  // The whole rewrite.
  function Rewritten(was: Option<Labels>, pod: Pod, now: Text): Rewrite {
    var l := pod.labels;
    if !Controlled(l) then Writes(l)
    else if Unparsable(l) then Fails(BadLabel)
    else
      var one := Withdraw(Marks(l, Ids(l), ReadyToOperate(pod), now), l);
      if !NoneOperating(l) then Writes(one)
      else Concluded(was, l, pod.conditions.Malformed?, FinalizersSatisfied(pod), one, now)
  }

  // ------------------------------------------------------- the rewrite itself

  // Where label k stands after one turn of the first loop, for the lifecycle id
  // with the marks m.
  predicate KeyTreated(cur: Labels, m: set<Prefix>, id: Text, ready: bool, k: Key) {
    match k
    case Tag(p, i) => if i == id then MarkAfter(m, ready, p) else k in cur
    case ServiceAvailable => k in cur && !CutsTraffic(m)
    case _ => k in cur
  }

  lemma MarksStep(l: Labels, seen: set<Text>, id: Text, ready: bool, now: Text, next: Labels)
    requires id !in seen
    requires forall k :: k in next <==> KeyTreated(Marks(l, seen, ready, now), MarkSet(l, id), id, ready, k)
    requires forall k :: k in next ==> next[k] == if k in Marks(l, seen, ready, now) then Marks(l, seen, ready, now)[k] else now
    ensures next == Marks(l, seen + {id}, ready, now)
  {
    var cur, goal := Marks(l, seen, ready, now), Marks(l, seen + {id}, ready, now);
    forall k ensures (k in next <==> k in goal) && (k in next ==> next[k] == goal[k]) {
      assert k in next <==> KeyTreated(cur, MarkSet(l, id), id, ready, k);
      assert k in cur <==> KeyAfterMarks(l, seen, ready, k);
      assert k in goal <==> KeyAfterMarks(l, seen + {id}, ready, k);
    }
  }

  lemma MarksKeepOwnTags(l: Labels, seen: set<Text>, id: Text, ready: bool, now: Text)
    requires id !in seen
    ensures MarkSet(Marks(l, seen, ready, now), id) == MarkSet(l, id)
  {
    forall p ensures Has(Marks(l, seen, ready, now), p, id) <==> Has(l, p, id) {
      assert KeyAfterMarks(l, seen, ready, Tag(p, id)) <==> Has(l, p, id);
    }
  }

  // Where label k stands after the operating half of a turn.
  predicate KeyPrepared(cur: Labels, m: set<Prefix>, id: Text, ready: bool, k: Key) {
    match k
    case Tag(p, i) => if i == id && (p == PreCheck || p == Preparing || p == Operate) then MarkAfter(m, ready, p) else k in cur
    case ServiceAvailable => k in cur && !CutsTraffic(m)
    case _ => k in cur
  }

  // The operating half of a turn of the first loop.
  method TreatOperating(pod: PodObject, entry: map<Prefix, Text>, id: Text, now: Text)
    requires entry.Keys == MarkSet(pod.labels, id)
    requires Undo !in entry && Operating in entry
    modifies pod`labels
    ensures forall k :: k in pod.labels <==> KeyPrepared(old(pod.labels), entry.Keys, id, ReadyToOperate(old(pod.Value())), k)
    ensures forall k :: k in pod.labels ==> pod.labels[k] == if k in old(pod.labels) then old(pod.labels)[k] else now
  {
    assert forall p :: p in entry <==> Tag(p, id) in pod.labels;
    if PreChecked in entry {
      pod.labels := pod.labels - {Tag(PreCheck, id)};
      if Preparing !in entry && Operate !in entry {
        pod.labels := pod.labels - {ServiceAvailable};
        pod.labels := pod.labels[Tag(Preparing, id) := now];
      }
      if Operate !in entry && ReadyToOperate(pod.Value()) {
        pod.labels := pod.labels - {Tag(Preparing, id)};
        pod.labels := pod.labels[Tag(Operate, id) := now];
      }
    } else {
      if PreCheck !in entry {
        pod.labels := pod.labels[Tag(PreCheck, id) := now];
      }
    }
  }

  function Purge(l: Labels, id: Text): (r: Labels)
    ensures forall k :: k in r <==> k in l && !(k.Tag? && k.id == id)
    ensures forall k :: k in r ==> r[k] == l[k]
  {
    map k | k in l && !(k.Tag? && k.id == id) :: l[k]
  }

  // One turn of the first loop.
  method TreatLifecycle(pod: PodObject, entry: map<Prefix, Text>, id: Text, now: Text)
    requires entry.Keys == MarkSet(pod.labels, id)
    modifies pod`labels
    ensures forall k :: k in pod.labels <==> KeyTreated(old(pod.labels), entry.Keys, id, ReadyToOperate(old(pod.Value())), k)
    ensures forall k :: k in pod.labels ==> pod.labels[k] == if k in old(pod.labels) then old(pod.labels)[k] else now
  {
    assert forall p :: p in entry <==> Tag(p, id) in pod.labels;
    if Undo in entry {
      pod.labels := Purge(pod.labels, id);
      return;
    }
    if Operating in entry {
      TreatOperating(pod, entry, id, now);
    }
    if PostChecked in entry {
      pod.labels := pod.labels - {Tag(PostCheck, id)};
      if Completing !in entry {
        pod.labels := pod.labels[Tag(Completing, id) := now];
      }
    }
  }

  // The lifecycles among `ids` that are not cancelled and carry p.
  function Live(l: Labels, ids: set<Text>, p: Prefix): set<Text> {
    set id | id in ids && !Undone(l, id) && Has(l, p, id)
  }

  lemma LiveStep(l: Labels, seen: set<Text>, id: Text, p: Prefix)
    requires id !in seen
    ensures Live(l, seen + {id}, p) == Live(l, seen, p) + (if !Undone(l, id) && Has(l, p, id) then {id} else {})
    ensures |Live(l, seen + {id}, p)| == |Live(l, seen, p)| + (if !Undone(l, id) && Has(l, p, id) then 1 else 0)
  {
  }

  // Comparing a counter with the number of lifecycles asks all of them.
  lemma LiveAll(l: Labels, p: Prefix)
    ensures |Live(l, Ids(l), p)| == |Ids(l)| <==> AllHave(l, p)
  {
    if |Live(l, Ids(l), p)| == |Ids(l)| {
      SameSizeSubset(Live(l, Ids(l), p), Ids(l));
    }
    if AllHave(l, p) {
      assert Live(l, Ids(l), p) == Ids(l);
    }
  }

  lemma LiveNone(l: Labels)
    ensures |Live(l, Ids(l), Operating)| == 0 <==> NoneOperating(l)
  {
    if |Live(l, Ids(l), Operating)| == 0 {
      forall id | id in Ids(l) ensures Undone(l, id) || !Has(l, Operating, id) {
        assert id !in Live(l, Ids(l), Operating);
      }
    } else {
      var id :| id in Live(l, Ids(l), Operating);
    }
  }

  ghost predicate CountsUndone(l: Labels, ids: set<Text>, nums: map<Text, nat>) {
    forall t :: (t in nums <==> UndoneOf(l, ids, t) != {}) && (t in nums ==> nums[t] == |UndoneOf(l, ids, t)|)
  }

  lemma UndoneStep(l: Labels, seen: set<Text>, id: Text, t: Text)
    requires id !in seen
    ensures UndoneOf(l, seen + {id}, t) == UndoneOf(l, seen, t) + (if Undone(l, id) && l[Tag(Undo, id)] == t then {id} else {})
    ensures |UndoneOf(l, seen + {id}, t)| == |UndoneOf(l, seen, t)| + (if Undone(l, id) && l[Tag(Undo, id)] == t then 1 else 0)
  {
    assert UndoneOf(l, seen + {id}, t) == UndoneOf(l, seen, t) + (if Undone(l, id) && l[Tag(Undo, id)] == t then {id} else {});
  }

  lemma CountsUndoneStep(l: Labels, seen: set<Text>, nums: map<Text, nat>, id: Text)
    requires CountsUndone(l, seen, nums) && id !in seen
    ensures CountsUndone(l, seen + {id}, Bump(nums, if Undone(l, id) then Some(l[Tag(Undo, id)]) else None))
  {
    forall t { UndoneStep(l, seen, id, t); }
  }

  datatype Counters = Counters(operating: nat, operate: nat, operated: nat, complete: nat)

  ghost predicate Tally(l: Labels, ids: set<Text>, c: Counters) {
    && c.operating == |Live(l, ids, Operating)| && c.operate == |Live(l, ids, Operate)|
    && c.operated == |Live(l, ids, Operated)| && c.complete == |Live(l, ids, Completing)|
  }

  function Count(c: Counters, entry: map<Prefix, Text>): Counters {
    if Undo in entry then c
    else Counters(
      c.operating + (if Operating in entry then 1 else 0), c.operate + (if Operate in entry then 1 else 0),
      c.operated + (if Operated in entry then 1 else 0), c.complete + (if Completing in entry then 1 else 0))
  }

  lemma TallyStep(l: Labels, seen: set<Text>, c: Counters, id: Text)
    requires Tally(l, seen, c) && id !in seen
    ensures Tally(l, seen + {id}, Count(c, Entry(l, id)))
  {
    forall p { LiveStep(l, seen, id, p); }
  }

  lemma EntryIsMarkSet(l: Labels, id: Text)
    ensures Entry(l, id).Keys == MarkSet(l, id)
    ensures Undo in Entry(l, id) <==> Undone(l, id)
    ensures Undone(l, id) ==> Entry(l, id)[Undo] == l[Tag(Undo, id)]
  {
  }

  // One round of the first loop keeps all of its books.
  lemma RoundStep(l: Labels, seen: set<Text>, c: Counters, nums: map<Text, nat>, id: Text)
    requires id !in seen && Tally(l, seen, c) && CountsUndone(l, seen, nums)
    ensures Tally(l, seen + {id}, Count(c, Entry(l, id)))
    ensures var e := Entry(l, id); CountsUndone(l, seen + {id}, Bump(nums, if Undo in e then Some(e[Undo]) else None))
  {
    TallyStep(l, seen, c, id);
    CountsUndoneStep(l, seen, nums, id);
    EntryIsMarkSet(l, id);
  }

  lemma MarksOfNone(l: Labels, ready: bool, now: Text)
    ensures Marks(l, {}, ready, now) == l
  {
  }

  // A turn takes the labels that the turns before it have left one lifecycle further.
  method TreatNext(pod: PodObject, entry: map<Prefix, Text>, id: Text, now: Text, ghost l: Labels, ghost seen: set<Text>)
    requires id !in seen && entry == Entry(l, id)
    requires pod.labels == Marks(l, seen, ReadyToOperate(pod.Value()), now)
    modifies pod`labels
    ensures ReadyToOperate(pod.Value()) == old(ReadyToOperate(pod.Value()))
    ensures pod.labels == Marks(l, seen + {id}, old(ReadyToOperate(pod.Value())), now)
  {
    ghost var ready := ReadyToOperate(pod.Value());
    EntryIsMarkSet(l, id);
    MarksKeepOwnTags(l, seen, id, ready, now);
    TreatLifecycle(pod, entry, id, now);
    MarksStep(l, seen, id, ready, now, pod.labels);
  }

  // The first loop, over the lifecycles in any order.
  method TreatAll(pod: PodObject, byId: map<Text, map<Prefix, Text>>, now: Text)
    returns (c: Counters, undoNums: map<Text, nat>)
    requires forall id :: id in byId ==> byId[id] == Entry(pod.labels, id)
    modifies pod`labels
    ensures pod.labels == Marks(old(pod.labels), byId.Keys, ReadyToOperate(old(pod.Value())), now)
    ensures Tally(old(pod.labels), byId.Keys, c)
    ensures CountsUndone(old(pod.labels), byId.Keys, undoNums)
  {
    ghost var l, ready := pod.labels, ReadyToOperate(pod.Value());
    c, undoNums := Counters(0, 0, 0, 0), map[];
    var seen: set<Text> := {};
    MarksOfNone(l, ready, now);
    while seen != byId.Keys
      invariant seen <= byId.Keys
      invariant ready == ReadyToOperate(pod.Value())
      invariant pod.labels == Marks(l, seen, ready, now)
      invariant Tally(l, seen, c)
      invariant CountsUndone(l, seen, undoNums)
      decreases byId.Keys - seen
    {
      Unseen(seen, byId.Keys);
      var id :| id in byId.Keys - seen;
      var entry := byId[id];
      RoundStep(l, seen, c, undoNums, id);
      TreatNext(pod, entry, id, now, l, seen);
      c := Count(c, entry);
      undoNums := Bump(undoNums, if Undo in entry then Some(entry[Undo]) else None);
      seen := seen + {id};
    }
  }

  lemma WithdrawnByCount(l: Labels, undoNums: map<Text, nat>, typeNums: map<Text, nat>, t: Text)
    requires CountsUndone(l, Ids(l), undoNums) && Counts(l, Ids(l), typeNums)
    ensures Withdrawn(l, t) <==> t in undoNums && t in typeNums && undoNums[t] == typeNums[t]
  {
  }

  // The permissions of the types whose lifecycles are all cancelled go.
  method WithdrawPermissions(pod: PodObject, undoNums: map<Text, nat>, typeNums: map<Text, nat>, ghost l: Labels)
    requires CountsUndone(l, Ids(l), undoNums) && Counts(l, Ids(l), typeNums)
    modifies pod`labels
    ensures pod.labels == Withdraw(old(pod.labels), l)
  {
    ghost var cur := pod.labels;
    forall t { WithdrawnByCount(l, undoNums, typeNums, t); }
    var seen: set<Text> := {};
    while seen != undoNums.Keys
      invariant seen <= undoNums.Keys
      invariant forall k :: k in pod.labels <==> k in cur && !(k.Permission? && k.opType in seen && Withdrawn(l, k.opType))
      invariant forall k :: k in pod.labels ==> pod.labels[k] == cur[k]
      decreases undoNums.Keys - seen
    {
      Unseen(seen, undoNums.Keys);
      var t :| t in undoNums.Keys - seen;
      if t in typeNums && undoNums[t] == typeNums[t] {
        pod.labels := pod.labels - {Permission(t)};
      }
      seen := seen + {t};
    }
  }

  // All operations are completed.
  method SweepAll(pod: PodObject, ids: set<Text>)
    modifies pod`labels
    ensures pod.labels == Sweep(old(pod.labels), ids)
  {
    ghost var cur := pod.labels;
    var seen: set<Text> := {};
    while seen != ids
      invariant seen <= ids
      invariant pod.labels == Sweep(cur, seen)
      decreases ids - seen
    {
      Unseen(seen, ids);
      var id :| id in ids - seen;
      pod.labels := pod.labels - {Tag(Operate, id), Tag(Operated, id), Tag(Done, id),
                                  Tag(PostCheck, id), Tag(PostChecked, id), Tag(Completing, id)};
      seen := seen + {id};
    }
  }

  // What the settling of lifecycle id leaves of label k.
  predicate KeySettled(cur: Labels, id: Text, operated: bool, t: Option<Text>, k: Key) {
    match k
    case Tag(p, i) =>
      if i != id then k in cur
      else (match p
            case PreChecked => false
            case Operate => k in cur && operated
            case Operated => k in cur || !operated
            case OperationType => k in cur && t.None?
            case Done => k in cur || t.Some?
            case _ => k in cur)
    case Permission(u) => k in cur && t != Some(u)
    case _ => k in cur
  }

  function ValueSettled(cur: Labels, id: Text, operated: bool, t: Option<Text>, now: Text, k: Key): Text {
    if k == Tag(Done, id) && t.Some? then t.value
    else if k == Tag(Operated, id) && !operated then now
    else if k in cur then cur[k] else now
  }

  lemma SettleStep(cur: Labels, l: Labels, was: Labels, seen: set<Text>, id: Text, now: Text, next: Labels)
    requires id !in seen
    requires forall k :: k in next <==> KeySettled(Settle(cur, l, was, seen, now), id, Has(l, Operated, id), OldType(was, id), k)
    requires forall k :: k in next ==>
      next[k] == ValueSettled(Settle(cur, l, was, seen, now), id, Has(l, Operated, id), OldType(was, id), now, k)
    ensures next == Settle(cur, l, was, seen + {id}, now)
  {
    var mid, goal := Settle(cur, l, was, seen, now), Settle(cur, l, was, seen + {id}, now);
    forall k ensures k in next <==> k in goal {
      assert k in mid <==> KeyAfterSettle(cur, l, was, seen, k);
      assert k in goal <==> KeyAfterSettle(cur, l, was, seen + {id}, k);
    }
    forall k | k in next ensures next[k] == goal[k] {
      assert k in mid <==> KeyAfterSettle(cur, l, was, seen, k);
    }
  }

  // One lifecycle trades its operating labels.
  method SettleOne(pod: PodObject, id: Text, operated: bool, t: Option<Text>, now: Text)
    modifies pod`labels
    ensures forall k :: k in pod.labels <==> KeySettled(old(pod.labels), id, operated, t, k)
    ensures forall k :: k in pod.labels ==> pod.labels[k] == ValueSettled(old(pod.labels), id, operated, t, now, k)
  {
    pod.labels := pod.labels - {Tag(PreChecked, id)};
    if !operated {
      pod.labels := pod.labels - {Tag(Operate, id)};
      pod.labels := pod.labels[Tag(Operated, id) := now];
    }
    if t.Some? {
      pod.labels := pod.labels - {Permission(t.value), Tag(OperationType, id)};
      pod.labels := pod.labels[Tag(Done, id) := t.value];
    }
  }

  type ById = map<Text, map<Prefix, Text>>

  // The grouped labels answer which marks a lifecycle carries, and its type.
  ghost predicate Answers(l: Labels, byId: ById) {
    && byId.Keys == Ids(l)
    && (forall id, p :: id in byId ==> (p in byId[id] <==> Has(l, p, id)))
    && forall id :: TypeIn(byId, id) == OldType(l, id)
  }

  function TypeIn(byId: ById, id: Text): Option<Text> {
    if id in byId && OperationType in byId[id] then Some(byId[id][OperationType]) else None
  }

  lemma GroupsAnswer(l: Labels, byId: ById)
    requires Groups(l, Ids(l), byId) && byId.Keys == Ids(l)
    ensures Answers(l, byId)
  {
    forall id | id in byId ensures forall p :: p in byId[id] <==> Has(l, p, id) {
      assert byId[id] == Entry(l, id);
    }
    forall id ensures TypeIn(byId, id) == OldType(l, id) {
      if id in byId {
        assert byId[id] == Entry(l, id);
      }
    }
  }

  // All operations are going to be done.
  method SettleAll(pod: PodObject, byId: ById, oldById: ById, now: Text, ghost l: Labels, ghost was: Labels)
    requires Answers(l, byId) && Answers(was, oldById)
    modifies pod`labels
    ensures pod.labels == Settle(old(pod.labels), l, was, byId.Keys, now)
  {
    ghost var cur := pod.labels;
    var seen: set<Text> := {};
    assert pod.labels == Settle(cur, l, was, {}, now);
    while seen != byId.Keys
      invariant seen <= byId.Keys
      invariant pod.labels == Settle(cur, l, was, seen, now)
      decreases byId.Keys - seen
    {
      Unseen(seen, byId.Keys);
      var id :| id in byId.Keys - seen;
      SettleOne(pod, id, Operated in byId[id], TypeIn(oldById, id), now);
      SettleStep(cur, l, was, seen, id, now, pod.labels);
      seen := seen + {id};
    }
  }

  // All operations are done.
  method PostCheckAll(pod: PodObject, byId: ById, now: Text, ghost l: Labels)
    requires Answers(l, byId)
    modifies pod`labels
    ensures pod.labels == EnterPostCheck(old(pod.labels), l, byId.Keys, now)
  {
    ghost var cur := pod.labels;
    var seen: set<Text> := {};
    while seen != byId.Keys
      invariant seen <= byId.Keys
      invariant forall k :: k in pod.labels <==> k in cur || EntersPostCheck(l, seen, k)
      invariant forall k :: k in pod.labels ==> pod.labels[k] == if EntersPostCheck(l, seen, k) then now else cur[k]
      decreases byId.Keys - seen
    {
      Unseen(seen, byId.Keys);
      var id :| id in byId.Keys - seen;
      if PostCheck !in byId[id] && PostChecked !in byId[id] {
        pod.labels := pod.labels[Tag(PostCheck, id) := now];
      }
      seen := seen + {id};
    }
  }

  // The parse, the first loop and the withdrawal of permissions; the counters answer
  // the questions that the rest of the rewrite asks.
  method TreatAndCount(pod: PodObject, now: Text) returns (failed: bool, byId: ById, c: Counters)
    modifies pod`labels
    ensures var l := old(pod.labels);
      && failed == Unparsable(l)
      && (failed ==> pod.labels == l)
      && (!failed ==>
            && Answers(l, byId)
            && pod.labels == Withdraw(Marks(l, Ids(l), ReadyToOperate(old(pod.Value())), now), l)
            && (c.operating == 0 <==> NoneOperating(l)) && (c.complete == |byId.Keys| <==> AllHave(l, Completing))
            && (c.operate == |byId.Keys| <==> AllHave(l, Operate)) && (c.operated == |byId.Keys| <==> AllHave(l, Operated)))
  {
    ghost var l := pod.labels;
    var parsed := IDToLabelsMap(pod.labels);
    if parsed.ParseError? {
      return true, map[], Counters(0, 0, 0, 0);
    }
    failed, byId := false, parsed.byId;
    GroupsAnswer(l, byId);
    var undoNums;
    c, undoNums := TreatAll(pod, byId, now);
    WithdrawPermissions(pod, undoNums, parsed.typeNums, l);
    LiveNone(l);
    LiveAll(l, Completing);
    LiveAll(l, Operate);
    LiveAll(l, Operated);
  }

  // How the lifecycles of l are completed, `one` being the labels that the first loop
  // left: all last labels go when every expected finalizer is there, and none before.
  predicate Completed(l: Labels, conditions: Conditions, present: set<Text>, one: Labels, v: Verdict, after: Labels) {
    match conditions
    case Malformed => v == BadConditions
    case NoConditions => v == Admitted && NoLastLabels(l, after)
    case Expects(wanted) => v == Admitted && if wanted <= present then NoLastLabels(l, after) else after == one
  }

  predicate NoLastLabels(l: Labels, after: Labels) {
    forall id, p: Prefix :: id in Ids(l) && p in {Operate, Operated, Done, PostCheck, PostChecked, Completing} ==> Tag(p, id) !in after
  }

  // The rest of the rewrite, when no lifecycle is operating.
  method Conclude(was: PodObject?, pod: PodObject, byId: ById, c: Counters, now: Text, ghost l: Labels) returns (v: Verdict)
    requires was != pod && Answers(l, byId)
    requires c.complete == |byId.Keys| <==> AllHave(l, Completing)
    requires c.operate == |byId.Keys| <==> AllHave(l, Operate)
    requires c.operated == |byId.Keys| <==> AllHave(l, Operated)
    modifies pod`labels
    ensures match Concluded(if was == null then None else Some(was.labels), l, pod.conditions.Malformed?,
                            FinalizersSatisfied(old(pod.Value())), old(pod.labels), now)
            case Fails(why) => v == why
            case Writes(labels) => v == Admitted && pod.labels == labels
    ensures AllHave(l, Completing) ==> Completed(l, pod.conditions, pod.finalizers + pod.protections, old(pod.labels), v, pod.labels)
  {
    var numOfIds := |byId.Keys|;
    if c.complete == numOfIds {
      if pod.conditions.Malformed? {
        return BadConditions;
      }
      if FinalizersSatisfied(pod.Value()) {
        SweepAll(pod, byId.Keys);
      }
      return Admitted;
    }
    var operated := c.operated;
    if c.operate == numOfIds {
      if was == null {
        return NoOldPod;
      }
      var before := IDToLabelsMap(was.labels);
      if before.ParseError? {
        return BadLabel;
      }
      GroupsAnswer(was.labels, before.byId);
      SettleAll(pod, byId, before.byId, now, l, was.labels);
      operated := numOfIds;
    }
    if operated == numOfIds {
      PostCheckAll(pod, byId, now, l);
    }
    return Admitted;
  }

  // Mutating: the whole rewrite.
  method Mutating(was: PodObject?, pod: PodObject, op: Operation, now: Text) returns (v: Verdict)
    requires was != pod
    modifies pod`labels, pod`gated
    ensures pod.gated == (old(pod.gated) || (op == Create && Control in old(pod.labels)))
    ensures Control !in old(pod.labels) ==> v == Admitted && pod.labels == old(pod.labels)
    ensures match Rewritten(if was == null then None else Some(was.labels), old(pod.Value()), now)
            case Fails(why) => v == why
            case Writes(labels) => v == Admitted && pod.labels == labels
    ensures var l := old(pod.labels);
      Controlled(l) && !Unparsable(l) && NoneOperating(l) && AllHave(l, Completing) ==>
        Completed(l, pod.conditions, pod.finalizers + pod.protections,
                  Withdraw(Marks(l, Ids(l), ReadyToOperate(old(pod.Value())), now), l), v, pod.labels)
  {
    if !Controlled(pod.labels) {
      return Admitted;
    }
    if op == Create {
      pod.gated := true;
    }
    ghost var l := pod.labels;
    var failed, byId, c := TreatAndCount(pod, now);
    if failed {
      return BadLabel;
    }
    if c.operating != 0 {
      return Admitted;
    }
    v := Conclude(was, pod, byId, c, now, l);
  }
}
