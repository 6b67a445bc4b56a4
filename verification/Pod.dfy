// The parts of a Pod that the operation lifecycle reads and writes.

module Options {

  datatype Option<+T> = None | Some(value: T)

  // The shorter of two times, where there are any.
  function Shorter(a: Option<int>, b: Option<int>): Option<int> {
    if a.None? then b else if b.None? || a.value <= b.value then a else b
  }

  // A subset with as many elements as its superset is the superset.
  lemma SameSizeSubset<T>(a: set<T>, b: set<T>)
    requires a <= b && |a| == |b|
    ensures a == b
  {
    assert b == a + (b - a);
  }

  // A loop that has not seen all of a set finds another element of it.
  lemma Unseen<T>(seen: set<T>, all: set<T>)
    requires seen < all
    ensures all - seen != {}
  {
    assert seen + (all - seen) == all;
  }

  lemma SubsetSize<T>(a: set<T>, b: set<T>)
    requires a <= b
    ensures |a| <= |b|
  {
    assert a + (b - a) == b;
  }
}

module Pods {
  import opened Options

  // Names, operation types and timestamps: nothing but their equality matters.
  type Text(==, !new, 0)

  // The empty text.
  const EMPTY: Text

  // The twelve label prefixes that are completed by a lifecycle ID.
  datatype Prefix =
    | Operating | OperationType | Undo | Done
    | PreCheck | PreChecked | Preparing | Operate | Operated
    | PostCheck | PostChecked | Completing

  // Label keys.  `Tag(p, id)` is the key "p/id".  `Odd` is every other key that
  // starts with the prefix, split at its slashes.  `Permission(t)` is the
  // operation-permission key of operation type t.  `Control` is the control label
  // with the value "true"; with any other value it is a plain label.
  datatype Key =
    | Tag(prefix: Prefix, id: Text)
    | Odd(prefix: Prefix, segments: seq<Text>)
    | Permission(opType: Text)
    | ServiceAvailable
    | StayOffline
    | Creating
    | CompletingMark
    | Control
    | Plain(name: Text)

  type Labels = map<Key, Text>

  // The service-ready condition that the readiness gate looks at.
  datatype Gate = Absent | Up | Down | Unknown

  // The available-conditions annotation: missing, not parseable, or the
  // finalizers that must be on the Pod.
  datatype Conditions = NoConditions | Malformed | Expects(wanted: set<Text>)

  // A Pod as a value: what the API server stores.  Finalizers that carry the
  // operation protection prefix are kept apart from the others.
  datatype Pod = Pod(
    labels: Labels,
    gated: bool,
    gate: Gate,
    ready: bool,
    terminal: bool,
    protections: set<Text>,
    finalizers: set<Text>,
    conditions: Conditions)

  // A Pod in memory, updated in place.
  class PodObject {
    var labels: Labels
    var gated: bool
    var gate: Gate
    var ready: bool
    var terminal: bool
    var protections: set<Text>
    var finalizers: set<Text>
    var conditions: Conditions

    constructor (p: Pod)
      ensures Value() == p
    {
      labels, gated, gate, ready, terminal := p.labels, p.gated, p.gate, p.ready, p.terminal;
      protections, finalizers, conditions := p.protections, p.finalizers, p.conditions;
    }

    function Value(): Pod
      reads this
    {
      Pod(labels, gated, gate, ready, terminal, protections, finalizers, conditions)
    }
  }

  predicate Controlled(l: Labels) {
    Control in l
  }

  predicate Available(p: Pod) {
    ServiceAvailable in p.labels
  }

  // readyToOperate: the gate condition was never written, or it is down and no
  // protection finalizer is left.
  predicate ReadyToOperate(p: Pod) {
    p.gate == Absent || (p.protections == {} && p.gate == Down)
  }

  predicate FinalizersSatisfied(p: Pod) {
    match p.conditions
    case NoConditions => true
    case Malformed => false
    case Expects(wanted) => wanted <= p.finalizers + p.protections
  }

  // ---------------------------------------------------------------- parsing

  predicate Anchor(p: Prefix) {
    p == Operating || p == Operate || p == Operated
  }

  // The ID that a label key announces, when the key starts with an anchor prefix.
  function AnchorId(k: Key): Option<Text> {
    match k
    case Tag(p, id) => if Anchor(p) then Some(id) else None
    case Odd(p, segments) => if Anchor(p) && |segments| >= 2 then Some(segments[1]) else None
    case _ => None
  }

  predicate NoSlash(k: Key) {
    k.Odd? && Anchor(k.prefix) && |k.segments| < 2
  }

  predicate Unparsable(l: Labels) {
    exists k :: k in l && NoSlash(k)
  }

  predicate Has(l: Labels, p: Prefix, id: Text) {
    Tag(p, id) in l
  }

  // The marks of a lifecycle: the prefixes under which its ID is labelled.
  function MarkSet(l: Labels, id: Text): set<Prefix> {
    set p: Prefix | Tag(p, id) in l
  }

  predicate Tagged(l: Labels, id: Text) {
    exists p :: Has(l, p, id)
  }

  // The lifecycles on a Pod.
  function Ids(l: Labels): set<Text> {
    set k | k in l && AnchorId(k).Some? && Tagged(l, AnchorId(k).value) :: AnchorId(k).value
  }

  // Without odd keys the lifecycles are the IDs of the anchor labels.
  lemma AnchoredIsPresent(l: Labels, p: Prefix, id: Text)
    requires Anchor(p) && Has(l, p, id)
    ensures id in Ids(l)
  {
    assert AnchorId(Tag(p, id)) == Some(id);
  }

  // A lifecycle is an ID under which some label stands, and that an operating, operate or
  // operated label announces.
  lemma IdsRead(l: Labels, id: Text)
    ensures id in Ids(l) <==>
      && (exists p :: Tag(p, id) in l)
      && (|| Tag(Operating, id) in l || Tag(Operate, id) in l || Tag(Operated, id) in l
          || exists k :: k in l && k.Odd? && k.prefix in {Operating, Operate, Operated} && |k.segments| >= 2 && k.segments[1] == id)
  {
    assert Tagged(l, id) <==> exists p :: Tag(p, id) in l by {
      if p :| Tag(p, id) in l {
        assert Has(l, p, id);
      }
    }
    forall p | Anchor(p) && Has(l, p, id) && Tagged(l, id) {
      AnchoredIsPresent(l, p, id);
    }
    if k :| k in l && k.Odd? && k.prefix in {Operating, Operate, Operated} && |k.segments| >= 2 && k.segments[1] == id {
      assert AnchorId(k) == Some(id);
    }
  }

  // Labels cannot be parsed when one of these has no slash.
  lemma UnparsableReads(l: Labels)
    ensures Unparsable(l) <==> exists k :: k in l && k.Odd? && k.prefix in {Operating, Operate, Operated} && |k.segments| < 2
  {
    if k :| k in l && k.Odd? && k.prefix in {Operating, Operate, Operated} && |k.segments| < 2 {
      assert NoSlash(k);
    }
  }

  function TypeOf(l: Labels, id: Text): Option<Text> {
    if Has(l, OperationType, id) then Some(l[Tag(OperationType, id)])
    else if Has(l, Done, id) then Some(l[Tag(Done, id)])
    else None
  }

  // The lifecycles among `ids` that carry operation type t.
  function OfType(l: Labels, ids: set<Text>, t: Text): set<Text> {
    set id | id in ids && TypeOf(l, id) == Some(t)
  }

  function Entry(l: Labels, id: Text): map<Prefix, Text> {
    map p: Prefix | Has(l, p, id) :: l[Tag(p, id)]
  }

  datatype Parsed = ParseError | Parsed(byId: map<Text, map<Prefix, Text>>, typeNums: map<Text, nat>)

  // The IDs announced by the keys in `keys`.
  function Announced(keys: set<Key>): set<Text> {
    set k | k in keys && AnchorId(k).Some? :: AnchorId(k).value
  }

  lemma OfTypeStep(l: Labels, ids: set<Text>, id: Text, t: Text)
    requires id !in ids
    ensures OfType(l, ids + {id}, t) == OfType(l, ids, t) + (if TypeOf(l, id) == Some(t) then {id} else {})
    ensures |OfType(l, ids + {id}, t)| == |OfType(l, ids, t)| + (if TypeOf(l, id) == Some(t) then 1 else 0)
  {
    assert OfType(l, ids + {id}, t) == OfType(l, ids, t) + (if TypeOf(l, id) == Some(t) then {id} else {});
  }

  // A typed ID that is announced is a lifecycle, so counting over the announced
  // IDs counts lifecycles.
  lemma TypedAreLifecycles(l: Labels, t: Text)
    ensures OfType(l, Announced(l.Keys), t) == OfType(l, Ids(l), t)
  {
    forall id | id in OfType(l, Announced(l.Keys), t) ensures id in Ids(l) {
      assert Has(l, OperationType, id) || Has(l, Done, id);
    }
  }

  // The first pass of IDToLabelsMap.
  method CollectIds(l: Labels) returns (failed: bool, ids: set<Text>)
    ensures failed <==> Unparsable(l)
    ensures !failed ==> ids == Announced(l.Keys)
  {
    ids := {};
    var todo := l.Keys;
    while todo != {}
      invariant todo <= l.Keys
      invariant forall k :: k in l.Keys - todo ==> !NoSlash(k)
      invariant ids == Announced(l.Keys - todo)
      decreases todo
    {
      var k :| k in todo;
      if NoSlash(k) {
        return true, {};
      }
      assert l.Keys - (todo - {k}) == l.Keys - todo + {k};
      todo := todo - {k};
      if AnchorId(k).Some? {
        ids := ids + {AnchorId(k).value};
      }
    }
    assert l.Keys - todo == l.Keys;
    return false, ids;
  }

  // `nums` counts, for each operation type, the IDs in `ids` that carry it.
  ghost predicate Counts(l: Labels, ids: set<Text>, nums: map<Text, nat>) {
    forall t :: (t in nums <==> OfType(l, ids, t) != {}) && (t in nums ==> nums[t] == |OfType(l, ids, t)|)
  }

  function Bump(nums: map<Text, nat>, t: Option<Text>): map<Text, nat> {
    if t.None? then nums else nums[t.value := (if t.value in nums then nums[t.value] else 0) + 1]
  }

  lemma CountsStep(l: Labels, ids: set<Text>, nums: map<Text, nat>, id: Text)
    requires Counts(l, ids, nums) && id !in ids
    ensures Counts(l, ids + {id}, Bump(nums, TypeOf(l, id)))
  {
    forall t { OfTypeStep(l, ids, id, t); }
  }

  // `byId` holds the labels of every lifecycle among `ids`.
  ghost predicate Groups(l: Labels, ids: set<Text>, byId: map<Text, map<Prefix, Text>>) {
    && byId.Keys == (set id | id in ids && Tagged(l, id))
    && forall id :: id in byId ==> byId[id] == Entry(l, id)
  }

  lemma GroupsStep(l: Labels, ids: set<Text>, byId: map<Text, map<Prefix, Text>>, id: Text)
    requires Groups(l, ids, byId)
    ensures Groups(l, ids + {id}, if Tagged(l, id) then byId[id := Entry(l, id)] else byId)
  {
  }

  // IDToLabelsMap: the lifecycles with their labels, and how many of them each
  // operation type has.
  method IDToLabelsMap(l: Labels) returns (r: Parsed)
    ensures r.ParseError? <==> Unparsable(l)
    ensures r.Parsed? ==> Groups(l, Ids(l), r.byId) && r.byId.Keys == Ids(l)
    ensures r.Parsed? ==> Counts(l, Ids(l), r.typeNums)
  {
    var failed, ids := CollectIds(l);
    if failed {
      return ParseError;
    }
    var byId: map<Text, map<Prefix, Text>> := map[];
    var typeNums: map<Text, nat> := map[];
    var seen: set<Text> := {};
    while seen != ids
      invariant seen <= ids
      invariant Groups(l, seen, byId)
      invariant Counts(l, seen, typeNums)
      decreases ids - seen
    {
      Unseen(seen, ids);
      var id :| id in ids - seen;
      CountsStep(l, seen, typeNums, id);
      GroupsStep(l, seen, byId, id);
      typeNums := Bump(typeNums, TypeOf(l, id));
      if Tagged(l, id) {
        byId := byId[id := Entry(l, id)];
      }
      seen := seen + {id};
    }
    ParsedIsComplete(l, byId, typeNums);
    return Parsed(byId, typeNums);
  }

  lemma ParsedIsComplete(l: Labels, byId: map<Text, map<Prefix, Text>>, nums: map<Text, nat>)
    requires Groups(l, Announced(l.Keys), byId) && Counts(l, Announced(l.Keys), nums)
    ensures Groups(l, Ids(l), byId) && byId.Keys == Ids(l)
    ensures Counts(l, Ids(l), nums)
  {
    forall t { TypedAreLifecycles(l, t); }
    assert Ids(l) == set id | id in Announced(l.Keys) && Tagged(l, id);
  }
}
