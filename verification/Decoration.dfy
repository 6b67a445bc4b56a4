// The partitioned rollout of a PodDecoration: the order in which Pods are upgraded
// (strategy/types.go) and the Pods that are held back (strategy/manager.go).

module Ordering {
  import opened Options
  import opened Pods

  // A text of which only its place in the alphabetical order matters.
  type Rank = int

  datatype Phase = PhasePending | PhaseUnknown | PhaseRunning | OtherPhase

  // Times are counted from an arbitrary point; None is the zero time.
  datatype State = State(
    deleted: bool, updatedInSet: bool, ready: bool, available: bool, node: Option<Text>, phase: Phase,
    readyTime: Option<int>, restarts: int, created: Option<int>)

  datatype Info = Info(name: Text, labels: Labels, collaSet: Text, context: Text, instance: Rank, revision: Rank, state: State)

  function PhaseOrder(p: Phase): int {
    match p
    case PhasePending => 0
    case PhaseUnknown => 1
    case PhaseRunning => 2
    case OtherPhase => 0
  }

  // The zero time comes after every other, and later times come first.
  predicate AfterOrZero(a: Option<int>, b: Option<int>) {
    if a.None? || b.None? then a.None? else a.value > b.value
  }

  predicate Compare(l: Info, r: Info) {
    var a, b := l.state, r.state;
    if a.updatedInSet != b.updatedInSet then a.updatedInSet
    else if l.revision != r.revision then l.revision > r.revision
    else if a.available != b.available then b.available
    else if a.node != b.node && (a.node.None? || b.node.None?) then a.node.None?
    else if PhaseOrder(a.phase) != PhaseOrder(b.phase) then PhaseOrder(a.phase) < PhaseOrder(b.phase)
    else if a.ready != b.ready then !a.ready
    else if a.ready && b.ready && a.readyTime != b.readyTime then AfterOrZero(a.readyTime, b.readyTime)
    else if a.restarts != b.restarts then a.restarts > b.restarts
    else if a.created != b.created then AfterOrZero(a.created, b.created)
    else l.instance < r.instance
  }

  // The order of the sort: Pods that carry the updated revision come first.
  predicate Less(l: Info, r: Info, updated: Rank) {
    if (l.revision == updated) != (r.revision == updated) then l.revision == updated else Compare(l, r)
  }

  // The order is fit for sorting: asymmetric, and "not before" is transitive.
  lemma LessIsWeak(a: Info, b: Info, c: Info, updated: Rank)
    ensures !(Less(a, b, updated) && Less(b, a, updated))
    ensures !Less(a, b, updated) && !Less(b, c, updated) ==> !Less(a, c, updated)
  {
  }

  function Late(b: bool): int {
    if b then 1 else 0
  }

  // The place of a Pod in the order, written as numbers, the weightiest first: carriers of
  // the updated revision, Pods that their CollaSet has updated, later revisions; out of
  // service before in service, unassigned before assigned, pending before unknown before
  // running, unready before ready; ready for no or a shorter time, more restarts, created
  // at no or a later time; and last the instance.
  function Place(i: Info, updated: Rank): (p: seq<int>)
    ensures |p| == 13
  {
    var s := i.state;
    [Late(i.revision != updated), Late(!s.updatedInSet), -i.revision, Late(s.available), Late(s.node.Some?),
     match s.phase { case PhaseRunning => 2 case PhaseUnknown => 1 case _ => 0 },
     Late(s.ready), Late(s.ready && s.readyTime.Some?), if s.ready && s.readyTime.Some? then -s.readyTime.value else 0,
     -s.restarts, Late(s.created.Some?), if s.created.Some? then -s.created.value else 0, i.instance]
  }

  // The first number in which two places differ decides.
  predicate Precedes(a: seq<int>, b: seq<int>)
    requires |a| == |b|
  {
    exists k :: 0 <= k < |a| && a[k] < b[k] && forall j :: 0 <= j < k ==> a[j] == b[j]
  }

  // The order compares places, and Pods that it does not order have the same place.
  lemma LessComparesPlaces(l: Info, r: Info, updated: Rank)
    ensures Less(l, r, updated) <==> Precedes(Place(l, updated), Place(r, updated))
    ensures !Less(l, r, updated) && !Less(r, l, updated) ==> Place(l, updated) == Place(r, updated)
  {
    var a, b := Place(l, updated), Place(r, updated);
    var k := 0;
    while k < 13 && a[k] == b[k]
      invariant 0 <= k <= 13 && forall j :: 0 <= j < k ==> a[j] == b[j]
    {
      k := k + 1;
    }
    LessAt(l, r, updated, k);
    LessAt(r, l, updated, k);
  }

  lemma LessAt(l: Info, r: Info, updated: Rank, k: nat)
    requires var a, b := Place(l, updated), Place(r, updated);
      k <= 13 && (forall j :: 0 <= j < k ==> a[j] == b[j]) && (k < 13 ==> a[k] != b[k])
    ensures Less(l, r, updated) <==> k < 13 && Place(l, updated)[k] < Place(r, updated)[k]
  {
    var a, b := Place(l, updated), Place(r, updated);
    assert 0 < k ==> a[0] == b[0];
    assert 1 < k ==> a[1] == b[1];
    assert 2 < k ==> a[2] == b[2];
    assert 3 < k ==> a[3] == b[3];
    assert 4 < k ==> a[4] == b[4];
    assert 5 < k ==> a[5] == b[5];
    assert 6 < k ==> a[6] == b[6];
    assert 7 < k ==> a[7] == b[7];
    assert 8 < k ==> a[8] == b[8];
    assert 9 < k ==> a[9] == b[9];
    assert 10 < k ==> a[10] == b[10];
    assert 11 < k ==> a[11] == b[11];
    assert 12 < k ==> a[12] == b[12];
  }
}

module Rollout {
  import opened Options
  import opened Pods
  import opened Ordering

  type Fleet = map<Text, Info>

  ghost predicate Named(pods: Fleet) {
    forall n :: n in pods ==> pods[n].name == n
  }

  function Carriers(pods: Fleet, updated: Rank): set<Text> {
    set n | n in pods && pods[n].revision == updated
  }

  function Clamp(x: int, n: nat): nat {
    if x < 0 then 0 else if x > n then n else x
  }

  // The last `partition` Pods in some sorted order of the fleet.
  ghost predicate HoldsBack(pods: Fleet, updated: Rank, partition: int, held: set<Text>) {
    && held <= pods.Keys && |held| == Clamp(partition, |pods|)
    && forall h, n :: h in held && n in pods && n !in held ==> !Less(pods[h], pods[n], updated)
  }

  // ---------------------------------------------------------------- the sort

  ghost predicate Arranges(a: seq<Info>, pods: Fleet) {
    && |a| == |pods| && (forall k :: 0 <= k < |a| ==> a[k].name in pods && pods[a[k].name] == a[k])
    && forall j, k :: 0 <= j < k < |a| ==> a[j].name != a[k].name
  }

  method Swap(a: array<Info>, k: nat, ghost pods: Fleet)
    requires 0 < k < a.Length && Arranges(a[..], pods)
    modifies a
    ensures Arranges(a[..], pods)
    ensures a[k] == old(a[k - 1]) && a[k - 1] == old(a[k])
    ensures forall j :: 0 <= j < a.Length && j != k && j != k - 1 ==> a[j] == old(a[j])
  {
    a[k], a[k - 1] := a[k - 1], a[k];
  }

  ghost predicate Sorted(a: seq<Info>, n: nat, updated: Rank)
    requires n <= |a|
  {
    forall i, j :: 0 <= i < j < n ==> !Less(a[j], a[i], updated)
  }

  method Sort(a: array<Info>, updated: Rank, ghost pods: Fleet)
    requires Arranges(a[..], pods)
    modifies a
    ensures Arranges(a[..], pods) && Sorted(a[..], a.Length, updated)
  {
    for n := 0 to a.Length
      invariant Arranges(a[..], pods)
      invariant Sorted(a[..], n, updated)
    {
      var k := n;
      while k > 0 && Less(a[k], a[k - 1], updated)
        invariant 0 <= k <= n
        invariant Arranges(a[..], pods)
        invariant forall i, j :: 0 <= i < j <= n && j != k && i != k ==> !Less(a[j], a[i], updated)
        invariant forall j :: k < j <= n ==> Less(a[k], a[j], updated)
      {
        Swap(a, k, pods);
        k := k - 1;
      }
      InsertedIsSorted(a[..], n, k, updated);
    }
  }

  lemma InsertedIsSorted(a: seq<Info>, n: nat, k: nat, updated: Rank)
    requires k <= n < |a| && (k > 0 ==> !Less(a[k], a[k - 1], updated))
    requires forall i, j :: 0 <= i < j <= n && j != k && i != k ==> !Less(a[j], a[i], updated)
    requires forall j :: k < j <= n ==> Less(a[k], a[j], updated)
    ensures Sorted(a, n + 1, updated)
  {
    forall i, j | 0 <= i < j < n + 1 ensures !Less(a[j], a[i], updated) {
      if j == k && i < k - 1 {
        LessIsWeak(a[k], a[k - 1], a[i], updated);
      } else if i == k {
        LessIsWeak(a[k], a[j], a[k], updated);
      }
    }
  }

  // The fleet in the order in which a map is walked, that is, in any order.
  method Collect(pods: Fleet) returns (a: array<Info>)
    requires Named(pods)
    ensures fresh(a) && Arranges(a[..], pods)
  {
    var order: seq<Info> := [];
    var seen: set<Text> := {};
    while seen != pods.Keys
      invariant seen <= pods.Keys && |seen| == |order|
      invariant forall k :: 0 <= k < |order| ==> order[k].name in seen && pods[order[k].name] == order[k]
      invariant forall j, k :: 0 <= j < k < |order| ==> order[j].name != order[k].name
      decreases pods.Keys - seen
    {
      Unseen(seen, pods.Keys);
      var n :| n in pods.Keys - seen;
      order, seen := order + [pods[n]], seen + {n};
    }
    assert |pods.Keys| == |pods|;
    a := new Info[|order|](i requires 0 <= i < |order| => order[i]);
    assert a[..] == order;
  }

  function Names(a: seq<Info>, i: nat): set<Text>
    requires i <= |a|
    decreases |a| - i
  {
    if i == |a| then {} else {a[i].name} + Names(a, i + 1)
  }

  lemma {:induction false} NamesAt(a: seq<Info>, i: nat, n: Text)
    requires i <= |a|
    ensures n in Names(a, i) <==> exists k :: i <= k < |a| && a[k].name == n
    decreases |a| - i
  {
    if i < |a| {
      NamesAt(a, i + 1, n);
    }
  }

  lemma {:induction false} NamesSize(a: seq<Info>, i: nat)
    requires i <= |a| && forall j, k :: 0 <= j < k < |a| ==> a[j].name != a[k].name
    ensures |Names(a, i)| == |a| - i
    decreases |a| - i
  {
    if i < |a| {
      NamesSize(a, i + 1);
      NamesAt(a, i + 1, a[i].name);
    }
  }

  lemma {:induction false} AllNames(a: seq<Info>, pods: Fleet)
    requires Arranges(a, pods)
    ensures Names(a, 0) == pods.Keys
  {
    NamesSize(a, 0);
    forall n | n in Names(a, 0) ensures n in pods {
      NamesAt(a, 0, n);
    }
    assert |pods.Keys| == |pods|;
    SameSizeSubset(Names(a, 0), pods.Keys);
  }

  // The last Pods of a sorted arrangement are a set to hold back.
  lemma TailHoldsBack(a: seq<Info>, pods: Fleet, updated: Rank, partition: int)
    requires Arranges(a, pods) && Sorted(a, |a|, updated)
    ensures HoldsBack(pods, updated, partition, Names(a, |a| - Clamp(partition, |a|)))
  {
    var from := |a| - Clamp(partition, |a|);
    var held := Names(a, from);
    NamesSize(a, from);
    AllNames(a, pods);
    forall n ensures n in held ==> n in pods {
      NamesAt(a, from, n);
    }
    forall h, n | h in held && n in pods && n !in held ensures !Less(pods[h], pods[n], updated) {
      NamesAt(a, from, h);
      NamesAt(a, from, n);
      NamesAt(a, 0, n);
    }
  }

  // -------------------------------------------------------------- the resync

  type Selector = Labels -> bool

  datatype Rolling = Rolling(selector: Option<Selector>, partition: Option<int>)

  datatype Decoration = Decoration(selector: Option<Selector>, rolling: Option<Rolling>, updated: Rank, current: Rank)

  // A missing selector selects every Pod for the rollout, but matches none when a
  // revision is looked up.
  predicate Selected(selector: Option<Selector>, l: Labels) {
    selector.Some? ==> selector.value(l)
  }

  predicate Matches(selector: Option<Selector>, l: Labels) {
    selector.Some? && selector.value(l)
  }

  // A listed Pod, and what could be found out about it.
  datatype Listed = Listed(name: Text, active: bool, info: Option<Info>)

  // The instance IDs that the resource context of a CollaSet has allocated.
  datatype Allocation = Gone | Unreadable | Known(ids: set<Rank>)

  type Contexts = Text -> Allocation

  type InstanceKey = (Text, Rank)

  function KeyOf(i: Info): InstanceKey {
    (i.context, i.instance)
  }

  function KeysOf(pods: Fleet): set<InstanceKey> {
    set n | n in pods :: KeyOf(pods[n])
  }

  lemma KeysOfMore(pods: Fleet, n: Text, i: Info)
    requires n !in pods
    ensures KeysOf(pods[n := i]) == KeysOf(pods) + {KeyOf(i)}
  {
    var more := pods[n := i];
    forall k | k in KeysOf(pods) ensures k in KeysOf(more) {
      var m :| m in pods && KeyOf(pods[m]) == k;
      assert more[m] == pods[m];
    }
    assert more[n] == i;
  }

  predicate UniqueNames(listed: seq<Listed>) {
    && (forall i :: 0 <= i < |listed| && listed[i].info.Some? ==> listed[i].info.value.name == listed[i].name)
    && forall i, j :: 0 <= i < j < |listed| ==> listed[i].name != listed[j].name
  }

  // The active Pods.
  function Live(listed: seq<Listed>): Fleet {
    if listed == [] then map[]
    else
      var last := listed[|listed| - 1];
      var init := Live(listed[..|listed| - 1]);
      if last.active && last.info.Some? then init[last.name := last.info.value] else init
  }

  // A Pod of the old fleet that needs a look: no live Pod has its instance or its name.
  predicate Vanished(live: Fleet, d: Decoration, o: Info, n: Text) {
    KeyOf(o) !in KeysOf(live) && Selected(d.selector, o.labels) && n !in live
  }

  predicate Allocated(contexts: Contexts, o: Info) {
    contexts(o.collaSet).Known? && o.instance in contexts(o.collaSet).ids
  }

  function Placeholder(o: Info): Info {
    o.(state := o.state.(deleted := true))
  }

  // The fleet after a resync: the live Pods, and a placeholder for each vanished one
  // whose instance is still allocated.
  function Resynced(fleet: Fleet, live: Fleet, d: Decoration, contexts: Contexts): Fleet {
    live + map n | n in fleet && Vanished(live, d, fleet[n], n) && Allocated(contexts, fleet[n]) :: Placeholder(fleet[n])
  }

  predicate ResyncFails(fleet: Fleet, listed: seq<Listed>, d: Decoration, contexts: Contexts) {
    || (exists i :: 0 <= i < |listed| && listed[i].active && listed[i].info.None?)
    || exists n :: n in fleet && Vanished(Live(listed), d, fleet[n], n) && contexts(fleet[n].collaSet).Unreadable?
  }

  lemma {:induction false} LiveIsNamed(listed: seq<Listed>)
    requires UniqueNames(listed)
    ensures Named(Live(listed))
    decreases |listed|
  {
    if listed != [] {
      LiveIsNamed(listed[..|listed| - 1]);
    }
  }

  lemma {:induction false} LiveReads(listed: seq<Listed>, n: Text)
    requires UniqueNames(listed)
    ensures n in Live(listed) <==> exists i :: 0 <= i < |listed| && listed[i].active && listed[i].info.Some? && listed[i].name == n
    ensures n in Live(listed) ==> exists i :: 0 <= i < |listed| && listed[i].active && listed[i].info == Some(Live(listed)[n]) && listed[i].name == n
    decreases |listed|
  {
    if listed != [] {
      var init, last := listed[..|listed| - 1], listed[|listed| - 1];
      LiveReads(init, n);
      assert forall i :: 0 <= i < |init| ==> listed[i] == init[i];
      assert listed[|init|] == last;
    }
  }

  // The Pods of the fleet after a resync, in terms of the listed Pods and of the old fleet:
  // the active ones, and of the others those that the decoration selects, whose instance no
  // active Pod has, and whose instance is still allocated.
  lemma ResyncReads(fleet: Fleet, listed: seq<Listed>, d: Decoration, contexts: Contexts, n: Text)
    requires UniqueNames(listed)
    ensures var next := Resynced(fleet, Live(listed), d, contexts);
      && (n in next ==> n in Live(listed) || n in fleet)
      && (n in Live(listed) ==> n in next && next[n] == Live(listed)[n])
      && (n in fleet && n !in Live(listed) ==>
            (n in next <==>
              && (d.selector.Some? ==> d.selector.value(fleet[n].labels))
              && (forall m :: m in Live(listed) ==> Live(listed)[m].context != fleet[n].context || Live(listed)[m].instance != fleet[n].instance)
              && contexts(fleet[n].collaSet).Known? && fleet[n].instance in contexts(fleet[n].collaSet).ids))
      && (n in next && n !in Live(listed) ==> next[n] == fleet[n].(state := fleet[n].state.(deleted := true)))
  {
    var live := Live(listed);
    if n in fleet {
      assert KeyOf(fleet[n]) in KeysOf(live) <==> exists m :: m in live && KeyOf(live[m]) == KeyOf(fleet[n]);
    }
  }

  // A resync fails when an active Pod cannot be looked up, or the context of a Pod that
  // may have vanished cannot be read.
  lemma ResyncFailsReads(fleet: Fleet, listed: seq<Listed>, d: Decoration, contexts: Contexts)
    ensures ResyncFails(fleet, listed, d, contexts) <==>
      || (exists i :: 0 <= i < |listed| && listed[i].active && listed[i].info.None?)
      || (exists n :: n in fleet && n !in Live(listed) && contexts(fleet[n].collaSet) == Unreadable
                      && (d.selector.Some? ==> d.selector.value(fleet[n].labels))
                      && forall m :: m in Live(listed) ==>
                           Live(listed)[m].context != fleet[n].context || Live(listed)[m].instance != fleet[n].instance)
  {
    var live := Live(listed);
    forall n | n in fleet
      ensures KeyOf(fleet[n]) !in KeysOf(live) <==>
              forall m :: m in live ==> live[m].context != fleet[n].context || live[m].instance != fleet[n].instance
    {
      assert KeyOf(fleet[n]) in KeysOf(live) <==> exists m :: m in live && KeyOf(live[m]) == KeyOf(fleet[n]);
    }
    if ResyncFails(fleet, listed, d, contexts) && !exists i :: 0 <= i < |listed| && listed[i].active && listed[i].info.None? {
      var n :| n in fleet && Vanished(live, d, fleet[n], n) && contexts(fleet[n].collaSet).Unreadable?;
      assert n !in live;
    }
  }

  function PartitionOf(d: Decoration): Option<int> {
    if d.rolling.Some? then d.rolling.value.partition else None
  }

  // The decoration is rolled out by partition alone.
  predicate ByPartition(d: Decoration) {
    d.rolling.Some? && d.rolling.value.selector.None? && d.rolling.value.partition.Some?
  }

  // The revision that suits a Pod, and whether it is the updated one.
  function Suitable(d: Decoration, held: set<Text>, name: Text, l: Labels): (Option<Rank>, bool) {
    if !Matches(d.selector, l) then (None, false)
    else if d.rolling.None? then (Some(d.updated), true)
    else if d.rolling.value.selector.Some? then
      if Matches(d.rolling.value.selector, l) then (Some(d.updated), true) else (Some(d.current), false)
    else if d.rolling.value.partition.Some? && name in held then (Some(d.current), false)
    else (Some(d.updated), true)
  }

  class Manager {
    var pods: Fleet
    var held: set<Text>

    constructor ()
      ensures pods == map[] && held == {}
    {
      pods, held := map[], {};
    }

    // updatePartitionPods
    method UpdatePartitionPods(updated: Rank, partition: int)
      requires Named(pods)
      modifies this`held
      ensures HoldsBack(pods, updated, partition, held)
    {
      held := {};
      var a := Collect(pods);
      Sort(a, updated, pods);
      var idx := a.Length - partition;
      if idx < 0 {
        idx := 0;
      }
      TailHoldsBack(a[..], pods, updated, partition);
      InsertFrom(a, idx);
    }

    method InsertFrom(a: array<Info>, from: nat)
      requires held == {}
      modifies this`held
      ensures held == Names(a[..], if from > a.Length then a.Length else from)
    {
      var idx := from;
      while idx < a.Length
        invariant from <= idx && held + Names(a[..], if idx > a.Length then a.Length else idx)
                                 == Names(a[..], if from > a.Length then a.Length else from)
      {
        held := held + {a[idx].name};
        idx := idx + 1;
      }
    }

    // The first loop of updateSelectedPods.
    method CollectLive(listed: seq<Listed>) returns (failed: bool, live: Fleet, keys: set<InstanceKey>)
      requires UniqueNames(listed)
      ensures failed <==> exists i :: 0 <= i < |listed| && listed[i].active && listed[i].info.None?
      ensures !failed ==> live == Live(listed) && keys == KeysOf(live)
    {
      failed, live, keys := false, map[], {};
      for i := 0 to |listed|
        invariant forall j :: 0 <= j < i ==> !(listed[j].active && listed[j].info.None?)
        invariant live == Live(listed[..i]) && keys == KeysOf(live)
        invariant forall n :: n in live ==> exists j :: 0 <= j < i && listed[j].name == n
      {
        assert listed[..i + 1][..i] == listed[..i];
        if listed[i].active {
          if listed[i].info.None? {
            return true, map[], {};
          }
          var info := listed[i].info.value;
          assert info.name !in live;
          KeysOfMore(live, info.name, info);
          live, keys := live[info.name := info], keys + {KeyOf(info)};
        }
      }
      assert listed[..|listed|] == listed;
    }

    // The second loop: the old fleet in any order.
    method KeepPlaceholders(live: Fleet, keys: set<InstanceKey>, d: Decoration, contexts: Contexts) returns (failed: bool, fleet: Fleet)
      requires keys == KeysOf(live)
      ensures failed <==> exists n :: n in pods && Vanished(live, d, pods[n], n) && contexts(pods[n].collaSet).Unreadable?
      ensures !failed ==> fleet == Resynced(pods, live, d, contexts)
    {
      failed, fleet := false, live;
      var seen: set<Text> := {};
      while seen != pods.Keys
        invariant seen <= pods.Keys
        invariant forall n :: n in seen && Vanished(live, d, pods[n], n) ==> !contexts(pods[n].collaSet).Unreadable?
        invariant forall n :: n in fleet <==> n in live || (n in seen && Vanished(live, d, pods[n], n) && Allocated(contexts, pods[n]))
        invariant forall n :: n in fleet ==> fleet[n] == if n in live then live[n] else Placeholder(pods[n])
        decreases pods.Keys - seen
      {
        Unseen(seen, pods.Keys);
        var n :| n in pods.Keys - seen;
        var o := pods[n];
        seen := seen + {n};
        if KeyOf(o) !in keys && Selected(d.selector, o.labels) && n !in fleet {
          match contexts(o.collaSet)
          case Gone =>
          case Unreadable => return true, map[];
          case Known(ids) =>
            if o.instance in ids {
              fleet := fleet[n := Placeholder(o)];
            }
        }
      }
    }

    // updateSelectedPods
    method UpdateSelectedPods(d: Decoration, listed: seq<Listed>, contexts: Contexts) returns (failed: bool)
      requires Named(pods) && UniqueNames(listed)
      modifies this
      ensures Named(pods)
      ensures failed <==> ResyncFails(old(pods), listed, d, contexts)
      ensures failed ==> pods == old(pods) && held == old(held)
      ensures !failed ==> pods == Resynced(old(pods), Live(listed), d, contexts)
      ensures !failed && PartitionOf(d).Some? ==> HoldsBack(pods, d.updated, PartitionOf(d).value, held)
      ensures !failed && PartitionOf(d).None? ==> held == old(held)
    {
      var live, keys, fleet;
      failed, live, keys := CollectLive(listed);
      if failed {
        return;
      }
      LiveIsNamed(listed);
      failed, fleet := KeepPlaceholders(live, keys, d, contexts);
      if failed {
        return;
      }
      pods := fleet;
      if d.rolling.Some? && d.rolling.value.partition.Some? {
        UpdatePartitionPods(d.updated, d.rolling.value.partition.value);
      }
    }

    // getSuitableRevision
    method GetSuitableRevision(d: Decoration, name: Text, l: Labels) returns (revision: Option<Rank>, isUpdated: bool)
      ensures (revision, isUpdated) == Suitable(d, held, name, l)
      ensures revision.Some? <==> d.selector.Some? && d.selector.value(l)
      ensures revision.Some? ==> revision.value == if isUpdated then d.updated else d.current
      ensures isUpdated ==> revision.Some?
      ensures revision.Some? ==>
        isUpdated == match d.rolling
                     case None => true
                     case Some(Rolling(Some(selected), _)) => selected(l)
                     case Some(Rolling(None, Some(_))) => name !in held
                     case Some(Rolling(None, None)) => true
    {
      if !Matches(d.selector, l) {
        return None, false;
      }
      if d.rolling.None? {
        return Some(d.updated), true;
      }
      if d.rolling.value.selector.Some? {
        if Matches(d.rolling.value.selector, l) {
          return Some(d.updated), true;
        }
        return Some(d.current), false;
      }
      if d.rolling.value.partition.Some? {
        if name in held {
          return Some(d.current), false;
        }
        return Some(d.updated), true;
      }
      return Some(d.updated), true;
    }
  }

  // The Pods of the fleet that the updated revision suits.
  function Suited(d: Decoration, pods: Fleet, held: set<Text>): set<Text> {
    set n | n in pods && Suitable(d, held, n, pods[n].labels) == (Some(d.updated), true)
  }

  // Under a partition the updated revision suits exactly the Pods that are not held
  // back, and so exactly as many as the partition leaves.
  lemma PartitionSuits(d: Decoration, pods: Fleet, held: set<Text>)
    requires ByPartition(d) && HoldsBack(pods, d.updated, PartitionOf(d).value, held)
    requires forall n :: n in pods ==> d.selector.Some? && d.selector.value(pods[n].labels)
    ensures Suited(d, pods, held) == pods.Keys - held
    ensures var p := d.rolling.value.partition.value;
      |Suited(d, pods, held)| == if p <= 0 then |pods| else if p >= |pods| then 0 else |pods| - p
  {
    forall n ensures n in Suited(d, pods, held) <==> n in pods.Keys - held {
    }
    RestSize(pods, held);
  }

  lemma RestSize(pods: Fleet, held: set<Text>)
    requires held <= pods.Keys
    ensures |pods.Keys - held| == |pods| - |held|
  {
    assert |pods.Keys| == |pods|;
    assert pods.Keys == (pods.Keys - held) + held;
  }

  // ----------------------------------------------------- placeholder conservation

  ghost predicate KeysDistinct(pods: Fleet) {
    forall a, b :: a in pods && b in pods && a != b ==> KeyOf(pods[a]) != KeyOf(pods[b])
  }

  // A Pod that comes back under its old name is the same instance.
  ghost predicate SameNameSameKey(fleet: Fleet, live: Fleet) {
    forall n :: n in fleet && n in live ==> KeyOf(fleet[n]) == KeyOf(live[n])
  }

  predicate Awaited(d: Decoration, contexts: Contexts, o: Info) {
    Selected(d.selector, o.labels) && Allocated(contexts, o)
  }

  function AwaitedKeys(fleet: Fleet, d: Decoration, contexts: Contexts): set<InstanceKey> {
    set n | n in fleet && Awaited(d, contexts, fleet[n]) :: KeyOf(fleet[n])
  }

  lemma KeyIn(pods: Fleet, n: Text)
    requires n in pods
    ensures KeyOf(pods[n]) in KeysOf(pods)
  {
  }

  lemma PlaceholderAt(fleet: Fleet, live: Fleet, d: Decoration, contexts: Contexts, n: Text)
    requires n in fleet && n !in live && Awaited(d, contexts, fleet[n]) && KeyOf(fleet[n]) !in KeysOf(live)
    ensures n in Resynced(fleet, live, d, contexts) && Resynced(fleet, live, d, contexts)[n] == Placeholder(fleet[n])
  {
    assert Vanished(live, d, fleet[n], n) && Allocated(contexts, fleet[n]);
  }

  lemma LiveAt(fleet: Fleet, live: Fleet, d: Decoration, contexts: Contexts, n: Text)
    requires n in live
    ensures n in Resynced(fleet, live, d, contexts) && Resynced(fleet, live, d, contexts)[n] == live[n]
  {
    assert !exists m :: m == n && m in fleet && Vanished(live, d, fleet[m], m);
  }

  lemma AwaitedIsKept(fleet: Fleet, live: Fleet, d: Decoration, contexts: Contexts, n: Text)
    requires SameNameSameKey(fleet, live) && n in fleet && Awaited(d, contexts, fleet[n])
    ensures KeyOf(fleet[n]) in KeysOf(Resynced(fleet, live, d, contexts))
  {
    var next := Resynced(fleet, live, d, contexts);
    if KeyOf(fleet[n]) in KeysOf(live) {
      var m :| m in live && KeyOf(live[m]) == KeyOf(fleet[n]);
      LiveAt(fleet, live, d, contexts, m);
      KeyIn(next, m);
    } else {
      if n in live {
        KeyIn(live, n);
      }
      PlaceholderAt(fleet, live, d, contexts, n);
      KeyIn(next, n);
    }
  }

  lemma LiveIsKept(fleet: Fleet, live: Fleet, d: Decoration, contexts: Contexts, n: Text)
    requires n in live
    ensures KeyOf(live[n]) in KeysOf(Resynced(fleet, live, d, contexts))
  {
    LiveAt(fleet, live, d, contexts, n);
    KeyIn(Resynced(fleet, live, d, contexts), n);
  }

  // Whoever is in the fleet after a resync is live, or a placeholder.
  lemma ResyncedIs(fleet: Fleet, live: Fleet, d: Decoration, contexts: Contexts, n: Text)
    requires n in Resynced(fleet, live, d, contexts)
    ensures var i := Resynced(fleet, live, d, contexts)[n];
      if n in live then i == live[n]
      else n in fleet && i == Placeholder(fleet[n]) && Awaited(d, contexts, fleet[n]) && KeyOf(i) !in KeysOf(live)
  {
  }

  lemma ResyncKeepsKeysDistinct(fleet: Fleet, live: Fleet, d: Decoration, contexts: Contexts)
    requires KeysDistinct(fleet) && KeysDistinct(live)
    ensures KeysDistinct(Resynced(fleet, live, d, contexts))
  {
    var next := Resynced(fleet, live, d, contexts);
    forall a, b | a in next && b in next && a != b ensures KeyOf(next[a]) != KeyOf(next[b]) {
      ResyncedIs(fleet, live, d, contexts, a);
      ResyncedIs(fleet, live, d, contexts, b);
      if a in live {
        KeyIn(live, a);
      }
      if b in live {
        KeyIn(live, b);
      }
    }
  }

  // A resync keeps instance keys distinct; its keys are those of the live Pods and
  // those of the old fleet that are still allocated and selected.
  lemma ResyncConservesKeys(fleet: Fleet, live: Fleet, d: Decoration, contexts: Contexts)
    requires KeysDistinct(fleet) && KeysDistinct(live) && SameNameSameKey(fleet, live)
    ensures KeysDistinct(Resynced(fleet, live, d, contexts))
    ensures KeysOf(Resynced(fleet, live, d, contexts)) == KeysOf(live) + AwaitedKeys(fleet, d, contexts)
  {
    var next := Resynced(fleet, live, d, contexts);
    ResyncKeepsKeysDistinct(fleet, live, d, contexts);
    forall k | k in KeysOf(next) ensures k in KeysOf(live) + AwaitedKeys(fleet, d, contexts) {
      var n :| n in next && KeyOf(next[n]) == k;
      ResyncedIs(fleet, live, d, contexts, n);
    }
    forall k | k in KeysOf(live) + AwaitedKeys(fleet, d, contexts) ensures k in KeysOf(next) {
      if k in KeysOf(live) {
        var n :| n in live && KeyOf(live[n]) == k;
        LiveIsKept(fleet, live, d, contexts, n);
      } else {
        var n :| n in fleet && Awaited(d, contexts, fleet[n]) && KeyOf(fleet[n]) == k;
        AwaitedIsKept(fleet, live, d, contexts, n);
      }
    }
  }

  function KeysAmong(pods: Fleet, names: set<Text>): set<InstanceKey>
    requires names <= pods.Keys
  {
    set n | n in names :: KeyOf(pods[n])
  }

  lemma {:induction false} KeysAmongCount(pods: Fleet, names: set<Text>)
    requires KeysDistinct(pods) && names <= pods.Keys
    ensures |KeysAmong(pods, names)| == |names|
    decreases |names|
  {
    if names != {} {
      var n :| n in names;
      KeysAmongCount(pods, names - {n});
      assert KeysAmong(pods, names) == KeysAmong(pods, names - {n}) + {KeyOf(pods[n])};
    }
  }

  lemma KeysCount(pods: Fleet)
    requires KeysDistinct(pods)
    ensures |KeysOf(pods)| == |pods|
  {
    KeysAmongCount(pods, pods.Keys);
    assert KeysAmong(pods, pods.Keys) == KeysOf(pods);
    assert |pods.Keys| == |pods|;
  }

  // While every instance stays allocated and selected, Pods may vanish and come back
  // under any name: the fleet of the partition keeps its instances and its size.
  lemma SteadyFleet(fleet: Fleet, live: Fleet, d: Decoration, contexts: Contexts)
    requires KeysDistinct(fleet) && KeysDistinct(live) && SameNameSameKey(fleet, live)
    requires KeysOf(live) <= KeysOf(fleet) && forall n :: n in fleet ==> Awaited(d, contexts, fleet[n])
    ensures var next := Resynced(fleet, live, d, contexts); KeysOf(next) == KeysOf(fleet) && |next| == |fleet|
  {
    ResyncConservesKeys(fleet, live, d, contexts);
    AllAwaited(fleet, d, contexts);
    SameInstances(fleet, live, Resynced(fleet, live, d, contexts));
  }

  lemma SameInstances(fleet: Fleet, live: Fleet, next: Fleet)
    requires KeysDistinct(fleet) && KeysDistinct(next)
    requires KeysOf(live) <= KeysOf(fleet) && KeysOf(next) == KeysOf(live) + KeysOf(fleet)
    ensures KeysOf(next) == KeysOf(fleet) && |next| == |fleet|
  {
    KeysCount(fleet);
    KeysCount(next);
  }

  lemma AllAwaited(fleet: Fleet, d: Decoration, contexts: Contexts)
    requires forall n :: n in fleet ==> Awaited(d, contexts, fleet[n])
    ensures AwaitedKeys(fleet, d, contexts) == KeysOf(fleet)
  {
    forall k ensures k in KeysOf(fleet) <==> k in AwaitedKeys(fleet, d, contexts) {
    }
  }

  // Deleting a Pod and creating another one for its instance ID leaves the size of the
  // fleet, and with it the number of Pods to hold back, as it was.
  lemma DeleteThenRecreate(fleet: Fleet, n: Text, m: Text, reborn: Info, d: Decoration, contexts: Contexts)
    requires KeysDistinct(fleet) && forall k :: k in fleet ==> Awaited(d, contexts, fleet[k])
    requires n in fleet && (m == n || m !in fleet) && KeyOf(reborn) == KeyOf(fleet[n])
    ensures var without := Resynced(fleet, fleet - {n}, d, contexts);
      var again := Resynced(without, (fleet - {n})[m := reborn], d, contexts);
      |without| == |fleet| && |again| == |fleet| && KeysOf(again) == KeysOf(fleet)
  {
    var live, without := fleet - {n}, Resynced(fleet, fleet - {n}, d, contexts);
    SteadyFleet(fleet, live, d, contexts);
    WithoutLooksAlike(fleet, n, d, contexts);
    RebornFits(fleet, without, n, m, reborn);
    SteadyFleet(without, live[m := reborn], d, contexts);
  }

  // With the Pod gone, its placeholder stands in for it.
  lemma WithoutLooksAlike(fleet: Fleet, n: Text, d: Decoration, contexts: Contexts)
    requires KeysDistinct(fleet) && n in fleet && forall k :: k in fleet ==> Awaited(d, contexts, fleet[k])
    ensures Resynced(fleet, fleet - {n}, d, contexts) == fleet[n := Placeholder(fleet[n])]
  {
    var live := fleet - {n};
    assert KeyOf(fleet[n]) !in KeysOf(live);
    forall k | k in live ensures KeyOf(live[k]) in KeysOf(live) {
    }
  }

  ghost predicate LookAlike(a: Fleet, b: Fleet) {
    (forall k :: k in a <==> k in b) && forall k :: k in a && k in b ==> KeyOf(a[k]) == KeyOf(b[k])
  }

  lemma LookAlikeKeys(a: Fleet, b: Fleet)
    requires LookAlike(a, b)
    ensures KeysOf(a) <= KeysOf(b) && (KeysDistinct(b) ==> KeysDistinct(a))
  {
    forall x | x in KeysOf(a) ensures x in KeysOf(b) {
      var k :| k in a && KeyOf(a[k]) == x;
      assert KeyOf(b[k]) == x;
    }
  }

  lemma AliveKeys(fleet: Fleet, n: Text, m: Text, reborn: Info)
    requires KeysDistinct(fleet) && n in fleet && (m == n || m !in fleet) && KeyOf(reborn) == KeyOf(fleet[n])
    ensures KeysDistinct((fleet - {n})[m := reborn])
    ensures KeysOf((fleet - {n})[m := reborn]) <= KeysOf(fleet)
  {
    var alive := (fleet - {n})[m := reborn];
    forall x | x in KeysOf(alive) ensures x in KeysOf(fleet) {
      var k :| k in alive && KeyOf(alive[k]) == x;
      assert k != m ==> alive[k] == fleet[k];
      assert KeyOf(fleet[if k == m then n else k]) == x;
    }
  }

  lemma RebornFits(fleet: Fleet, without: Fleet, n: Text, m: Text, reborn: Info)
    requires KeysDistinct(fleet) && n in fleet && (m == n || m !in fleet) && KeyOf(reborn) == KeyOf(fleet[n])
    requires without == fleet[n := Placeholder(fleet[n])]
    ensures var alive := (fleet - {n})[m := reborn];
      && KeysDistinct(without) && KeysDistinct(alive) && SameNameSameKey(without, alive)
      && KeysOf(without) == KeysOf(fleet) && KeysOf(alive) <= KeysOf(without)
  {
    assert LookAlike(without, fleet) && LookAlike(fleet, without);
    LookAlikeKeys(without, fleet);
    LookAlikeKeys(fleet, without);
    AliveKeys(fleet, n, m, reborn);
  }
}

// A rollout by partition over a fixed fleet.
module Upgrades {
  import opened Options
  import opened Pods
  import opened Ordering
  import opened Rollout

  // The fleet, the Pods held back since the last resync, if there was one, and the
  // decoration.
  datatype World = World(pods: Fleet, held: Option<set<Text>>, d: Decoration)

  datatype Step =
    | Resyncs(held: set<Text>)           // the Pods to hold back are worked out anew
    | Changes(name: Text, to: Info)      // a Pod changes, but not its decoration
    | Decorates(name: Text)              // a Pod takes the revision that suits it
    | Lowers(partition: int)             // the partition is lowered

  // The decoration is rolled out by partition, and there is something to roll out.
  predicate RollsOut(d: Decoration) {
    ByPartition(d) && d.updated != d.current
  }

  // Before the first resync has succeeded nobody is held back.
  function HeldBack(w: World): set<Text> {
    if w.held.None? then {} else w.held.value
  }

  ghost predicate Enabled(w: World, s: Step) {
    match s
    case Resyncs(held) => PartitionOf(w.d).Some? && HoldsBack(w.pods, w.d.updated, PartitionOf(w.d).value, held)
    case Changes(n, to) => n in w.pods && to.revision == w.pods[n].revision
    case Decorates(n) => n in w.pods
    case Lowers(p) => PartitionOf(w.d).Some? && p <= PartitionOf(w.d).value
  }

  function Next(w: World, s: Step): World {
    match s
    case Resyncs(held) => w.(held := Some(held))
    case Changes(n, to) => w.(pods := w.pods[n := to])
    case Decorates(n) =>
      if n !in w.pods then w
      else
        var suits := Suitable(w.d, HeldBack(w), n, w.pods[n].labels).0;
        if suits.None? then w else w.(pods := w.pods[n := w.pods[n].(revision := suits.value)])
    case Lowers(p) => w.(d := w.d.(rolling := Some(Rolling(None, Some(p)))))
  }

  function Room(w: World): int
    requires PartitionOf(w.d).Some?
  {
    var room := |w.pods| - PartitionOf(w.d).value;
    if room < 0 then 0 else room
  }

  // The Pods that carry the updated revision are no more than the partition leaves room
  // for, and none of them is held back; nor can more of them be upgraded than that.
  ghost predicate InRoom(w: World) {
    && RollsOut(w.d) && |Carriers(w.pods, w.d.updated)| <= Room(w)
    && (w.held.Some? ==> Carriers(w.pods, w.d.updated) !! w.held.value && |w.pods.Keys - w.held.value| <= Room(w))
  }

  lemma SetApart(all: set<Text>, some: set<Text>)
    requires some <= all
    ensures |all - some| == |all| - |some|
  {
  }

  // The sort never holds back a Pod that carries the updated revision.
  lemma ResyncHoldsNoCarrier(w: World, held: set<Text>)
    requires RollsOut(w.d) && |Carriers(w.pods, w.d.updated)| <= Room(w)
    requires HoldsBack(w.pods, w.d.updated, PartitionOf(w.d).value, held)
    ensures Carriers(w.pods, w.d.updated) !! held && |w.pods.Keys - held| <= Room(w)
  {
    var carriers := Carriers(w.pods, w.d.updated);
    assert |w.pods.Keys| == |w.pods|;
    SetApart(w.pods.Keys, held);
    forall u | u in carriers && u in held ensures false {
      forall n | n in w.pods.Keys - held ensures n in carriers - {u} {
        assert !Less(w.pods[u], w.pods[n], w.d.updated);
      }
      SubsetSize(w.pods.Keys - held, carriers - {u});
    }
  }

  lemma SameKeys(pods: Fleet, n: Text, i: Info)
    requires n in pods
    ensures pods[n := i].Keys == pods.Keys && |pods[n := i]| == |pods|
  {
    assert |pods[n := i].Keys| == |pods.Keys|;
  }

  // Before the first resync a Pod may be decorated if it carries the updated revision
  // already, or none suits it, or there is room for one more carrier.
  predicate Affordable(w: World, n: Text)
    requires n in w.pods && PartitionOf(w.d).Some?
  {
    || w.held.Some? || w.pods[n].revision == w.d.updated || !Matches(w.d.selector, w.pods[n].labels)
    || |Carriers(w.pods, w.d.updated)| < Room(w)
  }

  lemma MoreCarriers(pods: Fleet, n: Text, i: Info, updated: Rank)
    requires n in pods && i.revision == updated
    ensures Carriers(pods[n := i], updated) == Carriers(pods, updated) + {n}
  {
  }

  // Without a resync nothing else keeps the carriers within the room of the partition.
  lemma UnsyncedDecorationIff(w: World, n: Text)
    requires InRoom(w) && w.held.None? && n in w.pods
    ensures InRoom(Next(w, Decorates(n))) <==> Affordable(w, n)
    ensures Carriers(w.pods, w.d.updated) <= Carriers(Next(w, Decorates(n)).pods, w.d.updated)
  {
    var v := Next(w, Decorates(n));
    if Matches(w.d.selector, w.pods[n].labels) {
      SameKeys(w.pods, n, v.pods[n]);
      MoreCarriers(w.pods, n, v.pods[n], w.d.updated);
    }
  }

  lemma DecorateKeepsInRoom(w: World, n: Text)
    requires InRoom(w) && n in w.pods && w.held.Some?
    ensures InRoom(Next(w, Decorates(n)))
    ensures Carriers(w.pods, w.d.updated) <= Carriers(Next(w, Decorates(n)).pods, w.d.updated)
  {
    var v := Next(w, Decorates(n));
    SameKeys(w.pods, n, v.pods[n]);
    assert v.pods == w.pods[n := v.pods[n]];
    SubsetSize(Carriers(v.pods, w.d.updated), w.pods.Keys - w.held.value);
  }

  // A fleet of one Pod that the partition is to hold back: while no resync has
  // succeeded, it is upgraded all the same.
  lemma UnsyncedRolloutLeaks(i: Info, d: Decoration) returns (w: World)
    requires RollsOut(d) && PartitionOf(d).value == 1 && i.revision != d.updated && Matches(d.selector, i.labels)
    ensures InRoom(w) && w.d == d && w.held.None? && w.pods == map[i.name := i] && Enabled(w, Decorates(i.name))
    ensures var v := Next(w, Decorates(i.name)); |Carriers(v.pods, d.updated)| == 1 && Room(v) == 0
  {
    w := World(map[i.name := i], None, d);
    var v := Next(w, Decorates(i.name));
    assert Carriers(w.pods, d.updated) == {};
    assert Carriers(v.pods, d.updated) == {i.name};
    SameKeys(w.pods, i.name, v.pods[i.name]);
  }

  // Pods are decorated before the first resync only if that is affordable.
  ghost predicate Careful(w: World, s: Step) {
    s.Decorates? && s.name in w.pods && PartitionOf(w.d).Some? ==> Affordable(w, s.name)
  }

  lemma ChangeKeepsInRoom(w: World, n: Text, to: Info)
    requires InRoom(w) && n in w.pods && to.revision == w.pods[n].revision
    ensures InRoom(Next(w, Changes(n, to)))
    ensures Carriers(Next(w, Changes(n, to)).pods, w.d.updated) == Carriers(w.pods, w.d.updated)
  {
    SameKeys(w.pods, n, to);
    assert Carriers(w.pods[n := to], w.d.updated) == Carriers(w.pods, w.d.updated);
  }

  lemma StepKeepsInRoom(w: World, s: Step)
    requires InRoom(w) && Enabled(w, s) && Careful(w, s)
    ensures InRoom(Next(w, s)) && Next(w, s).d.updated == w.d.updated
    ensures Carriers(w.pods, w.d.updated) <= Carriers(Next(w, s).pods, w.d.updated)
  {
    match s
    case Resyncs(held) => ResyncHoldsNoCarrier(w, held);
    case Changes(n, to) => ChangeKeepsInRoom(w, n, to);
    case Decorates(n) =>
      if w.held.Some? {
        DecorateKeepsInRoom(w, n);
      } else {
        UnsyncedDecorationIff(w, n);
      }
    case Lowers(_) =>
  }

  function Run(w: World, steps: seq<Step>): World
    decreases |steps|
  {
    if steps == [] then w else Run(Next(w, steps[0]), steps[1..])
  }

  ghost predicate Possible(w: World, steps: seq<Step>)
    decreases |steps|
  {
    steps == [] || (Enabled(w, steps[0]) && Careful(w, steps[0]) && Possible(Next(w, steps[0]), steps[1..]))
  }

  // Before the first resync nobody is held back.
  ghost predicate Begins(w: World) {
    RollsOut(w.d) && w.held.None? && |Carriers(w.pods, w.d.updated)| <= Room(w)
  }

  lemma {:induction false} RunKeepsInRoom(w: World, steps: seq<Step>)
    requires InRoom(w) && Possible(w, steps)
    ensures InRoom(Run(w, steps)) && Run(w, steps).d.updated == w.d.updated
    ensures Carriers(w.pods, w.d.updated) <= Carriers(Run(w, steps).pods, w.d.updated)
    decreases |steps|
  {
    if steps != [] {
      StepKeepsInRoom(w, steps[0]);
      RunKeepsInRoom(Next(w, steps[0]), steps[1..]);
    }
  }

  // In every run the Pods that carry the updated revision stay within the room that the
  // partition leaves, they are never held back, and no Pod is ever downgraded: what
  // suits a carrier is what it carries.
  lemma RolloutNeverDowngrades(w: World, steps: seq<Step>)
    requires Begins(w) && Possible(w, steps)
    ensures var v := Run(w, steps);
      && PartitionOf(v.d).Some? && |Carriers(v.pods, w.d.updated)| <= Room(v)
      && Carriers(w.pods, w.d.updated) <= Carriers(v.pods, w.d.updated)
      && forall n :: n in Carriers(v.pods, w.d.updated) ==>
           n !in HeldBack(v) && Suitable(v.d, HeldBack(v), n, v.pods[n].labels).0 in {None, Some(v.pods[n].revision)}
  {
    RunKeepsInRoom(w, steps);
  }
}
