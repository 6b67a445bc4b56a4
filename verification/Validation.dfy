// The validating half of the admission webhook (validating.go).

module Validation {
  import opened Options
  import opened Pods
  import opened Admission

  function PrefixOf(k: Key): Option<Prefix> {
    match k
    case Tag(p, _) => Some(p)
    case Odd(p, _) => Some(p)
    case _ => None
  }

  // A key under a lifecycle prefix must have exactly one slash.
  predicate OneSlash(k: Key) {
    k.Odd? ==> |k.segments| == 2
  }

  function IdOf(k: Key): Text
    requires PrefixOf(k).Some? && OneSlash(k)
  {
    if k.Tag? then k.id else k.segments[1]
  }

  function Partner(p: Prefix): Option<Prefix> {
    match p
    case Operated => Some(Done)
    case Done => Some(Operated)
    case _ => None
  }

  // A key under a paired prefix has the partner's label for the same ID beside it.
  predicate Paired(l: Labels, k: Key)
    requires OneSlash(k)
  {
    (PrefixOf(k).Some? && Partner(PrefixOf(k).value).Some? && IdOf(k) != EMPTY)
      ==> Tag(Partner(PrefixOf(k).value).value, IdOf(k)) in l
  }

  // The two kinds of label that only go together.
  datatype Kind = PreCheckedKind | PermissionKind

  function KindOf(k: Key): Option<Kind> {
    if k.Permission? then Some(PermissionKind)
    else if PrefixOf(k) == Some(PreChecked) then Some(PreCheckedKind)
    else None
  }

  function Other(kind: Kind): Kind {
    if kind == PermissionKind then PreCheckedKind else PermissionKind
  }

  predicate Shows(keys: set<Key>, kind: Kind) {
    exists k :: k in keys && KindOf(k) == Some(kind)
  }

  // What the webhook demands, said without a loop and hence without an order.
  predicate WellLabelled(l: Labels) {
    && (forall k :: k in l ==> OneSlash(k))
    && (forall k :: k in l ==> Paired(l, k))
    && (Shows(l.Keys, PreCheckedKind) <==> Shows(l.Keys, PermissionKind))
  }

  function Judged(pod: Pod, op: Operation): Verdict {
    if op == Delete || !Controlled(pod.labels) then Admitted
    else if pod.conditions.Malformed? then BadConditions
    else if WellLabelled(pod.labels) then Admitted
    else Rejected
  }

  // Whichever of the two kinds comes first is answered for by the other.
  ghost predicate Matching(seen: set<Key>, expected: set<Kind>, found: set<Kind>) {
    && (Shows(seen, PreCheckedKind) || Shows(seen, PermissionKind) <==> expected != {})
    && (expected == {} || (exists kind :: expected == {kind} && Shows(seen, Other(kind))))
    && found <= expected
    && forall kind :: kind in expected ==> (kind in found <==> Shows(seen, kind))
  }

  lemma MatchingStep(seen: set<Key>, expected: set<Kind>, found: set<Kind>, k: Key)
    requires Matching(seen, expected, found)
    ensures KindOf(k).None? ==> Matching(seen + {k}, expected, found)
    ensures KindOf(k).Some? && KindOf(k).value in expected ==> Matching(seen + {k}, expected, found + {KindOf(k).value})
    ensures KindOf(k).Some? && KindOf(k).value !in expected ==> Matching(seen + {k}, expected + {Other(KindOf(k).value)}, found)
  {
    forall kind ensures Shows(seen + {k}, kind) <==> Shows(seen, kind) || KindOf(k) == Some(kind) {
      if Shows(seen, kind) {
        var j :| j in seen && KindOf(j) == Some(kind);
        assert j in seen + {k};
      }
      assert k in seen + {k};
    }
    if KindOf(k).Some? && KindOf(k).value !in expected {
      var other := Other(KindOf(k).value);
      if expected != {} {
        assert expected == {other};
      }
      assert expected + {other} == {other};
    }
  }

  lemma MatchingDone(keys: set<Key>, expected: set<Kind>, found: set<Kind>)
    requires Matching(keys, expected, found)
    ensures |expected| == |found| <==> (Shows(keys, PreCheckedKind) <==> Shows(keys, PermissionKind))
  {
    if |expected| == |found| {
      SameSizeSubset(found, expected);
    }
    if expected != {} {
      var kind :| expected == {kind} && Shows(keys, Other(kind));
      if Shows(keys, kind) {
        assert found == expected;
      } else {
        assert kind !in found;
      }
    }
  }

  // Validating: one pass over the labels, in any order.
  method Validating(pod: PodObject, op: Operation) returns (v: Verdict)
    ensures v == Judged(pod.Value(), op)
    ensures v == Admitted <==>
      op == Delete || Control !in pod.labels || (pod.conditions != Malformed && ReadsWell(pod.labels))
    ensures v in {Admitted, BadConditions, Rejected} && (v == BadConditions ==> pod.conditions == Malformed)
  {
    WellLabelledReads(pod.labels);
    if op == Delete || !Controlled(pod.labels) {
      return Admitted;
    }
    if pod.conditions.Malformed? {
      return BadConditions;
    }
    var l := pod.labels;
    var expected: set<Kind>, found: set<Kind> := {}, {};
    var seen: set<Key> := {};
    while seen != l.Keys
      invariant seen <= l.Keys
      invariant forall k :: k in seen ==> OneSlash(k) && Paired(l, k)
      invariant Matching(seen, expected, found)
      decreases l.Keys - seen
    {
      Unseen(seen, l.Keys);
      var k :| k in l.Keys - seen;
      if !OneSlash(k) {
        return Rejected;
      }
      if PrefixOf(k).Some? && Partner(PrefixOf(k).value).Some? && IdOf(k) != EMPTY {
        if Tag(Partner(PrefixOf(k).value).value, IdOf(k)) !in l {
          return Rejected;
        }
      }
      MatchingStep(seen, expected, found, k);
      if KindOf(k).Some? {
        if KindOf(k).value in expected {
          found := found + {KindOf(k).value};
        } else {
          expected := expected + {Other(KindOf(k).value)};
        }
      }
      seen := seen + {k};
    }
    MatchingDone(l.Keys, expected, found);
    if |expected| != |found| {
      return Rejected;
    }
    return Admitted;
  }

  // The key stands under the prefix, completed by the ID.
  predicate Under(k: Key, p: Prefix, id: Text) {
    k == Tag(p, id) || (k.Odd? && k.prefix == p && |k.segments| == 2 && k.segments[1] == id)
  }

  // What the webhook demands, in the labels' own terms: every key under a prefix has one
  // slash, operated and done-operation-type go together for each ID, and pre-checked and
  // permission go together on the Pod.
  ghost predicate ReadsWell(l: Labels) {
    && (forall k :: k in l && k.Odd? ==> |k.segments| == 2)
    && (forall k, id :: k in l && id != EMPTY && Under(k, Operated, id) ==> Tag(Done, id) in l)
    && (forall k, id :: k in l && id != EMPTY && Under(k, Done, id) ==> Tag(Operated, id) in l)
    && ((exists k :: k in l && (k.Tag? || k.Odd?) && k.prefix == PreChecked) <==> exists t :: Permission(t) in l)
  }

  lemma WellLabelledReads(l: Labels)
    ensures WellLabelled(l) <==> ReadsWell(l)
  {
    if forall k :: k in l ==> OneSlash(k) {
      PairsRead(l);
    }
    KindsRead(l);
  }

  lemma PairsRead(l: Labels)
    requires forall k :: k in l ==> OneSlash(k)
    ensures (forall k :: k in l ==> Paired(l, k)) <==>
      && (forall k, id :: k in l && id != EMPTY && Under(k, Operated, id) ==> Tag(Done, id) in l)
      && (forall k, id :: k in l && id != EMPTY && Under(k, Done, id) ==> Tag(Operated, id) in l)
  {
    forall k | k in l
      ensures Paired(l, k) <==> forall id :: id != EMPTY ==>
        (Under(k, Operated, id) ==> Tag(Done, id) in l) && (Under(k, Done, id) ==> Tag(Operated, id) in l)
    {
      if PrefixOf(k).Some? {
        assert Under(k, k.prefix, IdOf(k));
      }
    }
  }

  lemma KindsRead(l: Labels)
    ensures Shows(l.Keys, PreCheckedKind) <==> exists k :: k in l && (k.Tag? || k.Odd?) && k.prefix == PreChecked
    ensures Shows(l.Keys, PermissionKind) <==> exists t :: Permission(t) in l
  {
    if k :| k in l && (k.Tag? || k.Odd?) && k.prefix == PreChecked {
      assert KindOf(k) == Some(PreCheckedKind);
    }
    if t :| Permission(t) in l {
      assert KindOf(Permission(t)) == Some(PermissionKind);
    }
    if Shows(l.Keys, PermissionKind) {
      var k :| k in l && KindOf(k) == Some(PermissionKind);
      assert Permission(k.opType) in l;
    }
  }
}
