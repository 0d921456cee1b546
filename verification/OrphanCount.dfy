/** The cheap guard of the orphan cleanup, "more claims than replicas", against the exact orphan test. */
module OrphanCount {
  import opened Text
  import opened Utils
  import opened Api
  import opened Cluster

  // ---------------------------------------------------------------- counting distinct ordinals

  predicate Distinct(ks: seq<nat>) {
    forall i, j :: 0 <= i < j < |ks| ==> ks[i] != ks[j]
  }

  function Below(ks: seq<nat>, r: nat): set<nat> {
    set k | k in ks && k < r
  }

  function AtOrAbove(ks: seq<nat>, r: nat): nat {
    if ks == [] then 0
    else AtOrAbove(ks[..|ks| - 1], r) + if ks[|ks| - 1] >= r then 1 else 0
  }

  function UpTo(r: nat): (s: set<nat>)
    ensures |s| == r
    ensures forall k: nat :: k in s <==> k < r
  {
    if r == 0 then {} else UpTo(r - 1) + {r - 1}
  }

  lemma {:induction false} BelowPlusAbove(ks: seq<nat>, r: nat)
    requires Distinct(ks)
    ensures |Below(ks, r)| + AtOrAbove(ks, r) == |ks|
  {
    if ks != [] {
      var front, last := ks[..|ks| - 1], ks[|ks| - 1];
      BelowPlusAbove(front, r);
      assert ks == front + [last];
      if last < r {
        assert Below(ks, r) == Below(front, r) + {last};
      } else {
        assert Below(ks, r) == Below(front, r);
      }
    }
  }

  /** The ordinals below r that do not occur. */
  function Missing(ks: seq<nat>, r: nat): set<nat> {
    UpTo(r) - Below(ks, r)
  }

  predicate Covers(ks: seq<nat>, r: nat) {
    forall k: nat :: k < r ==> k in ks
  }

  lemma MissingNone(ks: seq<nat>, r: nat)
    ensures Covers(ks, r) <==> |Missing(ks, r)| == 0
  {
    if Covers(ks, r) {
      assert Missing(ks, r) == {};
    } else {
      var k: nat :| k < r && k !in ks;
      assert k in Missing(ks, r);
    }
  }

  /** Pigeonhole: as many ordinals are at or above r as there are ordinals too many plus ordinals missing. */
  lemma Pigeonhole(ks: seq<nat>, r: nat)
    requires Distinct(ks)
    ensures AtOrAbove(ks, r) == |ks| - r + |Missing(ks, r)|
  {
    BelowPlusAbove(ks, r);
    assert UpTo(r) == Below(ks, r) + Missing(ks, r);
    assert |UpTo(r)| == |Below(ks, r)| + |Missing(ks, r)|;
  }

  // ---------------------------------------------------------------- listed claims

  /** The listed claims are those of pods ks of the server, each once; ordinals fit 32 bits. */
  predicate Printed(list: seq<Claim>, key: ObjectKey, ks: seq<nat>) {
    && |ks| == |list|
    && forall i :: 0 <= i < |list| ==> list[i].key == ObjectKey(key.namespace, PvcName(key.name, ks[i])) && ks[i] < INT32_LIMIT
  }

  predicate NoTwice(list: seq<Claim>) {
    forall i, j :: 0 <= i < j < |list| ==> list[i].key != list[j].key
  }

  function Orphans(list: seq<Claim>, r: int): nat {
    if list == [] then 0
    else Orphans(list[..|list| - 1], r) + if IsPVCOrphan(list[|list| - 1].key.name, r) then 1 else 0
  }

  lemma PrintedDistinct(list: seq<Claim>, key: ObjectKey, ks: seq<nat>)
    requires Printed(list, key, ks)
    ensures NoTwice(list) <==> Distinct(ks)
  {
    if NoTwice(list) {
      forall i, j | 0 <= i < j < |ks| ensures ks[i] != ks[j] {
        assert list[i].key != list[j].key;
      }
    }
    if Distinct(ks) {
      forall i, j | 0 <= i < j < |list| ensures list[i].key != list[j].key {
        if list[i].key == list[j].key {
          PvcNameInjective(key.name, ks[i], key.name, ks[j]);
          assert false;
        }
      }
    }
  }

  lemma {:induction false} OrphansAreAbove(list: seq<Claim>, key: ObjectKey, ks: seq<nat>, r: nat)
    requires Printed(list, key, ks)
    ensures Orphans(list, r) == AtOrAbove(ks, r)
  {
    if list != [] {
      OrphansAreAbove(list[..|list| - 1], key, ks[..|ks| - 1], r);
      OrphanExactly(key.name, ks[|ks| - 1], r);
    }
  }

  predicate SomeListedOrphan(list: seq<Claim>, r: int) {
    exists c :: c in list && IsPVCOrphan(c.key.name, r)
  }

  lemma {:induction false} SomeOrphan(list: seq<Claim>, r: int)
    ensures Orphans(list, r) > 0 <==> SomeListedOrphan(list, r)
  {
    if list != [] {
      var front, last := list[..|list| - 1], list[|list| - 1];
      SomeOrphan(front, r);
      assert forall c :: c in list <==> c in front || c == last;
    }
  }

  /** The guard lets the loop run exactly if there are more orphans than volumes missing below r; so it
      disagrees with the orphan test exactly if there are orphans, but no more than volumes missing. When
      it lets the loop run there are at least as many orphans as claims too many. */
  lemma GuardExactly(list: seq<Claim>, key: ObjectKey, ks: seq<nat>, r: nat)
    requires Printed(list, key, ks) && NoTwice(list)
    ensures |list| > r <==> Orphans(list, r) > |Missing(ks, r)|
    ensures (|list| > r <==> SomeListedOrphan(list, r)) <==> !(0 < Orphans(list, r) <= |Missing(ks, r)|)
    ensures Orphans(list, r) >= |list| - r
    ensures |list| > r ==> SomeListedOrphan(list, r)
  {
    PrintedDistinct(list, key, ks);
    OrphansAreAbove(list, key, ks, r);
    Pigeonhole(ks, r);
    SomeOrphan(list, r);
  }

  /** With the volumes 0..r-1 all there it always agrees. */
  lemma GuardAgreesWhenCovered(list: seq<Claim>, key: ObjectKey, ks: seq<nat>, r: nat)
    requires Printed(list, key, ks) && NoTwice(list) && Covers(ks, r)
    ensures |list| > r <==> SomeListedOrphan(list, r)
    ensures Orphans(list, r) == if |list| > r then |list| - r else 0
  {
    GuardExactly(list, key, ks, r);
    MissingNone(ks, r);
    PrintedDistinct(list, key, ks);
    OrphansAreAbove(list, key, ks, r);
    Pigeonhole(ks, r);
  }

  /** An orphan missed: volume r alone is listed, volume 0 is not. */
  lemma GuardMissesOrphan(key: ObjectKey, labels: map<string, string>, r: nat)
    requires 0 < r < INT32_LIMIT
    ensures var list := [Claim(ObjectKey(key.namespace, PvcName(key.name, r)), labels)];
            !(|list| > r) && SomeListedOrphan(list, r)
  {
    var c := Claim(ObjectKey(key.namespace, PvcName(key.name, r)), labels);
    assert c in [c];
    OrphanExactly(key.name, r, r);
  }
}
