/**
 * The deep merge the state-config templates use (lodash `merge(object, source)`):
 * the source is walked key by key; a plain-object or array source value is
 * merged recursively into what the destination holds at that key (an object
 * into an object, an array into an array INDEX BY INDEX), and any other
 * source value overwrites the destination's. Keys the source lacks keep the
 * destination's value and position; new keys are appended in source order.
 */
module Merge {
  import opened Wrappers
  import opened Json

  function Max(a: nat, b: nat): nat {
    if a < b then b else a
  }

  predicate IsScalar(v: Value) {
    !v.Obj? && !v.Arr?
  }

  /** `merge(dst, src)` at one value. A destination that is absent, or of the
      wrong kind for a container source, behaves as an empty object or array. */
  function Merge(dst: Value, src: Value): (r: Value)
    ensures src.Obj? ==> r.Obj? && Keys(r.members) == (if dst.Obj? then Keys(dst.members) else {}) + Keys(src.members)
    ensures src.Arr? ==> r.Arr? && |r.items| == Max(if dst.Arr? then |dst.items| else 0, |src.items|)
    ensures IsScalar(src) ==> r == src
    decreases src
  {
    match src
    case Obj(sm) => Obj(MergeMembers(if dst.Obj? then dst.members else [], sm))
    case Arr(si) => Arr(MergeItems(if dst.Arr? then dst.items else [], si))
    case _ => src
  }

  /** The object case: each source member, in order, is merged into the
      destination's value under the same key. */
  function MergeMembers(dm: seq<Member>, sm: seq<Member>): (r: seq<Member>)
    ensures Keys(r) == Keys(dm) + Keys(sm)
    ensures DistinctKeys(dm) ==> DistinctKeys(r)
    decreases sm
  {
    if sm == [] then dm
    else
      var k := sm[0].key;
      MergeMembers(Put(dm, k, Merge(Lookup(dm, k).GetOr(Null), sm[0].val)), sm[1..])
  }

  /** The array case: index `i` of the source is merged into index `i` of the
      destination; the destination's elements past the source's end remain. */
  function MergeItems(di: seq<Value>, si: seq<Value>): (r: seq<Value>)
    ensures |r| == Max(|di|, |si|)
    decreases si
  {
    if si == [] then di
    else if di == [] then [Merge(Null, si[0])] + MergeItems([], si[1..])
    else [Merge(di[0], si[0])] + MergeItems(di[1..], si[1..])
  }

  // ---------------------------------------------------------------------
  // Object law: right-hand precedence, left-hand survival
  // ---------------------------------------------------------------------

  /** A key the source does not mention keeps the destination's value. */
  lemma {:induction false} MergeMembersKeep(dm: seq<Member>, sm: seq<Member>, k: string)
    requires k !in Keys(sm)
    ensures Lookup(MergeMembers(dm, sm), k) == Lookup(dm, k)
    decreases sm
  {
    if sm != [] {
      var k0 := sm[0].key;
      MergeMembersKeep(Put(dm, k0, Merge(Lookup(dm, k0).GetOr(Null), sm[0].val)), sm[1..], k);
    }
  }

  /** A key the source mentions holds the merge of the destination's value
      (or nothing) with the source's value. */
  lemma {:induction false} MergeMembersOverride(dm: seq<Member>, sm: seq<Member>, k: string)
    requires DistinctKeys(sm) && k in Keys(sm)
    ensures Lookup(MergeMembers(dm, sm), k) == Some(Merge(Lookup(dm, k).GetOr(Null), Lookup(sm, k).value))
    decreases sm
  {
    var k0 := sm[0].key;
    var dm' := Put(dm, k0, Merge(Lookup(dm, k0).GetOr(Null), sm[0].val));
    if k0 == k {
      MergeMembersKeep(dm', sm[1..], k);
    } else {
      MergeMembersOverride(dm', sm[1..], k);
    }
  }

  /** Merging an override object into a skeleton object: every key of either
      is present; a scalar override value wins; a skeleton key the override
      lacks keeps its value. */
  lemma ObjectMergeLaw(skeleton: seq<Member>, overrides: seq<Member>, k: string)
    requires DistinctKeys(overrides)
    ensures Merge(Obj(skeleton), Obj(overrides)) == Obj(MergeMembers(skeleton, overrides))
    ensures Keys(MergeMembers(skeleton, overrides)) == Keys(skeleton) + Keys(overrides)
    ensures k in Keys(overrides) && IsScalar(Lookup(overrides, k).value) ==>
              Lookup(MergeMembers(skeleton, overrides), k) == Lookup(overrides, k)
    ensures k !in Keys(overrides) ==>
              Lookup(MergeMembers(skeleton, overrides), k) == Lookup(skeleton, k)
  {
    if k in Keys(overrides) {
      MergeMembersOverride(skeleton, overrides, k);
    } else {
      MergeMembersKeep(skeleton, overrides, k);
    }
  }

  // ---------------------------------------------------------------------
  // Array law: index-wise, never concatenated
  // ---------------------------------------------------------------------

  lemma {:induction false} MergeItemsAt(di: seq<Value>, si: seq<Value>, i: nat)
    requires i < Max(|di|, |si|)
    ensures i < |si| ==> MergeItems(di, si)[i] == Merge(if i < |di| then di[i] else Null, si[i])
    ensures i >= |si| ==> MergeItems(di, si)[i] == di[i]
    decreases si
  {
    if si != [] && i > 0 {
      if di == [] {
        MergeItemsAt([], si[1..], i - 1);
      } else {
        MergeItemsAt(di[1..], si[1..], i - 1);
      }
    }
  }

  /** An override array of scalars at least as long as the skeleton's array
      replaces it; a shorter one only overwrites its own indices. */
  lemma ScalarArrayOverride(di: seq<Value>, si: seq<Value>)
    requires forall i :: 0 <= i < |si| ==> IsScalar(si[i])
    ensures |di| <= |si| ==> Merge(Arr(di), Arr(si)) == Arr(si)
    ensures |si| < |di| ==> Merge(Arr(di), Arr(si)) == Arr(si + di[|si|..])
  {
    var r := MergeItems(di, si);
    forall i | 0 <= i < |r|
      ensures r[i] == if i < |si| then si[i] else di[i]
    {
      MergeItemsAt(di, si, i);
    }
    if |di| <= |si| {
      assert r == si;
    } else {
      assert r == si + di[|si|..];
    }
  }

  // ---------------------------------------------------------------------
  // Merging into nothing copies; merging the same override twice is stable
  // ---------------------------------------------------------------------

  lemma {:induction false} MergeIntoNothing(v: Value)
    requires Wf(v)
    ensures Merge(Null, v) == v
    decreases v, 1
  {
    match v
    case Obj(ms) => MergeMembersFresh([], ms);
    case Arr(items) => MergeItemsFresh(items);
    case _ =>
  }

  lemma {:induction false} MergeMembersFresh(acc: seq<Member>, sm: seq<Member>)
    requires DistinctKeys(sm) && Keys(acc) !! Keys(sm)
    requires forall i :: 0 <= i < |sm| ==> Wf(sm[i].val)
    ensures MergeMembers(acc, sm) == acc + sm
    decreases sm, 0
  {
    if sm == [] {
      assert acc + sm == acc;
    } else {
      var m, rest := sm[0], sm[1..];
      assert Wf(m.val);
      MergeIntoNothing(m.val);
      assert Keys(sm) == {m.key} + Keys(rest);
      assert Lookup(acc, m.key) == None;
      var acc' := Put(acc, m.key, m.val);
      assert MergeMembers(acc, sm) == MergeMembers(acc', rest);
      assert acc' == acc + [m];
      assert Keys(acc') == Keys(acc) + {m.key};
      assert Keys(acc') !! Keys(rest);
      assert forall i :: 0 <= i < |rest| ==> Wf(rest[i].val) by {
        forall i | 0 <= i < |rest| ensures Wf(rest[i].val) {
          assert rest[i] == sm[i + 1];
        }
      }
      MergeMembersFresh(acc', rest);
      AppendCons(acc, sm);
    }
  }

  lemma AppendCons<T>(xs: seq<T>, ys: seq<T>)
    requires ys != []
    ensures (xs + [ys[0]]) + ys[1..] == xs + ys
  {
  }

  lemma {:induction false} MergeItemsFresh(si: seq<Value>)
    requires forall i :: 0 <= i < |si| ==> Wf(si[i])
    ensures MergeItems([], si) == si
    decreases si, 0
  {
    if si != [] {
      MergeIntoNothing(si[0]);
      MergeItemsFresh(si[1..]);
    }
  }

  /** Applying the same override a second time changes nothing. */
  lemma {:induction false} MergeIdempotent(dst: Value, src: Value)
    requires Wf(src)
    ensures Merge(Merge(dst, src), src) == Merge(dst, src)
    decreases src, 1
  {
    match src
    case Obj(sm) => MergeMembersIdempotent(if dst.Obj? then dst.members else [], sm);
    case Arr(si) => MergeItemsIdempotent(if dst.Arr? then dst.items else [], si);
    case _ =>
  }

  lemma {:induction false} MergeMembersIdempotent(dm: seq<Member>, sm: seq<Member>)
    requires DistinctKeys(sm)
    requires forall i :: 0 <= i < |sm| ==> Wf(sm[i].val)
    ensures MergeMembers(MergeMembers(dm, sm), sm) == MergeMembers(dm, sm)
    decreases sm, 0
  {
    if sm != [] {
      var k, v, rest := sm[0].key, sm[0].val, sm[1..];
      assert Wf(sm[0].val);
      assert forall i :: 0 <= i < |rest| ==> Wf(rest[i].val) by {
        forall i | 0 <= i < |rest| ensures Wf(rest[i].val) {
          assert rest[i] == sm[i + 1];
        }
      }
      var once := Merge(Lookup(dm, k).GetOr(Null), v);
      var dm1 := Put(dm, k, once);
      var r := MergeMembers(dm1, rest);
      assert MergeMembers(dm, sm) == r;
      MergeMembersKeep(dm1, rest, k);
      assert Lookup(r, k) == Some(once);
      MergeIdempotent(Lookup(dm, k).GetOr(Null), v);
      PutExisting(r, k, once);
      assert MergeMembers(r, sm) == MergeMembers(r, rest);
      MergeMembersIdempotent(dm1, rest);
    }
  }

  lemma {:induction false} MergeItemsIdempotent(di: seq<Value>, si: seq<Value>)
    requires forall i :: 0 <= i < |si| ==> Wf(si[i])
    ensures MergeItems(MergeItems(di, si), si) == MergeItems(di, si)
    decreases si, 0
  {
    if si != [] {
      MergeIdempotent(if di == [] then Null else di[0], si[0]);
      if di == [] {
        MergeItemsIdempotent([], si[1..]);
      } else {
        MergeItemsIdempotent(di[1..], si[1..]);
      }
    }
  }
}
