/** Which of the arms that were drawn a match keeps, each judged by its place among the draws. */
module MatchKept {
  import opened MatchGen
  import opened MatchRun
  import opened MatchDraw
  import opened MatchCases
  import opened MatchBack

  /** The two patterns have a head, and it is the same. */
  ghost predicate ShareHead(p: Pat, q: Pat) {
    exists h :: HasHead(p, h) && HasHead(q, h)
  }

  /** The i-th draw is kept unless an unguarded arm that was kept before it takes everything, or has
      its head where it is not guarded either; or it is not guarded and takes the value to be missed. */
  ghost predicate IsKept(keep: Keep, drawn: seq<Arm>, i: nat)
    requires i < |drawn|
    decreases i
  {
    && (forall j: nat :: j < i && IsKept(keep, drawn, j) && drawn[j].guard.NoGuard? ==>
        !TakesAll(drawn[j].pat) && (drawn[i].guard.NoGuard? ==> !ShareHead(drawn[j].pat, drawn[i].pat)))
    && (keep.Missing? && drawn[i].guard.NoGuard? ==> !Matches(drawn[i].pat, keep.v))
  }

  lemma SharedHead(p: Pat, q: Pat)
    ensures ShareHead(p, q) <==> ArmHead(p) == ArmHead(q) != NoHead
    ensures TakesAll(p) <==> ArmHead(p) == Star
  {
    HeadsExactly(p, ArmHead(p));
    HeadsExactly(q, ArmHead(p));
    HeadsExactly(p, Star);
    if h :| HasHead(p, h) && HasHead(q, h) {
      HeadsExactly(p, h);
      HeadsExactly(q, h);
    }
  }

  /** The draws that are kept, in order. */
  ghost predicate KeptAt(keep: Keep, drawn: seq<Arm>, ix: seq<nat>) {
    && (forall k :: 0 <= k < |ix| ==> ix[k] < |drawn|)
    && (forall k, l :: 0 <= k < l < |ix| ==> ix[k] < ix[l])
    && (forall i: nat :: i < |drawn| ==> (i in ix <==> IsKept(keep, drawn, i)))
  }

  lemma {:induction false} KeptOfPrefix(keep: Keep, drawn: seq<Arm>, n: nat, i: nat)
    requires i < n <= |drawn|
    ensures IsKept(keep, drawn[..n], i) <==> IsKept(keep, drawn, i)
    decreases i
  {
    forall j: nat | j < i ensures IsKept(keep, drawn[..n], j) <==> IsKept(keep, drawn, j) { KeptOfPrefix(keep, drawn, n, j); }
  }

  /** An earlier draw that was kept, unguarded, stands in the way of `a`. */
  ghost predicate InTheWay(keep: Keep, drawn: seq<Arm>, j: nat, a: Arm) {
    && j < |drawn| && IsKept(keep, drawn, j) && drawn[j].guard.NoGuard?
    && (TakesAll(drawn[j].pat) || (a.guard.NoGuard? && ShareHead(drawn[j].pat, a.pat)))
  }

  lemma AddsUnlessInTheWay(keep: Keep, drawn: seq<Arm>, ix: seq<nat>, kept: seq<Arm>, a: Arm)
    requires KeptAt(keep, drawn, ix) && |kept| == |ix| && forall k :: 0 <= k < |ix| ==> kept[k] == drawn[ix[k]]
    ensures Adds(kept, a) <==> forall j: nat :: !InTheWay(keep, drawn, j, a)
  {
    HeadsHave(kept, Star);
    HeadsHave(kept, ArmHead(a.pat));
    forall j: nat | InTheWay(keep, drawn, j, a) ensures !Adds(kept, a) {
      var k :| 0 <= k < |ix| && ix[k] == j;
      assert Plain(kept[k]);
      SharedHead(kept[k].pat, a.pat);
    }
    if !Adds(kept, a) {
      var k :| 0 <= k < |kept| && Plain(kept[k]) && (ArmHead(kept[k].pat) == Star || (Plain(a) && ArmHead(kept[k].pat) == ArmHead(a.pat) != NoHead));
      var j := ix[k];
      assert j in ix && drawn[j] == kept[k];
      SharedHead(drawn[j].pat, a.pat);
      assert IsKept(keep, drawn, j) && Plain(drawn[j]);
      assert TakesAll(drawn[j].pat) || (Plain(a) && ShareHead(drawn[j].pat, a.pat));
      assert InTheWay(keep, drawn, j, a);
    }
  }

  lemma LastIsKept(keep: Keep, drawn: seq<Arm>)
    requires drawn != []
    ensures var n := |drawn| - 1;
      IsKept(keep, drawn, n) <==> (forall j: nat :: !InTheWay(keep, drawn[..n], j, drawn[n])) && Keeps(keep, drawn[n])
  {
    var n := |drawn| - 1;
    forall j: nat | j < n ensures IsKept(keep, drawn[..n], j) <==> IsKept(keep, drawn, j) { KeptOfPrefix(keep, drawn, n, j); }
    if j: nat :| InTheWay(keep, drawn[..n], j, drawn[n]) {
      assert IsKept(keep, drawn, j) && !IsKept(keep, drawn, n);
    } else if Keeps(keep, drawn[n]) && !IsKept(keep, drawn, n) {
      var j: nat :| j < n && IsKept(keep, drawn, j) && drawn[j].guard.NoGuard?
        && (TakesAll(drawn[j].pat) || (drawn[n].guard.NoGuard? && ShareHead(drawn[j].pat, drawn[n].pat)));
      assert InTheWay(keep, drawn[..n], j, drawn[n]);
    }
  }

  /** `kept` are those draws. */
  ghost predicate AreKept(keep: Keep, drawn: seq<Arm>, ix: seq<nat>, kept: seq<Arm>) {
    KeptAt(keep, drawn, ix) && |kept| == |ix| && forall k :: 0 <= k < |ix| ==> kept[k] == drawn[ix[k]]
  }

  /** What is left of the draws is those that are kept, and no others, in their order. */
  lemma {:induction false} KeptExactly(keep: Keep, drawn: seq<Arm>) returns (ix: seq<nat>)
    ensures AreKept(keep, drawn, ix, KeptArms(keep, drawn))
    decreases |drawn|
  {
    ix := [];
    if drawn != [] {
      var n := |drawn| - 1;
      var before := KeptExactly(keep, drawn[..n]);
      AddsUnlessInTheWay(keep, drawn[..n], before, KeptArms(keep, drawn[..n]), drawn[n]);
      LastIsKept(keep, drawn);
      ix := if IsKept(keep, drawn, n) then before + [n] else before;
      OneMoreKept(keep, drawn, before, ix);
      SameArms(drawn, before, KeptArms(keep, drawn[..n]), ix, KeptArms(keep, drawn));
    }
  }

  lemma SameArms(drawn: seq<Arm>, before: seq<nat>, kept: seq<Arm>, ix: seq<nat>, kept': seq<Arm>)
    requires drawn != [] && |kept| == |before| && forall k :: 0 <= k < |before| ==> before[k] < |drawn| - 1 && kept[k] == drawn[..|drawn| - 1][before[k]]
    requires var n := |drawn| - 1; (ix == before && kept' == kept) || (ix == before + [n] && kept' == kept + [drawn[n]])
    ensures |kept'| == |ix| && forall k :: 0 <= k < |ix| ==> ix[k] < |drawn| && kept'[k] == drawn[ix[k]]
  {
  }

  lemma OneMoreKept(keep: Keep, drawn: seq<Arm>, before: seq<nat>, ix: seq<nat>)
    requires drawn != [] && KeptAt(keep, drawn[..|drawn| - 1], before)
    requires ix == if IsKept(keep, drawn, |drawn| - 1) then before + [|drawn| - 1] else before
    ensures KeptAt(keep, drawn, ix)
  {
    var n := |drawn| - 1;
    forall k | 0 <= k < |before| ensures before[k] < n { }
    forall i: nat | i < |drawn| ensures i in ix <==> IsKept(keep, drawn, i) {
      if i < n { KeptOfPrefix(keep, drawn, n, i); }
      InOneMore(before, n, ix, i);
    }
  }

  lemma InOneMore(before: seq<nat>, n: nat, ix: seq<nat>, i: nat)
    requires (ix == before || ix == before + [n]) && forall k :: 0 <= k < |before| ==> before[k] < n
    ensures i in ix <==> i in before || (i == n && ix == before + [n])
    ensures n !in before
  {
  }
}
