/** The flat attribute space and the joined attribute-group table built from
    the main table and the relation blocks (block-structured relational data).

    Relation block r gets the attribute offset
    `base + (number of features of the blocks before r)`, where `base` is the
    largest feature count of the main train/test/validation tables; the
    group ids of block r are shifted by the number of groups of the main
    table and of the blocks before r, so that all groups live in one space. */
module JoinedMeta {
  import opened Common

  /** One relation block as loaded: its feature count, the (local) group of
      each of its attributes and its number of groups. */
  datatype RelationBlock = RelationBlock(numFeature: nat, attrGroup: seq<nat>, numAttrGroups: nat)

  /** The group information of the main table: the group of each attribute
      and the number of groups. */
  datatype MetaTable = MetaTable(attrGroup: seq<nat>, numAttrGroups: nat)

  predicate GroupsBelow(groups: seq<nat>, n: nat) {
    forall i :: 0 <= i < |groups| ==> groups[i] < n
  }

  /** What the loaders guarantee of a block: one group per feature, and
      every local group id below the block's group count. */
  predicate WellFormedBlock(b: RelationBlock) {
    |b.attrGroup| == b.numFeature && GroupsBelow(b.attrGroup, b.numAttrGroups)
  }

  predicate WellFormedBlocks(rels: seq<RelationBlock>) {
    forall r :: 0 <= r < |rels| ==> WellFormedBlock(rels[r])
  }

  predicate WellFormedMain(main: MetaTable) {
    GroupsBelow(main.attrGroup, main.numAttrGroups)
  }

  // ---------------------------------------------------------------------
  // Prefix sums

  /** The sum of the first `r` elements of `s`. */
  function PrefixSum(s: seq<nat>, r: nat): nat
    requires r <= |s|
  {
    if r == 0 then 0 else PrefixSum(s, r - 1) + s[r - 1]
  }

  lemma {:induction false} PrefixSumMonotone(s: seq<nat>, r: nat, t: nat)
    requires r <= t <= |s|
    ensures PrefixSum(s, r) <= PrefixSum(s, t)
  {
    if r < t {
      PrefixSumMonotone(s, r, t - 1);
    }
  }

  /** The ranges `[PrefixSum(s, r), PrefixSum(s, r) + s[r])` of different `r`
      do not overlap, and each lies below the total. */
  lemma {:induction false} PrefixSumBlocks(s: seq<nat>, r: nat, t: nat)
    requires r < t <= |s|
    ensures PrefixSum(s, r) + s[r] <= PrefixSum(s, t)
  {
    assert PrefixSum(s, r + 1) == PrefixSum(s, r) + s[r];
    PrefixSumMonotone(s, r + 1, t);
  }

  function FeatureCounts(rels: seq<RelationBlock>): (c: seq<nat>)
    ensures |c| == |rels| && forall r :: 0 <= r < |rels| ==> c[r] == rels[r].numFeature
  {
    seq(|rels|, r requires 0 <= r < |rels| => rels[r].numFeature)
  }

  function GroupCounts(rels: seq<RelationBlock>): (c: seq<nat>)
    ensures |c| == |rels| && forall r :: 0 <= r < |rels| ==> c[r] == rels[r].numAttrGroups
  {
    seq(|rels|, r requires 0 <= r < |rels| => rels[r].numAttrGroups)
  }

  function SlotCounts(rels: seq<RelationBlock>): (c: seq<nat>)
    ensures |c| == |rels| && forall r :: 0 <= r < |rels| ==> c[r] == |rels[r].attrGroup|
  {
    seq(|rels|, r requires 0 <= r < |rels| => |rels[r].attrGroup|)
  }

  // ---------------------------------------------------------------------
  // Attribute offsets

  /** The attribute count of the main table: the largest feature count of
      train, test and (when it is loaded) validation data. */
  function MainAttributeCount(train: nat, test: nat, validation: Option<nat>): (n: nat)
    ensures n >= train && n >= test && (validation.Some? ==> n >= validation.value)
    ensures n == train || n == test || (validation.Some? && n == validation.value)
  {
    var m := if train >= test then train else test;
    match validation
    case None => m
    case Some(v) => if m >= v then m else v
  }

  /** The offset loop: block r is placed right after the main table and the
      blocks before it, and the total attribute count is the main count plus
      every block's feature count. */
  method AssignOffsets(base: nat, rels: seq<RelationBlock>) returns (attrOffset: seq<nat>, numAllAttribute: nat)
    ensures |attrOffset| == |rels|
    ensures forall r :: 0 <= r < |rels| ==> attrOffset[r] == base + PrefixSum(FeatureCounts(rels), r)
    ensures numAllAttribute == base + PrefixSum(FeatureCounts(rels), |rels|)
  {
    attrOffset := [];
    numAllAttribute := base;
    var r := 0;
    while r < |rels|
      invariant 0 <= r <= |rels|
      invariant |attrOffset| == r
      invariant forall s :: 0 <= s < r ==> attrOffset[s] == base + PrefixSum(FeatureCounts(rels), s)
      invariant numAllAttribute == base + PrefixSum(FeatureCounts(rels), r)
    {
      assert PrefixSum(FeatureCounts(rels), r + 1) == PrefixSum(FeatureCounts(rels), r) + rels[r].numFeature;
      attrOffset := attrOffset + [numAllAttribute];
      numAllAttribute := numAllAttribute + rels[r].numFeature;
      r := r + 1;
    }
  }

  /** The attribute range of block r starts where the range of block r - 1
      ends (at the main table for r == 0), lies below the range of every
      later block and inside the flat attribute space. */
  lemma {:induction false} OffsetRanges(base: nat, rels: seq<RelationBlock>, r: nat, t: nat)
    requires r < t <= |rels|
    ensures r == 0 ==> base + PrefixSum(FeatureCounts(rels), r) == base
    ensures r > 0 ==> (base + PrefixSum(FeatureCounts(rels), r)
                       == base + PrefixSum(FeatureCounts(rels), r - 1) + rels[r - 1].numFeature)
    ensures base + PrefixSum(FeatureCounts(rels), r) + rels[r].numFeature <= base + PrefixSum(FeatureCounts(rels), t)
    ensures base + PrefixSum(FeatureCounts(rels), t) <= base + PrefixSum(FeatureCounts(rels), |rels|)
  {
    PrefixSumBlocks(FeatureCounts(rels), r, t);
    PrefixSumMonotone(FeatureCounts(rels), t, |rels|);
  }

  // ---------------------------------------------------------------------
  // Joined group count and group offsets

  /** The first joined group id of block r (`r == |rels|` gives the total). */
  function GroupOffset(mainGroups: nat, rels: seq<RelationBlock>, r: nat): nat
    requires r <= |rels|
  {
    mainGroups + PrefixSum(GroupCounts(rels), r)
  }

  function JoinedGroupCount(main: MetaTable, rels: seq<RelationBlock>): nat {
    GroupOffset(main.numAttrGroups, rels, |rels|)
  }

  /** The group-count loop: the main table's groups plus every block's. */
  method CountJoinedGroups(mainGroups: nat, rels: seq<RelationBlock>) returns (numGroups: nat)
    ensures numGroups == mainGroups + PrefixSum(GroupCounts(rels), |rels|)
  {
    numGroups := mainGroups;
    var r := 0;
    while r < |rels|
      invariant 0 <= r <= |rels|
      invariant numGroups == mainGroups + PrefixSum(GroupCounts(rels), r)
    {
      numGroups := numGroups + rels[r].numAttrGroups;
      r := r + 1;
    }
  }

  /** The group range of block r starts where that of block r - 1 ends (at
      the main table's group count for r == 0), and lies below that of every
      later block. */
  lemma {:induction false} GroupRangesDisjoint(main: MetaTable, rels: seq<RelationBlock>, r: nat, t: nat)
    requires r < t <= |rels|
    ensures r == 0 ==> GroupOffset(main.numAttrGroups, rels, r) == main.numAttrGroups
    ensures r > 0 ==> (GroupOffset(main.numAttrGroups, rels, r)
                       == GroupOffset(main.numAttrGroups, rels, r - 1) + rels[r - 1].numAttrGroups)
    ensures GroupOffset(main.numAttrGroups, rels, r) + rels[r].numAttrGroups <= GroupOffset(main.numAttrGroups, rels, t)
    ensures GroupOffset(main.numAttrGroups, rels, t) <= JoinedGroupCount(main, rels)
  {
    PrefixSumBlocks(GroupCounts(rels), r, t);
    PrefixSumMonotone(GroupCounts(rels), t, |rels|);
  }

  // ---------------------------------------------------------------------
  // The joined attribute-group table

  function Shifted(groups: seq<nat>, offset: nat): (r: seq<nat>)
    ensures |r| == |groups| && forall i :: 0 <= i < |groups| ==> r[i] == offset + groups[i]
  {
    seq(|groups|, i requires 0 <= i < |groups| => offset + groups[i])
  }

  /** The joined group table after the main table and the first r blocks. */
  function JoinedPrefix(main: MetaTable, rels: seq<RelationBlock>, r: nat): seq<nat>
    requires r <= |rels|
  {
    if r == 0 then main.attrGroup
    else JoinedPrefix(main, rels, r - 1) + Shifted(rels[r - 1].attrGroup, GroupOffset(main.numAttrGroups, rels, r - 1))
  }

  function JoinedAttrGroups(main: MetaTable, rels: seq<RelationBlock>): seq<nat> {
    JoinedPrefix(main, rels, |rels|)
  }

  lemma {:induction false} JoinedPrefixLength(main: MetaTable, rels: seq<RelationBlock>, r: nat)
    requires r <= |rels|
    ensures |JoinedPrefix(main, rels, r)| == |main.attrGroup| + PrefixSum(SlotCounts(rels), r)
  {
    if r > 0 {
      JoinedPrefixLength(main, rels, r - 1);
    }
  }

  /** Later blocks only append: the table after r blocks is a prefix of the
      table after t blocks. */
  lemma {:induction false} JoinedPrefixStable(main: MetaTable, rels: seq<RelationBlock>, r: nat, t: nat, i: nat)
    requires r <= t <= |rels|
    requires i < |JoinedPrefix(main, rels, r)|
    ensures i < |JoinedPrefix(main, rels, t)| && JoinedPrefix(main, rels, t)[i] == JoinedPrefix(main, rels, r)[i]
  {
    if r < t {
      JoinedPrefixStable(main, rels, r, t - 1, i);
    }
  }

  /** A main-table attribute keeps its group. */
  lemma {:induction false} MainGroupKept(main: MetaTable, rels: seq<RelationBlock>, i: nat)
    requires i < |main.attrGroup|
    ensures i < |JoinedAttrGroups(main, rels)| && JoinedAttrGroups(main, rels)[i] == main.attrGroup[i]
  {
    JoinedPrefixStable(main, rels, 0, |rels|, i);
  }

  /** Attribute i of block r sits in slot `|main| + (slots of earlier blocks) + i`
      and gets the block's group offset plus its local group. */
  lemma {:induction false} RelationGroupAt(main: MetaTable, rels: seq<RelationBlock>, r: nat, i: nat)
    requires r < |rels| && i < |rels[r].attrGroup|
    ensures |main.attrGroup| + PrefixSum(SlotCounts(rels), r) + i < |JoinedAttrGroups(main, rels)|
    ensures JoinedAttrGroups(main, rels)[|main.attrGroup| + PrefixSum(SlotCounts(rels), r) + i]
         == GroupOffset(main.numAttrGroups, rels, r) + rels[r].attrGroup[i]
  {
    JoinedPrefixLength(main, rels, r);
    var prev := JoinedPrefix(main, rels, r);
    var sh := Shifted(rels[r].attrGroup, GroupOffset(main.numAttrGroups, rels, r));
    var slot := |prev| + i;
    assert JoinedPrefix(main, rels, r + 1) == prev + sh;
    assert JoinedPrefix(main, rels, r + 1)[slot] == sh[i];
    JoinedPrefixStable(main, rels, r + 1, |rels|, slot);
  }

  /** On well-formed blocks the slot of attribute i of block r is exactly the
      flat model index `attrOffset[r] + i`, the group lies in the block's own
      group range, and the table covers the whole attribute space. */
  lemma {:induction false} RelationAttributeGroup(base: nat, main: MetaTable, rels: seq<RelationBlock>, r: nat, i: nat)
    requires |main.attrGroup| == base && WellFormedBlocks(rels)
    requires r < |rels| && i < rels[r].numFeature
    ensures |JoinedAttrGroups(main, rels)| == base + PrefixSum(FeatureCounts(rels), |rels|)
    ensures base + PrefixSum(FeatureCounts(rels), r) + i < |JoinedAttrGroups(main, rels)|
    ensures var g := JoinedAttrGroups(main, rels)[base + PrefixSum(FeatureCounts(rels), r) + i];
      && g == GroupOffset(main.numAttrGroups, rels, r) + rels[r].attrGroup[i]
      && GroupOffset(main.numAttrGroups, rels, r) <= g < GroupOffset(main.numAttrGroups, rels, r) + rels[r].numAttrGroups
  {
    assert SlotCounts(rels) == FeatureCounts(rels);
    JoinedPrefixLength(main, rels, |rels|);
    RelationGroupAt(main, rels, r, i);
  }

  /** Every joined group id is below the joined group count. */
  lemma {:induction false} JoinedPrefixGroupsBelow(main: MetaTable, rels: seq<RelationBlock>, r: nat)
    requires WellFormedMain(main) && WellFormedBlocks(rels) && r <= |rels|
    ensures GroupsBelow(JoinedPrefix(main, rels, r), GroupOffset(main.numAttrGroups, rels, r))
  {
    if r > 0 {
      JoinedPrefixGroupsBelow(main, rels, r - 1);
      var prev := JoinedPrefix(main, rels, r - 1);
      var off := GroupOffset(main.numAttrGroups, rels, r - 1);
      var sh := Shifted(rels[r - 1].attrGroup, off);
      assert WellFormedBlock(rels[r - 1]);
      forall i | 0 <= i < |prev + sh| ensures (prev + sh)[i] < GroupOffset(main.numAttrGroups, rels, r) {
        if i >= |prev| {
          assert (prev + sh)[i] == off + rels[r - 1].attrGroup[i - |prev|];
        }
      }
    }
  }

  lemma {:induction false} JoinedGroupsBelow(main: MetaTable, rels: seq<RelationBlock>)
    requires WellFormedMain(main) && WellFormedBlocks(rels)
    ensures GroupsBelow(JoinedAttrGroups(main, rels), JoinedGroupCount(main, rels))
  {
    JoinedPrefixGroupsBelow(main, rels, |rels|);
  }

  // ---------------------------------------------------------------------
  // Attributes per group

  /** The number of slots of `s` holding group `g`. */
  function Count(s: seq<nat>, g: nat): nat {
    if |s| == 0 then 0 else Count(s[..|s| - 1], g) + (if s[|s| - 1] == g then 1 else 0)
  }

  /** `h[g]` is the number of attributes in group g, for every g below n. */
  function Histogram(s: seq<nat>, n: nat): (h: seq<nat>)
    ensures |h| == n && forall g :: 0 <= g < n ==> h[g] == Count(s, g)
  {
    seq(n, g requires 0 <= g < n => Count(s, g))
  }

  lemma CountAppend(s: seq<nat>, x: nat, g: nat)
    ensures Count(s + [x], g) == Count(s, g) + (if x == g then 1 else 0)
  {
    assert (s + [x])[..|s|] == s;
  }

  lemma {:induction false} CountConcat(a: seq<nat>, b: seq<nat>, g: nat)
    ensures Count(a + b, g) == Count(a, g) + Count(b, g)
  {
    if |b| > 0 {
      var b' := b[..|b| - 1];
      assert a + b == (a + b') + [b[|b| - 1]];
      assert b == b' + [b[|b| - 1]];
      CountAppend(a + b', b[|b| - 1], g);
      CountAppend(b', b[|b| - 1], g);
      CountConcat(a, b', g);
    } else {
      assert a + b == a;
    }
  }

  lemma {:induction false} CountAbsent(s: seq<nat>, g: nat)
    requires forall i :: 0 <= i < |s| ==> s[i] != g
    ensures Count(s, g) == 0
  {
    if |s| > 0 {
      CountAbsent(s[..|s| - 1], g);
    }
  }

  lemma {:induction false} CountShifted(s: seq<nat>, offset: nat, g: nat)
    ensures Count(Shifted(s, offset), offset + g) == Count(s, g)
  {
    if |s| > 0 {
      var s' := s[..|s| - 1];
      assert Shifted(s, offset)[..|s| - 1] == Shifted(s', offset);
      CountShifted(s', offset, g);
    }
  }

  /** Raising one entry by one raises every prefix sum that covers it by one. */
  lemma {:induction false} PrefixSumBump(h: seq<nat>, h': seq<nat>, x: nat, k: nat)
    requires |h| == |h'| && x < |h| && k <= |h|
    requires h'[x] == h[x] + 1 && forall j :: 0 <= j < |h| && j != x ==> h'[j] == h[j]
    ensures PrefixSum(h', k) == PrefixSum(h, k) + (if x < k then 1 else 0)
  {
    if k > 0 {
      PrefixSumBump(h, h', x, k - 1);
    }
  }

  /** The group counts add up to the number of slots. */
  lemma {:induction false} HistogramTotal(s: seq<nat>, n: nat)
    requires GroupsBelow(s, n)
    ensures PrefixSum(Histogram(s, n), n) == |s|
  {
    if |s| == 0 {
      ZeroPrefixSum(Histogram(s, n), n);
    } else {
      var s' := s[..|s| - 1];
      var x := s[|s| - 1];
      assert s == s' + [x];
      HistogramTotal(s', n);
      forall g | 0 <= g < n ensures Count(s, g) == Count(s', g) + (if x == g then 1 else 0) {
        CountAppend(s', x, g);
      }
      PrefixSumBump(Histogram(s', n), Histogram(s, n), x, n);
    }
  }

  lemma {:induction false} ZeroPrefixSum(h: seq<nat>, k: nat)
    requires k <= |h| && forall j :: 0 <= j < |h| ==> h[j] == 0
    ensures PrefixSum(h, k) == 0
  {
    if k > 0 {
      ZeroPrefixSum(h, k - 1);
    }
  }

  /** A main-table group has as many attributes in the joined table as in
      the main table: no block attribute lands in it. */
  lemma {:induction false} MainGroupCount(main: MetaTable, rels: seq<RelationBlock>, g: nat)
    requires WellFormedMain(main) && WellFormedBlocks(rels)
    requires g < main.numAttrGroups
    ensures Count(JoinedAttrGroups(main, rels), g) == Count(main.attrGroup, g)
  {
    MainGroupCountUpTo(main, rels, g, |rels|);
  }

  lemma {:induction false} MainGroupCountUpTo(main: MetaTable, rels: seq<RelationBlock>, g: nat, r: nat)
    requires WellFormedMain(main) && WellFormedBlocks(rels)
    requires g < main.numAttrGroups && r <= |rels|
    ensures Count(JoinedPrefix(main, rels, r), g) == Count(main.attrGroup, g)
  {
    if r > 0 {
      MainGroupCountUpTo(main, rels, g, r - 1);
      var off := GroupOffset(main.numAttrGroups, rels, r - 1);
      var sh := Shifted(rels[r - 1].attrGroup, off);
      PrefixSumMonotone(GroupCounts(rels), 0, r - 1);
      CountAbsent(sh, g);
      CountConcat(JoinedPrefix(main, rels, r - 1), sh, g);
    }
  }

  /** Joined group `GroupOffset(r) + l` of block r has as many attributes in
      the joined table as local group l has in block r. */
  lemma {:induction false} RelationGroupCount(main: MetaTable, rels: seq<RelationBlock>, r: nat, l: nat)
    requires WellFormedMain(main) && WellFormedBlocks(rels)
    requires r < |rels| && l < rels[r].numAttrGroups
    ensures Count(JoinedAttrGroups(main, rels), GroupOffset(main.numAttrGroups, rels, r) + l)
         == Count(rels[r].attrGroup, l)
  {
    RelationGroupCountUpTo(main, rels, r, l, |rels|);
  }

  lemma {:induction false} RelationGroupCountUpTo(main: MetaTable, rels: seq<RelationBlock>, r: nat, l: nat, t: nat)
    requires WellFormedMain(main) && WellFormedBlocks(rels)
    requires r < t <= |rels| && l < rels[r].numAttrGroups
    ensures Count(JoinedPrefix(main, rels, t), GroupOffset(main.numAttrGroups, rels, r) + l)
         == Count(rels[r].attrGroup, l)
  {
    var g := GroupOffset(main.numAttrGroups, rels, r) + l;
    var off := GroupOffset(main.numAttrGroups, rels, t - 1);
    var sh := Shifted(rels[t - 1].attrGroup, off);
    CountConcat(JoinedPrefix(main, rels, t - 1), sh, g);
    if t == r + 1 {
      JoinedPrefixGroupsBelow(main, rels, r);
      CountAbsent(JoinedPrefix(main, rels, r), g);
      CountShifted(rels[r].attrGroup, off, l);
    } else {
      RelationGroupCountUpTo(main, rels, r, l, t - 1);
      PrefixSumBlocks(GroupCounts(rels), r, t - 1);
      CountAbsent(sh, g);
    }
  }

  // ---------------------------------------------------------------------
  // The in-place construction

  /** The joined meta information handed to the learner. */
  class DataMetaInfo {
    var attrGroup: array<nat>
    var numAttrGroups: nat
    var numAttrPerGroup: array<nat>
    var numRelations: nat

    constructor (attrGroup: array<nat>, numAttrGroups: nat, numAttrPerGroup: array<nat>, numRelations: nat)
      ensures this.attrGroup == attrGroup && this.numAttrGroups == numAttrGroups
      ensures this.numAttrPerGroup == numAttrPerGroup && this.numRelations == numRelations
    {
      this.attrGroup := attrGroup;
      this.numAttrGroups := numAttrGroups;
      this.numAttrPerGroup := numAttrPerGroup;
      this.numRelations := numRelations;
    }
  }

  /** One slot of the joined table is written and counted: slot k gets
      group x and the counter of x goes up by one. */
  method PutSlot(attrGroup: array<nat>, perGroup: array<nat>, k: nat, x: nat)
    requires attrGroup != perGroup
    requires k < attrGroup.Length && x < perGroup.Length
    requires forall g :: 0 <= g < perGroup.Length ==> perGroup[g] == Count(attrGroup[..k], g)
    modifies attrGroup, perGroup
    ensures attrGroup[..k + 1] == old(attrGroup[..k]) + [x]
    ensures attrGroup[k + 1..] == old(attrGroup[k + 1..])
    ensures forall g :: 0 <= g < perGroup.Length ==> perGroup[g] == Count(attrGroup[..k + 1], g)
  {
    attrGroup[k] := x;
    perGroup[x] := perGroup[x] + 1;
    assert attrGroup[..k + 1] == attrGroup[..k] + [x];
    forall g | 0 <= g < perGroup.Length ensures perGroup[g] == Count(attrGroup[..k + 1], g) {
      CountAppend(attrGroup[..k], x, g);
    }
  }

  /** The groups of one block are written after slot `attrCntr`, shifted by
      `attrGroupCntr`, and counted. */
  method PutBlock(attrGroup: array<nat>, perGroup: array<nat>, local: seq<nat>, attrCntr: nat, attrGroupCntr: nat)
    requires attrGroup != perGroup
    requires attrCntr + |local| <= attrGroup.Length
    requires forall i :: 0 <= i < |local| ==> attrGroupCntr + local[i] < perGroup.Length
    requires forall g :: 0 <= g < perGroup.Length ==> perGroup[g] == Count(attrGroup[..attrCntr], g)
    modifies attrGroup, perGroup
    ensures attrGroup[..attrCntr + |local|] == old(attrGroup[..attrCntr]) + Shifted(local, attrGroupCntr)
    ensures attrGroup[attrCntr + |local|..] == old(attrGroup[attrCntr + |local|..])
    ensures forall g :: 0 <= g < perGroup.Length ==> perGroup[g] == Count(attrGroup[..attrCntr + |local|], g)
  {
    ghost var before := attrGroup[..attrCntr];
    var j := 0;
    while j < |local|
      invariant 0 <= j <= |local|
      invariant attrGroup[..attrCntr + j] == before + Shifted(local[..j], attrGroupCntr)
      invariant attrGroup[attrCntr + j..] == old(attrGroup[attrCntr + j..])
      invariant forall g :: 0 <= g < perGroup.Length ==> perGroup[g] == Count(attrGroup[..attrCntr + j], g)
    {
      PutSlot(attrGroup, perGroup, j + attrCntr, attrGroupCntr + local[j]);
      assert Shifted(local[..j + 1], attrGroupCntr) == Shifted(local[..j], attrGroupCntr) + [attrGroupCntr + local[j]];
      j := j + 1;
    }
    assert local[..j] == local;
  }

  /** The main-table loop: slot i gets the main group of attribute i. */
  method PutMain(attrGroup: array<nat>, perGroup: array<nat>, main: MetaTable)
    requires attrGroup != perGroup
    requires WellFormedMain(main) && |main.attrGroup| <= attrGroup.Length && main.numAttrGroups <= perGroup.Length
    requires forall g :: 0 <= g < perGroup.Length ==> perGroup[g] == 0
    modifies attrGroup, perGroup
    ensures attrGroup[..|main.attrGroup|] == main.attrGroup
    ensures attrGroup[|main.attrGroup|..] == old(attrGroup[|main.attrGroup|..])
    ensures forall g :: 0 <= g < perGroup.Length ==> perGroup[g] == Count(attrGroup[..|main.attrGroup|], g)
  {
    var i := 0;
    while i < |main.attrGroup|
      invariant 0 <= i <= |main.attrGroup|
      invariant attrGroup[..i] == main.attrGroup[..i]
      invariant attrGroup[i..] == old(attrGroup[i..])
      invariant forall g :: 0 <= g < perGroup.Length ==> perGroup[g] == Count(attrGroup[..i], g)
    {
      PutSlot(attrGroup, perGroup, i, main.attrGroup[i]);
      i := i + 1;
    }
    assert main.attrGroup[..i] == main.attrGroup;
  }

  /** One turn of the relation loop: block r is written after the main table
      and the blocks before it, shifted by the running group offset. */
  method PutRelation(attrGroup: array<nat>, perGroup: array<nat>, main: MetaTable, rels: seq<RelationBlock>,
                     r: nat, attrCntr: nat, attrGroupCntr: nat)
    requires attrGroup != perGroup
    requires WellFormedBlocks(rels) && r < |rels|
    requires attrGroup.Length == |main.attrGroup| + PrefixSum(SlotCounts(rels), |rels|)
    requires perGroup.Length == JoinedGroupCount(main, rels)
    requires attrCntr == |main.attrGroup| + PrefixSum(SlotCounts(rels), r)
    requires attrGroupCntr == GroupOffset(main.numAttrGroups, rels, r)
    requires attrCntr <= attrGroup.Length
    requires attrGroup[..attrCntr] == JoinedPrefix(main, rels, r)
    requires forall g :: 0 <= g < perGroup.Length ==> perGroup[g] == Count(attrGroup[..attrCntr], g)
    modifies attrGroup, perGroup
    ensures attrCntr + |rels[r].attrGroup| == |main.attrGroup| + PrefixSum(SlotCounts(rels), r + 1)
    ensures attrGroupCntr + rels[r].numAttrGroups == GroupOffset(main.numAttrGroups, rels, r + 1)
    ensures attrCntr + |rels[r].attrGroup| <= attrGroup.Length
    ensures attrGroup[..attrCntr + |rels[r].attrGroup|] == JoinedPrefix(main, rels, r + 1)
    ensures attrGroup[attrCntr + |rels[r].attrGroup|..] == old(attrGroup[attrCntr + |rels[r].attrGroup|..])
    ensures forall g :: 0 <= g < perGroup.Length ==> perGroup[g] == Count(attrGroup[..attrCntr + |rels[r].attrGroup|], g)
  {
    assert WellFormedBlock(rels[r]);
    assert PrefixSum(SlotCounts(rels), r + 1) == PrefixSum(SlotCounts(rels), r) + |rels[r].attrGroup|;
    assert PrefixSum(GroupCounts(rels), r + 1) == PrefixSum(GroupCounts(rels), r) + rels[r].numAttrGroups;
    assert JoinedPrefix(main, rels, r + 1) == JoinedPrefix(main, rels, r) + Shifted(rels[r].attrGroup, attrGroupCntr);
    PrefixSumMonotone(SlotCounts(rels), r + 1, |rels|);
    PrefixSumMonotone(GroupCounts(rels), r + 1, |rels|);
    PutBlock(attrGroup, perGroup, rels[r].attrGroup, attrCntr, attrGroupCntr);
  }

  /** The relation loop: each block's groups follow those of the main table
      and of the earlier blocks, shifted by the running group offset. */
  method PutRelations(attrGroup: array<nat>, perGroup: array<nat>, main: MetaTable, rels: seq<RelationBlock>)
    requires attrGroup != perGroup
    requires WellFormedBlocks(rels)
    requires attrGroup.Length == |main.attrGroup| + PrefixSum(SlotCounts(rels), |rels|)
    requires perGroup.Length == JoinedGroupCount(main, rels)
    requires attrGroup[..|main.attrGroup|] == main.attrGroup
    requires forall g :: 0 <= g < perGroup.Length ==> perGroup[g] == Count(attrGroup[..|main.attrGroup|], g)
    modifies attrGroup, perGroup
    ensures attrGroup[..] == JoinedAttrGroups(main, rels)
    ensures forall g :: 0 <= g < perGroup.Length ==> perGroup[g] == Count(attrGroup[..], g)
  {
    var attrCntr := |main.attrGroup|;
    var attrGroupCntr := main.numAttrGroups;
    var r := 0;
    PrefixSumMonotone(SlotCounts(rels), 0, |rels|);
    while r < |rels|
      invariant 0 <= r <= |rels|
      invariant attrCntr == |main.attrGroup| + PrefixSum(SlotCounts(rels), r)
      invariant attrGroupCntr == GroupOffset(main.numAttrGroups, rels, r)
      invariant attrCntr <= attrGroup.Length
      invariant attrGroup[..attrCntr] == JoinedPrefix(main, rels, r)
      invariant forall g :: 0 <= g < perGroup.Length ==> perGroup[g] == Count(attrGroup[..attrCntr], g)
    {
      PutRelation(attrGroup, perGroup, main, rels, r, attrCntr, attrGroupCntr);
      attrCntr := attrCntr + |rels[r].attrGroup|;
      attrGroupCntr := attrGroupCntr + rels[r].numAttrGroups;
      r := r + 1;
    }
    assert attrGroup[..] == attrGroup[..attrCntr];
  }

  /** The joined meta table: the main groups are copied, the groups of each
      block are shifted by the running group offset, and every written slot
      is counted in the per-group histogram. */
  method BuildJoinedMeta(main: MetaTable, rels: seq<RelationBlock>, numAllAttribute: nat) returns (meta: DataMetaInfo)
    requires WellFormedMain(main) && WellFormedBlocks(rels)
    requires numAllAttribute == |main.attrGroup| + PrefixSum(FeatureCounts(rels), |rels|)
    ensures fresh(meta) && fresh(meta.attrGroup) && fresh(meta.numAttrPerGroup)
    ensures meta.numAttrGroups == JoinedGroupCount(main, rels)
    ensures meta.attrGroup[..] == JoinedAttrGroups(main, rels)
    ensures meta.numAttrPerGroup[..] == Histogram(meta.attrGroup[..], meta.numAttrGroups)
    ensures meta.numRelations == |rels|
  {
    var numGroups := CountJoinedGroups(main.numAttrGroups, rels);
    assert SlotCounts(rels) == FeatureCounts(rels);
    PrefixSumMonotone(GroupCounts(rels), 0, |rels|);
    PrefixSumMonotone(SlotCounts(rels), 0, |rels|);
    var attrGroup := new nat[numAllAttribute];
    var perGroup := new nat[numGroups](_ => 0);
    PutMain(attrGroup, perGroup, main);
    PutRelations(attrGroup, perGroup, main, rels);
    assert perGroup[..] == Histogram(attrGroup[..], numGroups);
    meta := new DataMetaInfo(attrGroup, numGroups, perGroup, |rels|);
  }
}
