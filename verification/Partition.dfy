/**
 XOR decisions as partitions of their discriminator's domain (rule K7): every value lies in
 exactly one cell, the engine's scan finds that cell, and what dropping a branch does to it.
 */
module Partition {
  import opened Model

  /** All values listed by the branches that are not the catch-all, in order. */
  function Listed(bs: seq<XorBranch>): seq<string> {
    if bs == [] then [] else (if bs[0].isElse then [] else bs[0].values) + Listed(bs[1..])
  }

  function ElseCount(bs: seq<XorBranch>): nat {
    if bs == [] then 0 else (if bs[0].isElse then 1 else 0) + ElseCount(bs[1..])
  }

  predicate NoRepeat<T(==)>(s: seq<T>) {
    forall i, j :: 0 <= i < j < |s| ==> s[i] != s[j]
  }

  /** `_check_partition`: the decision tiles its discriminator's domain. */
  predicate Tiles(d: XorDecision) {
    var bs := d.branches;
    match d.kind
    case THRESHOLD =>
      && (forall i :: 0 <= i < |bs| ==> (bs[i].upper.None? <==> i == |bs| - 1))
      && (forall i, j :: 0 <= i < j < |bs| - 1 ==> bs[i].upper.value < bs[j].upper.value)
    case BOOLEAN =>
      |bs| == 2 && {bs[0].boolValue, bs[1].boolValue} == {Some(true), Some(false)}
    case ENUM =>
      && ElseCount(bs) == 1
      && (forall i :: 0 <= i < |bs| ==> (bs[i].isElse <==> bs[i].values == []))
      && NoRepeat(Listed(bs))
  }

  /** The documented meaning of a cell: `[lower, upper)`, a truth value, listed strings or the rest. */
  predicate InCell(d: XorDecision, i: nat, v: Value)
    requires i < |d.branches|
  {
    var bs := d.branches;
    match d.kind
    case THRESHOLD =>
      && v.Number?
      && (i == 0 || (bs[i - 1].upper.Some? && bs[i - 1].upper.value <= v.num))
      && (bs[i].upper.None? || v.num < bs[i].upper.value)
    case BOOLEAN => bs[i].boolValue == Some(Truthy(v))
    case ENUM => if bs[i].isElse then Render(v) !in Listed(bs) else Render(v) in bs[i].values
  }

  /** The value can be placed: a THRESHOLD decision needs a number. */
  predicate Placeable(d: XorDecision, v: Value) {
    d.kind.THRESHOLD? ==> v.Number?
  }

  // --- the scan finds the cell -------------------------------------------------

  lemma {:induction false} ScanThreshold(d: XorDecision, x: Value, i: nat) returns (k: nat)
    requires d.kind.THRESHOLD? && Tiles(d) && x.Number? && i < |d.branches|
    requires i == 0 || d.branches[i - 1].upper.value <= x.num
    ensures i <= k < |d.branches| && InCell(d, k, x)
    ensures FirstAbove(d.branches[i..], x.num) == Some(d.branches[k].target)
    decreases |d.branches| - i
  {
    if d.branches[i].upper.None? || x.num < d.branches[i].upper.value {
      k := i;
    } else {
      assert d.branches[i..][1..] == d.branches[i + 1..];
      k := ScanThreshold(d, x, i + 1);
    }
  }

  lemma ListedAt(bs: seq<XorBranch>, i: nat, text: string)
    requires i < |bs| && !bs[i].isElse && text in bs[i].values
    ensures text in Listed(bs)
  {
    if i > 0 { ListedAt(bs[1..], i - 1, text); }
  }

  lemma {:induction false} OneLister(bs: seq<XorBranch>, i: nat, j: nat, text: string)
    requires NoRepeat(Listed(bs)) && i < j < |bs| && !bs[i].isElse && !bs[j].isElse
    requires text in bs[i].values
    ensures text !in bs[j].values
    decreases i
  {
    var first := if bs[0].isElse then [] else bs[0].values;
    assert Listed(bs) == first + Listed(bs[1..]);
    assert forall k :: 0 <= k < |Listed(bs[1..])| ==> Listed(bs[1..])[k] == Listed(bs)[|first| + k];
    if i > 0 {
      OneLister(bs[1..], i - 1, j - 1, text);
    } else {
      var k :| 0 <= k < |first| && first[k] == text;
      assert Listed(bs)[k] == text;
      assert text !in Listed(bs[1..]);
      if text in bs[j].values { ListedAt(bs[1..], j - 1, text); }
    }
  }

  lemma {:induction false} OneElse(bs: seq<XorBranch>, i: nat, j: nat)
    requires i < j < |bs| && bs[i].isElse && bs[j].isElse
    ensures ElseCount(bs) >= 2
    decreases i
  {
    if i > 0 { OneElse(bs[1..], i - 1, j - 1); } else { SomeElse(bs[1..], j - 1); }
  }

  lemma {:induction false} SomeElse(bs: seq<XorBranch>, j: nat)
    requires j < |bs| && bs[j].isElse
    ensures ElseCount(bs) >= 1
  {
    if j > 0 { SomeElse(bs[1..], j - 1); }
  }

  lemma {:induction false} FindElse(bs: seq<XorBranch>) returns (k: nat)
    requires ElseCount(bs) >= 1
    ensures k < |bs| && bs[k].isElse
  {
    if bs[0].isElse { k := 0; } else { k := FindElse(bs[1..]); k := k + 1; }
  }

  /** The enum scan: the listing branch if there is one, else the last catch-all, else the fallback. */
  lemma {:induction false} ScanEnum(bs: seq<XorBranch>, text: string, fallback: Option<Id>)
    ensures text in Listed(bs) ==>
              exists k :: 0 <= k < |bs| && !bs[k].isElse && text in bs[k].values
                          && FirstListing(bs, text, fallback) == Some(bs[k].target)
    ensures text !in Listed(bs) && ElseCount(bs) == 0 ==> FirstListing(bs, text, fallback) == fallback
    ensures text !in Listed(bs) && ElseCount(bs) >= 1 ==>
              exists k :: 0 <= k < |bs| && bs[k].isElse && FirstListing(bs, text, fallback) == Some(bs[k].target)
  {
    if bs != [] {
      var rest := if bs[0].isElse then Some(bs[0].target) else fallback;
      ScanEnum(bs[1..], text, rest);
      assert Listed(bs) == (if bs[0].isElse then [] else bs[0].values) + Listed(bs[1..]);
      assert forall k :: 0 <= k < |bs| - 1 ==> bs[1..][k] == bs[k + 1];
    }
  }

  /** Every placeable value lies in exactly one cell, and the scan returns that cell's target. */
  lemma ResolveFindsTheCell(d: XorDecision, v: Value) returns (k: nat)
    requires Tiles(d) && |d.branches| >= 2 && Placeable(d, v)
    ensures k < |d.branches| && InCell(d, k, v)
    ensures forall i :: 0 <= i < |d.branches| && InCell(d, i, v) ==> i == k
    ensures ResolveTarget(d, v) == Some(d.branches[k].target)
  {
    var bs := d.branches;
    match d.kind
    case THRESHOLD =>
      assert bs[0..] == bs;
      k := ScanThreshold(d, v, 0);
      assert forall i :: 0 <= i < |bs| && InCell(d, i, v) ==> i == k;
    case BOOLEAN =>
      k := if bs[0].boolValue == Some(Truthy(v)) then 0 else 1;
      assert bs[1].boolValue == Some(Truthy(v)) <==> k == 1;
      assert bs[1..][0] == bs[1];
      assert k == 1 ==> FirstTruth(bs, Truthy(v)) == FirstTruth(bs[1..], Truthy(v));
    case ENUM =>
      k := EnumCell(d, v);
  }

  lemma EnumCell(d: XorDecision, v: Value) returns (k: nat)
    requires d.kind.ENUM? && Tiles(d)
    ensures k < |d.branches| && InCell(d, k, v)
    ensures forall i :: 0 <= i < |d.branches| && InCell(d, i, v) ==> i == k
    ensures ResolveTarget(d, v) == Some(d.branches[k].target)
  {
    var bs, text := d.branches, Render(v);
    ScanEnum(bs, text, None);
    if text in Listed(bs) {
      k :| 0 <= k < |bs| && !bs[k].isElse && text in bs[k].values && FirstListing(bs, text, None) == Some(bs[k].target);
    } else {
      k :| 0 <= k < |bs| && bs[k].isElse && FirstListing(bs, text, None) == Some(bs[k].target);
    }
    forall i | 0 <= i < |bs| && InCell(d, i, v) ensures i == k {
      if bs[i].isElse && bs[k].isElse {
        if i < k { OneElse(bs, i, k); } else if k < i { OneElse(bs, k, i); }
      } else if !bs[i].isElse && !bs[k].isElse {
        if i < k { OneLister(bs, i, k, text); } else if k < i { OneLister(bs, k, i, text); }
      } else if !bs[i].isElse {
        ListedAt(bs, i, text);
      } else {
        ListedAt(bs, k, text);
      }
    }
  }

  /** A THRESHOLD decision cannot place anything but numbers. */
  lemma ResolveFailsOnNonNumbers(d: XorDecision, v: Value)
    requires Tiles(d) && |d.branches| >= 2
    ensures ResolveTarget(d, v).None? <==> !Placeable(d, v)
  {
    if Placeable(d, v) { var _ := ResolveFindsTheCell(d, v); }
  }

  /** What the values themselves select, in terms of the fields of the branches. */
  lemma ResolveByValue(d: XorDecision, v: Value) returns (k: nat)
    requires Tiles(d) && |d.branches| >= 2 && Placeable(d, v)
    ensures k < |d.branches| && ResolveTarget(d, v) == Some(d.branches[k].target)
    ensures d.kind.THRESHOLD? ==>
              && (k > 0 ==> d.branches[k - 1].upper.Some? && d.branches[k - 1].upper.value <= v.num)
              && (k < |d.branches| - 1 ==> d.branches[k].upper.Some? && v.num < d.branches[k].upper.value)
    ensures d.kind.BOOLEAN? ==>
              match v
              case Truth(flag) => d.branches[k].boolValue == Some(flag)
              case Number(num, _) => d.branches[k].boolValue == Some(num != 0.0)
              case Text(text) => d.branches[k].boolValue == Some(text != "")
              case Other(truthy, _) => d.branches[k].boolValue == Some(truthy)
    ensures d.kind.ENUM? ==>
              var text := match v
                          case Text(text) => text
                          case Truth(flag) => if flag then "True" else "False"
                          case Number(_, shown) => shown
                          case Other(_, shown) => shown;
              if exists i :: 0 <= i < |d.branches| && text in d.branches[i].values then text in d.branches[k].values else d.branches[k].isElse
  {
    k := ResolveFindsTheCell(d, v);
    if d.kind.ENUM? {
      forall i | 0 <= i < |d.branches| && Render(v) in d.branches[i].values ensures i == k { assert InCell(d, i, v); }
    }
  }

  // --- what the partition check amounts to ---------------------------------------------------

  /** Every placeable value lies in exactly one cell. */
  ghost predicate Disjoint(d: XorDecision) {
    && (forall v :: Placeable(d, v) ==> Covered(d, v))
    && forall v, i, j :: 0 <= i < |d.branches| && 0 <= j < |d.branches| && InCell(d, i, v) && InCell(d, j, v) ==> i == j
  }

  ghost predicate Covered(d: XorDecision, v: Value) {
    exists k :: 0 <= k < |d.branches| && InCell(d, k, v)
  }

  ghost predicate Inhabited(d: XorDecision, i: nat)
    requires i < |d.branches|
  {
    exists v :: InCell(d, i, v)
  }

  /** No branch is without values, no branch lists a value twice, and the catch-all lists none. */
  ghost predicate Tidy(d: XorDecision) {
    && (forall i :: 0 <= i < |d.branches| ==> Inhabited(d, i))
    && (d.kind.ENUM? ==> forall i :: 0 <= i < |d.branches| ==>
          NoRepeat(d.branches[i].values) && (d.branches[i].isElse ==> d.branches[i].values == []))
  }

  /** A text that no branch lists. */
  lemma Unlisted(texts: seq<string>) returns (text: string)
    ensures text !in texts
  {
    var size: nat := 0;
    for i := 0 to |texts|
      invariant forall k :: 0 <= k < i ==> |texts[k]| < size
    {
      if |texts[i]| >= size { size := |texts[i]| + 1; }
    }
    text := seq(size, _ => 'x');
  }

  lemma ListedFrom(bs: seq<XorBranch>, text: string) returns (i: nat)
    requires text in Listed(bs)
    ensures i < |bs| && !bs[i].isElse && text in bs[i].values
  {
    if !bs[0].isElse && text in bs[0].values { i := 0; } else { i := ListedFrom(bs[1..], text); i := i + 1; }
  }

  lemma {:induction false} NoRepeatInside(bs: seq<XorBranch>, i: nat)
    requires NoRepeat(Listed(bs)) && i < |bs| && !bs[i].isElse
    ensures NoRepeat(bs[i].values)
  {
    var first, rest := if bs[0].isElse then [] else bs[0].values, Listed(bs[1..]);
    assert forall k :: 0 <= k < |first| ==> Listed(bs)[k] == first[k];
    assert forall k :: 0 <= k < |rest| ==> Listed(bs)[|first| + k] == rest[k];
    if i > 0 { NoRepeatInside(bs[1..], i - 1); }
  }

  lemma JoinNoRepeat(a: seq<string>, b: seq<string>)
    requires NoRepeat(a) && NoRepeat(b) && forall text :: text in a ==> text !in b
    ensures NoRepeat(a + b)
  {
    forall k, l | 0 <= k < l < |a + b| ensures (a + b)[k] != (a + b)[l] {
      if k < |a| <= l { assert (a + b)[k] in a && (a + b)[l] in b; }
    }
  }

  lemma {:induction false} ListedNoRepeat(bs: seq<XorBranch>)
    requires forall i :: 0 <= i < |bs| ==> NoRepeat(bs[i].values)
    requires forall i, j, text :: 0 <= i < j < |bs| && !bs[i].isElse && !bs[j].isElse && text in bs[i].values ==> text !in bs[j].values
    ensures NoRepeat(Listed(bs))
  {
    if bs != [] {
      ListedNoRepeat(bs[1..]);
      var first, rest := if bs[0].isElse then [] else bs[0].values, Listed(bs[1..]);
      forall text | text in first ensures text !in rest {
        if text in rest { var i := ListedFrom(bs[1..], text); }
      }
      JoinNoRepeat(first, rest);
    }
  }

  lemma {:induction false} TwoElses(bs: seq<XorBranch>) returns (i: nat, j: nat)
    requires ElseCount(bs) >= 2
    ensures i < j < |bs| && bs[i].isElse && bs[j].isElse
  {
    if bs[0].isElse {
      j := FindElse(bs[1..]);
      i, j := 0, j + 1;
    } else {
      i, j := TwoElses(bs[1..]);
      i, j := i + 1, j + 1;
    }
  }

  lemma {:induction false} NoElse(bs: seq<XorBranch>, i: nat)
    requires ElseCount(bs) == 0 && i < |bs|
    ensures !bs[i].isElse
  {
    if bs[i].isElse { SomeElse(bs, i); }
  }

  lemma TilesDisjoint(d: XorDecision)
    requires Tiles(d) && |d.branches| >= 2
    ensures Disjoint(d)
  {
    forall v | Placeable(d, v) ensures Covered(d, v) { var k := ResolveFindsTheCell(d, v); }
    forall v, i, j | 0 <= i < |d.branches| && 0 <= j < |d.branches| && InCell(d, i, v) && InCell(d, j, v) ensures i == j {
      var k := ResolveFindsTheCell(d, v);
    }
  }

  lemma TilesInhabited(d: XorDecision, i: nat)
    requires Tiles(d) && |d.branches| >= 2 && i < |d.branches|
    ensures Inhabited(d, i)
  {
    var b := d.branches[i];
    match d.kind
    case THRESHOLD =>
      var low := if i > 0 then d.branches[i - 1].upper.value else b.upper.value - 1.0;
      assert InCell(d, i, Number(low, ""));
    case BOOLEAN =>
      assert b.boolValue in {d.branches[0].boolValue, d.branches[1].boolValue};
      assert InCell(d, i, Truth(b.boolValue.value));
    case ENUM =>
      var other := Unlisted(Listed(d.branches));
      var v := Text(if b.isElse then other else b.values[0]);
      assert InCell(d, i, v);
  }

  lemma TilesTidy(d: XorDecision)
    requires Tiles(d) && |d.branches| >= 2
    ensures Tidy(d)
  {
    forall i | 0 <= i < |d.branches| ensures Inhabited(d, i) { TilesInhabited(d, i); }
    if d.kind.ENUM? {
      forall i | 0 <= i < |d.branches| ensures NoRepeat(d.branches[i].values) {
        if !d.branches[i].isElse { NoRepeatInside(d.branches, i); }
      }
    }
  }

  /** Cells that are not empty have ascending bounds. */
  lemma {:induction false} Ascends(d: XorDecision, i: nat, j: nat)
    requires d.kind.THRESHOLD? && Tidy(d) && i < j < |d.branches| - 1
    requires forall k :: 0 <= k < |d.branches| - 1 ==> d.branches[k].upper.Some?
    ensures d.branches[i].upper.value < d.branches[j].upper.value
    decreases j
  {
    assert Inhabited(d, j);
    var v :| InCell(d, j, v);
    if i < j - 1 { Ascends(d, i, j - 1); }
  }

  lemma ThresholdTiles(d: XorDecision)
    requires d.kind.THRESHOLD? && |d.branches| >= 2 && Disjoint(d) && Tidy(d)
    ensures Tiles(d)
  {
    var bs := d.branches;
    forall i | 0 <= i < |bs| - 1 ensures bs[i].upper.Some? {
      assert Inhabited(d, i + 1);
      var v :| InCell(d, i + 1, v);
    }
    forall i, j | 0 <= i < j < |bs| - 1 ensures bs[i].upper.value < bs[j].upper.value { Ascends(d, i, j); }
    if bs[|bs| - 1].upper.Some? {
      var top := Highest(bs);
      assert !Covered(d, Number(top, "")) && Placeable(d, Number(top, ""));
    }
  }

  lemma Highest(bs: seq<XorBranch>) returns (top: real)
    requires forall i :: 0 <= i < |bs| ==> bs[i].upper.Some?
    ensures forall i :: 0 <= i < |bs| ==> bs[i].upper.value <= top
  {
    top := 0.0;
    for i := 0 to |bs|
      invariant forall k :: 0 <= k < i ==> bs[k].upper.value <= top
    {
      if bs[i].upper.value > top { top := bs[i].upper.value; }
    }
  }

  lemma BooleanTiles(d: XorDecision)
    requires d.kind.BOOLEAN? && |d.branches| >= 2 && Disjoint(d) && Tidy(d)
    ensures Tiles(d)
  {
    var bs := d.branches;
    assert Covered(d, Truth(true)) && Covered(d, Truth(false));
    var k :| 0 <= k < |bs| && InCell(d, k, Truth(true));
    var l :| 0 <= l < |bs| && InCell(d, l, Truth(false));
    BooleanCell(d, k, l, 0);
    BooleanCell(d, k, l, 1);
    if |bs| > 2 { BooleanCell(d, k, l, 2); }
  }

  lemma BooleanCell(d: XorDecision, k: nat, l: nat, i: nat)
    requires d.kind.BOOLEAN? && Disjoint(d) && Tidy(d) && k < |d.branches| && l < |d.branches| && i < |d.branches|
    requires InCell(d, k, Truth(true)) && InCell(d, l, Truth(false))
    ensures i == k || i == l
  {
    assert Inhabited(d, i);
    var v :| InCell(d, i, v);
    assert InCell(d, i, Truth(Truthy(v)));
  }

  lemma EnumTiles(d: XorDecision)
    requires d.kind.ENUM? && |d.branches| >= 2 && Disjoint(d) && Tidy(d)
    ensures Tiles(d)
  {
    var bs := d.branches;
    forall i | 0 <= i < |bs| ensures bs[i].isElse <==> bs[i].values == [] {
      assert Inhabited(d, i);
      var v :| InCell(d, i, v);
    }
    forall i, j, text | 0 <= i < j < |bs| && !bs[i].isElse && !bs[j].isElse && text in bs[i].values ensures text !in bs[j].values {
      if text in bs[j].values { assert InCell(d, i, Text(text)) && InCell(d, j, Text(text)); }
    }
    ListedNoRepeat(bs);
    OneCatchAll(d);
  }

  lemma OneCatchAll(d: XorDecision)
    requires d.kind.ENUM? && |d.branches| >= 2 && Disjoint(d)
    ensures ElseCount(d.branches) == 1
  {
    var bs := d.branches;
    var other := Unlisted(Listed(bs));
    assert Covered(d, Text(other));
    var k :| 0 <= k < |bs| && InCell(d, k, Text(other));
    if !bs[k].isElse { ListedAt(bs, k, other); }
    SomeElse(bs, k);
    if ElseCount(bs) >= 2 {
      var i, j := TwoElses(bs);
      assert InCell(d, i, Text(other)) && InCell(d, j, Text(other));
    }
  }

  /**
   The partition check accepts exactly the partitions: every placeable value lies in one cell and one
   only, no cell is empty, and the lists of an ENUM decision are written without repetition.
   */
  lemma TilesIff(d: XorDecision)
    requires |d.branches| >= 2
    ensures Tiles(d) <==> Disjoint(d) && Tidy(d)
  {
    if Tiles(d) {
      TilesDisjoint(d);
      TilesTidy(d);
    } else if Disjoint(d) && Tidy(d) {
      match d.kind
      case THRESHOLD => ThresholdTiles(d);
      case BOOLEAN => BooleanTiles(d);
      case ENUM => EnumTiles(d);
    }
  }

  // --- dropping a branch -------------------------------------------------------

  function Drop(d: XorDecision, i: nat): XorDecision
    requires i < |d.branches|
  {
    d.(branches := d.branches[..i] + d.branches[i + 1..])
  }

  lemma {:induction false} ElseCountDrop(bs: seq<XorBranch>, i: nat)
    requires i < |bs|
    ensures ElseCount(bs) == ElseCount(bs[..i] + bs[i + 1..]) + if bs[i].isElse then 1 else 0
  {
    var cut := bs[..i] + bs[i + 1..];
    if i == 0 {
      assert cut == bs[1..];
    } else {
      ElseCountDrop(bs[1..], i - 1);
      assert cut[0] == bs[0] && cut[1..] == bs[1..][..i - 1] + bs[1..][i..];
    }
  }

  /** Dropping a listing branch cuts a stretch out of the listed values. */
  lemma {:induction false} ListedDrop(bs: seq<XorBranch>, i: nat) returns (a: seq<string>, b: seq<string>)
    requires i < |bs| && !bs[i].isElse
    ensures Listed(bs) == a + bs[i].values + b && Listed(bs[..i] + bs[i + 1..]) == a + b
  {
    var cut := bs[..i] + bs[i + 1..];
    if i == 0 {
      assert cut == bs[1..];
      a, b := [], Listed(bs[1..]);
    } else {
      a, b := ListedDrop(bs[1..], i - 1);
      assert cut[0] == bs[0] && cut[1..] == bs[1..][..i - 1] + bs[1..][i..];
      var first := if bs[0].isElse then [] else bs[0].values;
      assert Listed(bs) == first + (a + bs[i].values + b) == first + a + bs[i].values + b;
      assert Listed(cut) == first + (a + b) == first + a + b;
      a := first + a;
    }
  }

  /** The branch is neither one of two truth values nor the unbounded or the catch-all one. */
  predicate Droppable(d: XorDecision, i: nat)
    requires i < |d.branches|
  {
    match d.kind
    case THRESHOLD => d.branches[i].upper.Some?
    case BOOLEAN => false
    case ENUM => !d.branches[i].isElse
  }

  /**
   Dropping a branch leaves a partition exactly when the decision is not BOOLEAN and the
   branch is not the unbounded or the catch-all one.
   */
  lemma DropTilesIff(d: XorDecision, i: nat)
    requires Tiles(d) && |d.branches| >= 2 && i < |d.branches|
    ensures Tiles(Drop(d, i)) <==> Droppable(d, i)
  {
    match d.kind
    case THRESHOLD => DropThreshold(d, i);
    case BOOLEAN =>
    case ENUM => DropEnum(d, i);
  }

  lemma DropThreshold(d: XorDecision, i: nat)
    requires Tiles(d) && d.kind.THRESHOLD? && |d.branches| >= 2 && i < |d.branches|
    ensures Tiles(Drop(d, i)) <==> d.branches[i].upper.Some?
  {
    var bs := d.branches;
    var cut := Drop(d, i).branches;
    if i == |bs| - 1 {
      assert cut[|cut| - 1] == bs[|bs| - 2];
    } else {
      forall k | 0 < k < |cut| - 1 ensures cut[k - 1].upper.value < cut[k].upper.value {
        var l, m := if k - 1 < i then k - 1 else k, if k < i then k else k + 1;
        assert cut[k - 1] == bs[l] && cut[k] == bs[m];
      }
    }
  }

  lemma DropEnum(d: XorDecision, i: nat)
    requires Tiles(d) && d.kind.ENUM? && |d.branches| >= 2 && i < |d.branches|
    ensures Tiles(Drop(d, i)) <==> !d.branches[i].isElse
  {
    var bs := d.branches;
    ElseCountDrop(bs, i);
    if !bs[i].isElse {
      var a, b := ListedDrop(bs, i);
      CutNoRepeat(Listed(bs), a, bs[i].values, b);
    }
  }

  /** Cutting a stretch out of a list without repetition. */
  lemma CutNoRepeat(all: seq<string>, a: seq<string>, cut: seq<string>, b: seq<string>)
    requires NoRepeat(all) && all == a + cut + b
    ensures NoRepeat(a + b)
  {
    forall k, l | 0 <= k < l < |a + b| ensures (a + b)[k] != (a + b)[l] {
      var k', l' := if k < |a| then k else k + |cut|, if l < |a| then l else l + |cut|;
      assert all[k'] == (a + b)[k] && all[l'] == (a + b)[l];
    }
  }

  /**
   Where the values of a dropped cell go: a THRESHOLD cell is taken over by the next branch,
   an ENUM cell by the catch-all. Every other value keeps its branch.
   */
  lemma DropRedirects(d: XorDecision, i: nat, v: Value)
    requires Tiles(d) && |d.branches| >= 3 && i < |d.branches| && Tiles(Drop(d, i)) && Placeable(d, v)
    ensures !InCell(d, i, v) ==> ResolveTarget(Drop(d, i), v) == ResolveTarget(d, v)
    ensures InCell(d, i, v) && d.kind.THRESHOLD? ==>
              i + 1 < |d.branches| && ResolveTarget(Drop(d, i), v) == Some(d.branches[i + 1].target)
    ensures InCell(d, i, v) && d.kind.ENUM? ==>
              exists k :: 0 <= k < |d.branches| && d.branches[k].isElse && ResolveTarget(Drop(d, i), v) == Some(d.branches[k].target)
  {
    DropTilesIff(d, i);
    var bs, cut := d.branches, Drop(d, i);
    var k := ResolveFindsTheCell(d, v);
    var l := ResolveFindsTheCell(cut, v);
    if d.kind.ENUM? { DropEnumCell(d, i, v, k, l); } else { DropThresholdCell(d, i, v, k); }
  }

  lemma DropThresholdCell(d: XorDecision, i: nat, v: Value, k: nat)
    requires d.kind.THRESHOLD? && Tiles(d) && |d.branches| >= 3 && i < |d.branches| && Tiles(Drop(d, i)) && v.Number?
    requires k < |d.branches| && InCell(d, k, v) && d.branches[i].upper.Some?
    ensures ResolveTarget(Drop(d, i), v) == Some(d.branches[if k == i then i + 1 else k].target)
  {
    var cut := Drop(d, i);
    var at := if k <= i then k else k - 1;
    assert cut.branches[at] == d.branches[if k == i then i + 1 else k];
    if k == i && i > 0 { assert cut.branches[at - 1] == d.branches[i - 1]; }
    assert InCell(cut, at, v);
    var l := ResolveFindsTheCell(cut, v);
  }

  lemma DropEnumCell(d: XorDecision, i: nat, v: Value, k: nat, l: nat)
    requires d.kind.ENUM? && Tiles(d) && i < |d.branches| && !d.branches[i].isElse
    requires k < |d.branches| && InCell(d, k, v) && forall m :: 0 <= m < |d.branches| && InCell(d, m, v) ==> m == k
    requires l < |Drop(d, i).branches| && InCell(Drop(d, i), l, v)
    ensures var target := Drop(d, i).branches[l];
            if k == i then target.isElse && exists m :: 0 <= m < |d.branches| && d.branches[m] == target
            else target == d.branches[k]
  {
    var bs, cut, text := d.branches, Drop(d, i).branches, Render(v);
    var m := if l < i then l else l + 1;
    assert cut[l] == bs[m];
    var a, b := ListedDrop(bs, i);
    if cut[l].isElse {
      if k != i && !bs[k].isElse {
        var at := if k < i then k else k - 1;
        assert cut[at] == bs[k];
        ListedAt(cut, at, text);
      }
      if bs[k].isElse { assert InCell(d, m, v) by { assert text !in Listed(bs); } }
    } else {
      assert InCell(d, m, v);
    }
  }
}
