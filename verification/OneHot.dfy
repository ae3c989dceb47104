/** One-hot labels by a flat scatter: row `i` of the result starts at flat index `i * classes`. */
module OneHot {
  import opened Common

  /** The flat index that label `j` scatters to. */
  function Target(labels: seq<nat>, classes: nat, j: nat): nat
    requires j < |labels|
  {
    j * classes + labels[j]
  }

  /** Some label scatters to flat index `x`. */
  ghost predicate Hit(labels: seq<nat>, classes: nat, x: nat) {
    exists j :: 0 <= j < |labels| && Target(labels, classes, j) == x
  }

  /** An index outside the result raises. */
  method DenseToOneHot(labels: seq<nat>, classes: nat) returns (flat: Option<seq<nat>>)
    ensures flat.None? <==> exists j :: 0 <= j < |labels| && Target(labels, classes, j) >= |labels| * classes
    ensures flat.Some? ==> |flat.value| == |labels| * classes
    ensures flat.Some? ==> forall x :: 0 <= x < |labels| * classes ==>
                             flat.value[x] == if Hit(labels, classes, x) then 1 else 0
  {
    var size := |labels| * classes;
    var hot := new nat[size](_ => 0);
    for i := 0 to |labels|
      invariant forall j :: 0 <= j < i ==> Target(labels, classes, j) < size
      invariant forall x :: 0 <= x < size ==>
                  hot[x] == if exists j :: 0 <= j < i && Target(labels, classes, j) == x then 1 else 0
    {
      var x := i * classes + labels[i];
      assert x == Target(labels, classes, i);
      if x >= size { return None; }
      hot[x] := 1;
    }
    flat := Some(hot[..]);
  }

  /** The result has a 1 in row `i`, column `c`. */
  ghost predicate HotAt(labels: seq<nat>, classes: nat, i: nat, c: nat) {
    Hit(labels, classes, i * classes + c)
  }

  /** Row `i` has its only 1 in column `c`. */
  ghost predicate OnlyHot(labels: seq<nat>, classes: nat, i: nat, c: nat) {
    c < classes && forall c': nat :: c' < classes ==> (HotAt(labels, classes, i, c') <==> c' == c)
  }

  ghost predicate RowOneHot(labels: seq<nat>, classes: nat, i: nat) {
    exists c: nat :: OnlyHot(labels, classes, i, c)
  }

  predicate InRange(labels: seq<nat>, classes: nat) {
    forall j :: 0 <= j < |labels| ==> labels[j] < classes
  }

  lemma {:induction false} RowsApart(i: nat, j: nat, classes: nat)
    requires i < j
    ensures i * classes + classes <= j * classes
    decreases j
  {
    assert j * classes == (j - 1) * classes + classes;
    if i < j - 1 { RowsApart(i, j - 1, classes); }
  }

  lemma {:induction false} SameRow(classes: nat, i: nat, c: nat, j: nat, l: nat)
    requires i * classes + c == j * classes + l && c < classes && l < classes
    ensures i == j && c == l
  {
    if i < j { RowsApart(i, j, classes); }
    if j < i { RowsApart(j, i, classes); }
  }

  lemma {:induction false} RowIsOneHot(labels: seq<nat>, classes: nat, i: nat)
    requires InRange(labels, classes) && i < |labels|
    ensures OnlyHot(labels, classes, i, labels[i])
  {
    assert Target(labels, classes, i) == i * classes + labels[i];
    forall c: nat | c < classes && HotAt(labels, classes, i, c) ensures c == labels[i] {
      var j :| 0 <= j < |labels| && Target(labels, classes, j) == i * classes + c;
      SameRow(classes, i, c, j, labels[j]);
    }
  }

  /** The first label out of range leaves its own row without any 1. */
  lemma {:induction false} FirstBadRowIsCold(labels: seq<nat>, classes: nat, i: nat, c: nat)
    requires i < |labels| && labels[i] >= classes && InRange(labels[..i], classes) && c < classes
    ensures !HotAt(labels, classes, i, c)
  {
    forall j | 0 <= j < |labels| ensures Target(labels, classes, j) != i * classes + c {
      if j < i {
        assert labels[..i][j] < classes;
        RowsApart(j, i, classes);
      } else if j > i {
        RowsApart(i, j, classes);
      }
    }
  }

  /** Every row has exactly one 1 if and only if every label is below the number of classes; it then stands in the
      column of the row's label. */
  lemma OneHotIff(labels: seq<nat>, classes: nat)
    ensures (forall i :: 0 <= i < |labels| ==> RowOneHot(labels, classes, i)) <==> InRange(labels, classes)
    ensures InRange(labels, classes) ==> forall i :: 0 <= i < |labels| ==> OnlyHot(labels, classes, i, labels[i])
  {
    if InRange(labels, classes) {
      forall i | 0 <= i < |labels| ensures OnlyHot(labels, classes, i, labels[i]) && RowOneHot(labels, classes, i) {
        RowIsOneHot(labels, classes, i);
      }
    } else {
      var i := FirstBad(labels, classes);
      forall c: nat ensures !OnlyHot(labels, classes, i, c) {
        if c < classes { FirstBadRowIsCold(labels, classes, i, c); }
      }
      assert !RowOneHot(labels, classes, i);
    }
  }

  lemma {:induction false} FirstBad(labels: seq<nat>, classes: nat) returns (i: nat)
    requires !InRange(labels, classes)
    ensures i < |labels| && labels[i] >= classes && InRange(labels[..i], classes)
    decreases |labels|
  {
    var last := |labels| - 1;
    if InRange(labels[..last], classes) {
      i := last;
    } else {
      i := FirstBad(labels[..last], classes);
      assert labels[..last][..i] == labels[..i];
    }
  }

  /** Two classes and the labels 2, 3, 0: every index is inside the result, so nothing raises, and row 0 has no 1. Row 1
      has one, although its label is out of range too: label 0 put it there. */
  lemma BadLabels()
    ensures var labels := [2, 3, 0];
            && !RowOneHot(labels, 2, 0) && HotAt(labels, 2, 1, 0)
            && forall j :: 0 <= j < 3 ==> Target(labels, 2, j) < 6
  {
    var labels := [2, 3, 0];
    assert Target(labels, 2, 0) == 2 && Target(labels, 2, 1) == 5 && Target(labels, 2, 2) == 4;
    forall c: nat ensures !OnlyHot(labels, 2, 0, c) {
      if c < 2 { FirstBadRowIsCold(labels, 2, 0, c); }
    }
  }
}
