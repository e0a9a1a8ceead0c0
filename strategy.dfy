/** The fixed two-weighing strategy for finding the one light bar among nine:
    split the bars round-robin into three sets of three, weigh set 1 against
    set 2 to learn which set holds the light bar, then weigh the first two bars
    of that set against each other. */
module Strategy {
  import opened Balance

  datatype Option<T> = None | Some(value: T)

  /** Set `r` of the round-robin split: the bars at the positions `i` with
      `i % 3 == r`, in input order. */
  function Column<T>(bars: seq<T>, r: nat): seq<T>
    requires r < 3
  {
    if bars == [] then []
    else Column(bars[..|bars| - 1], r) + (if (|bars| - 1) % 3 == r then [bars[|bars| - 1]] else [])
  }

  /** Set `r` holds one bar for each position below `|bars|` congruent to `r`. */
  lemma {:induction false} ColumnLength<T>(bars: seq<T>, r: nat)
    requires r < 3
    ensures |Column(bars, r)| == (|bars| + 2 - r) / 3
  {
    if bars != [] {
      ColumnLength(bars[..|bars| - 1], r);
    }
  }

  /** The `j`-th bar of set `r` is the input's bar at position `3 * j + r`. */
  lemma {:induction false} ColumnAt<T>(bars: seq<T>, r: nat, j: nat)
    requires r < 3 && j < |Column(bars, r)|
    ensures 3 * j + r < |bars| && Column(bars, r)[j] == bars[3 * j + r]
  {
    var n := |bars| - 1;
    var front := bars[..n];
    if j < |Column(front, r)| {
      ColumnAt(front, r, j);
    } else {
      ColumnLength(front, r);
      assert n % 3 == r && j == |Column(front, r)|;
    }
  }

  /** `ColumnAt` for every position of set `r` at once. */
  lemma ColumnPositions<T>(bars: seq<T>, r: nat)
    requires r < 3
    ensures forall j :: 0 <= j < |Column(bars, r)| ==> 3 * j + r < |bars| && Column(bars, r)[j] == bars[3 * j + r]
  {
    forall j | 0 <= j < |Column(bars, r)|
      ensures 3 * j + r < |bars| && Column(bars, r)[j] == bars[3 * j + r]
    {
      ColumnAt(bars, r, j);
    }
  }

  /** For nine bars: set 1 is positions 0, 3, 6; set 2 is 1, 4, 7; set 3 is 2, 5, 8. */
  lemma PartitionOfNine<T>(bars: seq<T>)
    requires |bars| == BarCount
    ensures Column(bars, 0) == [bars[0], bars[3], bars[6]]
    ensures Column(bars, 1) == [bars[1], bars[4], bars[7]]
    ensures Column(bars, 2) == [bars[2], bars[5], bars[8]]
  {
    ColumnLength(bars, 0);
    ColumnLength(bars, 1);
    ColumnLength(bars, 2);
    ColumnPositions(bars, 0);
    ColumnPositions(bars, 1);
    ColumnPositions(bars, 2);
  }

  /** Adding a bar at the end adds it to exactly one of the three sets. */
  lemma ColumnsSnoc<T>(bars: seq<T>)
    requires bars != []
    ensures var front := bars[..|bars| - 1];
      multiset(Column(bars, 0)) + multiset(Column(bars, 1)) + multiset(Column(bars, 2))
      == multiset(Column(front, 0)) + multiset(Column(front, 1)) + multiset(Column(front, 2)) + multiset{bars[|bars| - 1]}
  {
  }

  /** Together the three sets hold every input bar exactly as often as the input does. */
  lemma {:induction false} PartitionCovers<T>(bars: seq<T>)
    ensures multiset(Column(bars, 0)) + multiset(Column(bars, 1)) + multiset(Column(bars, 2)) == multiset(bars)
  {
    if bars != [] {
      var n := |bars| - 1;
      PartitionCovers(bars[..n]);
      ColumnsSnoc(bars);
      assert bars == bars[..n] + [bars[n]];
    }
  }

  /** When the input bars are distinct, no bar lands in two different sets. */
  lemma PartitionDisjoint<T>(bars: seq<T>, r: nat, s: nat)
    requires forall i, k :: 0 <= i < k < |bars| ==> bars[i] != bars[k]
    requires r < 3 && s < 3 && r != s
    ensures forall i, k :: 0 <= i < |Column(bars, r)| && 0 <= k < |Column(bars, s)| ==> Column(bars, r)[i] != Column(bars, s)[k]
  {
    forall i, k | 0 <= i < |Column(bars, r)| && 0 <= k < |Column(bars, s)|
      ensures Column(bars, r)[i] != Column(bars, s)[k]
    {
      ColumnAt(bars, r, i);
      ColumnAt(bars, s, k);
      assert 3 * i + r != 3 * k + s;
    }
  }

  /** Appends each bar to the set its position selects, in input order:
      positions `0, 3, 6, …` to `first`, `1, 4, 7, …` to `second` and the
      rest to `third`. The three sets are the caller's lists, so whatever they
      already hold stays in front. */
  method DivideGoldBarsIntoSets<T>(bars: seq<T>, first0: seq<T>, second0: seq<T>, third0: seq<T>)
    returns (first: seq<T>, second: seq<T>, third: seq<T>)
    ensures first == first0 + Column(bars, 0)
    ensures second == second0 + Column(bars, 1)
    ensures third == third0 + Column(bars, 2)
  {
    first, second, third := first0, second0, third0;
    for index := 0 to |bars|
      invariant first == first0 + Column(bars[..index], 0)
      invariant second == second0 + Column(bars[..index], 1)
      invariant third == third0 + Column(bars[..index], 2)
    {
      assert bars[..index + 1][..index] == bars[..index];
      if index % 3 == 0 {
        first := first + [bars[index]];
      } else if index % 3 == 1 {
        second := second + [bars[index]];
      } else {
        third := third + [bars[index]];
      }
    }
    assert bars[..|bars|] == bars;
  }

  /** After set 1 (left) is weighed against set 2 (right): which set holds
      the light bar. `>` (left heavier) selects set 2, `<` selects set 1, `=`
      selects set 3; any other readout is an error. Sets are numbered from 0. */
  function FirstDecision(compareResult: string): (choice: Option<nat>)
    ensures choice.Some? <==> compareResult == ">" || compareResult == "<" || compareResult == "="
    ensures choice.Some? ==> choice.value < 3
  {
    if compareResult == ">" then Some(1)
    else if compareResult == "<" then Some(0)
    else if compareResult == "=" then Some(2)
    else None
  }

  /** After bar 0 of a set (left) is weighed against bar 1 (right): the
      position in the set of the light bar. `>` gives 1, `<` gives 0, and
      every other readout, known or not, gives 2. */
  function SecondDecision(compareResult: string): (index: nat)
    ensures index < 3
    ensures index == 2 <==> compareResult != ">" && compareResult != "<"
  {
    if compareResult == ">" then 1
    else if compareResult == "<" then 0
    else 2
  }

  /** The first weighing: set 1 in left inputs 0..2, set 2 in right inputs 0..2. */
  function FirstWeighing(w: seq<int>): Weighing
    requires |w| == BarCount
  {
    var bars := BarsOf(w);
    PartitionOfNine(bars);
    WeighOn(w, Fill(Column(bars, 0), SlotsPerSide), Fill(Column(bars, 1), SlotsPerSide))
  }

  /** The set the first weighing selects. */
  function Candidates(w: seq<int>): (set_: seq<Bar>)
    requires |w| == BarCount
    ensures |set_| == 3
  {
    PartitionOfNine(BarsOf(w));
    Column(BarsOf(w), FirstDecision(FirstWeighing(w).result).value)
  }

  /** The second weighing, on a reset board: bar 0 of the selected set in
      left input 0, bar 1 in right input 0. */
  function SecondWeighing(w: seq<int>): Weighing
    requires |w| == BarCount
  {
    var set_ := Candidates(w);
    WeighOn(w, Fill([set_[0]], SlotsPerSide), Fill([set_[1]], SlotsPerSide))
  }

  /** The bar the procedure picks on a page with weights `w`. */
  function Pick(w: seq<int>): Bar
    requires |w| == BarCount
  {
    Candidates(w)[SecondDecision(SecondWeighing(w).result)]
  }

  /** The first weighing selects the set that holds the light bar: set `light % 3`. */
  lemma FirstWeighingLocates(w: seq<int>, light: Bar, heavy: int)
    requires LightAt(w, light, heavy)
    ensures FirstDecision(FirstWeighing(w).result) == Some(light % 3)
    ensures Candidates(w) == [light % 3, light % 3 + 3, light % 3 + 6]
  {
    var bars := BarsOf(w);
    PartitionOfNine(bars);
    FillWeight(w, Column(bars, 0), SlotsPerSide);
    FillWeight(w, Column(bars, 1), SlotsPerSide);
    assert BarsWeight(w, [0, 3, 6]) == w[0] + w[3] + w[6] by {
      assert BarsWeight(w, [6]) == w[6];
      assert BarsWeight(w, [3, 6]) == w[3] + w[6] by { assert [3, 6][1..] == [6]; }
      assert [0, 3, 6][1..] == [3, 6];
    }
    assert BarsWeight(w, [1, 4, 7]) == w[1] + w[4] + w[7] by {
      assert BarsWeight(w, [7]) == w[7];
      assert BarsWeight(w, [4, 7]) == w[4] + w[7] by { assert [4, 7][1..] == [7]; }
      assert [1, 4, 7][1..] == [4, 7];
    }
    var leftSum, rightSum := w[0] + w[3] + w[6], w[1] + w[4] + w[7];
    assert PanSum(w, FirstWeighing(w).left) == leftSum;
    assert PanSum(w, FirstWeighing(w).right) == rightSum;
    if light % 3 == 0 {
      assert leftSum < rightSum;
    } else if light % 3 == 1 {
      assert leftSum > rightSum;
    } else {
      assert leftSum == rightSum;
    }
  }

  /** Weighing bar 0 of a set against bar 1 finds the light bar of the set,
      whichever of the three it is. */
  lemma SecondWeighingLocates(w: seq<int>, light: Bar, heavy: int, set_: seq<Bar>)
    requires LightAt(w, light, heavy)
    requires |set_| == 3 && light in set_
    requires forall i :: 0 <= i < 3 ==> set_[i] < |w|
    requires set_[0] != set_[1] && set_[1] != set_[2] && set_[0] != set_[2]
    ensures set_[SecondDecision(WeighOn(w, Fill([set_[0]], SlotsPerSide), Fill([set_[1]], SlotsPerSide)).result)] == light
  {
    FillWeight(w, [set_[0]], SlotsPerSide);
    FillWeight(w, [set_[1]], SlotsPerSide);
    assert BarsWeight(w, [set_[0]]) == w[set_[0]];
    assert BarsWeight(w, [set_[1]]) == w[set_[1]];
  }

  /** The procedure returns the light bar, wherever it sits among the nine. */
  lemma PickFindsLight(w: seq<int>, light: Bar, heavy: int)
    requires LightAt(w, light, heavy)
    ensures Pick(w) == light
  {
    FirstWeighingLocates(w, light, heavy);
    SecondWeighingLocates(w, light, heavy, Candidates(w));
  }

  /** Bar 7 light: it lies on the right pan in the first weighing, so the
      left pan is heavier and set 2 (bars 1, 4, 7) is selected; bars 1 and 4
      then balance, and bar 7 is picked. */
  lemma LightBarSevenExample()
    ensures var w := [10, 10, 10, 10, 10, 10, 10, 9, 10];
      && FirstWeighing(w).result == ">"
      && Candidates(w) == [1, 4, 7]
      && SecondWeighing(w).result == "="
      && Pick(w) == 7
  {
    var w := [10, 10, 10, 10, 10, 10, 10, 9, 10];
    FirstWeighingLocates(w, 7, 10);
    SecondWeighingLocates(w, 7, 10, [1, 4, 7]);
    FillWeight(w, [1], SlotsPerSide);
    FillWeight(w, [4], SlotsPerSide);
    assert BarsWeight(w, [1]) == BarsWeight(w, [4]);
  }
}
