/** The automated test of the challenge page: it reads how many weighings the
    page lists, checks that there are nine bars, splits them into three sets,
    weighs set 1 against set 2, resets the boards, weighs two bars of the
    selected set against each other and picks the light bar. Every click is
    followed by a wait for the page to show its effect. */
module FetchAutomation {
  import opened Balance
  import opened Strategy

  /** Why a run of the test stops with an exception. */
  datatype Failure =
    | InvalidBarCount(count: nat)
    | WeighingTimedOut
    | UnexpectedCompareResult(compareResult: string)

  datatype Result<T> = Ok(value: T) | Err(failure: Failure)

  class FetchTestingAutomation {
    /** The page the browser shows. */
    const page: Page
    /** How many weighings the page listed when last looked at; each weighing waits for one more. */
    var lastWeighingsAmount: int

    constructor (page: Page)
      ensures this.page == page && lastWeighingsAmount == 0
    {
      this.page := page;
      lastWeighingsAmount := 0;
    }

    /** Clicks the weigh button and waits until the page lists exactly one
        weighing more than `lastWeighingsAmount`; then counts that weighing
        and returns the result readout. If the list has any other length the
        wait gives up and nothing is counted. */
    method ClickAndWaitUntilWeighingHasFinished() returns (compareResult: Result<string>)
      requires page.Valid()
      modifies this, page
      ensures page.history == old(page.history) + [WeighOn(page.weights, page.left[..], page.right[..])]
      ensures compareResult.Ok? <==> |page.history| == old(lastWeighingsAmount) + 1
      ensures compareResult.Ok? ==>
        && compareResult.value == page.history[|page.history| - 1].result
        && lastWeighingsAmount == old(lastWeighingsAmount) + 1
      ensures compareResult.Err? ==>
        compareResult.failure == WeighingTimedOut && lastWeighingsAmount == old(lastWeighingsAmount)
    {
      page.ClickWeigh();
      if |page.history| != lastWeighingsAmount + 1 {
        return Err(WeighingTimedOut);
      }
      lastWeighingsAmount := lastWeighingsAmount + 1;
      compareResult := Ok(page.result);
    }

    /** Clicks the reset button and waits until the text of the first left
        input is empty. An input element has no text of its own, whatever has
        been typed into it, so that condition holds from the start and the
        wait observes nothing; the boards are empty afterwards because the
        page clears them as the button is clicked. */
    method ClickAndWaitUntilResettingBoardsHaveFinished()
      requires page.Valid()
      modifies page.left, page.right
      ensures page.BoardEmpty()
    {
      page.ClickReset();
    }

    /** The second weighing: on a reset board, bar 0 of the set goes on the
        left and bar 1 on the right; `>` picks bar 1, `<` bar 0 and any other
        readout bar 2. */
    method CompareGoldBars(goldBarsSet: seq<Bar>) returns (leastWeighed: Result<Bar>)
      requires page.Valid() && |goldBarsSet| >= 3
      modifies this, page, page.left, page.right
      ensures page.left[..] == Fill([goldBarsSet[0]], SlotsPerSide)
      ensures page.right[..] == Fill([goldBarsSet[1]], SlotsPerSide)
      ensures page.history == old(page.history) + [WeighOn(page.weights, page.left[..], page.right[..])]
      ensures leastWeighed.Ok? <==> |old(page.history)| == old(lastWeighingsAmount)
      ensures leastWeighed.Ok? ==>
        && leastWeighed.value == goldBarsSet[SecondDecision(page.history[|page.history| - 1].result)]
        && lastWeighingsAmount == old(lastWeighingsAmount) + 1
      ensures leastWeighed.Err? ==>
        leastWeighed.failure == WeighingTimedOut && lastWeighingsAmount == old(lastWeighingsAmount)
    {
      ClickAndWaitUntilResettingBoardsHaveFinished();
      page.left[0] := Holds(goldBarsSet[0]);
      page.right[0] := Holds(goldBarsSet[1]);
      var weighed := ClickAndWaitUntilWeighingHasFinished();
      var compareResult: string;
      match weighed {
        case Err(failure) => return Err(failure);
        case Ok(symbol) => compareResult := symbol;
      }
      leastWeighed := Ok(goldBarsSet[SecondDecision(compareResult)]);
    }

    /** Types the bars of a set into the first inputs of an empty board, in order. */
    method FillBoard(board: array<Slot>, barsSet: seq<Bar>)
      requires board[..] == EmptyBoard() && |barsSet| <= board.Length
      modifies board
      ensures board[..] == Fill(barsSet, SlotsPerSide)
    {
      for index := 0 to |barsSet|
        invariant board[..] == Fill(barsSet[..index], SlotsPerSide)
      {
        board[index] := Holds(barsSet[index]);
      }
      assert barsSet[..|barsSet|] == barsSet;
    }

    /** The test case: find the gold bar that weighs least with two weighings.
        A page without exactly nine bars fails before any input is filled or
        any weighing is done; otherwise the result is the bar `Pick` names,
        after exactly the two weighings `FirstWeighing` and `SecondWeighing`,
        which is the light bar whenever the page holds one. */
    method FetchMinimalBarWeighing() returns (leastWeighed: Result<Bar>)
      requires page.Valid() && page.BoardEmpty()
      modifies this, page, page.left, page.right
      ensures lastWeighingsAmount == |page.history|
      ensures |page.weights| != BarCount ==>
        && leastWeighed == Err(InvalidBarCount(|page.weights|))
        && page.history == old(page.history)
        && page.BoardEmpty()
      ensures |page.weights| == BarCount ==>
        && leastWeighed == Ok(Pick(page.weights))
        && page.history == old(page.history) + [FirstWeighing(page.weights), SecondWeighing(page.weights)]
        && lastWeighingsAmount == |old(page.history)| + 2
        && page.left[..] == SecondWeighing(page.weights).left
        && page.right[..] == SecondWeighing(page.weights).right
      ensures forall light: Bar, heavy: int :: LightAt(page.weights, light, heavy) ==> leastWeighed == Ok(light)
    {
      lastWeighingsAmount := |page.history|;
      var goldBarsList := BarsOf(page.weights);
      if |goldBarsList| != BarCount {
        return Err(InvalidBarCount(|goldBarsList|));
      }

      var firstSetOfBars, secondSetOfBars, thirdSetOfBars := DivideGoldBarsIntoSets(goldBarsList, [], [], []);
      PartitionOfNine(goldBarsList);

      FillBoard(page.left, firstSetOfBars);
      FillBoard(page.right, secondSetOfBars);

      ghost var w, before := page.weights, page.history;
      assert FirstWeighing(w) == WeighOn(w, page.left[..], page.right[..]) by {
        assert firstSetOfBars == Column(goldBarsList, 0) && secondSetOfBars == Column(goldBarsList, 1);
      }

      var weighed := ClickAndWaitUntilWeighingHasFinished();
      var compareResult: string;
      match weighed {
        case Err(failure) => return Err(failure);
        case Ok(symbol) => compareResult := symbol;
      }
      assert page.history == before + [FirstWeighing(w)];
      ghost var afterFirst, chosen := page.history, Candidates(w);

      match FirstDecision(compareResult) {
        case None => return Err(UnexpectedCompareResult(compareResult));
        case Some(choice) =>
          var goldBarsSet := [firstSetOfBars, secondSetOfBars, thirdSetOfBars][choice];
          assert goldBarsSet == chosen;
          leastWeighed := CompareGoldBars(goldBarsSet);
      }
      assert page.history == afterFirst + [SecondWeighing(w)];

      forall light: Bar, heavy: int | LightAt(page.weights, light, heavy)
        ensures Pick(page.weights) == light
      {
        PickFindsLight(page.weights, light, heavy);
      }
    }

    /** After each test: reset the boards and forget the weighing count. */
    method Teardown()
      requires page.Valid()
      modifies this, page.left, page.right
      ensures page.BoardEmpty() && lastWeighingsAmount == 0
    {
      ClickAndWaitUntilResettingBoardsHaveFinished();
      lastWeighingsAmount := 0;
    }
  }

  /** One run of the fixture on a page whose bars weigh `weights`: load the
      page, run the test case, tear down. */
  method RunTestCase(weights: seq<int>) returns (leastWeighed: Result<Bar>)
    ensures |weights| != BarCount ==> leastWeighed == Err(InvalidBarCount(|weights|))
    ensures |weights| == BarCount ==> leastWeighed == Ok(Pick(weights))
    ensures forall light: Bar, heavy: int :: LightAt(weights, light, heavy) ==> leastWeighed == Ok(light)
  {
    var page := new Page(weights);
    var automation := new FetchTestingAutomation(page);
    leastWeighed := automation.FetchMinimalBarWeighing();
    automation.Teardown();
  }
}
