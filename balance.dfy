/** The challenge page as the automation sees it: a row of gold bars whose
    weights are hidden, a balance with a left and a right board of nine inputs
    each, a weigh button whose result readout shows how the pans compare, a
    reset button that clears both boards, and the list of weighings done so far. */
module Balance {

  /** A gold bar, named by the number printed on it: its position in the row of bars. */
  type Bar = nat

  /** One input of a board: empty, or holding the number of the bar typed into it. */
  datatype Slot = Empty | Holds(bar: Bar)

  /** One entry of the page's list of weighings: what lay on each board and the result shown. */
  datatype Weighing = Weighing(left: seq<Slot>, right: seq<Slot>, result: string)

  /** Each board has nine inputs. */
  const SlotsPerSide: nat := 9

  /** The puzzle has nine bars, and the test case insists on exactly this many. */
  const BarCount: nat := 9

  /** The bars of a page whose weights are `w`, in the order the page lists them. */
  function BarsOf(w: seq<int>): seq<Bar>
  {
    seq(|w|, i => i)
  }

  /** Weight of bar `b`; a number that names no bar weighs nothing. */
  function BarWeight(w: seq<int>, b: Bar): int
  {
    if b < |w| then w[b] else 0
  }

  function SlotWeight(w: seq<int>, s: Slot): int
  {
    match s
    case Empty => 0
    case Holds(b) => BarWeight(w, b)
  }

  /** Total weight lying on a pan whose inputs are `slots`. */
  function PanSum(w: seq<int>, slots: seq<Slot>): int
  {
    if slots == [] then 0 else SlotWeight(w, slots[0]) + PanSum(w, slots[1..])
  }

  /** Total weight of a list of bars. */
  function BarsWeight(w: seq<int>, bars: seq<Bar>): int
  {
    if bars == [] then 0 else BarWeight(w, bars[0]) + BarsWeight(w, bars[1..])
  }

  /** A board of `n` inputs with `bars` typed into the first inputs, in order, and the rest empty. */
  function Fill(bars: seq<Bar>, n: nat): seq<Slot>
    requires |bars| <= n
  {
    seq(n, i requires 0 <= i < n => if i < |bars| then Holds(bars[i]) else Empty)
  }

  /** A board with nothing typed into it. */
  function EmptyBoard(): seq<Slot>
  {
    Fill([], SlotsPerSide)
  }

  /** A pan loaded by `Fill` weighs what its bars weigh together. */
  lemma {:induction false} FillWeight(w: seq<int>, bars: seq<Bar>, n: nat)
    requires |bars| <= n
    ensures PanSum(w, Fill(bars, n)) == BarsWeight(w, bars)
  {
    if n > 0 {
      var rest := if bars == [] then [] else bars[1..];
      assert Fill(bars, n)[1..] == Fill(rest, n - 1);
      FillWeight(w, rest, n - 1);
    }
  }

  /** The text of the result readout: `>` when the left pan is heavier, `<`
      when it is lighter, `=` when the pans balance. */
  function Readout(leftSum: int, rightSum: int): (symbol: string)
    ensures symbol == ">" <==> leftSum > rightSum
    ensures symbol == "<" <==> leftSum < rightSum
    ensures symbol == "=" <==> leftSum == rightSum
  {
    if leftSum > rightSum then ">" else if leftSum < rightSum then "<" else "="
  }

  /** The weighing the page performs on the boards `left` and `right`. */
  function WeighOn(w: seq<int>, left: seq<Slot>, right: seq<Slot>): Weighing
  {
    Weighing(left, right, Readout(PanSum(w, left), PanSum(w, right)))
  }

  /** The puzzle's promise: there are nine bars, bar `light` weighs strictly
      less than `heavy`, and every other bar weighs exactly `heavy`. */
  ghost predicate LightAt(w: seq<int>, light: Bar, heavy: int)
  {
    && |w| == BarCount
    && light < |w|
    && w[light] < heavy
    && forall i :: 0 <= i < |w| && i != light ==> w[i] == heavy
  }

  /** The page in the browser. Its bar weights never change; its boards,
      readout and list of weighings change as the buttons are clicked. */
  class Page {
    const weights: seq<int>
    const left: array<Slot>
    const right: array<Slot>
    var history: seq<Weighing>
    var result: string

    ghost predicate Valid()
      reads this
    {
      left.Length == SlotsPerSide && right.Length == SlotsPerSide && left != right
    }

    ghost predicate BoardEmpty()
      reads this, left, right
    {
      left[..] == EmptyBoard() && right[..] == EmptyBoard()
    }

    /** A freshly loaded page: empty boards and no weighings yet. */
    constructor (weights: seq<int>)
      ensures Valid() && BoardEmpty()
      ensures this.weights == weights && history == []
      ensures fresh(left) && fresh(right)
    {
      this.weights := weights;
      left := new Slot[SlotsPerSide](_ => Empty);
      right := new Slot[SlotsPerSide](_ => Empty);
      history := [];
      result := "";
    }

    /** The weigh button: compares the pans as they are loaded, shows the
        result and adds one entry to the list of weighings. The boards stay loaded. */
    method ClickWeigh()
      requires Valid()
      modifies this
      ensures history == old(history) + [WeighOn(weights, left[..], right[..])]
      ensures result == WeighOn(weights, left[..], right[..]).result
    {
      var weighing := WeighOn(weights, left[..], right[..]);
      history := history + [weighing];
      result := weighing.result;
    }

    /** The reset button: clears every input of both boards. */
    method ClickReset()
      requires Valid()
      modifies left, right
      ensures BoardEmpty()
    {
      forall i | 0 <= i < left.Length {
        left[i] := Empty;
      }
      forall i | 0 <= i < right.Length {
        right[i] := Empty;
      }
    }
  }
}
