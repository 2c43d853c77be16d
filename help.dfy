/** The help page's FAQ: six question/answer items, each of which opens and
    closes independently; the open state lives in a number-keyed record that
    starts empty. */
module Help {

  /** `openItems[index]` read as a boolean: a missing entry reads as closed. */
  function IsOpen(openItems: map<int, bool>, index: int): (open: bool)
    ensures index !in openItems ==> !open
    ensures index in openItems ==> open == openItems[index]
  {
    index in openItems && openItems[index]
  }

  /** `{ ...prev, [index]: !prev[index] }`. */
  function Toggled(openItems: map<int, bool>, index: int): (r: map<int, bool>)
    ensures IsOpen(r, index) == !IsOpen(openItems, index)
    ensures forall i :: i != index ==> IsOpen(r, i) == IsOpen(openItems, i)
    ensures r.Keys == openItems.Keys + {index}
  {
    openItems[index := !IsOpen(openItems, index)]
  }

  /** Opening and closing an item gives back every item's state. */
  lemma ToggleTwice(openItems: map<int, bool>, index: int)
    ensures forall i :: IsOpen(Toggled(Toggled(openItems, index), index), i) == IsOpen(openItems, i)
  {
  }

  class HelpPage {
    var openItems: map<int, bool>

    constructor ()
      ensures openItems == map[]
      ensures forall i :: !IsOpen(openItems, i)
    {
      openItems := map[];
    }

    method ToggleItem(index: int)
      modifies this`openItems
      ensures openItems == Toggled(old(openItems), index)
    {
      openItems := Toggled(openItems, index);
    }

    /** The `open` prop of the item at `index`. */
    function ItemOpen(index: int): (open: bool)
      reads this
      ensures open ==> index in openItems && openItems[index]
      ensures index !in openItems ==> !open
      ensures index in openItems ==> open == openItems[index]
    {
      IsOpen(openItems, index)
    }
  }

  /** The record after a sequence of item clicks. */
  function ToggledAll(openItems: map<int, bool>, clicks: seq<int>): map<int, bool>
    decreases |clicks|
  {
    if clicks == [] then openItems else ToggledAll(Toggled(openItems, clicks[0]), clicks[1..])
  }

  /** How many of the clicks were on `index`. */
  function Count(clicks: seq<int>, index: int): (n: nat)
    ensures n <= |clicks|
    ensures n == 0 <==> index !in clicks
  {
    if clicks == [] then 0 else (if clicks[0] == index then 1 else 0) + Count(clicks[1..], index)
  }

  /** After any sequence of clicks an item's state has flipped exactly when it
      was clicked an odd number of times. */
  lemma {:induction false} OpenAfterClicks(openItems: map<int, bool>, clicks: seq<int>, index: int)
    ensures IsOpen(ToggledAll(openItems, clicks), index) == (IsOpen(openItems, index) != (Count(clicks, index) % 2 == 1))
    decreases |clicks|
  {
    if clicks != [] {
      OpenAfterClicks(Toggled(openItems, clicks[0]), clicks[1..], index);
    }
  }
}
