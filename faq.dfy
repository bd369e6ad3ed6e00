/** One question of the FAQ accordion (`FaqItem`) and its open/closed state. */
module Faq {
  import opened Wrappers

  /** What an item renders: the question, the open/closed marker and, when open, the answer. */
  datatype FaqView = FaqView(question: string, marker: string, answer: Option<string>)

  /** The state of one item (`const [open, setOpen] = useState(false)`). */
  class FaqItem {
    var open: bool

    /** Every item starts closed. */
    constructor ()
      ensures !open
    {
      open := false;
    }

    /** A click on the question flips the item. */
    method Click()
      modifies this
      ensures open == !old(open)
      ensures open == OpenAfter(old(open), 1)
    {
      open := !open;
    }

    /**
     * The item with question `q` and answer `a`: the question always, an en
     * dash or a plus as the marker, and the answer exactly while open.
     */
    function View(q: string, a: string): (r: FaqView)
      reads this
      ensures r.question == q
      ensures r.answer.Some? <==> open
      ensures r.answer.Some? ==> r.answer.value == a
      ensures r.marker == "–" <==> open
      ensures r.marker == "+" <==> !open
    {
      FaqView(q, if open then "–" else "+", if open then Some(a) else None)
    }
  }

  /** The open flag after `clicks` clicks, one at a time, from `open`. */
  function OpenAfter(open: bool, clicks: nat): bool
    decreases clicks
  {
    if clicks == 0 then open else OpenAfter(!open, clicks - 1)
  }

  /** Only the parity of the clicks matters: an odd number flips the item, an even one restores it. */
  lemma {:induction false} ClickParity(open: bool, clicks: nat)
    ensures OpenAfter(open, clicks) == (open != (clicks % 2 == 1))
    decreases clicks
  {
    if clicks > 0 {
      ClickParity(!open, clicks - 1);
    }
  }

  /** A double click leaves an item as it was. */
  method ClickTwice(f: FaqItem)
    modifies f
    ensures f.open == old(f.open)
  {
    f.Click();
    f.Click();
  }
}
