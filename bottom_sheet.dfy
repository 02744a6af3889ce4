/**
 * The pin details sheet (src/lib/stores/bottomSheet.svelte.ts): which pin
 * it shows, whether it is expanded and whether the review form is open.
 * The pin is any value of type `P`.
 */
module BottomSheet {
  import opened Wrappers

  /** The options of `open`; an omitted option is `None`. */
  datatype OpenOptions = OpenOptions(expanded: Option<bool>, showReviewForm: Option<bool>)

  /** The fields of the sheet. */
  datatype Sheet<P> = Sheet(pin: Option<P>, expanded: bool, showReviewForm: bool)

  /** `open(pin, options)`: omitted flags are false (`?? false`). */
  function Opened<P>(pin: P, options: OpenOptions): Sheet<P> {
    Sheet(Some(pin), options.expanded.GetOr(false), options.showReviewForm.GetOr(false))
  }

  function Closed<P>(): Sheet<P> {
    Sheet(None, false, false)
  }

  function Expanded<P>(s: Sheet<P>): Sheet<P> {
    s.(expanded := true)
  }

  function Collapsed<P>(s: Sheet<P>): Sheet<P> {
    s.(expanded := false, showReviewForm := false)
  }

  function ToggledExpansion<P>(s: Sheet<P>): Sheet<P> {
    s.(expanded := !s.expanded)
  }

  /** Opening shows the pin; each flag is the option given, or false when it is omitted. */
  lemma OpenedSpec<P>(pin: P, options: OpenOptions)
    ensures Opened(pin, options).pin == Some(pin)
    ensures Opened(pin, options).expanded <==> options.expanded == Some(true)
    ensures Opened(pin, options).showReviewForm <==> options.showReviewForm == Some(true)
    ensures Opened(pin, OpenOptions(None, None)) == Sheet(Some(pin), false, false)
  {
  }

  /**
   * Expanding keeps the pin and the form; collapsing keeps only the pin;
   * toggling flips the expansion alone, so toggling twice changes nothing.
   */
  lemma TransitionsSpec<P>(s: Sheet<P>)
    ensures var e := Expanded(s); e.expanded && e.pin == s.pin && e.showReviewForm == s.showReviewForm
    ensures var c := Collapsed(s); !c.expanded && !c.showReviewForm && c.pin == s.pin
    ensures var t := ToggledExpansion(s); t.expanded == !s.expanded && t.pin == s.pin && t.showReviewForm == s.showReviewForm
    ensures ToggledExpansion(ToggledExpansion(s)) == s
    ensures Expanded(Expanded(s)) == Expanded(s) && Collapsed(Collapsed(s)) == Collapsed(s)
  {
  }

  /** `BottomSheetState` */
  class BottomSheetState<P> {
    var pin: Option<P>
    var expanded: bool
    var showReviewForm: bool

    function State(): Sheet<P>
      reads this
    {
      Sheet(pin, expanded, showReviewForm)
    }

    constructor ()
      ensures State() == Closed()
    {
      pin := None;
      expanded := false;
      showReviewForm := false;
    }

    method Open(p: P, options: OpenOptions)
      modifies this
      ensures State() == Opened(p, options)
    {
      pin := Some(p);
      expanded := options.expanded.GetOr(false);
      showReviewForm := options.showReviewForm.GetOr(false);
    }

    method Close()
      modifies this
      ensures State() == Closed()
    {
      pin := None;
      expanded := false;
      showReviewForm := false;
    }

    method Expand()
      modifies this
      ensures State() == Expanded(old(State()))
    {
      expanded := true;
    }

    method Collapse()
      modifies this
      ensures State() == Collapsed(old(State()))
    {
      expanded := false;
      showReviewForm := false;
    }

    method ToggleExpanded()
      modifies this
      ensures State() == ToggledExpansion(old(State()))
    {
      expanded := !expanded;
    }
  }
}
