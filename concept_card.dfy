/**
 * The disclosure toggle of one concept card. The card is open as its parent
 * says when the `open` prop is a boolean, and as its local `showInfo` state
 * says otherwise; a click calls the parent's `onToggle` when there is one and
 * flips the local state when there is none.
 */
module ConceptCard {
  import opened Wrappers
  import opened Records

  /** `typeof open === 'boolean' ? open : showInfo` */
  function IsOpen(open: Option<bool>, showInfo: bool): bool
  {
    match open
    case Some(b) => b
    case None => showInfo
  }

  /** The local state after a click: unchanged when `onToggle` is given, flipped otherwise. */
  function Toggled(hasOnToggle: bool, showInfo: bool): bool
  {
    if hasOnToggle then showInfo else !showInfo
  }

  /** The accessibility attributes of the button and of the panel. */
  datatype Aria = Aria(expanded: bool, hidden: bool)

  /** `aria-expanded={isOpen}` on the button and `aria-hidden={!isOpen}` on the panel. */
  function AriaOf(isOpen: bool): (a: Aria)
    ensures a.expanded != a.hidden
    ensures a.expanded <==> isOpen
  {
    Aria(isOpen, !isOpen)
  }

  /** Two clicks leave the local state as it was, with or without `onToggle`. */
  lemma ToggleTwice(hasOnToggle: bool, showInfo: bool)
    ensures Toggled(hasOnToggle, Toggled(hasOnToggle, showInfo)) == showInfo
  {
  }

  /** A boolean `open` prop alone decides whether the card is open. */
  lemma ControlledIgnoresLocal(open: bool, showInfo: bool)
    ensures IsOpen(Some(open), showInfo) == open
  {
  }

  /** An uncontrolled card without `onToggle` opens and closes on each click. */
  lemma UncontrolledClickFlips(showInfo: bool)
    ensures IsOpen(None, Toggled(false, showInfo)) == !IsOpen(None, showInfo)
  {
  }

  /**
   * On an uncontrolled card without `onToggle`, a click flips both
   * attributes: the button's `aria-expanded` and the panel's `aria-hidden`.
   */
  lemma ClickFlipsAria(showInfo: bool)
    ensures AriaOf(IsOpen(None, Toggled(false, showInfo))).expanded == !AriaOf(IsOpen(None, showInfo)).expanded
    ensures AriaOf(IsOpen(None, Toggled(false, showInfo))).hidden == !AriaOf(IsOpen(None, showInfo)).hidden
  {
  }

  /**
   * On a controlled card a click never changes the attributes: they follow
   * the `open` prop, whatever the click does to the local state.
   */
  lemma ControlledAriaFixed(open: bool, hasOnToggle: bool, showInfo: bool)
    ensures AriaOf(IsOpen(Some(open), Toggled(hasOnToggle, showInfo))) == AriaOf(IsOpen(Some(open), showInfo))
    ensures AriaOf(IsOpen(Some(open), showInfo)) == Aria(open, !open)
  {
  }

  class Card {
    const concept: Concept
    /** The `open` prop: `None` when it is not a boolean. */
    const open: Option<bool>
    /** Whether an `onToggle` prop is given. */
    const hasOnToggle: bool
    var showInfo: bool

    /** A new card: local state collapsed, so an uncontrolled card starts closed. */
    constructor (c: Concept, open: Option<bool>, hasOnToggle: bool)
      ensures concept == c && this.open == open && this.hasOnToggle == hasOnToggle
      ensures !showInfo
      ensures open.None? ==> !Opened()
    {
      concept := c;
      this.open := open;
      this.hasOnToggle := hasOnToggle;
      showInfo := false;
    }

    /** `isOpen` */
    function Opened(): bool
      reads this
    {
      IsOpen(open, showInfo)
    }

    /** The card's accessibility attributes follow `isOpen`. */
    function Attributes(): (a: Aria)
      reads this
      ensures a.expanded == Opened() && a.hidden == !Opened()
    {
      AriaOf(Opened())
    }

    /**
     * `handleToggle`: reports whether the parent's `onToggle` was called;
     * the local state is flipped only when it was not.
     */
    method Click() returns (calledOnToggle: bool)
      modifies this
      ensures calledOnToggle == hasOnToggle
      ensures showInfo == Toggled(hasOnToggle, old(showInfo))
      ensures hasOnToggle ==> showInfo == old(showInfo)
      ensures !hasOnToggle ==> showInfo == !old(showInfo)
      ensures open.Some? ==> Attributes() == old(Attributes())
      ensures open.None? && !hasOnToggle ==> Attributes() == AriaOf(!old(Opened()))
      ensures hasOnToggle ==> Attributes() == old(Attributes())
    {
      calledOnToggle := hasOnToggle;
      if !hasOnToggle {
        showInfo := !showInfo;
      }
    }
  }

  /**
   * A fresh uncontrolled card without `onToggle`, clicked twice: open after
   * the first click, closed again after the second.
   */
  method ClickTwice(c: Concept) returns (afterOne: bool, afterTwo: bool)
    ensures afterOne && !afterTwo
  {
    var card := new Card(c, None, false);
    var _ := card.Click();
    afterOne := card.Opened();
    var _ := card.Click();
    afterTwo := card.Opened();
  }
}
