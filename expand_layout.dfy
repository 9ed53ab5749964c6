/**
  A model of the expand/collapse bookkeeping of the `ExpandLayout` widget
  (package com.liuzq.uikit).

  The host view tree is abstracted to an ordered sequence of child records:
  each child is a content item or the footer ("bottom view"), with a
  visibility flag and the click handler attached to it. The footer itself
  is a record of the label text and styling that `build` put on it.
 */
module Uikit {

  datatype Option<T> = None | Some(value: T) {
    function GetOr(default: T): T {
      match this
      case Some(v) => v
      case None => default
    }
  }

  /** LinearLayout.HORIZONTAL and LinearLayout.VERTICAL. */
  const HORIZONTAL: int := 0
  const VERTICAL: int := 1

  /** Number of items shown while collapsed when the attribute is absent. */
  const DEFAULT_ITEM_COUNT: nat := 2

  /** Color.parseColor("#666666"): opaque alpha, so negative as a Java int. */
  const DEFAULT_COLOR: int := 0xFF66_6666 - 0x1_0000_0000

  /** The exceptions the widget lets escape, both IllegalArgumentException in Java. */
  datatype Error =
    | HorizontalOrientation   // setOrientation(HORIZONTAL)
    | NullChildView           // addView(bottomView) while no footer was ever built

  datatype Outcome = Pass | Fail(error: Error)

  /** The click listener a child carries. */
  datatype Handler =
    | NoHandler
    | ToggleOnClick               // the layout itself, registered on the footer by build
    | ReportPosition(position: int) // an item-click listener with its captured index

  datatype Node = Item(id: int) | Bottom

  datatype Child = Child(node: Node, visible: bool, handler: Handler)

  /** The footer as it enters the child list: visible, toggling on click. */
  const FooterChild: Child := Child(Bottom, true, ToggleOnClick)

  /** The argument of build: a View, a layout resource id, or anything else (the default layout). */
  datatype FooterSource = CustomView | CustomLayout(layoutId: int) | DefaultLayout

  /** What build leaves on the footer's label (tvTip) and arrow (ivArrow). */
  datatype Footer = Footer(source: FooterSource, tip: string, tipSize: real, tipColor: int, arrowImage: int)

  /** The styled attributes read at construction; None marks an absent attribute. */
  datatype Attrs = Attrs(
    defaultItemCount: Option<nat>,
    expandText: string,
    hideText: string,
    tipTextSize: Option<real>,
    tipTextColor: Option<int>,
    arrowDownImg: Option<int>,
    useDefaultBottom: Option<bool>)

  /** A requested arrow rotation animation, in degrees. */
  datatype Rotation = Rotation(from: int, to: int)

  /** The part of the layout's state that a toggle changes. */
  datatype Snapshot = Snapshot(isExpand: bool, tip: string, children: seq<Child>)

  // ---------------------------------------------------------------------
  // Specification functions
  // ---------------------------------------------------------------------

  /** One past the last index the loops visit: the footer, when added, is left out. */
  function EndIndex(count: nat, addedBottom: bool): (e: int)
    ensures !addedBottom ==> e == count
    ensures addedBottom && 0 < count ==> 0 <= e && e + 1 == count
  {
    if addedBottom then count - 1 else count
  }

  /** The label text chosen by build for the current state. */
  function TipText(isExpand: bool, expandText: string, hideText: string): (t: string)
    ensures t == expandText || t == hideText
    ensures expandText != hideText ==> (t == hideText <==> isExpand)
  {
    if !isExpand then expandText else hideText
  }

  /** Where the arrow rests: pointing down (0) while collapsed, up (180) while expanded. */
  function RestingAngle(isExpand: bool): (a: int) {
    if isExpand then 180 else 0
  }

  /** The rotation doArrowAnim requests, chosen from the state before the toggle flips it. */
  function ArrowAnim(isExpand: bool): (r: Rotation)
    ensures r.from % 360 == RestingAngle(isExpand)
    ensures r.to % 360 == RestingAngle(!isExpand)
    ensures r.to - r.from == 180
  {
    if isExpand then Rotation(-180, 0) else Rotation(0, 180)
  }

  predicate TailShows(cs: seq<Child>, lo: int, hi: int, v: bool) {
    forall i :: 0 <= i < |cs| && lo <= i < hi ==> cs[i].visible == v
  }

  /** The children after setting the visibility of every index in [lo, hi) to v. */
  function WithVisibility(cs: seq<Child>, lo: int, hi: int, v: bool): (r: seq<Child>)
    ensures |r| == |cs|
    ensures TailShows(r, lo, hi, v)
    ensures forall i :: 0 <= i < |cs| ==> r[i].node == cs[i].node && r[i].handler == cs[i].handler
    ensures forall i :: 0 <= i < |cs| && !(lo <= i < hi) ==> r[i] == cs[i]
  {
    if cs == [] then []
    else
      var n := |cs| - 1;
      WithVisibility(cs[..n], lo, hi, v) + [if lo <= n < hi then cs[n].(visible := v) else cs[n]]
  }

  /** The children after attaching a position-reporting listener to every index in [0, end). */
  function WithClickPositions(cs: seq<Child>, end: int): (r: seq<Child>)
    ensures |r| == |cs|
    ensures forall i :: 0 <= i < |cs| && i < end ==> r[i].handler == ReportPosition(i)
    ensures forall i :: 0 <= i < |cs| ==> r[i].node == cs[i].node && r[i].visible == cs[i].visible
    ensures forall i :: 0 <= i < |cs| && end <= i ==> r[i] == cs[i]
  {
    if cs == [] then []
    else
      var n := |cs| - 1;
      WithClickPositions(cs[..n], end) + [if n < end then cs[n].(handler := ReportPosition(n)) else cs[n]]
  }

  /** The children after addItem(view) with threshold k. */
  function WithItem(cs: seq<Child>, k: nat, view: Child): (r: seq<Child>)
    ensures |r| == |cs| + 1 && r[..|cs|] == cs
    ensures r[|cs|].node == view.node && r[|cs|].handler == view.handler
    ensures r[|cs|].visible == (view.visible && |r| <= k)
  {
    cs + [if |cs| + 1 > k then view.(visible := false) else view]
  }

  /** The children of a fresh layout after adding views one by one. */
  function AddItems(k: nat, views: seq<Child>): (cs: seq<Child>)
    ensures |cs| == |views|
    ensures forall i :: 0 <= i < |views| && i < k ==> cs[i] == views[i]
    ensures forall i :: 0 <= i < |views| && k <= i ==> cs[i] == views[i].(visible := false)
  {
    if views == [] then []
    else
      var n := |views| - 1;
      WithItem(AddItems(k, views[..n]), k, views[n])
  }

  /** The children after justToAddBottom with a built footer, as the source has it. */
  function BottomAdded(cs: seq<Child>, k: nat): (r: seq<Child>)
    ensures |cs| <= k ==> r == cs
    ensures k < |cs| ==> |r| == |cs| + 1 && r[..|cs|] == cs && r[|cs|] == FooterChild
  {
    if |cs| <= k then cs else cs + [FooterChild]
  }

  /** The state after toggle: the tail gets the new state's visibility, the label the new state's text. */
  function Toggled(s: Snapshot, k: nat, addedBottom: bool, expandText: string, hideText: string): (r: Snapshot)
    ensures r.isExpand == !s.isExpand
    ensures r.tip == TipText(r.isExpand, expandText, hideText)
    ensures |r.children| == |s.children|
    ensures forall i :: 0 <= i < |s.children| ==>
              r.children[i].node == s.children[i].node && r.children[i].handler == s.children[i].handler
    ensures TailShows(r.children, k, EndIndex(|s.children|, addedBottom), r.isExpand)
    ensures forall i :: 0 <= i < |s.children| && !(k <= i < EndIndex(|s.children|, addedBottom)) ==>
              r.children[i] == s.children[i]
  {
    var end := EndIndex(|s.children|, addedBottom);
    if s.isExpand then Snapshot(false, expandText, WithVisibility(s.children, k, end, false))
    else Snapshot(true, hideText, WithVisibility(s.children, k, end, true))
  }

  // ---------------------------------------------------------------------
  // Properties
  // ---------------------------------------------------------------------

  /** Setting the same range twice: the second setting wins. */
  lemma WithVisibilityTwice(cs: seq<Child>, lo: int, hi: int, v: bool, w: bool)
    ensures WithVisibility(WithVisibility(cs, lo, hi, v), lo, hi, w) == WithVisibility(cs, lo, hi, w)
  {
    var a := WithVisibility(WithVisibility(cs, lo, hi, v), lo, hi, w);
    var b := WithVisibility(cs, lo, hi, w);
    forall i | 0 <= i < |cs| ensures a[i] == b[i] {
      if lo <= i < hi {
        assert a[i].visible == w == b[i].visible;
      }
    }
  }

  /** Setting a range to the visibility it already has changes nothing. */
  lemma WithVisibilityUnchanged(cs: seq<Child>, lo: int, hi: int, v: bool)
    requires TailShows(cs, lo, hi, v)
    ensures WithVisibility(cs, lo, hi, v) == cs
  {
    var a := WithVisibility(cs, lo, hi, v);
    forall i | 0 <= i < |cs| ensures a[i] == cs[i] {
      if lo <= i < hi {
        assert a[i].visible == v == cs[i].visible;
      }
    }
  }

  /** Two toggles restore the state and the label, and leave the tail with the state's visibility. */
  lemma ToggleTwice(s: Snapshot, k: nat, addedBottom: bool, expandText: string, hideText: string)
    ensures var t := Toggled(Toggled(s, k, addedBottom, expandText, hideText), k, addedBottom, expandText, hideText);
      && t.isExpand == s.isExpand
      && t.tip == TipText(s.isExpand, expandText, hideText)
      && t.children == WithVisibility(s.children, k, EndIndex(|s.children|, addedBottom), s.isExpand)
  {
    WithVisibilityTwice(s.children, k, EndIndex(|s.children|, addedBottom), !s.isExpand, s.isExpand);
  }

  /** When the tail and label already match the state, two toggles are the identity. */
  lemma ToggleTwiceRestores(s: Snapshot, k: nat, addedBottom: bool, expandText: string, hideText: string)
    requires TailShows(s.children, k, EndIndex(|s.children|, addedBottom), s.isExpand)
    requires s.tip == TipText(s.isExpand, expandText, hideText)
    ensures Toggled(Toggled(s, k, addedBottom, expandText, hideText), k, addedBottom, expandText, hideText) == s
  {
    ToggleTwice(s, k, addedBottom, expandText, hideText);
    WithVisibilityUnchanged(s.children, k, EndIndex(|s.children|, addedBottom), s.isExpand);
  }

  /** After a batch of addItem calls and justToAddBottom on a fresh layout: the head keeps
      its own visibility, every tail item is hidden, and the footer, if added, is last. */
  lemma BatchShape(k: nat, views: seq<Child>)
    ensures var cs := BottomAdded(AddItems(k, views), k);
      && TailShows(cs, k, EndIndex(|cs|, k < |views|), false)
      && (forall i :: 0 <= i < |views| && i < k ==> cs[i] == views[i])
      && (k < |views| ==> |cs| == |views| + 1 && cs[|views|] == FooterChild)
      && (|views| <= k ==> cs == views)
  {
    var items := AddItems(k, views);
    if |views| <= k {
      assert items == views;
    }
  }

  /** Two toggles after such a batch give back exactly the children the batch produced. */
  lemma ToggleTwiceAfterBatch(k: nat, views: seq<Child>, expandText: string, hideText: string)
    ensures var cs := BottomAdded(AddItems(k, views), k);
      var s := Snapshot(false, expandText, cs);
      Toggled(Toggled(s, k, k < |views|, expandText, hideText), k, k < |views|, expandText, hideText) == s
  {
    BatchShape(k, views);
    var cs := BottomAdded(AddItems(k, views), k);
    ToggleTwiceRestores(Snapshot(false, expandText, cs), k, k < |views|, expandText, hideText);
  }

  /** After such a batch, setOnItemClickListener makes every item report its own index and
      leaves the footer toggling. */
  lemma ItemClicksAfterBatch(k: nat, views: seq<Child>)
    ensures var cs := BottomAdded(AddItems(k, views), k);
      var r := WithClickPositions(cs, EndIndex(|cs|, k < |views|));
      && (forall i :: 0 <= i < |views| ==> r[i].handler == ReportPosition(i))
      && (k < |views| ==> r[|views|] == FooterChild)
  {
    BatchShape(k, views);
  }

  // ---------------------------------------------------------------------
  // justToAddBottom called twice
  // ---------------------------------------------------------------------

  /** As written: a second call re-counts the footer and appends it once more. */
  lemma BottomAddedTwice(cs: seq<Child>, k: nat)
    requires k < |cs|
    ensures BottomAdded(BottomAdded(cs, k), k) == cs + [FooterChild, FooterChild]
  {
    assert cs + [FooterChild] + [FooterChild] == cs + [FooterChild, FooterChild];
  }

  predicate HasBottom(cs: seq<Child>) {
    exists i :: 0 <= i < |cs| && cs[i].node.Bottom?
  }

  /** Number of children that are not the footer. */
  function ItemCount(cs: seq<Child>): (n: nat)
    ensures n <= |cs|
  {
    if cs == [] then 0
    else ItemCount(cs[..|cs| - 1]) + (if cs[|cs| - 1].node.Bottom? then 0 else 1)
  }

  lemma {:induction false} ItemCountWithoutBottom(cs: seq<Child>)
    requires !HasBottom(cs)
    ensures ItemCount(cs) == |cs|
  {
    if cs != [] {
      var p := cs[..|cs| - 1];
      forall i | 0 <= i < |p| ensures !p[i].node.Bottom? {
        assert p[i] == cs[i];
      }
      ItemCountWithoutBottom(p);
    }
  }

  /** Corrected placement: counts items only and never appends a second footer. */
  function BottomPlaced(cs: seq<Child>, k: nat): (r: seq<Child>)
    ensures HasBottom(r) <==> HasBottom(cs) || k < ItemCount(cs)
    ensures |cs| <= |r| <= |cs| + 1 && r[..|cs|] == cs
    ensures HasBottom(cs) ==> r == cs
    ensures |r| == |cs| + 1 ==> r == cs + [FooterChild]
  {
    if HasBottom(cs) then cs
    else if k < ItemCount(cs) then
      assert (cs + [FooterChild])[|cs|] == FooterChild;
      cs + [FooterChild]
    else cs
  }

  lemma BottomPlacedIdempotent(cs: seq<Child>, k: nat)
    ensures BottomPlaced(BottomPlaced(cs, k), k) == BottomPlaced(cs, k)
  {
  }

  /** On a list without a footer the corrected placement agrees with the source's. */
  lemma BottomPlacedFirstCall(cs: seq<Child>, k: nat)
    requires !HasBottom(cs)
    ensures BottomPlaced(cs, k) == BottomAdded(cs, k)
  {
    ItemCountWithoutBottom(cs);
  }

  // ---------------------------------------------------------------------
  // The widget
  // ---------------------------------------------------------------------

  class ExpandLayout {
    var isExpand: bool
    const defaultItemCount: nat
    var expandText: string
    var hideText: string
    var useDefaultBottom: bool
    var fontSize: real
    var textColor: int
    var arrowResId: int
    /** bottomView with its tvTip and ivArrow; None until build runs. */
    var footer: Option<Footer>
    var addedBottom: bool
    var orientation: int
    /** The child list of the underlying LinearLayout. */
    var children: seq<Child>
    /** Whether an OnStateChangeListener is registered (single slot). */
    var hasStateListener: bool

    /** Once justToAddBottom has set addedBottom, the list is non-empty, so the last child
        that expand, hide and setOnItemClickListener leave alone exists. */
    ghost predicate Valid()
      reads this
    {
      addedBottom ==> defaultItemCount < |children|
    }

    /** The part of the state a toggle changes. */
    function State(): (s: Snapshot)
      reads this
      requires footer.Some?
    {
      Snapshot(isExpand, footer.value.tip, children)
    }

    /** The three-argument constructor with initAttr; the device-scaled default text size
        (sp2px of 14sp) and the default arrow drawable id are passed in. */
    constructor (attrs: Attrs, defaultFontSize: real, defaultArrowResId: int)
      ensures Valid()
      ensures !isExpand && !addedBottom && children == [] && footer == None && !hasStateListener
      ensures defaultItemCount == attrs.defaultItemCount.GetOr(DEFAULT_ITEM_COUNT)
      ensures expandText == attrs.expandText && hideText == attrs.hideText
      ensures fontSize == attrs.tipTextSize.GetOr(defaultFontSize)
      ensures textColor == attrs.tipTextColor.GetOr(DEFAULT_COLOR)
      ensures arrowResId == attrs.arrowDownImg.GetOr(defaultArrowResId)
      ensures useDefaultBottom == attrs.useDefaultBottom.GetOr(true)
      ensures orientation == VERTICAL
    {
      isExpand := false;
      addedBottom := false;
      children := [];
      footer := None;
      hasStateListener := false;
      defaultItemCount := attrs.defaultItemCount.GetOr(DEFAULT_ITEM_COUNT);
      expandText := attrs.expandText;
      hideText := attrs.hideText;
      fontSize := attrs.tipTextSize.GetOr(defaultFontSize);
      textColor := attrs.tipTextColor.GetOr(DEFAULT_COLOR);
      arrowResId := attrs.arrowDownImg.GetOr(defaultArrowResId);
      useDefaultBottom := attrs.useDefaultBottom.GetOr(true);
      orientation := HORIZONTAL;
      new;
      var _ := SetOrientation(VERTICAL);
    }

    method SetExpandText(text: string) returns (self: ExpandLayout)
      modifies this`expandText
      ensures self == this && expandText == text
    {
      expandText := text;
      self := this;
    }

    method SetHintText(text: string) returns (self: ExpandLayout)
      modifies this`hideText
      ensures self == this && hideText == text
    {
      hideText := text;
      self := this;
    }

    method SetFontSize(size: real) returns (self: ExpandLayout)
      modifies this`fontSize
      ensures self == this && fontSize == size
    {
      fontSize := size;
      self := this;
    }

    method SetTextColor(color: int) returns (self: ExpandLayout)
      modifies this`textColor
      ensures self == this && textColor == color
    {
      textColor := color;
      self := this;
    }

    method SetArrowResId(resId: int) returns (self: ExpandLayout)
      modifies this`arrowResId
      ensures self == this && arrowResId == resId
    {
      arrowResId := resId;
      self := this;
    }

    method SetUseDefaultBottom(use: bool)
      modifies this`useDefaultBottom
      ensures useDefaultBottom == use
    {
      useDefaultBottom := use;
    }

    /** onFinishInflate: builds the default footer unless told not to. */
    method FinishInflate()
      modifies this`footer
      ensures footer == if useDefaultBottom then Some(Footer(DefaultLayout, TipText(isExpand, expandText, hideText), fontSize, textColor, arrowResId))
                        else old(footer)
    {
      if useDefaultBottom {
        Build(DefaultLayout);
      }
    }

    /** build: replaces the footer; its label shows the text for the current state. */
    method Build(source: FooterSource)
      modifies this`footer
      ensures footer == Some(Footer(source, TipText(isExpand, expandText, hideText), fontSize, textColor, arrowResId))
      ensures footer.value.tip == if isExpand then hideText else expandText
    {
      var tip := if !isExpand then expandText else hideText;
      footer := Some(Footer(source, tip, fontSize, textColor, arrowResId));
    }

    /** addItem: appends the view and hides it when the list now exceeds the threshold. */
    method AddItem(view: Child)
      requires Valid()
      modifies this`children
      ensures Valid()
      ensures |children| == |old(children)| + 1
      ensures children[..|old(children)|] == old(children)
      ensures children[|old(children)|] == if |children| > defaultItemCount then view.(visible := false) else view
      ensures children == WithItem(old(children), defaultItemCount, view)
    {
      children := children + [view];
      var childCount := |children|;
      if childCount > defaultItemCount {
        RefreshUI(childCount - 1);
      }
    }

    /** refreshUI: hides the child at index i. */
    method RefreshUI(i: nat)
      requires i < |children|
      modifies this`children
      ensures children == old(children)[i := old(children)[i].(visible := false)]
    {
      children := children[i := children[i].(visible := false)];
    }

    /** justToAddBottom, as written: it counts every child, the footer included, and so
        appends the footer again when called a second time. */
    method JustToAddBottom() returns (r: Outcome)
      requires Valid()
      modifies this`addedBottom, this`children
      ensures Valid()
      ensures addedBottom == (defaultItemCount < |old(children)|)
      ensures r == if addedBottom && footer.None? then Fail(NullChildView) else Pass
      ensures children == if footer.Some? then BottomAdded(old(children), defaultItemCount) else old(children)
    {
      var childCount := |children|;
      if childCount <= defaultItemCount {
        addedBottom := false;
        r := Pass;
      } else {
        addedBottom := true;
        if footer.None? {
          r := Fail(NullChildView);
        } else {
          children := children + [FooterChild];
          r := Pass;
        }
      }
    }

    /** setOrientation: horizontal is refused, anything else is stored. */
    method SetOrientation(o: int) returns (r: Outcome)
      modifies this`orientation
      ensures r == if o == HORIZONTAL then Fail(HorizontalOrientation) else Pass
      ensures orientation == if o == HORIZONTAL then old(orientation) else o
    {
      if o == HORIZONTAL {
        return Fail(HorizontalOrientation);
      }
      orientation := o;
      r := Pass;
    }

    /** expand: shows every child in [defaultItemCount, endIndex). */
    method Expand()
      requires Valid()
      modifies this`children
      ensures Valid()
      ensures children == WithVisibility(old(children), defaultItemCount, EndIndex(|old(children)|, addedBottom), true)
      ensures addedBottom ==> children[|children| - 1] == old(children)[|children| - 1]
    {
      var endIndex := EndIndex(|children|, addedBottom);
      var i := defaultItemCount;
      while i < endIndex
        invariant defaultItemCount <= i && (i == defaultItemCount || i <= endIndex)
        invariant |children| == |old(children)|
        invariant forall j :: 0 <= j < |children| ==>
          children[j] == if defaultItemCount <= j < i then old(children)[j].(visible := true) else old(children)[j]
      {
        children := children[i := children[i].(visible := true)];
        i := i + 1;
      }
      ghost var w := WithVisibility(old(children), defaultItemCount, endIndex, true);
      assert forall j :: 0 <= j < |children| ==> children[j] == w[j];
    }

    /** hide: hides every child in [defaultItemCount, endIndex). */
    method Hide()
      requires Valid()
      modifies this`children
      ensures Valid()
      ensures children == WithVisibility(old(children), defaultItemCount, EndIndex(|old(children)|, addedBottom), false)
      ensures addedBottom ==> children[|children| - 1] == old(children)[|children| - 1]
    {
      var endIndex := EndIndex(|children|, addedBottom);
      var i := defaultItemCount;
      while i < endIndex
        invariant defaultItemCount <= i && (i == defaultItemCount || i <= endIndex)
        invariant |children| == |old(children)|
        invariant forall j :: 0 <= j < |children| ==>
          children[j] == if defaultItemCount <= j < i then old(children)[j].(visible := false) else old(children)[j]
      {
        children := children[i := children[i].(visible := false)];
        i := i + 1;
      }
      ghost var w := WithVisibility(old(children), defaultItemCount, endIndex, false);
      assert forall j :: 0 <= j < |children| ==> children[j] == w[j];
    }

    /** toggle, called by onClick: hides or shows the tail, sets the label, requests the
        arrow animation for the old state, flips the state and reports the new one. */
    method Toggle() returns (reported: Option<bool>, rotation: Rotation)
      requires Valid() && footer.Some?
      modifies this`isExpand, this`children, this`footer
      ensures Valid() && footer.Some?
      ensures State() == Toggled(old(State()), defaultItemCount, addedBottom, expandText, hideText)
      ensures footer.value == old(footer.value).(tip := footer.value.tip)
      ensures footer.value.tip == if isExpand then hideText else expandText
      ensures rotation == ArrowAnim(old(isExpand))
      ensures reported == if hasStateListener then Some(isExpand) else None
    {
      if isExpand {
        Hide();
        footer := Some(footer.value.(tip := expandText));
      } else {
        Expand();
        footer := Some(footer.value.(tip := hideText));
      }
      rotation := ArrowAnim(isExpand);
      isExpand := !isExpand;
      reported := if hasStateListener then Some(isExpand) else None;
    }

    method SetOnStateChangeListener(present: bool)
      modifies this`hasStateListener
      ensures hasStateListener == present
    {
      hasStateListener := present;
    }

    /** setOnItemClickListener: every child in [0, endIndex) reports its own index. */
    method SetOnItemClickListener()
      requires Valid()
      modifies this`children
      ensures Valid()
      ensures children == WithClickPositions(old(children), EndIndex(|old(children)|, addedBottom))
      ensures addedBottom ==> children[|children| - 1] == old(children)[|children| - 1]
    {
      var endIndex := EndIndex(|children|, addedBottom);
      var i := 0;
      while i < endIndex
        invariant 0 <= i && (i == 0 || i <= endIndex)
        invariant |children| == |old(children)|
        invariant forall j :: 0 <= j < |children| ==>
          children[j] == if j < i then old(children)[j].(handler := ReportPosition(j)) else old(children)[j]
      {
        children := children[i := children[i].(handler := ReportPosition(i))];
        i := i + 1;
      }
      ghost var w := WithClickPositions(old(children), endIndex);
      assert forall j :: 0 <= j < |children| ==> children[j] == w[j];
    }
  }

  /** Exercises the contracts: four items with the default threshold and the footer. */
  method ScenarioBatch() returns (layout: ExpandLayout)
    ensures layout.Valid() && layout.footer.Some? && !layout.isExpand && layout.addedBottom
    ensures layout.defaultItemCount == 2 && |layout.children| == 5
    ensures layout.expandText == "Show more" && layout.hideText == "Show less"
    ensures !layout.hasStateListener && layout.orientation == VERTICAL && fresh(layout)
    ensures layout.children[0].visible && layout.children[1].visible
    ensures !layout.children[2].visible && !layout.children[3].visible
    ensures layout.children[4] == FooterChild
  {
    layout := new ExpandLayout(Attrs(None, "Show more", "Show less", None, None, None, None), 42.0, 7);
    layout.FinishInflate();
    layout.AddItem(Child(Item(1), true, NoHandler));
    layout.AddItem(Child(Item(2), true, NoHandler));
    layout.AddItem(Child(Item(3), true, NoHandler));
    assert layout.children[2].visible == false;
    layout.AddItem(Child(Item(4), true, NoHandler));
    var placed := layout.JustToAddBottom();
    assert placed == Pass;
    assert layout.children[0].visible && layout.children[1].visible;
    assert !layout.children[2].visible && !layout.children[3].visible;
    assert layout.children[4] == FooterChild;
  }

  /** Exercises two toggles on the layout built above, then a refused orientation change. */
  method ScenarioToggle() {
    var layout := ScenarioBatch();
    var reported, rotation := layout.Toggle();
    assert reported == None && rotation == Rotation(0, 180);
    assert layout.isExpand && layout.footer.value.tip == "Show less";
    assert layout.children[2].visible && layout.children[3].visible;

    layout.SetOnStateChangeListener(true);
    reported, rotation := layout.Toggle();
    assert reported == Some(false) && rotation == Rotation(-180, 0);
    assert !layout.isExpand && layout.footer.value.tip == "Show more";
    assert !layout.children[2].visible && !layout.children[3].visible;

    var refused := layout.SetOrientation(HORIZONTAL);
    assert refused == Fail(HorizontalOrientation) && layout.orientation == VERTICAL;
  }
}
