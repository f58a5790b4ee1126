/**
 * The `:hover` style overlay of the HTML renderer (`HoverBoxBlock`).
 *
 * A hover block is bound to one box of the box tree and to the declaration
 * block of a `:hover` rule.  Switching it on finds the anonymous text boxes
 * of the bound subtree, remembers their current values of the block's
 * properties and then assigns the block; switching it off assigns the
 * remembered values again.
 */
module Hover {
  import opened Wrappers

  /** The element data of a box; anonymous (text) boxes have none. */
  datatype HtmlTag = HtmlTag(name: string)

  /**
   * A box of the box tree.  Only what the overlay uses is modelled: the tag,
   * the child boxes (fixed while a hover block is in use) and the box's own
   * property values, which the overlay reads and assigns.
   */
  class CssBox {
    const htmlTag: Option<HtmlTag>
    const boxes: seq<CssBox>
    /** Height of the subtree; every child is strictly lower, so walks terminate. */
    ghost const level: nat
    var style: map<string, string>

    ghost predicate WellFormed()
      decreases level
    {
      forall c :: c in boxes ==> c.level < level && c.WellFormed()
    }

    constructor (htmlTag: Option<HtmlTag>, boxes: seq<CssBox>, style: map<string, string>)
      requires forall c :: c in boxes ==> c.WellFormed()
      ensures WellFormed()
      ensures this.htmlTag == htmlTag && this.boxes == boxes && this.style == style
    {
      this.htmlTag := htmlTag;
      this.boxes := boxes;
      this.style := style;
      this.level := 1 + MaxLevel(boxes);
    }

    /** `CssUtils.GetPropertyValue(box, name)`: the box's value of a property; "" when it has none. */
    function PropertyValue(name: string): string
      reads this
    {
      Value(style, name)
    }
  }

  /** The value of property `name` in a property store; "" when it is not set. */
  function Value(style: map<string, string>, name: string): string {
    if name in style then style[name] else ""
  }

  ghost function MaxLevel(bs: seq<CssBox>): (m: nat)
    ensures forall c :: c in bs ==> c.level <= m
  {
    if bs == [] then 0
    else
      var m := MaxLevel(bs[..|bs| - 1]);
      assert forall c :: c in bs ==> c in bs[..|bs| - 1] || c == bs[|bs| - 1];
      if bs[|bs| - 1].level > m then bs[|bs| - 1].level else m
  }

  /** Every box of the subtree of `b`, in pre-order (the box, then each child's subtree in order). */
  ghost function PreOrder(b: CssBox): seq<CssBox>
    requires b.WellFormed()
    decreases b.level + 1, 0
  {
    [b] + PreOrderAll(b.boxes, b.level)
  }

  /** The pre-order walks of the boxes `bs`, one after the other. */
  ghost function PreOrderAll(bs: seq<CssBox>, bound: nat): seq<CssBox>
    requires forall c :: c in bs ==> c.level < bound && c.WellFormed()
    decreases bound, |bs|
  {
    if bs == [] then []
    else PreOrderAll(bs[..|bs| - 1], bound) + PreOrder(bs[|bs| - 1])
  }

  /** The boxes of `s` that carry no tag, in the order of `s`. */
  ghost function Untagged(s: seq<CssBox>): seq<CssBox> {
    if s == [] then []
    else Untagged(s[..|s| - 1]) + (if s[|s| - 1].htmlTag.None? then [s[|s| - 1]] else [])
  }

  /**
   * What `FindTextElements(b, list)` appends to `list`: `b` itself when it
   * has no tag, then the text boxes found under each child, tagged or not.
   */
  ghost function TextElements(b: CssBox): seq<CssBox>
    requires b.WellFormed()
    decreases b.level + 1, 0
  {
    (if b.htmlTag.None? then [b] else []) + TextElementsAll(b.boxes, b.level)
  }

  ghost function TextElementsAll(bs: seq<CssBox>, bound: nat): seq<CssBox>
    requires forall c :: c in bs ==> c.level < bound && c.WellFormed()
    decreases bound, |bs|
  {
    if bs == [] then []
    else TextElementsAll(bs[..|bs| - 1], bound) + TextElements(bs[|bs| - 1])
  }

  /** The boxes of the subtree of `b`, the bound box included. */
  ghost function Subtree(b: CssBox): set<CssBox>
    requires b.WellFormed()
  {
    set x | x in PreOrder(b)
  }

  /** The boxes an activation of a hover block bound to `b` styles. */
  ghost function TextSet(b: CssBox): set<CssBox>
    requires b.WellFormed()
  {
    set x | x in TextElements(b)
  }

  lemma {:induction false} UntaggedAppend(s: seq<CssBox>, t: seq<CssBox>)
    ensures Untagged(s + t) == Untagged(s) + Untagged(t)
    decreases |t|
  {
    if t != [] {
      assert (s + t)[..|s + t| - 1] == s + t[..|t| - 1];
      UntaggedAppend(s, t[..|t| - 1]);
    } else {
      assert s + t == s;
    }
  }

  lemma {:induction false} UntaggedMembers(s: seq<CssBox>)
    ensures forall x :: x in Untagged(s) <==> x in s && x.htmlTag.None?
    decreases |s|
  {
    if s != [] {
      UntaggedMembers(s[..|s| - 1]);
      assert s == s[..|s| - 1] + [s[|s| - 1]];
    }
  }

  /** The collected list is exactly the untagged boxes of the pre-order walk, in that order. */
  lemma {:induction false} TextElementsArePreOrderUntagged(b: CssBox)
    requires b.WellFormed()
    ensures TextElements(b) == Untagged(PreOrder(b))
    decreases b.level + 1, 0
  {
    TextElementsAllArePreOrderUntagged(b.boxes, b.level);
    UntaggedAppend([b], PreOrderAll(b.boxes, b.level));
    assert Untagged([b]) == if b.htmlTag.None? then [b] else [] by {
      assert [b][..0] == [];
    }
  }

  lemma {:induction false} TextElementsAllArePreOrderUntagged(bs: seq<CssBox>, bound: nat)
    requires forall c :: c in bs ==> c.level < bound && c.WellFormed()
    ensures TextElementsAll(bs, bound) == Untagged(PreOrderAll(bs, bound))
    decreases bound, |bs|
  {
    if bs != [] {
      TextElementsAllArePreOrderUntagged(bs[..|bs| - 1], bound);
      TextElementsArePreOrderUntagged(bs[|bs| - 1]);
      UntaggedAppend(PreOrderAll(bs[..|bs| - 1], bound), PreOrder(bs[|bs| - 1]));
    }
  }

  /**
   * A box is collected exactly when it lies in the subtree and has no tag:
   * the bound box counts when it is untagged, and tagged boxes are searched
   * but never collected.
   */
  lemma TextSetIsUntaggedSubtree(b: CssBox)
    requires b.WellFormed()
    ensures forall x :: x in TextSet(b) <==> x in Subtree(b) && x.htmlTag.None?
  {
    TextElementsArePreOrderUntagged(b);
    UntaggedMembers(PreOrder(b));
  }

  /** `DomParser.AssignCssProps(box, props)`: each property of `props` is set on the box, the others are kept. */
  method AssignCssProps(box: CssBox, props: map<string, string>)
    modifies box
    ensures box.style == old(box.style) + props
    ensures forall p :: box.PropertyValue(p) == if p in props then props[p] else old(box.PropertyValue(p))
  {
    box.style := box.style + props;
  }

  /** The second loop of the activation: `props` is assigned to every box of `textElms`. */
  method AssignToAll(textElms: seq<CssBox>, props: map<string, string>)
    modifies set x | x in textElms
    ensures forall b :: b in textElms && old(allocated(b)) ==> b.style == old(b.style) + props
  {
    for i := 0 to |textElms|
      invariant forall b :: b in textElms[..i] && old(allocated(b)) ==> b.style == old(b.style) + props
      invariant forall b :: b in textElms && b !in textElms[..i] && old(allocated(b)) ==> b.style == old(b.style)
    {
      assert textElms[..i + 1] == textElms[..i] + [textElms[i]];
      AssignCssProps(textElms[i], props);
    }
    assert textElms[..|textElms|] == textElms;
  }

  /** The values `box` had for the properties of `block`, keyed by property name. */
  function Snapshot(box: CssBox, block: map<string, string>): (r: map<string, string>)
    reads box
    ensures r.Keys == block.Keys
    ensures forall p :: p in block ==> r[p] == box.PropertyValue(p)
  {
    map p | p in block :: box.PropertyValue(p)
  }

  class HoverBoxBlock {
    /** The box the `:hover` rule matched. */
    const cssBox: CssBox
    /** The declarations of the `:hover` rule. */
    const cssBlock: map<string, string>
    /** Whether the hover style is applied. */
    var isHovering: bool
    /** Each text box's values of the block's properties before the hover style was applied. */
    var originalBlocks: map<CssBox, map<string, string>>

    /**
     * The snapshot is either empty (never activated) or holds exactly the
     * text boxes of the subtree, each with exactly the block's properties;
     * while hovering it is never empty-but-stale.
     */
    ghost predicate Valid()
      reads this
    {
      && cssBox.WellFormed()
      && (originalBlocks.Keys == {} || originalBlocks.Keys == TextSet(cssBox))
      && (isHovering ==> originalBlocks.Keys == TextSet(cssBox))
      && (forall b :: b in originalBlocks ==> originalBlocks[b].Keys == cssBlock.Keys)
    }

    constructor (cssBox: CssBox, cssBlock: map<string, string>)
      requires cssBox.WellFormed()
      ensures Valid()
      ensures this.cssBox == cssBox && this.cssBlock == cssBlock
      ensures !isHovering && originalBlocks == map[]
    {
      this.cssBox := cssBox;
      this.cssBlock := cssBlock;
      isHovering := false;
      originalBlocks := map[];
    }

    /**
     * Appends to `textElms` the box `elm` when it has no tag, and then the
     * text boxes under each of its children.
     */
    method FindTextElements(elm: CssBox, textElms: seq<CssBox>) returns (r: seq<CssBox>)
      requires elm.WellFormed()
      ensures r == textElms + TextElements(elm)
      decreases elm.level + 1, 0
    {
      r := textElms;
      if elm.htmlTag.None? {
        r := r + [elm];
      }
      ghost var own := if elm.htmlTag.None? then [elm] else [];
      for i := 0 to |elm.boxes|
        invariant r == textElms + own + TextElementsAll(elm.boxes[..i], elm.level)
      {
        assert elm.boxes[..i + 1][..i] == elm.boxes[..i];
        r := FindTextElements(elm.boxes[i], r);
      }
      assert elm.boxes[..|elm.boxes|] == elm.boxes;
    }

    /**
     * Applies (`hovering`) or removes (`!hovering`) the hover style and
     * answers whether the state changed.
     */
    method SetIsHovering(hovering: bool) returns (changed: bool)
      requires Valid()
      modifies this, Subtree(cssBox)
      ensures Valid()
      ensures changed == (old(isHovering) != hovering)
      ensures isHovering == hovering
      // asking for the current state changes nothing
      ensures !changed ==> originalBlocks == old(originalBlocks)
      ensures !changed ==> forall b :: b in Subtree(cssBox) && old(allocated(b)) ==> b.style == old(b.style)
      // activation: a fresh snapshot of every text box, taken before any assignment, then the block is assigned
      ensures changed && hovering ==> originalBlocks.Keys == TextSet(cssBox)
      ensures changed && hovering ==>
        forall b, p :: b in originalBlocks && old(allocated(b)) && p in cssBlock ==> originalBlocks[b][p] == old(b.PropertyValue(p))
      ensures changed && hovering ==>
        forall b :: b in Subtree(cssBox) && old(allocated(b)) ==> b.style == if b in TextSet(cssBox) then old(b.style) + cssBlock else old(b.style)
      // deactivation: the snapshot is assigned back and kept
      ensures changed && !hovering ==> originalBlocks == old(originalBlocks)
      ensures changed && !hovering ==>
        forall b :: b in Subtree(cssBox) && old(allocated(b)) ==> b.style == if b in originalBlocks then old(b.style) + originalBlocks[b] else old(b.style)
    {
      if isHovering == hovering {
        return false;
      }
      isHovering := hovering;
      if isHovering {
        ApplyHoverStyle();
      } else {
        RestoreStyle();
      }
      changed := true;
    }

    /** The activation branch: collect the text boxes, snapshot all of them, then assign the block to all of them. */
    method ApplyHoverStyle()
      requires cssBox.WellFormed()
      modifies this`originalBlocks, Subtree(cssBox)
      ensures originalBlocks.Keys == TextSet(cssBox)
      ensures forall b :: b in originalBlocks ==> originalBlocks[b].Keys == cssBlock.Keys
      ensures forall b, p :: b in originalBlocks && old(allocated(b)) && p in cssBlock ==> originalBlocks[b][p] == old(b.PropertyValue(p))
      ensures forall b :: b in Subtree(cssBox) && old(allocated(b)) ==> b.style == if b in TextSet(cssBox) then old(b.style) + cssBlock else old(b.style)
    {
      TextSetIsUntaggedSubtree(cssBox);
      var textElms := FindTextElements(cssBox, []);
      originalBlocks := map[];
      originalBlocks := TakeSnapshot(textElms);
      AssignToAll(textElms, cssBlock);
    }

    /** The first loop of the activation: the current values of the block's properties, for every box of `textElms`. */
    method TakeSnapshot(textElms: seq<CssBox>) returns (blocks: map<CssBox, map<string, string>>)
      ensures blocks.Keys == set x | x in textElms
      ensures forall b :: b in blocks ==> blocks[b] == Snapshot(b, cssBlock)
    {
      blocks := map[];
      for i := 0 to |textElms|
        invariant blocks.Keys == set x | x in textElms[..i]
        invariant forall b :: b in blocks ==> blocks[b] == Snapshot(b, cssBlock)
      {
        assert textElms[..i + 1] == textElms[..i] + [textElms[i]];
        blocks := blocks[textElms[i] := Snapshot(textElms[i], cssBlock)];
      }
      assert textElms[..|textElms|] == textElms;
    }

    /** The deactivation branch: assign every saved property block back to its box. */
    method RestoreStyle()
      requires Valid()
      modifies Subtree(cssBox)
      ensures forall b :: b in Subtree(cssBox) && old(allocated(b)) ==> b.style == if b in originalBlocks then old(b.style) + originalBlocks[b] else old(b.style)
    {
      TextSetIsUntaggedSubtree(cssBox);
      var remaining := originalBlocks.Keys;
      while remaining != {}
        invariant remaining <= originalBlocks.Keys
        invariant forall b :: b in Subtree(cssBox) && old(allocated(b)) ==>
          b.style == if b in originalBlocks && b !in remaining then old(b.style) + originalBlocks[b] else old(b.style)
        decreases remaining
      {
        var b :| b in remaining;
        AssignCssProps(b, originalBlocks[b]);
        remaining := remaining - {b};
      }
    }
  }

  /**
   * The round trip: switching the hover style on and then off gives every
   * box of the subtree back its value of every property, whatever the
   * cascade had produced before.
   */
  method HoverRoundTrip(h: HoverBoxBlock)
    requires h.Valid() && !h.isHovering
    modifies h, Subtree(h.cssBox)
    ensures h.Valid() && !h.isHovering
    ensures forall b, p :: b in Subtree(h.cssBox) && old(allocated(b)) ==> b.PropertyValue(p) == old(b.PropertyValue(p))
  {
    var on := h.SetIsHovering(true);
    var off := h.SetIsHovering(false);
  }

  /** Four calls from the initial state report: changed, unchanged, changed, unchanged. */
  method TransitionReporting() returns (first: bool, second: bool, third: bool, fourth: bool)
    ensures first && !second && third && !fourth
  {
    var text := new CssBox(None, [], map["color" := "black"]);
    var h := new HoverBoxBlock(text, map["color" := "red"]);
    assert PreOrderAll([], text.level) == [];
    assert Subtree(text) == {text};
    first := h.SetIsHovering(true);
    second := h.SetIsHovering(true);
    third := h.SetIsHovering(false);
    fourth := h.SetIsHovering(false);
  }

  lemma WalksOfLeaf(b: CssBox)
    requires b.WellFormed() && b.boxes == []
    ensures PreOrder(b) == [b]
    ensures TextElements(b) == if b.htmlTag.None? then [b] else []
  {
    assert PreOrderAll(b.boxes, b.level) == [];
    assert TextElementsAll(b.boxes, b.level) == [];
  }

  lemma WalksOfOne(c: CssBox, bound: nat)
    requires c.level < bound && c.WellFormed()
    ensures PreOrderAll([c], bound) == PreOrder(c)
    ensures TextElementsAll([c], bound) == TextElements(c)
  {
    assert [c][..0] == [];
  }

  lemma WalksOfTwo(c: CssBox, d: CssBox, bound: nat)
    requires c.level < bound && c.WellFormed() && d.level < bound && d.WellFormed()
    ensures PreOrderAll([c, d], bound) == PreOrder(c) + PreOrder(d)
    ensures TextElementsAll([c, d], bound) == TextElements(c) + TextElements(d)
  {
    assert [c, d][..1] == [c];
    WalksOfOne(c, bound);
  }

  /** The walks of the tree used by `NestedTextScenario`. */
  lemma NestedTreeShape(target: CssBox, hello: CssBox, styled: CssBox, world: CssBox)
    requires hello.WellFormed() && world.WellFormed() && styled.WellFormed() && target.WellFormed()
    requires hello.htmlTag.None? && hello.boxes == []
    requires world.htmlTag.None? && world.boxes == []
    requires styled.htmlTag.Some? && styled.boxes == [world]
    requires target.htmlTag.Some? && target.boxes == [hello, styled]
    ensures PreOrder(target) == [target, hello, styled, world]
    ensures TextElements(target) == [hello, world]
  {
    WalksOfLeaf(hello);
    WalksOfLeaf(world);
    WalksOfOne(world, styled.level);
    WalksOfTwo(hello, styled, target.level);
  }

  /**
   * A tagged target holding an anonymous text box and a tagged box that
   * holds another anonymous text box: both text boxes turn red on hover and
   * black again afterwards, and the tagged boxes are never styled.
   */
  method NestedTextScenario() returns (hoveredHello: string, hoveredWorld: string, restoredHello: string, restoredWorld: string, styledTarget: string)
    ensures hoveredHello == "red" && hoveredWorld == "red"
    ensures restoredHello == "black" && restoredWorld == "black"
    ensures styledTarget == ""
  {
    var hello := new CssBox(None, [], map["color" := "black"]);
    var world := new CssBox(None, [], map["color" := "black"]);
    var styled := new CssBox(Some(HtmlTag("span")), [world], map[]);
    var target := new CssBox(Some(HtmlTag("div")), [hello, styled], map[]);
    NestedTreeShape(target, hello, styled, world);
    assert Subtree(target) == {target, hello, styled, world};
    assert hello in TextSet(target) && world in TextSet(target) && target !in TextSet(target);
    var h := new HoverBoxBlock(target, map["color" := "red"]);
    assert hello.PropertyValue("color") == "black" && world.PropertyValue("color") == "black";
    var on := h.SetIsHovering(true);
    assert hello.style == map["color" := "black"] + map["color" := "red"];
    assert world.style == map["color" := "black"] + map["color" := "red"];
    hoveredHello, hoveredWorld := hello.PropertyValue("color"), world.PropertyValue("color");
    styledTarget := target.PropertyValue("color");
    ghost var saved := h.originalBlocks;
    assert saved[hello]["color"] == "black" && saved[world]["color"] == "black";
    var off := h.SetIsHovering(false);
    assert hello.style == map["color" := "black"] + map["color" := "red"] + saved[hello];
    assert world.style == map["color" := "black"] + map["color" := "red"] + saved[world];
    restoredHello, restoredWorld := hello.PropertyValue("color"), world.PropertyValue("color");
  }
}
