/**
 * List-marker styling of the preview toolbar (components/WordPreview.tsx): the mapping
 * from the bullet and number selectors to a list element's `data-marker` attribute and
 * `list-style-type`, the upward search for the nearest list from the selection anchor,
 * and the handlers that restyle that list in place.
 *
 * The selection anchor is given as its chain of elements, the anchor element first and
 * then its ancestors up to the top of the document; `None` stands for a selection with
 * no range. The native `insertUnorderedList` / `insertOrderedList` commands belong to
 * the browser: the handlers that issue them receive the chain as it is afterwards.
 */
module ListMarkers {
  import opened Wrappers

  /** An element of the editable surface, with the parts of it these handlers touch. */
  class Element {
    const tag: string
    var attributes: map<string, string>
    var listStyleType: string

    constructor(tag: string, attributes: map<string, string>, listStyleType: string)
      ensures this.tag == tag && this.attributes == attributes && this.listStyleType == listStyleType
    {
      this.tag := tag;
      this.attributes := attributes;
      this.listStyleType := listStyleType;
    }
  }

  const MarkerAttribute := "data-marker"
  const Diamond := "diamond"

  /** The `data-marker` value to set (`None`: remove the attribute) and the `list-style-type` for a bullet style. */
  datatype ListMarking = ListMarking(dataMarker: Option<string>, listStyleType: string)

  function BulletMarking(style: string): (m: ListMarking)
    ensures m.dataMarker.Some? <==> style == Diamond
    ensures m.dataMarker.Some? ==> m.dataMarker.value == Diamond && m.listStyleType == "none"
    ensures m.dataMarker.None? ==> m.listStyleType == style
  {
    if style == Diamond then ListMarking(Some(Diamond), "none") else ListMarking(None, style)
  }

  function WithMarker(attributes: map<string, string>, marker: Option<string>): map<string, string>
  {
    match marker
    case Some(v) => attributes[MarkerAttribute := v]
    case None => attributes - {MarkerAttribute}
  }

  /** What a list shows before its items: the glyph of the component's `ul[data-marker="diamond"]` rule, or the native marker. */
  datatype Marker = Glyph(content: string) | Native(styleType: string)

  const DiamondGlyph := "\U{25C6} "

  function RenderedMarker(attributes: map<string, string>, listStyleType: string): Marker
  {
    if MarkerAttribute in attributes && attributes[MarkerAttribute] == Diamond then Glyph(DiamondGlyph)
    else Native(listStyleType)
  }

  /** The marker a bullet style asks for. */
  function ChosenMarker(style: string): Marker
  {
    if style == Diamond then Glyph(DiamondGlyph) else Native(style)
  }

  /** Whatever a list's previous marking, marking it with a bullet style makes it show that style's marker. */
  lemma BulletStyleRendered(attributes: map<string, string>, style: string)
    ensures var m := BulletMarking(style);
      RenderedMarker(WithMarker(attributes, m.dataMarker), m.listStyleType) == ChosenMarker(style)
      && (MarkerAttribute in WithMarker(attributes, m.dataMarker) <==> style == Diamond)
  {
  }

  /** Distinct bullet styles give distinct markings and show distinct markers. */
  lemma BulletMarkingInjective(a: string, b: string)
    requires a != b
    ensures BulletMarking(a) != BulletMarking(b)
    ensures ChosenMarker(a) != ChosenMarker(b)
  {
  }

  /** The first index from `i` whose element has `tag`, scanning up the chain and stopping at `root`. */
  function NearestFrom(chain: seq<Element>, root: Element?, tag: string, i: nat): (r: Option<nat>)
    requires i <= |chain|
    ensures r.Some? ==> i <= r.value < |chain| && chain[r.value].tag == tag
    ensures r.Some? ==> forall j :: i <= j <= r.value ==> chain[j] != root
    ensures r.Some? ==> forall j :: i <= j < r.value ==> chain[j].tag != tag
    ensures r.None? ==> forall j :: i <= j < |chain| && chain[j].tag == tag ==> exists k :: i <= k <= j && chain[k] == root
    decreases |chain| - i
  {
    if i == |chain| || chain[i] == root then None
    else if chain[i].tag == tag then Some(i)
    else NearestFrom(chain, root, tag, i + 1)
  }

  /** The list `getNearestList(tag)` finds, by the specification above. */
  function Found(anchor: Option<seq<Element>>, root: Element?, tag: string): Element?
  {
    match anchor
    case None => null
    case Some(chain) =>
      match NearestFrom(chain, root, tag, 0)
      case Some(i) => chain[i]
      case None => null
  }

  function Nodes(anchor: Option<seq<Element>>): set<Element>
  {
    match anchor
    case None => {}
    case Some(chain) => set i | 0 <= i < |chain| :: chain[i]
  }

  /** `getNearestList`: walk from the anchor element up through its ancestors until the editor root. */
  method GetNearestList(anchor: Option<seq<Element>>, root: Element?, tag: string) returns (list: Element?)
    ensures list == Found(anchor, root, tag)
    ensures list != null ==> list in Nodes(anchor) && list.tag == tag && list != root
    ensures anchor.None? ==> list == null
  {
    if anchor.None? {
      return null;
    }
    var chain := anchor.value;
    var i := 0;
    while i < |chain| && chain[i] != root
      invariant 0 <= i <= |chain|
      invariant NearestFrom(chain, root, tag, i) == NearestFrom(chain, root, tag, 0)
    {
      if chain[i].tag == tag {
        return chain[i];
      }
      i := i + 1;
    }
    return null;
  }

  method MarkBulletList(list: Element, style: string)
    modifies list
    ensures list.attributes == WithMarker(old(list.attributes), BulletMarking(style).dataMarker)
    ensures list.listStyleType == BulletMarking(style).listStyleType
  {
    if style == Diamond {
      list.attributes := list.attributes[MarkerAttribute := Diamond];
      list.listStyleType := "none";
    } else {
      list.attributes := list.attributes - {MarkerAttribute};
      list.listStyleType := style;
    }
  }

  /** Nothing in the chain changed but `list` (when there is one). */
  twostate predicate OthersUnchanged(anchor: Option<seq<Element>>, list: Element?)
    reads Nodes(anchor)
  {
    forall e :: e in Nodes(anchor) && e != list ==>
      e.attributes == old(e.attributes) && e.listStyleType == old(e.listStyleType)
  }

  /** `applyUnorderedList(style)`, from the point after the native command. */
  method ApplyUnorderedList(style: string, anchor: Option<seq<Element>>, root: Element?)
    modifies Nodes(anchor)
    ensures var ul := Found(anchor, root, "UL");
      && OthersUnchanged(anchor, ul)
      && (ul != null ==> ul.attributes == WithMarker(old(ul.attributes), BulletMarking(style).dataMarker)
                         && ul.listStyleType == BulletMarking(style).listStyleType)
  {
    var list := GetNearestList(anchor, root, "UL");
    if list == null {
      return;
    }
    MarkBulletList(list, style);
  }

  /** `applyOrderedList(style)`, from the point after the native command: the attributes stay as they were. */
  method ApplyOrderedList(style: string, anchor: Option<seq<Element>>, root: Element?)
    modifies Nodes(anchor)
    ensures var ol := Found(anchor, root, "OL");
      && OthersUnchanged(anchor, ol)
      && (ol != null ==> ol.attributes == old(ol.attributes) && ol.listStyleType == style)
  {
    var list := GetNearestList(anchor, root, "OL");
    if list == null {
      return;
    }
    list.listStyleType := style;
  }

  /** `updateCurrentListStyle`: restyle the nearest bulleted and the nearest numbered list around the selection. */
  method UpdateCurrentListStyle(bulletStyle: string, numberStyle: string, anchor: Option<seq<Element>>, root: Element?)
    modifies Nodes(anchor)
    ensures var ul, ol := Found(anchor, root, "UL"), Found(anchor, root, "OL");
      && (forall e :: e in Nodes(anchor) && e != ul && e != ol ==>
            e.attributes == old(e.attributes) && e.listStyleType == old(e.listStyleType))
      && (ul != null ==> ul.attributes == WithMarker(old(ul.attributes), BulletMarking(bulletStyle).dataMarker)
                         && ul.listStyleType == BulletMarking(bulletStyle).listStyleType)
      && (ol != null ==> ol.attributes == old(ol.attributes) && ol.listStyleType == numberStyle)
  {
    var ul := GetNearestList(anchor, root, "UL");
    var ol := GetNearestList(anchor, root, "OL");
    if ul != null {
      MarkBulletList(ul, bulletStyle);
    }
    if ol != null {
      ol.listStyleType := numberStyle;
    }
  }

  /**
   * The two selectors of the toolbar. A change handler sets its selector and restyles
   * the lists around the selection in the same call, with the values the selectors had
   * BEFORE the change: the state update is not visible until the next render.
   */
  class ListToolbar {
    var bulletStyle: string
    var numberStyle: string

    constructor()
      ensures bulletStyle == "disc" && numberStyle == "decimal"
    {
      bulletStyle := "disc";
      numberStyle := "decimal";
    }

    /** `onBulletStyleChange(v)`. */
    method BulletStyleChange(v: string, anchor: Option<seq<Element>>, root: Element?)
      modifies this, Nodes(anchor)
      ensures bulletStyle == v && numberStyle == old(numberStyle)
      ensures var ul, ol := Found(anchor, root, "UL"), Found(anchor, root, "OL");
        && (forall e :: e in Nodes(anchor) && e != ul && e != ol ==>
              e.attributes == old(e.attributes) && e.listStyleType == old(e.listStyleType))
        && (ul != null ==> ul.attributes == WithMarker(old(ul.attributes), BulletMarking(old(bulletStyle)).dataMarker)
                           && ul.listStyleType == BulletMarking(old(bulletStyle)).listStyleType)
        && (ol != null ==> ol.attributes == old(ol.attributes) && ol.listStyleType == old(numberStyle))
    {
      var previousBullet, previousNumber := bulletStyle, numberStyle;
      bulletStyle := v;
      UpdateCurrentListStyle(previousBullet, previousNumber, anchor, root);
    }

    /** `onNumberStyleChange(v)`. */
    method NumberStyleChange(v: string, anchor: Option<seq<Element>>, root: Element?)
      modifies this, Nodes(anchor)
      ensures numberStyle == v && bulletStyle == old(bulletStyle)
      ensures var ul, ol := Found(anchor, root, "UL"), Found(anchor, root, "OL");
        && (forall e :: e in Nodes(anchor) && e != ul && e != ol ==>
              e.attributes == old(e.attributes) && e.listStyleType == old(e.listStyleType))
        && (ul != null ==> ul.attributes == WithMarker(old(ul.attributes), BulletMarking(old(bulletStyle)).dataMarker)
                           && ul.listStyleType == BulletMarking(old(bulletStyle)).listStyleType)
        && (ol != null ==> ol.attributes == old(ol.attributes) && ol.listStyleType == old(numberStyle))
    {
      var previousBullet, previousNumber := bulletStyle, numberStyle;
      numberStyle := v;
      UpdateCurrentListStyle(previousBullet, previousNumber, anchor, root);
    }

    /** `onApplyBullet`. */
    method ApplyBullet(anchor: Option<seq<Element>>, root: Element?)
      modifies Nodes(anchor)
      ensures var ul := Found(anchor, root, "UL");
        && OthersUnchanged(anchor, ul)
        && (ul != null ==> ul.attributes == WithMarker(old(ul.attributes), BulletMarking(bulletStyle).dataMarker)
                           && ul.listStyleType == BulletMarking(bulletStyle).listStyleType)
    {
      ApplyUnorderedList(bulletStyle, anchor, root);
    }

    /** `onApplyNumber`. */
    method ApplyNumber(anchor: Option<seq<Element>>, root: Element?)
      modifies Nodes(anchor)
      ensures var ol := Found(anchor, root, "OL");
        && OthersUnchanged(anchor, ol)
        && (ol != null ==> ol.attributes == old(ol.attributes) && ol.listStyleType == numberStyle)
    {
      ApplyOrderedList(numberStyle, anchor, root);
    }
  }

  /**
   * The consequence of restyling with the previous selector value: when the selector
   * moves from `previous` to a different `chosen`, the list around the caret goes on
   * showing the marker of `previous`, which is not the one now displayed in the selector.
   */
  lemma StaleRestyleShowsPrevious(attributes: map<string, string>, previous: string, chosen: string)
    requires previous != chosen
    ensures var m := BulletMarking(previous);
      RenderedMarker(WithMarker(attributes, m.dataMarker), m.listStyleType) == ChosenMarker(previous)
      && ChosenMarker(previous) != ChosenMarker(chosen)
  {
    BulletStyleRendered(attributes, previous);
    BulletMarkingInjective(previous, chosen);
  }

  /** Switching a list from diamond back to disc removes the marker attribute and restores the native keyword. */
  lemma DiamondThenDisc(attributes: map<string, string>)
    ensures var d := BulletMarking(Diamond);
      var c := BulletMarking("disc");
      var after := WithMarker(WithMarker(attributes, d.dataMarker), c.dataMarker);
      MarkerAttribute !in after && c.listStyleType == "disc"
      && RenderedMarker(after, c.listStyleType) == Native("disc")
  {
  }
}
