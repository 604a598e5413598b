/** The legend: packing wrapped labels into rows of boxes. */
module Legend {
  import opened Wrappers
  import opened LabelWrap
  import opened Numbers

  datatype Box = Box(x: real, y: real, width: real, height: real)

  datatype Item = Item(lines: seq<string>, box: Box)

  datatype Layout = Layout(width: real, height: real, items: seq<Item>)

  const MARKER_AND_GAP := 24.0
  const GAP := 6.0
  const ROW := 16.0

  /** None for anything that is not a number. */
  function Available(width: Option<real>): real {
    if width.None? then 1.0 else MaxReal(1.0, width.value)
  }

  function CharPx(charPx: Option<real>): real {
    if charPx.None? || charPx.value == 0.0 then 6.4 else MaxReal(1.0, charPx.value)
  }

  function MaxChars(available: real, px: real): (m: nat)
    requires px > 0.0
    ensures m > 0
  {
    var fit := ((available - MARKER_AND_GAP) / px).Floor;
    if fit >= 1 then fit else 1
  }

  /** The longest line, at least one character. */
  function Longest(lines: seq<string>): nat {
    if lines == [] then 1
    else
      var rest, last := Longest(lines[..|lines| - 1]), |lines[|lines| - 1]|;
      if rest >= last then rest else last
  }

  /** The room a line of n characters takes, marker included. */
  function TextWidth(n: nat, px: real): real {
    MARKER_AND_GAP + n as real * px
  }

  function ItemWidth(lines: seq<string>, available: real, px: real): real {
    MinReal(available, MaxReal(30.0, TextWidth(Longest(lines), px)))
  }

  function ItemHeight(lines: seq<string>): real {
    MaxReal(ROW, |lines| as real * ROW)
  }

  /**
    What the layout takes for its inputs: a width or a character width that is missing, not a number or below
    one pixel counts as one pixel, except that a missing or zero character width is 6.4.
   */
  lemma Defaults(width: Option<real>)
    ensures Available(None) == 1.0 && CharPx(None) == 6.4 && CharPx(Some(0.0)) == 6.4
    ensures width.Some? && width.value >= 1.0 ==> Available(width) == width.value && CharPx(width) == width.value
    ensures width.Some? && width.value < 1.0 ==>
      Available(width) == 1.0 && (width.value != 0.0 ==> CharPx(width) == 1.0)
  {
  }

  lemma ScaledIff(n: real, fit: real, px: real)
    requires px > 0.0
    ensures n * px <= fit * px <==> n <= fit
  {
    if n <= fit {
      MulMonotone(n, fit, px);
    } else {
      MulStrict(fit, n, px);
    }
  }

  lemma FitsIff(n: nat, room: real, px: real)
    requires px > 0.0
    ensures n as real * px <= room <==> n <= (room / px).Floor
  {
    ScaledIff(n as real, room / px, px);
    DivMul(room, px);
  }

  /** A line may have as many characters as fit beside the marker, and one at least. */
  lemma MaxCharsIs(available: real, px: real, n: nat)
    requires px > 0.0 && n > 0
    ensures n <= MaxChars(available, px) <==> n == 1 || MARKER_AND_GAP + n as real * px <= available
  {
    FitsIff(n, available - MARKER_AND_GAP, px);
  }

  /** An item is as wide as its longest line with its marker, at least 30 pixels and at most the legend. */
  lemma ItemWidthIs(lines: seq<string>, available: real, px: real)
    requires lines != [] && px >= 1.0
    ensures exists i :: 0 <= i < |lines| && (forall j :: 0 <= j < |lines| ==> |lines[j]| <= |lines[i]|)
                        && var text := 24.0 + (if |lines[i]| == 0 then 1 else |lines[i]|) as real * px;
                           ItemWidth(lines, available, px)
                           == if available <= 30.0 || available <= text then available
                              else if text <= 30.0 then 30.0 else text
  {
    var i := LongestLine(lines);
  }

  lemma {:induction false} LongestLine(lines: seq<string>) returns (i: nat)
    requires lines != []
    ensures i < |lines| && forall j :: 0 <= j < |lines| ==> |lines[j]| <= |lines[i]|
    ensures Longest(lines) == if |lines[i]| == 0 then 1 else |lines[i]|
  {
    var n := |lines| - 1;
    if n == 0 {
      i := 0;
    } else {
      i := LongestLine(lines[..n]);
      assert forall j :: 0 <= j < n ==> lines[..n][j] == lines[j];
      if |lines[n]| > |lines[i]| {
        i := n;
      }
    }
  }

  lemma ItemSize(lines: seq<string>, available: real, px: real)
    requires available >= 1.0
    ensures 0.0 < ItemWidth(lines, available, px) <= available && ItemHeight(lines) >= ROW
  {
  }

  predicate Disjoint(a: Box, b: Box) {
    || a.x + a.width <= b.x || b.x + b.width <= a.x
    || a.y + a.height <= b.y || b.y + b.height <= a.y
  }

  predicate Inside(a: Box, width: real, height: real) {
    0.0 <= a.x && 0.0 <= a.y && a.x + a.width <= width && a.y + a.height <= height
  }

  /** Beside the previous box when it fits there; otherwise at the start of a row just below everything so far. */
  ghost predicate Placed(boxes: seq<Box>, i: nat, available: real)
    requires 0 < i < |boxes|
  {
    var before, box := boxes[i - 1], boxes[i];
    var beside := before.x + before.width + GAP;
    if beside + box.width <= available then
      box.x == beside && box.y == before.y
    else
      box.x == 0.0 && Bottom(boxes[..i], box.y)
  }

  /** The lowest edge of some boxes. */
  ghost predicate Bottom(boxes: seq<Box>, y: real) {
    && (forall j :: 0 <= j < |boxes| ==> boxes[j].y + boxes[j].height <= y)
    && exists j :: 0 <= j < |boxes| && boxes[j].y + boxes[j].height == y
  }

  /** Boxes in reading order, pairwise disjoint, between the edges, none lower than the bottom. */
  ghost predicate Packed(boxes: seq<Box>, available: real) {
    && (boxes != [] ==> boxes[0].x == 0.0 && boxes[0].y == 0.0)
    && (forall i :: 0 < i < |boxes| ==> Placed(boxes, i, available))
    && (forall i, j :: 0 <= i < j < |boxes| ==> Disjoint(boxes[i], boxes[j]))
  }

  /** What is known of the boxes placed so far, relative to the row being filled. */
  ghost predicate RowState(boxes: seq<Box>, cursorX: real, cursorY: real, rowHeight: real, available: real) {
    && cursorX >= 0.0 && cursorY >= 0.0 && rowHeight >= ROW
    && (forall j :: 0 <= j < |boxes| ==>
          && boxes[j].x >= 0.0 && boxes[j].y >= 0.0
          && boxes[j].x + boxes[j].width <= available
          && (boxes[j].y + boxes[j].height <= cursorY
              || (boxes[j].y == cursorY && boxes[j].x + boxes[j].width + GAP <= cursorX)))
    && (boxes == [] ==> cursorX == 0.0 && cursorY == 0.0 && rowHeight == ROW)
    && (boxes != [] ==>
          && boxes[|boxes| - 1].y == cursorY
          && boxes[|boxes| - 1].x + boxes[|boxes| - 1].width + GAP == cursorX > 0.0
          && Bottom(boxes, cursorY + rowHeight))
  }

  lemma BottomSnoc(boxes: seq<Box>, y: real, box: Box)
    requires boxes != [] ==> Bottom(boxes, y)
    ensures Bottom(boxes + [box], if boxes != [] && y >= box.y + box.height then y else box.y + box.height)
  {
    var all := boxes + [box];
    assert all[|boxes|] == box;
    if boxes != [] {
      var j :| 0 <= j < |boxes| && boxes[j].y + boxes[j].height == y;
      assert all[j] == boxes[j];
    }
  }

  predicate Wraps(cursorX: real, available: real, width: real) {
    cursorX > 0.0 && cursorX + width > available
  }

  /** The row state after one box more. */
  lemma NextRowState(boxes: seq<Box>, cursorX: real, cursorY: real, rowHeight: real, available: real, box: Box)
    requires RowState(boxes, cursorX, cursorY, rowHeight, available)
    requires 0.0 < box.width <= available && box.height >= ROW
    requires Wraps(cursorX, available, box.width) ==> box.x == 0.0 && box.y == cursorY + rowHeight
    requires !Wraps(cursorX, available, box.width) ==> box.x == cursorX && box.y == cursorY
    ensures RowState(boxes + [box], box.x + box.width + GAP, box.y,
                     MaxReal(if Wraps(cursorX, available, box.width) then ROW else rowHeight, box.height), available)
  {
    var all := boxes + [box];
    assert all[|boxes|] == box && forall j :: 0 <= j < |boxes| ==> all[j] == boxes[j];
    BottomSnoc(boxes, cursorY + rowHeight, box);
  }

  /** The next box goes beside the last one or below everything, and touches nothing. */
  lemma NextPacked(boxes: seq<Box>, cursorX: real, cursorY: real, rowHeight: real, available: real, box: Box)
    requires RowState(boxes, cursorX, cursorY, rowHeight, available) && Packed(boxes, available)
    requires Wraps(cursorX, available, box.width) ==> box.x == 0.0 && box.y == cursorY + rowHeight
    requires !Wraps(cursorX, available, box.width) ==> box.x == cursorX && box.y == cursorY
    ensures Packed(boxes + [box], available)
  {
    var all := boxes + [box];
    assert all[|boxes|] == box && forall j :: 0 <= j < |boxes| ==> all[j] == boxes[j];
    forall i | 0 < i < |all| ensures Placed(all, i, available) {
      if i < |boxes| {
        assert all[..i] == boxes[..i];
        assert Placed(boxes, i, available);
      } else {
        assert all[..i] == boxes;
      }
    }
    PlacedApart(boxes, cursorX, cursorY, rowHeight, available, box);
  }

  lemma PlacedApart(boxes: seq<Box>, cursorX: real, cursorY: real, rowHeight: real, available: real, box: Box)
    requires RowState(boxes, cursorX, cursorY, rowHeight, available)
    requires (box.x == 0.0 && box.y == cursorY + rowHeight) || (box.x == cursorX && box.y == cursorY)
    ensures forall j :: 0 <= j < |boxes| ==> Disjoint(boxes[j], box)
  {
  }

  lemma NothingPlaced(available: real)
    ensures RowState([], 0.0, 0.0, ROW, available) && Packed([], available)
  {
  }

  lemma EverythingInside(boxes: seq<Box>, cursorX: real, cursorY: real, rowHeight: real, available: real)
    requires RowState(boxes, cursorX, cursorY, rowHeight, available)
    ensures boxes != [] ==> Bottom(boxes, cursorY + rowHeight)
    ensures forall i :: 0 <= i < |boxes| ==> Inside(boxes[i], available, cursorY + rowHeight)
  {
  }

  ghost function Boxes(items: seq<Item>): seq<Box> {
    seq(|items|, i requires 0 <= i < |items| => items[i].box)
  }

  /** What one item shows, and the size of its box. */
  ghost predicate Shows(item: Item, caption: string, available: real, px: real)
    requires px > 0.0
  {
    && Wrapped(caption, MaxChars(available, px), item.lines)
    && item.box.width == ItemWidth(item.lines, available, px) && item.box.height == ItemHeight(item.lines)
  }

  /** layoutLegend. */
  method LayoutLegend(captions: seq<string>, width: Option<real>, charPx: Option<real>) returns (layout: Layout)
    ensures layout.width == Available(width) && |layout.items| == |captions|
    ensures forall i :: 0 <= i < |captions| ==> Shows(layout.items[i], captions[i], layout.width, CharPx(charPx))
    ensures Packed(Boxes(layout.items), layout.width)
    ensures forall i :: 0 <= i < |captions| ==> Inside(layout.items[i].box, layout.width, layout.height)
    ensures if captions == [] then layout.height == 0.0 else Bottom(Boxes(layout.items), layout.height)
  {
    hide Wrapped, ItemWidth, ItemHeight, MaxChars, RowState, Packed, Bottom;
    var available, px := Available(width), CharPx(charPx);
    var m := MaxChars(available, px);
    var items: seq<Item> := [];
    var cursorX, cursorY, rowHeight := 0.0, 0.0, ROW;
    NothingPlaced(available);
    assert Boxes(items) == [];
    for i := 0 to |captions|
      invariant |items| == i && RowState(Boxes(items), cursorX, cursorY, rowHeight, available)
      invariant Packed(Boxes(items), available)
      invariant forall j :: 0 <= j < i ==> Shows(items[j], captions[j], available, px)
    {
      var lines := WrapLegendLabel(captions[i], m);
      var itemWidth, itemHeight := ItemWidth(lines, available, px), ItemHeight(lines);
      ItemSize(lines, available, px);
      ghost var x, y, h := cursorX, cursorY, rowHeight;
      if Wraps(cursorX, available, itemWidth) {
        cursorX := 0.0;
        cursorY := cursorY + rowHeight;
        rowHeight := ROW;
      }
      var box := Box(cursorX, cursorY, itemWidth, itemHeight);
      NextRowState(Boxes(items), x, y, h, available, box);
      NextPacked(Boxes(items), x, y, h, available, box);
      assert Boxes(items + [Item(lines, box)]) == Boxes(items) + [box];
      items := items + [Item(lines, box)];
      cursorX := cursorX + itemWidth + GAP;
      rowHeight := MaxReal(rowHeight, itemHeight);
    }
    layout := Layout(available, if items != [] then cursorY + rowHeight else 0.0, items);
    EverythingInside(Boxes(items), cursorX, cursorY, rowHeight, available);
    forall i | 0 <= i < |captions| ensures Inside(items[i].box, available, layout.height) {
      assert Boxes(items)[i] == items[i].box;
    }
  }

  lemma {:induction false} LongestBounds(lines: seq<string>, m: nat, i: nat)
    requires m > 0 && Lines(lines, m)
    ensures Longest(lines) <= m
    ensures i < |lines| ==> |lines[i]| <= Longest(lines)
  {
    if lines != [] {
      LongestBounds(lines[..|lines| - 1], m, i);
    }
  }

  /** Every line of text fits into its item as soon as the legend has room for the marker and one character. */
  lemma TextFits(caption: string, lines: seq<string>, available: real, px: real, i: nat)
    requires px > 0.0 && available >= MARKER_AND_GAP + px
    requires Wrapped(caption, MaxChars(available, px), lines) && i < |lines|
    ensures TextWidth(|lines[i]|, px) <= ItemWidth(lines, available, px)
  {
    var m := MaxChars(available, px);
    hide TextWidth, Longest, MaxChars, LineWords, ChunksOf;
    LongestBounds(lines, MaxChars(available, px), i);
    RoomForAll(available, px, |lines[i]|, Longest(lines));
  }

  /** At least one character fits, so that the minimum of one does not exceed what fits. */
  lemma MaxCharsFit(available: real, px: real)
    requires px > 0.0 && available >= MARKER_AND_GAP + px
    ensures MaxChars(available, px) as real <= (available - MARKER_AND_GAP) / px
  {
    DivMonotone(px, available - MARKER_AND_GAP, px);
    assert px / px == 1.0;
  }

  lemma CharsFit(available: real, px: real, n: nat)
    requires px > 0.0 && available >= MARKER_AND_GAP + px && n <= MaxChars(available, px)
    ensures n as real * px <= available - MARKER_AND_GAP
  {
    MaxCharsFit(available, px);
    hide MaxChars;
    var fit := (available - MARKER_AND_GAP) / px;
    assert n as real <= fit;
    DivMul(available - MARKER_AND_GAP, px);
    MulMonotone(n as real, fit, px);
  }

  lemma RoomForAll(available: real, px: real, some: nat, longest: nat)
    requires px > 0.0 && available >= MARKER_AND_GAP + px && some <= longest <= MaxChars(available, px)
    ensures TextWidth(some, px) <= TextWidth(longest, px) <= available
  {
    CharsFit(available, px, longest);
    hide MaxChars;
    MulMonotone(some as real, longest as real, px);
  }
}
