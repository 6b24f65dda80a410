/** The mode selector (src/components/CarouselMenu.js): a fixed list of four
    items shown by a snapping carousel. The item at the index equal to the
    `cameraMode` prop is drawn with the selected style; snapping to an item
    calls the `setCameraMode` prop with the item's index. */
module CarouselMenu {
  import opened Js

  /** Layout constants. */
  const HorizontalMargin: int := 20
  const SlideWidth: int := 50

  /** The width of one item: the slide plus a margin on either side. */
  function ItemWidth(): (w: int)
    ensures w == 90
    ensures w == SlideWidth + 2 * HorizontalMargin
  {
    SlideWidth + HorizontalMargin * 2
  }

  /** One carousel entry. */
  datatype Item = Item(id: int, title: string)

  /** The carousel's items, in display order. */
  const Data: seq<Item> := [Item(1, "Slow"), Item(2, "Portrait"), Item(3, "Photo"), Item(4, "Video")]

  /** The item the carousel starts on. */
  const FirstItem: nat := 2

  /** The list has four items, Slow, Portrait, Photo, Video, whose ids count
      from one; the first item shown is Photo. */
  lemma DataLayout()
    ensures |Data| == 4
    ensures Data[0].title == "Slow" && Data[1].title == "Portrait"
    ensures Data[2].title == "Photo" && Data[3].title == "Video"
    ensures forall i :: 0 <= i < |Data| ==> Data[i].id == i + 1
    ensures FirstItem < |Data| && Data[FirstItem].title == "Photo"
  {
  }

  /** `renderItem`'s test `index === cameraMode`, with `cameraMode` whatever
      value the component holds (a number, or `undefined` when the prop is
      missing). */
  function IsSelected(index: int, cameraMode: JsValue): (r: bool)
    ensures r <==> cameraMode.Number? && cameraMode.n == index
  {
    StrictEquals(Number(index), cameraMode)
  }

  /** At most one item is drawn selected. */
  lemma AtMostOneSelected(cameraMode: JsValue, i: int, j: int)
    requires IsSelected(i, cameraMode) && IsSelected(j, cameraMode)
    ensures i == j
  {
  }

  /** A missing `cameraMode` prop selects no item. */
  lemma UndefinedSelectsNothing(i: int)
    ensures !IsSelected(i, Undefined)
  {
  }

  /** A call of a function prop with a number. */
  datatype PropCall = PropCall(fn: string, arg: int)

  /** What one `onSnapToItem(index)` does: either the `setCameraMode` prop is a
      function, which is called once with the index before the local
      `cameraMode` is set to the index, or it is not, and calling it throws a
      TypeError before anything is changed. */
  datatype SnapOutcome =
    | Snapped(call: PropCall, cameraMode: JsValue)
    | TypeError

  function Snap(props: Props, index: int): (r: SnapOutcome)
    ensures r.Snapped? <==> Prop(props, "setCameraMode").Function?
    ensures r.Snapped? ==> r.call == PropCall(Prop(props, "setCameraMode").name, index)
    ensures r.Snapped? ==> r.cameraMode == Number(index)
  {
    var setter := Prop(props, "setCameraMode");
    if setter.Function? then Snapped(PropCall(setter.name, index), Number(index))
    else TypeError
  }

  /** One rendering of the component: the props it was given, its local
      `cameraMode` variable (which `renderItem` reads) and the calls it has made
      to function props. */
  class Menu {
    const props: Props
    var cameraMode: JsValue
    var calls: seq<PropCall>

    /** `let cameraMode = props.cameraMode`. */
    constructor (props: Props)
      ensures this.props == props
      ensures cameraMode == Prop(props, "cameraMode")
      ensures calls == []
    {
      this.props := props;
      cameraMode := Prop(props, "cameraMode");
      calls := [];
    }

    /** Whether `renderItem` draws the item at `index` selected. */
    function Selected(index: int): (r: bool)
      reads this
      ensures r <==> cameraMode == Number(index)
    {
      IsSelected(index, cameraMode)
    }

    /** The `onSnapToItem` handler. It returns whether the call of the setter
        prop threw. */
    method OnSnapToItem(index: int) returns (threw: bool)
      modifies this
      ensures threw <==> Snap(props, index).TypeError?
      ensures threw ==> cameraMode == old(cameraMode) && calls == old(calls)
      ensures !threw ==> calls == old(calls) + [Snap(props, index).call]
      ensures !threw ==> cameraMode == Number(index)
      ensures !threw ==> forall j :: Selected(j) <==> j == index
    {
      var setter := Prop(props, "setCameraMode");
      if setter.Function? {
        calls := calls + [PropCall(setter.name, index)];
        cameraMode := Number(index);
        threw := false;
      } else {
        threw := true;
      }
    }
  }
}
