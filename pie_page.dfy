/** The pie page (`packages/client/src/components/PiePage.tsx`): the mask
    geometry of a slice, `PieChart`'s sum check, stroke width, per-slice
    rotation and labels, and the page that shows the decoded query or the
    decode error. The end point of a slice's arc (cosine and sine) and the SVG
    markup are not modelled. */
module PiePage {
  import opened Wrappers
  import opened JsText
  import opened BaseUtils
  import opened PageQuery
  import opened PieTypes

  datatype Point = Point(x: real, y: real)

  /** The parts of `SliceMaskData` the model computes: the slice, the centre
      `begin`, the rightmost point `middle` and the SVG large-arc flag. */
  datatype SliceMaskData = SliceMaskData(slice: SliceType, begin: Point, middle: Point, largeArc: int)

  const SUM_ERROR := "The sum of all PieChart slices must equal 100"

  /** `size / 2`. */
  function Half(size: int): real {
    size as real / 2.0
  }

  /** `getSliceMaskData(size, slice)`: the arc starts at the centre and the
      rightmost point of the circle for every slice; the large-arc flag is 0
      for a slice over 50 percent and 1 otherwise. */
  function GetSliceMaskData(size: int, slice: SliceType): (d: SliceMaskData)
    ensures d.slice == slice
    ensures d.begin == Point(Half(size), Half(size))
    ensures d.middle == Point(size as real, Half(size))
    ensures d.largeArc in {0, 1}
    ensures d.largeArc == 0 <==> slice.percent > 50
  {
    var half := Half(size);
    SliceMaskData(slice, Point(half, half), Point(size as real, half), if slice.percent > 50 then 0 else 1)
  }

  /** The rotation of slice `index`: `360 * (percent / 100)` summed over the
      slices before it. */
  function Rotation(list: seq<SliceType>, index: nat): (degrees: real)
    requires index <= |list|
    ensures (forall i | 0 <= i < index :: list[i].percent >= 0) ==> degrees >= 0.0
  {
    if index == 0 then 0.0
    else Rotation(list, index - 1) + 360.0 * (list[index - 1].percent as real / 100.0)
  }

  /** The rotation of a slice is 360 degrees times the percentage of the slices
      before it. */
  lemma {:induction false} RotationIsPrefixSum(list: seq<SliceType>, index: nat)
    requires index <= |list|
    ensures Rotation(list, index) == 360.0 * (SumPercents(list[..index]) as real) / 100.0
  {
    if index > 0 {
      RotationIsPrefixSum(list, index - 1);
      assert list[..index][..index - 1] == list[..index - 1];
    }
  }

  /** When the percentages sum to 100, the slices together turn a full circle. */
  lemma FullTurn(list: seq<SliceType>)
    requires SumPercents(list) == 100
    ensures Rotation(list, |list|) == 360.0
  {
    RotationIsPrefixSum(list, |list|);
    assert list[..|list|] == list;
  }

  /** The inner loop of `PieChart`: add `360 * (percent / 100)` for every
      slice until reaching `index`. */
  method RotateDegrees(list: seq<SliceType>, index: nat) returns (rotateDegrees: real)
    requires index < |list|
    ensures rotateDegrees == Rotation(list, index)
  {
    rotateDegrees := 0.0;
    var i := 0;
    while i < |list|
      invariant 0 <= i <= index
      invariant rotateDegrees == Rotation(list, i)
    {
      if i == index {
        break;
      }
      var slicePercent := list[i].percent as real / 100.0;
      rotateDegrees := rotateDegrees + 360.0 * slicePercent;
      i := i + 1;
    }
  }

  /** A slice's `style`: a rotation when `rotateDegrees` is non-zero (truthy),
      otherwise the empty style. */
  datatype SliceStyle = NoStyle | Rotated(degrees: real)

  function StyleFor(rotateDegrees: real): (s: SliceStyle)
    ensures s == NoStyle <==> rotateDegrees == 0.0
  {
    if rotateDegrees != 0.0 then Rotated(rotateDegrees) else NoStyle
  }

  /** One drawn slice: its mask id, mask geometry, style and fill colour. */
  datatype SliceView = SliceView(maskId: string, mask: SliceMaskData, style: SliceStyle, fill: string)

  /** What `PieChart` renders: the radius `half`, the inner cut-out of the ring
      (`strokeWidthPercentage`, `null` for a zero stroke width), the slices and
      the labels. */
  datatype PieView = PieView(half: real, strokeWidthPercentage: Option<real>, slices: seq<SliceView>, labels: seq<string>)

  /** `pieMask_${index}`: the prefix, then `NatToDecimal(index)`. */
  function MaskId(index: nat): (id: string)
    ensures |id| > 8 && id[..8] == "pieMask_"
  {
    "pieMask_" + NatToDecimal(index)
  }

  /** Different slices have different mask ids. */
  lemma MaskIdsDistinct(i: nat, j: nat)
    requires i != j
    ensures MaskId(i) != MaskId(j)
  {
    var p := "pieMask_";
    if MaskId(i) == MaskId(j) {
      assert NatToDecimal(i) == MaskId(i)[|p|..];
      assert NatToDecimal(j) == MaskId(j)[|p|..];
      DecimalInjective(i, j);
    }
  }

  /** The slice as `PieChart` draws it at position `index`: its own mask and
      colour, turned by the percentages of the slices before it. */
  function SliceViewAt(size: int, list: seq<SliceType>, index: nat): (v: SliceView)
    requires index < |list|
    ensures v.maskId == MaskId(index) && v.fill == list[index].color
    ensures v.style == StyleFor(360.0 * (SumPercents(list[..index]) as real) / 100.0)
  {
    RotationIsPrefixSum(list, index);
    SliceView(MaskId(index), GetSliceMaskData(size, list[index]), StyleFor(Rotation(list, index)), list[index].color)
  }

  /** The text of a label: `{label}: {percent}%`. */
  function SliceLabel(s: SliceType): (text: string)
    ensures |text| > |s.caption| + 2
    ensures text[..|s.caption|] == s.caption
    ensures text[|s.caption|..|s.caption| + 2] == ": "
    ensures text[|s.caption| + 2..|text| - 1] == IntToDecimal(s.percent)
    ensures text[|text| - 1] == '%'
  {
    s.caption + ": " + IntToDecimal(s.percent) + "%"
  }

  /** The labels, one per slice, in slice order. */
  function SliceLabels(list: seq<SliceType>): (labels: seq<string>)
    ensures |labels| == |list|
    ensures forall i | 0 <= i < |list| :: labels[i] == SliceLabel(list[i])
  {
    seq(|list|, i requires 0 <= i < |list| => SliceLabel(list[i]))
  }

  /** `strokeWidth ? half * (strokeWidth / 100) : null`. */
  function StrokeWidthPercentage(size: int, strokeWidth: int): (r: Option<real>)
    ensures r.None? <==> strokeWidth == 0
    ensures r.Some? ==> r.value == Half(size) * (strokeWidth as real / 100.0)
  {
    if strokeWidth != 0 then Some(Half(size) * (strokeWidth as real / 100.0)) else None
  }

  /** `PieChart`: throws unless the percentages sum to exactly 100; otherwise one
      slice per entry of `slices`, in order, each rotated by the percentages
      before it, and one label per slice. */
  method PieChart(q: PieQueryData) returns (r: Result<PieView, string>)
    requires q.slices.Valid()
    ensures r.Err? <==> SumPercents(q.slices.Values()) != 100
    ensures r.Err? ==> r.error == SUM_ERROR
    ensures r.Ok? ==>
              var list := q.slices.Values();
              && r.value.half == Half(q.size)
              && r.value.strokeWidthPercentage == StrokeWidthPercentage(q.size, q.strokeWidth)
              && |r.value.slices| == |list|
              && (forall i | 0 <= i < |list| :: r.value.slices[i] == SliceViewAt(q.size, list, i))
              && r.value.labels == SliceLabels(list)
  {
    var sliceList := q.slices.Values();
    if SumPercents(sliceList) != 100 {
      return Err(SUM_ERROR);
    }
    var half := Half(q.size);
    var strokeWidthPercentage := StrokeWidthPercentage(q.size, q.strokeWidth);
    var drawn: seq<SliceView> := [];
    for index := 0 to |sliceList|
      invariant |drawn| == index
      invariant forall i | 0 <= i < index :: drawn[i] == SliceViewAt(q.size, sliceList, i)
    {
      var maskId := MaskId(index);
      var data := GetSliceMaskData(q.size, sliceList[index]);
      var rotateDegrees := RotateDegrees(sliceList, index);
      var style := StyleFor(rotateDegrees);
      drawn := drawn + [SliceView(maskId, data, style, sliceList[index].color)];
    }
    r := Ok(PieView(half, strokeWidthPercentage, drawn, SliceLabels(sliceList)));
  }

  /** The first slice, and every slice after slices of zero total percentage,
      gets the empty style. */
  lemma UnrotatedSlicesUnstyled(size: int, list: seq<SliceType>, index: nat)
    requires index < |list|
    requires SumPercents(list[..index]) == 0
    ensures SliceViewAt(size, list, index).style == NoStyle
  {
    RotationIsPrefixSum(list, index);
  }

  /** What the page renders: the chart when there is a query, and the error
      paragraph when the error is truthy; unlike the chart page, both can show. */
  datatype PiePageView = PiePageView(chart: Option<PieQueryData>, errorParagraph: Option<string>)

  function RenderPiePage(s: PageState<PieQueryData>): (v: PiePageView)
    ensures v.chart == s.queryData
    ensures v.errorParagraph.Some? <==> Truthy(s.error)
    ensures v.errorParagraph.Some? ==> v.errorParagraph == s.error
  {
    PiePageView(s.queryData, if Truthy(s.error) then s.error else None)
  }

  /** On the first run, a decode failure with a non-empty message shows the
      message and no pie. */
  lemma PieDecodeFailureRendered(query: Option<string>, decode: string -> Result<PieQueryData, Thrown>, message: string)
    requires decode(QueryText(query)) == Err(ErrorObject(message))
    requires message != ""
    ensures RenderPiePage(LoadQuery(Initial(), query, decode)) == PiePageView(None, Some(message))
  {
    DecodeErrorStored(query, decode, message);
  }

  /** After a successful decode, a later query whose decoding fails shows its
      message beside the earlier pie, which stays drawn. */
  lemma StalePieBesideError(prior: PageState<PieQueryData>, query: Option<string>, decode: string -> Result<PieQueryData, Thrown>, message: string)
    requires prior.queryData.Some?
    requires decode(QueryText(query)) == Err(ErrorObject(message))
    requires message != ""
    ensures RenderPiePage(LoadQuery(prior, query, decode)) == PiePageView(prior.queryData, Some(message))
  {
    RerunKeepsStaleState(prior, query, decode, message);
  }
}
