/** The slice editor (`packages/client/src/components/ConfigPage.tsx`): the
    total percentage, adding, editing and removing slices, and the submit gate
    that builds the pie query. Each handler builds a new slice map; the old one
    is never changed. The download (`imageDownloader`) is not modelled. */
module ConfigPage {
  import opened Wrappers
  import opened Sequences
  import opened JsText
  import opened InsertionOrder
  import opened Charts
  import opened PieTypes
  import opened ClientUrls

  type SliceMap = OrderedMap<SliceType>

  const NEW_SLICE_COLOR := "#008080"
  const SUBMIT_SIZE := 400
  const SUBMIT_COLOR := "#ccc"
  const SUBMIT_STROKE_WIDTH := 10

  /** `Object.keys(slices).length`. */
  function NumSlices(slices: SliceMap): (n: nat)
    ensures slices.Valid() ==> n == |slices.Values()|
  {
    slices.Size()
  }

  /** `totalPercent`: the percentages of all slices added up. */
  function TotalPercent(slices: SliceMap): (total: int)
    requires slices.Valid()
    ensures slices.keys == [] ==> total == 0
    ensures |slices.keys| == 1 ==> total == slices.entries[slices.keys[0]].percent
    ensures (forall k | k in slices.entries :: slices.entries[k].percent >= 0) ==> total >= 0
  {
    var values := slices.Values();
    if |slices.keys| == 1 then
      assert values == [slices.entries[slices.keys[0]]];
      SumPercentsSingle(values[0]);
      SumPercents(values)
    else
      SumPercents(values)
  }

  /** The slice `addSlice` creates when there are `n` slices. */
  function NewSlice(n: nat): (s: SliceType)
    ensures s.percent == 0 && s.color == NEW_SLICE_COLOR
    ensures |s.caption| > 6 && s.caption[..6] == "Label "
    ensures s.caption[6] != '0'
  {
    SliceType("Label " + NatToDecimal(n + 1), NEW_SLICE_COLOR, 0)
  }

  /** Slices added at different sizes of the map get different captions. */
  lemma NewSliceCaptionsDistinct(m: nat, n: nat)
    requires m != n
    ensures NewSlice(m).caption != NewSlice(n).caption
  {
    if NewSlice(m).caption == NewSlice(n).caption {
      assert NatToDecimal(m + 1) == NewSlice(m).caption[6..];
      assert NatToDecimal(n + 1) == NewSlice(n).caption[6..];
      DecimalInjective(m + 1, n + 1);
    }
  }

  /** `addSlice`, with the generated id `slice_<uuid>` passed in. */
  function AddSlice(slices: SliceMap, id: string): (r: SliceMap)
    requires slices.Valid()
    ensures r.Valid()
  {
    slices.Set(id, NewSlice(NumSlices(slices)))
  }

  /** `setSlice(id, slice)`. */
  function SetSlice(slices: SliceMap, id: string, slice: SliceType): (r: SliceMap)
    requires slices.Valid()
    ensures r.Valid()
  {
    slices.Set(id, slice)
  }

  /** `removeSlice(id)`: copy the map, delete `id` from the copy. */
  function RemoveSlice(slices: SliceMap, id: string): (r: SliceMap)
    requires slices.Valid()
    ensures r.Valid()
  {
    var newSlices := slices;
    newSlices.Delete(id)
  }

  /** Adding a slice under a fresh id appends exactly that id, mapped to
      `["Label n+1", "#008080", 0]`; the other slices and the total are as
      before. */
  lemma AddSliceEffect(slices: SliceMap, id: string)
    requires slices.Valid()
    requires id !in slices.keys
    ensures AddSlice(slices, id).keys == slices.keys + [id]
    ensures AddSlice(slices, id).Get(id) == Some(SliceType("Label " + NatToDecimal(NumSlices(slices) + 1), "#008080", 0))
    ensures forall k | k != id :: AddSlice(slices, id).Get(k) == slices.Get(k)
    ensures NumSlices(AddSlice(slices, id)) == NumSlices(slices) + 1
    ensures TotalPercent(AddSlice(slices, id)) == TotalPercent(slices)
  {
    var n := NewSlice(NumSlices(slices));
    ValuesAfterSetNew(slices, id, n);
    SumPercentsAppend(slices.Values(), [n]);
    assert SumPercents([n]) == 0 by { assert [n][..0] == []; }
  }

  /** Setting a slice maps its id to the new slice, leaves every other id as it
      was, and moves the total by the change of that slice's percentage. */
  lemma SetSliceEffect(slices: SliceMap, id: string, slice: SliceType)
    requires slices.Valid()
    ensures SetSlice(slices, id, slice).Get(id) == Some(slice)
    ensures forall k | k != id :: SetSlice(slices, id, slice).Get(k) == slices.Get(k)
    ensures id in slices.keys ==>
              SetSlice(slices, id, slice).keys == slices.keys
              && TotalPercent(SetSlice(slices, id, slice))
                 == TotalPercent(slices) - slices.entries[id].percent + slice.percent
    ensures id !in slices.keys ==>
              TotalPercent(SetSlice(slices, id, slice)) == TotalPercent(slices) + slice.percent
  {
    if id in slices.entries {
      ValuesAfterSetPresent(slices, id, slice);
      SumPercentsUpdate(slices.Values(), IndexOf(slices.keys, id), slice);
    } else {
      ValuesAfterSetNew(slices, id, slice);
      SumPercentsAppend(slices.Values(), [slice]);
      assert SumPercents([slice]) == slice.percent by { assert [slice][..0] == []; }
    }
  }

  /** Removing a slice leaves a map without its id, every other slice in its
      place, and the total reduced by its percentage. */
  lemma RemoveSliceEffect(slices: SliceMap, id: string)
    requires slices.Valid()
    ensures RemoveSlice(slices, id).Get(id) == None
    ensures forall k | k != id :: RemoveSlice(slices, id).Get(k) == slices.Get(k)
    ensures RemoveSlice(slices, id).keys == Without(slices.keys, id)
    ensures id in slices.keys ==>
              TotalPercent(RemoveSlice(slices, id)) == TotalPercent(slices) - slices.entries[id].percent
    ensures id !in slices.keys ==> RemoveSlice(slices, id) == slices
  {
    if id in slices.entries {
      var i, vs := IndexOf(slices.keys, id), slices.Values();
      ValuesAfterDelete(slices, id);
      SumPercentsRemove(vs, i);
      assert vs[i] == slices.entries[id];
    } else {
      WithoutAbsent(slices.keys, id);
      assert slices.entries - {id} == slices.entries;
    }
  }

  /** What a successful submit does: the query, the download request's URL and
      the preview URL it logs. */
  datatype Submission = Submission(query: PieQueryData, requestUrl: string, logLine: string)

  /** The query a submit sends: size 400, colour '#ccc', stroke width 10, light
      mode, and the current slices. */
  function SubmittedQuery(slices: SliceMap): (q: PieQueryData)
    requires slices.Valid()
    ensures q.slices.Valid() && q.slices.Values() == slices.Values()
    ensures SumPercents(q.slices.Values()) == TotalPercent(slices)
    ensures q.mode == Light
  {
    PieQueryData(SUBMIT_SIZE, SUBMIT_COLOR, SUBMIT_STROKE_WIDTH, Light, slices)
  }

  /** `onSubmit`, with `btoa(JSON.stringify(…))` as `encode` and
      `process.env.API_URL` as `apiUrl`: nothing unless the total is exactly
      100. `encode` gives `None` when `btoa` throws (a character above U+00FF
      in a caption); the handler's promise is then rejected and nothing is
      requested. */
  function OnSubmit(slices: SliceMap, encode: PieQueryData -> Option<string>, apiUrl: string): (r: Option<Submission>)
    requires slices.Valid()
    ensures r.Some? <==> TotalPercent(slices) == 100 && encode(SubmittedQuery(slices)).Some?
    ensures r.Some? ==>
              && r.value.query == SubmittedQuery(slices)
              && r.value.requestUrl == ServerUrl(apiUrl, encode(SubmittedQuery(slices)).value)
              && r.value.logLine == CLIENT_PIE_URL + encode(SubmittedQuery(slices)).value
  {
    if TotalPercent(slices) == 100 then
      var queryData := SubmittedQuery(slices);
      match encode(queryData)
      case None => None
      case Some(encoded) => Some(Submission(queryData, ServerUrl(apiUrl, encoded), CLIENT_PIE_URL + encoded))
    else None
  }

  /** `disabled={totalPercent !== 100}`. */
  function SubmitDisabled(slices: SliceMap): (disabled: bool)
    requires slices.Valid()
    ensures !disabled <==> SumPercents(slices.Values()) == 100
  {
    TotalPercent(slices) != 100
  }

  /** A click submits exactly when the button is enabled and the query encodes,
      and a submitted query passes the pie page's sum check. */
  lemma SubmitGate(slices: SliceMap, encode: PieQueryData -> Option<string>, apiUrl: string)
    requires slices.Valid()
    ensures OnSubmit(slices, encode, apiUrl).Some?
            <==> !SubmitDisabled(slices) && encode(SubmittedQuery(slices)).Some?
    ensures OnSubmit(slices, encode, apiUrl).Some? ==>
              SumPercents(OnSubmit(slices, encode, apiUrl).value.query.slices.Values()) == 100
  {
  }
}
