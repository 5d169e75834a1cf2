/** The form fields (`packages/client/src/components/Inputs.tsx`). Each field
    keeps a local value that it updates as the user types. It reports to its
    parent's `onChange` only when it loses focus, or, for the colour field,
    when a colour is picked. The calls made to `onChange` are recorded, in
    order, in the field `reported`. */
module Inputs {
  import opened JsText

  /** What `parseInt(text, 10)` can yield: an integer, `NaN` (no leading
      digits), or an infinity (more digits than a double holds). */
  datatype JsNumber = Finite(n: int) | NaN | Infinity(positive: bool)

  /** `Number.isFinite`. */
  predicate IsFinite(x: JsNumber) {
    x.Finite?
  }

  /** `!==` on numbers: `NaN` differs from everything, itself included. */
  predicate StrictlyDiffer(a: JsNumber, b: JsNumber)
    ensures a.NaN? || b.NaN? ==> StrictlyDiffer(a, b)
    ensures a.Finite? && b.Finite? ==> (StrictlyDiffer(a, b) <==> a.n != b.n)
  {
    a.NaN? || b.NaN? || a != b
  }

  /** The value a number field reports on blur: 0 for a non-finite local value,
      the local value itself otherwise. */
  function NormalisedNumber(local: JsNumber): (v: int)
    ensures local.Finite? ==> v == local.n
    ensures !local.Finite? ==> v == 0
  {
    if !IsFinite(local) then 0 else local.n
  }

  /** `InputNumber`: a number field. */
  class InputNumber {
    var localValue: JsNumber
    var reported: seq<int>

    /** `useState<number>(value)`. */
    constructor (value: int)
      ensures localValue == Finite(value) && reported == []
    {
      localValue := Finite(value);
      reported := [];
    }

    /** `onChangeInput`: the typed text, as parsed, becomes the local value;
        nothing is reported. */
    method OnChangeInput(parsed: JsNumber)
      modifies this
      ensures localValue == parsed
      ensures reported == old(reported)
    {
      localValue := parsed;
    }

    /** `onBlurInput`: reports the normalised value exactly once, then stores
        it as the local value if (and only if) it differs from it. */
    method OnBlurInput() returns (reset: bool)
      modifies this
      ensures reported == old(reported) + [NormalisedNumber(old(localValue))]
      ensures reset <==> !old(localValue).Finite?
      ensures reset ==> localValue == Finite(0)
      ensures !reset ==> localValue == old(localValue)
    {
      var numValue := if !IsFinite(localValue) then 0 else localValue.n;
      reported := reported + [numValue];
      reset := StrictlyDiffer(Finite(numValue), localValue);
      if reset {
        localValue := Finite(numValue);
      }
    }
  }

  /** `InputText`: a text field. */
  class InputText {
    var localValue: string
    var reported: seq<string>

    constructor (value: string)
      ensures localValue == value && reported == []
    {
      localValue := value;
      reported := [];
    }

    /** `onChangeInput`: the typed text becomes the local value. */
    method OnChangeInput(value: string)
      modifies this
      ensures localValue == value
      ensures reported == old(reported)
    {
      localValue := value;
    }

    /** `onBlurInput`: the trimmed text is stored and reported. */
    method OnBlurInput()
      modifies this
      ensures localValue == Trim(old(localValue))
      ensures reported == old(reported) + [Trim(old(localValue))]
    {
      var newValue := Trim(localValue);
      localValue := newValue;
      reported := reported + [newValue];
    }

    /** Blurring again without typing reports the same text again, because
        trimming is idempotent. */
    method BlurTwice()
      modifies this
      ensures localValue == Trim(old(localValue))
      ensures |reported| == |old(reported)| + 2
      ensures reported[|reported| - 1] == reported[|reported| - 2] == Trim(old(localValue))
    {
      OnBlurInput();
      TrimIdempotent(old(localValue));
      OnBlurInput();
    }
  }

  /** `InputColor`: a colour swatch that opens a picker. */
  class InputColor {
    var pickerVisible: bool
    var reported: seq<string>

    /** The picker starts hidden. */
    constructor ()
      ensures !pickerVisible && reported == []
    {
      pickerVisible := false;
      reported := [];
    }

    /** `onClick`: shows or hides the picker. */
    method OnClick()
      modifies this
      ensures pickerVisible == !old(pickerVisible)
      ensures reported == old(reported)
    {
      pickerVisible := !pickerVisible;
    }

    /** `onChangeComplete`: reports the picked colour's hex string. */
    method OnChangeComplete(hex: string)
      modifies this
      ensures reported == old(reported) + [hex]
      ensures pickerVisible == old(pickerVisible)
    {
      reported := reported + [hex];
    }

    /** Two clicks put the picker back as it was. */
    method ClickTwice()
      modifies this
      ensures pickerVisible == old(pickerVisible)
      ensures reported == old(reported)
    {
      OnClick();
      OnClick();
    }
  }
}
