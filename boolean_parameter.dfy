/**
  BooleanParameter: a parameter whose stored value is exactly 0 (off) or 1 (on).
  The inherited setValue is modelled by its one effect used here: it stores
  what updateValue makes of its argument.
 */
module Parameter {

  class BooleanParameter {
    const name: string
    var value: real

    /** The stored value is always 0 or 1. */
    ghost predicate Valid()
      reads this
    {
      value == 0.0 || value == 1.0
    }

    /** BooleanParameter(label): starts off. The label is held as `name`, `label` being a Dafny keyword. */
    constructor Off(name: string)
      ensures Valid() && this.name == name && value == 0.0 && !IsOn()
    {
      this.name := name;
      value := 0.0;
    }

    /** BooleanParameter(label, on): starts at 1 when `on`, at 0 otherwise. */
    constructor (name: string, on: bool)
      ensures Valid() && this.name == name && value == (if on then 1.0 else 0.0)
      ensures IsOn() == on
    {
      this.name := name;
      value := if on then 1.0 else 0.0;
    }

    /** What the parameter stores for a requested value: on for anything positive, off otherwise. */
    static function UpdateValue(v: real): (r: real)
      ensures r == 0.0 || r == 1.0
      ensures r == 1.0 <==> v > 0.0
    {
      if v > 0.0 then 1.0 else 0.0
    }

    static lemma UpdateValueIdempotent(v: real)
      ensures UpdateValue(UpdateValue(v)) == UpdateValue(v)
    {
    }

    predicate IsOn()
      reads this
      ensures Valid() ==> (IsOn() <==> value == 1.0)
    {
      value > 0.0
    }

    /** The inherited setValue: stores updateValue of its argument. */
    method SetValue(v: real)
      modifies this`value
      ensures Valid() && value == UpdateValue(v)
    {
      value := UpdateValue(v);
    }

    method SetOn(on: bool)
      modifies this`value
      ensures Valid() && IsOn() == on
      ensures value == if on then 1.0 else 0.0
    {
      SetValue(if on then 1.0 else 0.0);
    }

    function GetNormalized(): (r: real)
      reads this
      ensures r == 0.0 || r == 1.0
      ensures r == 1.0 <==> IsOn()
      ensures Valid() ==> r == value
    {
      if value > 0.0 then 1.0 else 0.0
    }

    /** Turns the parameter on exactly when the normalised value is at least one half. */
    method SetNormalized(normalized: real)
      modifies this`value
      ensures Valid() && (IsOn() <==> normalized >= 0.5)
      ensures GetNormalized() == if normalized >= 0.5 then 1.0 else 0.0
    {
      SetOn(normalized >= 0.5);
    }
  }

  /** Writing back what getNormalized() reads leaves the parameter unchanged. */
  method NormalizedRoundTrip(p: BooleanParameter)
    requires p.Valid()
    modifies p
    ensures p.value == old(p.value)
  {
    p.SetNormalized(p.GetNormalized());
  }

  /** setOn(b) is read back by isOn() and by getNormalized(), starting from the opposite state. */
  method SetOnReadBack(on: bool) returns (isOn: bool, normalized: real)
    ensures isOn == on
    ensures normalized == if on then 1.0 else 0.0
  {
    var p := new BooleanParameter("flag", !on);
    p.SetOn(on);
    isOn, normalized := p.IsOn(), p.GetNormalized();
  }
}
