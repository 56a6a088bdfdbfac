/**
 * The two-way bindings between configuration fields and the edited model
 * (`LCConfigBindingUtils`).
 *
 * Each binding factory installs a FIELD listener, which turns a change of the UI
 * control into an edit action on the model, and returns a MODEL listener, which
 * writes a change of the model back into the control. Both carry guards that stop
 * a change from echoing back and forth. Each guard is a function here: a field
 * listener yields the edit action it executes (or `None`), a model listener the
 * value it writes into the control (or `None`). The rounding `tolerantRound` is
 * not part of this model; it is passed in as an arbitrary function.
 *
 * `createBindMapValue` mirrors the values of an observable map into a list, which
 * its listener updates in place: `MirroredList`.
 */
module ConfigBinding {
  import opened Wrappers
  import opened JavaArith

  /** The edit action `actionCreator.apply(model, value)` handed to the action controller. */
  datatype EditAction<K, V> = EditAction(model: K, value: V)

  // ---------------------------------------------------------------------------
  // Slider binding (createSliderBindingWithScale)
  // ---------------------------------------------------------------------------

  /** Field listener on the slider value. */
  function SliderFieldAction<K>(valueChanging: bool, model: Option<K>, retrieve: K -> real,
                                newValue: real, scale: int, round: (real, int) -> real): (r: Option<EditAction<K, real>>)
    ensures valueChanging || model.None? ==> r.None?
    ensures r.Some? <==> !valueChanging && model.Some?
                         && round(retrieve(model.value), scale) != round(newValue, scale)
    ensures r.Some? ==> r.value == EditAction(model.value, round(newValue, scale))
  {
    if !valueChanging && model.Some? then
      var valueRoundNv := round(newValue, scale);
      if round(retrieve(model.value), scale) != valueRoundNv then Some(EditAction(model.value, valueRoundNv))
      else None
    else None
  }

  /** Listener on `valueChanging`: when changing ends, the rounded slider value is resubmitted. */
  function SliderChangingEnded<K>(changing: bool, sliderValue: real, model: Option<K>, retrieve: K -> real,
                                  scale: int, round: (real, int) -> real): (r: Option<EditAction<K, real>>)
    ensures changing ==> r.None?
    ensures r.Some? ==> r.value.value == round(round(sliderValue, scale), scale)
  {
    if changing then None
    else SliderFieldAction(false, model, retrieve, round(sliderValue, scale), scale, round)
  }

  /** Model listener: the value `adjustValue` is called with. */
  function SliderModelUpdate(newModelValue: real, sliderValue: real, scale: int,
                             round: (real, int) -> real): (r: Option<real>)
    ensures r.Some? <==> round(newModelValue, scale) != round(sliderValue, scale)
    ensures r.Some? ==> r.value == round(newModelValue, scale)
  {
    if round(newModelValue, scale) != round(sliderValue, scale) then Some(round(newModelValue, scale)) else None
  }

  /**
   * When rounding is stable on the new model value, the slider update it causes does
   * not echo: the field listener then fires no action, and the model listener writes
   * nothing more.
   */
  lemma SliderEchoSuppressed<K>(m: K, retrieve: K -> real, v: real, sliderValue: real,
                                scale: int, round: (real, int) -> real)
    requires retrieve(m) == v
    requires round(round(v, scale), scale) == round(v, scale)
    requires SliderModelUpdate(v, sliderValue, scale, round).Some?
    ensures var adjusted := SliderModelUpdate(v, sliderValue, scale, round).value;
            && SliderFieldAction(false, Some(m), retrieve, adjusted, scale, round).None?
            && SliderModelUpdate(v, adjusted, scale, round).None?
  {
  }

  /** When changing ends, the action carries the rounded slider value (rounding stable on it). */
  lemma SliderChangeEndSubmitsRoundedValue<K>(sliderValue: real, m: K, retrieve: K -> real,
                                              scale: int, round: (real, int) -> real)
    requires round(round(sliderValue, scale), scale) == round(sliderValue, scale)
    ensures var r := SliderChangingEnded(false, sliderValue, Some(m), retrieve, scale, round);
            && (r.Some? <==> round(retrieve(m), scale) != round(sliderValue, scale))
            && (r.Some? ==> r.value == EditAction(m, round(sliderValue, scale)))
  {
  }

  // ---------------------------------------------------------------------------
  // Selection-model binding (createSelectionModelBinding)
  // ---------------------------------------------------------------------------

  /** Field listener on the selected item. */
  function SelectionFieldAction<K, T(==), V>(model: Option<K>, retrieve: K -> V, toModel: T -> V,
                                             toSelection: V -> T, selected: T): (r: Option<EditAction<K, V>>)
    ensures model.None? ==> r.None?
    ensures r.Some? <==> model.Some? && toSelection(retrieve(model.value)) != selected
    ensures r.Some? ==> r.value == EditAction(model.value, toModel(selected))
  {
    match model
    case None => None
    case Some(k) => if toSelection(retrieve(k)) != selected then Some(EditAction(k, toModel(selected))) else None
  }

  /** Model listener: the item `select` is called with. A `null` model value is ignored. */
  function SelectionModelUpdate<T(==), V>(newValue: Option<V>, selected: T, toSelection: V -> T): (r: Option<T>)
    ensures newValue.None? ==> r.None?
    ensures r.Some? <==> newValue.Some? && toSelection(newValue.value) != selected
    ensures r.Some? ==> r.value == toSelection(newValue.value)
  {
    match newValue
    case None => None
    case Some(v) => if selected != toSelection(v) then Some(toSelection(v)) else None
  }

  /** The item a model change selects never echoes back as an action, nor is it selected twice. */
  lemma SelectionEchoSuppressed<K, T, V>(m: K, retrieve: K -> V, toModel: T -> V,
                                             toSelection: V -> T, selected: T)
    requires SelectionModelUpdate(Some(retrieve(m)), selected, toSelection).Some?
    ensures var item := SelectionModelUpdate(Some(retrieve(m)), selected, toSelection).value;
            && SelectionFieldAction(Some(m), retrieve, toModel, toSelection, item).None?
            && SelectionModelUpdate(Some(retrieve(m)), item, toSelection).None?
  {
  }

  /** The four-argument overload uses identity converters: the action carries the selected item itself. */
  lemma SelectionWithoutConverters<K, T>(m: K, retrieve: K -> T, selected: T)
    ensures var r := SelectionFieldAction(Some(m), retrieve, t => t, t => t, selected);
            (r.Some? <==> retrieve(m) != selected) && (r.Some? ==> r.value.value == selected)
  {
  }

  // ---------------------------------------------------------------------------
  // Integer spinner binding (createIntegerSpinnerBinding)
  // ---------------------------------------------------------------------------

  function IntSpinnerFieldAction<K>(model: Option<K>, retrieve: K -> int, newValue: int): (r: Option<EditAction<K, int>>)
    ensures model.None? ==> r.None?
    ensures r.Some? <==> model.Some? && retrieve(model.value) != newValue
    ensures r.Some? ==> r.value == EditAction(model.value, newValue)
  {
    match model
    case None => None
    case Some(k) => if retrieve(k) != newValue then Some(EditAction(k, newValue)) else None
  }

  function IntSpinnerModelUpdate(spinnerValue: int, newModelValue: int): (r: Option<int>)
    ensures r.Some? <==> spinnerValue != newModelValue
    ensures r.Some? ==> r.value == newModelValue
  {
    if spinnerValue != newModelValue then Some(newModelValue) else None
  }

  /**
   * Neither direction echoes: once an action has set the model to the spinner's value
   * the model listener writes nothing, and once the model listener has written the
   * model's value the field listener fires nothing.
   */
  lemma IntSpinnerRoundTrip<K>(m: K, retrieve: K -> int, spinnerValue: int, modelValue: int)
    ensures var a := IntSpinnerFieldAction(Some(m), retrieve, spinnerValue);
            a.Some? ==> IntSpinnerModelUpdate(spinnerValue, a.value.value).None?
    ensures var u := IntSpinnerModelUpdate(spinnerValue, modelValue);
            u.Some? && retrieve(m) == modelValue ==> IntSpinnerFieldAction(Some(m), retrieve, u.value).None?
  {
  }

  // ---------------------------------------------------------------------------
  // Double spinner binding (createDoubleSpinnerBindingWithCondition)
  // ---------------------------------------------------------------------------

  /** `actionCondition != null ? actionCondition.test(model) : true`. */
  predicate ConditionHolds<K>(condition: Option<K -> bool>, model: K)
  {
    match condition
    case None => true
    case Some(test) => test(model)
  }

  function DoubleSpinnerFieldAction<K>(model: Option<K>, retrieve: K -> real, condition: Option<K -> bool>,
                                       newValue: real, round: real -> real): (r: Option<EditAction<K, real>>)
    ensures model.None? ==> r.None?
    ensures model.Some? && !ConditionHolds(condition, model.value) ==> r.None?
    ensures r.Some? <==> model.Some? && ConditionHolds(condition, model.value)
                         && round(retrieve(model.value)) != round(newValue)
    ensures r.Some? ==> r.value == EditAction(model.value, newValue)
  {
    match model
    case None => None
    case Some(k) =>
      if ConditionHolds(condition, k) && round(retrieve(k)) != round(newValue) then Some(EditAction(k, newValue))
      else None
  }

  function DoubleSpinnerModelUpdate(spinnerValue: real, newModelValue: real, round: real -> real): (r: Option<real>)
    ensures r.Some? <==> round(spinnerValue) != round(newModelValue)
    ensures r.Some? ==> r.value == newModelValue
  {
    if round(spinnerValue) != round(newModelValue) then Some(newModelValue) else None
  }

  /** `createDoubleSpinnerBinding` passes a null condition, which behaves as a condition that always holds. */
  lemma NullConditionAlwaysHolds<K>(model: Option<K>, retrieve: K -> real, newValue: real, round: real -> real)
    ensures DoubleSpinnerFieldAction(model, retrieve, None, newValue, round)
            == DoubleSpinnerFieldAction(model, retrieve, Some(_ => true), newValue, round)
  {
  }

  /** The value the model listener writes into the spinner does not come back as an action. */
  lemma DoubleSpinnerEchoSuppressed<K>(m: K, retrieve: K -> real, condition: Option<K -> bool>,
                                       spinnerValue: real, round: real -> real)
    requires DoubleSpinnerModelUpdate(spinnerValue, retrieve(m), round).Some?
    ensures var written := DoubleSpinnerModelUpdate(spinnerValue, retrieve(m), round).value;
            DoubleSpinnerFieldAction(Some(m), retrieve, condition, written, round).None?
  {
  }

  // ---------------------------------------------------------------------------
  // Integer-to-double spinner binding (createIntegerToDoubleSpinnerBinding)
  // ---------------------------------------------------------------------------

  function IntToDoubleSpinnerFieldAction<K>(model: Option<K>, retrieve: K -> int, factor: real,
                                            newValue: real, round: real -> real): (r: Option<EditAction<K, int>>)
    requires factor != 0.0
    ensures model.None? ==> r.None?
    ensures r.Some? <==> model.Some? && round(retrieve(model.value) as real / factor) != round(newValue)
    ensures r.Some? ==> r.value == EditAction(model.value, IntCast(newValue * factor))
  {
    match model
    case None => None
    case Some(k) =>
      if round(retrieve(k) as real / factor) != round(newValue) then Some(EditAction(k, IntCast(newValue * factor)))
      else None
  }

  function IntToDoubleSpinnerModelUpdate(spinnerValue: real, newModelValue: int, factor: real,
                                         round: real -> real): (r: Option<real>)
    requires factor != 0.0
    ensures r.Some? <==> round(spinnerValue) != round(newModelValue as real / factor)
    ensures r.Some? ==> r.value == newModelValue as real / factor
  {
    if round(spinnerValue) != round(newModelValue as real / factor) then Some(newModelValue as real / factor) else None
  }

  /**
   * A spinner value that the factor maps to a whole number within `int` range
   * survives the round trip: the action stores that number, and the model
   * listener then finds the spinner already showing it.
   */
  lemma IntToDoubleRoundTrip<K>(m: K, retrieve: K -> int, factor: real, spinnerValue: real, round: real -> real)
    requires factor != 0.0
    requires (spinnerValue * factor).Floor as real == spinnerValue * factor
    requires IntMin as real <= spinnerValue * factor <= IntMax as real
    requires IntToDoubleSpinnerFieldAction(Some(m), retrieve, factor, spinnerValue, round).Some?
    ensures var stored := IntToDoubleSpinnerFieldAction(Some(m), retrieve, factor, spinnerValue, round).value.value;
            && stored as real == spinnerValue * factor
            && IntToDoubleSpinnerModelUpdate(spinnerValue, stored, factor, round).None?
  {
    var stored := IntCast(spinnerValue * factor);
    assert stored as real == spinnerValue * factor;
    assert stored as real / factor == spinnerValue;
  }

  // ---------------------------------------------------------------------------
  // Simple binding (createSimpleBindingWithTransformer, createSimpleBinding)
  // ---------------------------------------------------------------------------

  /** `transformer != null ? transformer.apply(v) : v`. */
  function Transformed<T>(transformer: Option<T -> T>, v: T): T
  {
    match transformer
    case None => v
    case Some(f) => f(v)
  }

  function SimpleFieldAction<K, T(==)>(model: Option<K>, retrieve: K -> T, transformer: Option<T -> T>,
                                       newValue: T): (r: Option<EditAction<K, T>>)
    ensures model.None? ==> r.None?
    ensures r.Some? <==> model.Some? && retrieve(model.value) != Transformed(transformer, newValue)
    ensures r.Some? ==> r.value == EditAction(model.value, Transformed(transformer, newValue))
  {
    match model
    case None => None
    case Some(k) =>
      var nv := Transformed(transformer, newValue);
      if retrieve(k) != nv then Some(EditAction(k, nv)) else None
  }

  function SimpleModelUpdate<T(==)>(fieldValue: T, transformer: Option<T -> T>, newValue: T): (r: Option<T>)
    ensures r.Some? <==> fieldValue != Transformed(transformer, newValue)
    ensures r.Some? ==> r.value == Transformed(transformer, newValue)
  {
    var nv := Transformed(transformer, newValue);
    if fieldValue != nv then Some(nv) else None
  }

  /**
   * The field value written by the model listener comes back as an action exactly
   * when transforming it a second time does not give the model's value back; with
   * no transformer (`createSimpleBinding`) it never does.
   */
  lemma SimpleBindingEcho<K, T>(m: K, retrieve: K -> T, transformer: Option<T -> T>, fieldValue: T)
    requires SimpleModelUpdate(fieldValue, transformer, retrieve(m)).Some?
    ensures var written := SimpleModelUpdate(fieldValue, transformer, retrieve(m)).value;
            && (SimpleFieldAction(Some(m), retrieve, transformer, written).Some?
                <==> Transformed(transformer, Transformed(transformer, retrieve(m))) != retrieve(m))
            && (transformer.None? ==> SimpleFieldAction(Some(m), retrieve, transformer, written).None?)
  {
  }

  // ---------------------------------------------------------------------------
  // Map-to-list mirroring (createBindMapValue)
  // ---------------------------------------------------------------------------

  /** `List.remove(Object)`: drops the first occurrence of `x`, if any. */
  function RemoveFirst<V(==)>(s: seq<V>, x: V): seq<V>
  {
    if s == [] then []
    else if s[0] == x then s[1..]
    else [s[0]] + RemoveFirst(s[1..], x)
  }

  /** The list after one map change: the added value is appended, then the removed one removed. */
  function Mirrored<V(==)>(s: seq<V>, added: Option<V>, removed: Option<V>): seq<V>
  {
    var withAdded := if added.Some? then s + [added.value] else s;
    if removed.Some? then RemoveFirst(withAdded, removed.value) else withAdded
  }

  /** `indexOf`: the position of the first occurrence of `x`, or -1. */
  method IndexOf<V(==)>(s: seq<V>, x: V) returns (i: int)
    ensures -1 <= i < |s|
    ensures i == -1 <==> x !in s
    ensures 0 <= i ==> s[i] == x && x !in s[..i]
  {
    i := 0;
    while i < |s|
      invariant 0 <= i <= |s|
      invariant x !in s[..i]
    {
      if s[i] == x {
        return;
      }
      assert s[..i + 1] == s[..i] + [s[i]];
      i := i + 1;
    }
    assert s[..i] == s;
    i := -1;
  }

  /** Removing a value that occurs first at `k` cuts exactly position `k` out of the list. */
  lemma {:induction false} RemoveFirstAt<V>(s: seq<V>, x: V, k: nat)
    requires k < |s| && s[k] == x && x !in s[..k]
    ensures RemoveFirst(s, x) == s[..k] + s[k + 1..]
  {
    if k > 0 {
      assert s[0] != x by { assert s[0] == s[..k][0]; }
      assert s[1..][..k - 1] == s[1..k];
      assert s[1..k] == s[..k][1..];
      RemoveFirstAt(s[1..], x, k - 1);
      assert s[..k] == [s[0]] + s[1..][..k - 1];
      assert s[k + 1..] == s[1..][k..];
    }
  }

  /** Removing a value the list does not hold leaves it as it is. */
  lemma {:induction false} RemoveFirstAbsent<V>(s: seq<V>, x: V)
    requires x !in s
    ensures RemoveFirst(s, x) == s
  {
    if s != [] {
      assert s == [s[0]] + s[1..];
      RemoveFirstAbsent(s[1..], x);
    }
  }

  /** Removal takes one occurrence of `x` away and leaves every other value's count alone. */
  lemma {:induction false} RemoveFirstMultiset<V>(s: seq<V>, x: V)
    ensures multiset(RemoveFirst(s, x)) == multiset(s) - multiset{x}
  {
    if s != [] {
      assert s == [s[0]] + s[1..];
      if s[0] != x {
        RemoveFirstMultiset(s[1..], x);
      }
    }
  }

  class MirroredList<V(==)> {
    var items: seq<V>

    constructor (initial: seq<V>)
      ensures items == initial
    {
      items := initial;
    }

    /** The listener returned by `createBindMapValue`, applied to one map change. */
    method OnMapChange(added: Option<V>, removed: Option<V>)
      modifies this
      ensures items == Mirrored(old(items), added, removed)
    {
      if added.Some? {
        items := items + [added.value];
      }
      if removed.Some? {
        var i := IndexOf(items, removed.value);
        if i >= 0 {
          RemoveFirstAt(items, removed.value, i);
          items := items[..i] + items[i + 1..];
        } else {
          RemoveFirstAbsent(items, removed.value);
        }
      }
    }
  }

  /**
   * One map change adds the added value and takes away one occurrence of the removed
   * one: the list's contents change by exactly that, and no value is added or lost otherwise.
   */
  lemma MirroredContents<V>(s: seq<V>, added: Option<V>, removed: Option<V>)
    ensures multiset(Mirrored(s, added, removed))
            == multiset(s)
               + (if added.Some? then multiset{added.value} else multiset{})
               - (if removed.Some? then multiset{removed.value} else multiset{})
  {
    var withAdded := if added.Some? then s + [added.value] else s;
    if removed.Some? {
      RemoveFirstMultiset(withAdded, removed.value);
    }
  }

  /** A change with no added and no removed value leaves the list untouched. */
  lemma MirroredNullChange<V>(s: seq<V>)
    ensures Mirrored(s, None, None) == s
  {
  }

  /**
   * Adding happens before removing. A change that replaces a value by an equal one
   * keeps the contents, but the value moves from its first position to the end.
   */
  lemma MirroredReplaceSameValueMovesToEnd<V>(v: V, rest: seq<V>)
    requires v !in rest
    ensures Mirrored([v] + rest, Some(v), Some(v)) == rest + [v]
  {
    RemoveFirstAt([v] + rest + [v], v, 0);
    assert ([v] + rest + [v])[1..] == rest + [v];
  }
}
