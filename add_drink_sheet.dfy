/**
 * The logic of the add/edit sheet, components/AddDrinkSheet.tsx: which table
 * row the sheet works with, the volume and strength choices it offers, the
 * state it starts from and re-initialises, and which callbacks a press on its
 * button fires.
 */
module AddDrinkSheet {
  import opened Wrappers
  import opened Storage
  import opened DrinkTypes

  /** An instant, identified with the ISO-8601 text it is parsed from. */
  type Time = string

  // ---------------------------------------------------------------------------
  // Derived values

  /** `editingDrink?.type || initialDrinkType`: an empty type counts as absent. */
  function TypeKey(editing: Option<Drink>, initialDrinkType: string): (key: string)
    ensures editing.Some? && editing.value.kind != "" ==> key == editing.value.kind
    ensures (editing.None? || editing.value.kind == "") ==> key == initialDrinkType
    ensures key == "" ==> initialDrinkType == ""
  {
    if editing.Some? && editing.value.kind != "" then editing.value.kind else initialDrinkType
  }

  /**
   * The table row whose id is the type key, falling back to the first row
   * (beer) when no row has that id.
   */
  function SelectedDrinkType(editing: Option<Drink>, initialDrinkType: string): (t: DrinkType)
    ensures WellFormed(t)
  {
    TableWellFormed();
    match FindById(Types, TypeKey(editing, initialDrinkType))
    case Some(t) => t
    case None => Types[0]
  }

  /**
   * The selected row is a row of the table: the one whose id is the type key
   * when the table has one, and the first row otherwise.
   */
  lemma SelectedMatchesKey(editing: Option<Drink>, initialDrinkType: string)
    ensures SelectedDrinkType(editing, initialDrinkType) in Types
    ensures (exists u :: u in Types && u.id == TypeKey(editing, initialDrinkType)) ==>
              SelectedDrinkType(editing, initialDrinkType).id == TypeKey(editing, initialDrinkType)
    ensures (forall u :: u in Types ==> u.id != TypeKey(editing, initialDrinkType)) ==>
              SelectedDrinkType(editing, initialDrinkType) == Types[0]
  {
  }

  /** Opening the sheet for a row's own id, with no drink being edited, selects that row. */
  lemma SelectsRequestedRow(k: nat)
    requires k < |Types|
    ensures SelectedDrinkType(None, Types[k].id) == Types[k]
  {
    FindOwnId(k);
  }

  /** `editingDrink?.abv || selectedDrinkType.abv`: a strength of 0 counts as absent. */
  function InitialAbv(editing: Option<Drink>, t: DrinkType): (abv: real)
    ensures editing.Some? && editing.value.abv != 0.0 ==> abv == editing.value.abv
    ensures (editing.None? || editing.value.abv == 0.0) ==> abv == t.abv
    ensures abv == 0.0 ==> t.abv == 0.0
  {
    if editing.Some? && editing.value.abv != 0.0 then editing.value.abv else t.abv
  }

  /** The time the sheet is initialised with: the edited drink's, else the selected date. */
  function InitialTime(editing: Option<Drink>, selectedDate: Time): (time: Time)
    ensures editing.Some? ==> time == editing.value.timestamp
    ensures editing.None? ==> time == selectedDate
  {
    if editing.Some? then editing.value.timestamp else selectedDate
  }

  /**
   * The volume choices: `floor((max - min) / step) + 1` of them (none when that
   * is not positive), the i-th being `min + i * step`.
   */
  function VolumeOptions(t: DrinkType): (opts: seq<real>)
    requires t.volumeStep > 0.0
    ensures var n := StepsFrom(t.minVolume, t.maxVolume, t.volumeStep) + 1;
            |opts| == if n < 0 then 0 else n
    ensures t.minVolume <= t.maxVolume ==> |opts| >= 1
    ensures forall i :: 0 <= i < |opts| ==> opts[i] == t.minVolume + i as real * t.volumeStep
    ensures forall i, j :: 0 <= i < j < |opts| ==> opts[i] < opts[j]
    ensures forall i :: 0 <= i < |opts| ==> t.minVolume <= opts[i] <= t.maxVolume
  {
    var n := StepsFrom(t.minVolume, t.maxVolume, t.volumeStep) + 1;
    var opts := Grid(t.minVolume, t.volumeStep, if n < 0 then 0 else n);
    GridIncreasing(t.minVolume, t.volumeStep, |opts|);
    GridWithinRange(t.minVolume, t.maxVolume, t.volumeStep, |opts|);
    opts
  }

  /** `n` points `step` apart, starting at `lo`. */
  function Grid(lo: real, step: real, n: nat): (g: seq<real>)
    ensures |g| == n
    ensures forall i :: 0 <= i < n ==> g[i] == lo + i as real * step
  {
    seq(n, i => lo + i as real * step)
  }

  lemma GridIncreasing(lo: real, step: real, n: nat)
    requires step > 0.0
    ensures forall i, j :: 0 <= i < j < n ==> Grid(lo, step, n)[i] < Grid(lo, step, n)[j]
  {
    var g := Grid(lo, step, n);
    forall i, j | 0 <= i < j < n ensures g[i] < g[j] {
      StepIncreasing(i, j, lo, step);
      assert g[j] - g[i] == (j - i) as real * step;
    }
  }

  lemma GridWithinRange(lo: real, hi: real, step: real, n: nat)
    requires step > 0.0 && (n == 0 || n <= StepsFrom(lo, hi, step) + 1)
    ensures forall i :: 0 <= i < n ==> lo <= Grid(lo, step, n)[i] <= hi
  {
    forall i | 0 <= i < n ensures lo <= Grid(lo, step, n)[i] <= hi {
      StepWithinRange(i, lo, hi, step);
    }
  }

  /** A point a whole number of steps above `lo`, no more than those fitting below `hi`, is at most `hi`. */
  lemma StepWithinRange(i: int, lo: real, hi: real, step: real)
    requires step > 0.0 && 0 <= i <= StepsFrom(lo, hi, step)
    ensures lo <= lo + i as real * step <= hi
  {
    var q := (hi - lo) / step;
    assert i as real <= q;
    assert q * step == hi - lo;
    assert (q - i as real) * step >= 0.0;
  }

  lemma StepIncreasing(i: int, j: int, lo: real, step: real)
    requires step > 0.0 && i < j
    ensures (j - i) as real * step > 0.0
    ensures lo + i as real * step < lo + j as real * step
  {
    assert (j - i) as real * step > 0.0;
  }

  /** The strength choices: 41 of them, the i-th being `(i + 3) / 100`, from 3% to 43%. */
  function AbvOptions(): (opts: seq<real>)
    ensures |opts| == 41
    ensures forall i :: 0 <= i < |opts| ==> opts[i] == (i + 3) as real / 100.0
    ensures opts[0] == 0.03 && opts[40] == 0.43
    ensures forall i, j :: 0 <= i < j < |opts| ==> opts[i] < opts[j]
    ensures forall i :: 0 <= i < |opts| ==> 0.0 < opts[i] < 1.0
  {
    seq(41, i => (i + 3) as real / 100.0)
  }

  /** A volume a whole number of steps above the minimum, and not above the maximum, is offered. */
  lemma OnGridIsOffered(t: DrinkType, x: real)
    requires t.volumeStep > 0.0
    requires OnGrid(x, t.minVolume, t.volumeStep) && x <= t.maxVolume
    ensures x in VolumeOptions(t)
  {
    var step := t.volumeStep;
    var k := StepsFrom(t.minVolume, x, step);
    var a := (x - t.minVolume) / step;
    var b := (t.maxVolume - t.minVolume) / step;
    assert a * step == x - t.minVolume && b * step == t.maxVolume - t.minVolume;
    assert (b - a) * step == t.maxVolume - x;
    assert 0.0 <= a <= b;
    assert 0 <= k <= StepsFrom(t.minVolume, t.maxVolume, step);
    assert VolumeOptions(t)[k] == x;
  }

  /** Every row's default volume and default strength are among the choices the sheet offers for it. */
  lemma DefaultsAreOffered()
    ensures forall t :: t in Types ==> t.defaultVolume in VolumeOptions(t) && t.abv in AbvOptions()
  {
    TableWellFormed();
    forall t | t in Types ensures t.defaultVolume in VolumeOptions(t) {
      OnGridIsOffered(t, t.defaultVolume);
    }
    var abvs := AbvOptions();
    assert abvs[2] == 0.05 && abvs[9] == 0.12 && abvs[37] == 0.40;
  }

  // ---------------------------------------------------------------------------
  // The component

  /** A call the sheet makes to its parent. */
  datatype Callback =
    | OnAdd(typeId: string, volume: real, abv: real, time: Time)
    | OnEdit(volume: real, abv: real, time: Time)
    | OnClose

  /**
   * One mounted sheet: its props (the drink being edited, the requested type,
   * the selected date) and its state (volume, strength and the time it submits).
   */
  class Sheet {
    var editingDrink: Option<Drink>
    var initialDrinkType: string
    var selectedDate: Time
    var volume: real
    var abv: real
    /** `useState` without a setter: only its initial value is ever used. */
    var selectedTime: Time

    /** The row chosen on every render from the current props. */
    function SelectedType(): (t: DrinkType)
      reads this
      ensures WellFormed(t)
    {
      SelectedDrinkType(editingDrink, initialDrinkType)
    }

    /** First render: the `useState` initial values. */
    constructor Mount(editing: Option<Drink>, initialType: string, date: Time)
      ensures editingDrink == editing && initialDrinkType == initialType && selectedDate == date
      ensures volume == SelectedDrinkType(editing, initialType).defaultVolume
      ensures abv == InitialAbv(editing, SelectedDrinkType(editing, initialType))
      ensures selectedTime == InitialTime(editing, date)
    {
      var t := SelectedDrinkType(editing, initialType);
      var v, a, time := t.defaultVolume, InitialAbv(editing, t), InitialTime(editing, date);
      editingDrink, initialDrinkType, selectedDate := editing, initialType, date;
      volume, abv, selectedTime := v, a, time;
    }

    /**
     * The effect: loads the edited drink's volume and strength, or the selected
     * row's defaults when nothing is being edited.
     */
    method RunEffect()
      modifies this`volume, this`abv
      ensures editingDrink.Some? ==> volume == editingDrink.value.volume && abv == editingDrink.value.abv
      ensures editingDrink.None? ==> volume == SelectedType().defaultVolume && abv == SelectedType().abv
    {
      if editingDrink.Some? {
        volume := editingDrink.value.volume;
        abv := editingDrink.value.abv;
      } else {
        var t := SelectedType();
        volume := t.defaultVolume;
        abv := t.abv;
      }
    }

    /**
     * A later render with new props; the effect runs again only when
     * `editingDrink` or `initialDrinkType` changed. The submitted time is not
     * recomputed.
     */
    method Rerender(editing: Option<Drink>, initialType: string, date: Time)
      modifies this
      ensures editingDrink == editing && initialDrinkType == initialType && selectedDate == date
      ensures selectedTime == old(selectedTime)
      ensures (editing != old(editingDrink) || initialType != old(initialDrinkType)) ==>
                if editing.Some? then volume == editing.value.volume && abv == editing.value.abv
                else volume == SelectedType().defaultVolume && abv == SelectedType().abv
      ensures !(editing != old(editingDrink) || initialType != old(initialDrinkType)) ==>
                volume == old(volume) && abv == old(abv)
    {
      var changed := editing != editingDrink || initialType != initialDrinkType;
      editingDrink, initialDrinkType, selectedDate := editing, initialType, date;
      if changed {
        RunEffect();
      }
    }

    /**
     * The render as evidently intended: when the effect runs it also
     * re-initialises the submitted time from the new props.
     */
    method RerenderIntended(editing: Option<Drink>, initialType: string, date: Time)
      modifies this
      ensures editingDrink == editing && initialDrinkType == initialType && selectedDate == date
      ensures (editing != old(editingDrink) || initialType != old(initialDrinkType)) ==>
                selectedTime == InitialTime(editing, date) &&
                if editing.Some? then volume == editing.value.volume && abv == editing.value.abv
                else volume == SelectedType().defaultVolume && abv == SelectedType().abv
      ensures !(editing != old(editingDrink) || initialType != old(initialDrinkType)) ==>
                volume == old(volume) && abv == old(abv) && selectedTime == old(selectedTime)
    {
      var changed := editing != editingDrink || initialType != initialDrinkType;
      editingDrink, initialDrinkType, selectedDate := editing, initialType, date;
      if changed {
        RunEffect();
        selectedTime := InitialTime(editing, date);
      }
    }

    /** Pressing one of the offered volumes selects it. */
    method ChooseVolume(v: real)
      requires v in VolumeOptions(SelectedType())
      modifies this`volume
      ensures volume == v
      ensures SelectedType().minVolume <= volume <= SelectedType().maxVolume
    {
      volume := v;
    }

    /** Pressing one of the offered strengths selects it. */
    method ChooseAbv(a: real)
      requires a in AbvOptions()
      modifies this`abv
      ensures abv == a && 0.03 <= abv <= 0.43
    {
      abv := a;
    }

    /**
     * `handleSubmit`: hands the edit to `onEdit` when a drink is being edited
     * and `onEdit` was given, otherwise the new drink to `onAdd` if given, and
     * in every case then closes the sheet, exactly once.
     */
    method HandleSubmit(hasOnAdd: bool, hasOnEdit: bool) returns (calls: seq<Callback>)
      ensures |calls| >= 1 && calls[|calls| - 1] == OnClose
      ensures multiset(calls)[OnClose] == 1
      ensures editingDrink.Some? && hasOnEdit ==> calls == [OnEdit(volume, abv, selectedTime), OnClose]
      ensures !(editingDrink.Some? && hasOnEdit) && hasOnAdd ==>
                calls == [OnAdd(SelectedType().id, volume, abv, selectedTime), OnClose]
      ensures !(editingDrink.Some? && hasOnEdit) && !hasOnAdd ==> calls == [OnClose]
    {
      if editingDrink.Some? && hasOnEdit {
        calls := [OnEdit(volume, abv, selectedTime), OnClose];
      } else if hasOnAdd {
        calls := [OnAdd(SelectedType().id, volume, abv, selectedTime), OnClose];
      } else {
        calls := [OnClose];
      }
    }
  }

  /**
   * The sheet as the main screen uses it: mounted once with nothing to edit,
   * then re-rendered with a drink to edit. Submitting hands `onEdit` the time of
   * the first render, not the edited drink's timestamp.
   */
  method EditAfterMountSubmitsMountTime() returns (calls: seq<Callback>, edited: Drink, mountTime: Time)
    ensures edited.timestamp != mountTime
    ensures calls == [OnEdit(edited.volume, edited.abv, mountTime), OnClose]
  {
    mountTime := "2024-05-04T08:00:00.000Z";
    edited := Drink("d1", "wine", 6.0, 0.13, "2024-05-03T21:30:00.000Z");
    var sheet := new Sheet.Mount(None, "", mountTime);
    sheet.RunEffect();
    sheet.Rerender(Some(edited), "", mountTime);
    calls := sheet.HandleSubmit(true, true);
  }

  /** The same sequence with the intended render submits the edited drink's own timestamp. */
  method EditAfterMountSubmitsDrinkTime() returns (calls: seq<Callback>, edited: Drink)
    ensures calls == [OnEdit(edited.volume, edited.abv, edited.timestamp), OnClose]
  {
    var mountTime := "2024-05-04T08:00:00.000Z";
    edited := Drink("d1", "wine", 6.0, 0.13, "2024-05-03T21:30:00.000Z");
    var sheet := new Sheet.Mount(None, "", mountTime);
    sheet.RunEffect();
    sheet.RerenderIntended(Some(edited), "", mountTime);
    calls := sheet.HandleSubmit(true, true);
  }
}
