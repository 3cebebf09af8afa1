/**
 * The sensor configuration panel: it splits the selected sensor's parameters into
 * runtime ("live") and boot (reboot-required) blocks, picks an editor per row from the
 * run-time kind of the pending value, and disables each block's button while its
 * request is in flight.
 */
module SensorSection {
  import opened Wrappers
  import opened Dict
  import opened Types
  import Strings

  /** The entries of `params` whose `requires_reboot` reading equals `boot`, in order. */
  function FilterByReboot(params: Entries<SensorParameter>, boot: bool): (r: Entries<SensorParameter>)
    ensures forall e :: e in r <==> e in params && RequiresReboot(e.1) == boot
    ensures IsSubsequence(r, params)
  {
    if params == [] then []
    else if RequiresReboot(params[0].1) == boot then [params[0]] + FilterByReboot(params[1..], boot)
    else FilterByReboot(params[1..], boot)
  }

  /** `runtimeParams`: nothing without a selected sensor, else its live entries in order. */
  function RuntimeParams(selected: Option<Sensor>): (r: Entries<SensorParameter>)
    ensures selected.None? ==> r == []
    ensures selected.Some? ==> IsSubsequence(r, selected.value.params)
    ensures selected.Some? ==> forall e :: e in r <==> e in selected.value.params && !RequiresReboot(e.1)
  {
    match selected
    case Some(s) => FilterByReboot(s.params, false)
    case None => []
  }

  /** `bootParams`: nothing without a selected sensor, else its reboot-required entries in order. */
  function BootParams(selected: Option<Sensor>): (r: Entries<SensorParameter>)
    ensures selected.None? ==> r == []
    ensures selected.Some? ==> IsSubsequence(r, selected.value.params)
    ensures selected.Some? ==> forall e :: e in r <==> e in selected.value.params && RequiresReboot(e.1)
  {
    match selected
    case Some(s) => FilterByReboot(s.params, true)
    case None => []
  }

  lemma {:induction false} FilterCounts(params: Entries<SensorParameter>)
    ensures multiset(FilterByReboot(params, false)) + multiset(FilterByReboot(params, true)) == multiset(params)
  {
    if params != [] {
      FilterCounts(params[1..]);
      assert params == [params[0]] + params[1..];
    }
  }

  /**
   * The two blocks partition the selected sensor's entries: together they hold each
   * entry exactly as often as the sensor does, each keeps the original order, no key
   * appears in both, and without a selection both are empty.
   */
  lemma Partition(selected: Option<Sensor>)
    ensures selected.None? ==> RuntimeParams(selected) == [] && BootParams(selected) == []
    ensures selected.Some? ==>
      && multiset(RuntimeParams(selected)) + multiset(BootParams(selected)) == multiset(selected.value.params)
      && IsSubsequence(RuntimeParams(selected), selected.value.params)
      && IsSubsequence(BootParams(selected), selected.value.params)
    ensures selected.Some? && DistinctKeys(selected.value.params) ==>
      forall k :: k in Keys(RuntimeParams(selected)) ==> k !in Keys(BootParams(selected))
  {
    if selected.Some? {
      var s := selected.value;
      var live, boot := RuntimeParams(selected), BootParams(selected);
      FilterCounts(s.params);
      if DistinctKeys(s.params) {
        forall k | k in Keys(live)
          ensures k !in Keys(boot)
        {
          var i :| 0 <= i < |live| && live[i].0 == k;
          if k in Keys(boot) {
            var j :| 0 <= j < |boot| && boot[j].0 == k;
            assert live[i] in live && boot[j] in boot;
            SameKeySameValue(s.params, k, live[i].1, boot[j].1);
            assert false;
          }
        }
      }
    }
  }

  /** A name is a key of the sensor exactly when it is a key of one of the two blocks. */
  lemma BlocksCoverKeys(params: Entries<SensorParameter>)
    ensures forall k :: k in Keys(params) <==> k in Keys(FilterByReboot(params, false)) || k in Keys(FilterByReboot(params, true))
  {
    forall k | k in Keys(params)
      ensures k in Keys(FilterByReboot(params, false)) || k in Keys(FilterByReboot(params, true))
    {
      var i :| 0 <= i < |params| && Keys(params)[i] == k;
      KeyOfKeptEntry(params, RequiresReboot(params[i].1), params[i]);
    }
    forall k | k in Keys(FilterByReboot(params, false)) || k in Keys(FilterByReboot(params, true))
      ensures k in Keys(params)
    {
      var boot := k !in Keys(FilterByReboot(params, false));
      var kept := FilterByReboot(params, boot);
      var j :| 0 <= j < |kept| && Keys(kept)[j] == k;
      assert kept[j] in params;
      var i :| 0 <= i < |params| && params[i] == kept[j];
      assert Keys(params)[i] == k;
    }
  }

  lemma KeyOfKeptEntry(params: Entries<SensorParameter>, boot: bool, e: (string, SensorParameter))
    requires e in params && RequiresReboot(e.1) == boot
    ensures e.0 in Keys(FilterByReboot(params, boot))
  {
    var kept := FilterByReboot(params, boot);
    assert e in kept;
    var j :| 0 <= j < |kept| && kept[j] == e;
    assert Keys(kept)[j] == e.0;
  }

  /** The control rendered for a row, chosen by `typeof sensorParams[paramName]`. */
  datatype Editor = SliderAndNumberBox | TextBox | Checkbox | NoEditor

  /**
   * The control for a row, from the `typeof` of its pending value: none without a value,
   * and otherwise one that hands back exactly the values of the pending value's kind.
   */
  function EditorFor(pending: Option<Value>): (r: Editor)
    ensures r == NoEditor <==> pending.None?
    ensures forall v :: EditorProduces(r, v) <==> pending.Some? && SameKind(pending.value, v)
  {
    match pending
    case Some(Num(_)) => SliderAndNumberBox
    case Some(Str(_)) => TextBox
    case Some(Bool(_)) => Checkbox
    case None => NoEditor
  }

  /** The kind of value each control hands back to `handleParamChange`. */
  predicate EditorProduces(e: Editor, v: Value) {
    match e
    case SliderAndNumberBox => v.Num?
    case TextBox => v.Str?
    case Checkbox => v.Bool?
    case NoEditor => false
  }

  predicate SameKind(a: Value, b: Value) {
    (a.Num? && b.Num?) || (a.Str? && b.Str?) || (a.Bool? && b.Bool?)
  }

  /**
   * `handleParamChange` called from a row's control keeps the buffer's keys, and the
   * edited entry keeps its run-time kind, so the row keeps its control.
   */
  lemma EditsKeepKind(pending: Entries<Value>, name: string, edited: Value)
    requires EditorProduces(EditorFor(Get(pending, name)), edited)
    ensures Keys(Put(pending, name, edited)) == Keys(pending)
    ensures SameKind(Get(pending, name).value, Get(Put(pending, name, edited), name).value)
    ensures EditorFor(Get(Put(pending, name, edited), name)) == EditorFor(Get(pending, name))
  {
  }

  /** Slider and number-box limits: the declared range, else 0..100. */
  function Bounds(p: SensorParameter): (r: (int, int))
    ensures p.range.Some? ==> r == p.range.value
    ensures p.range.None? ==> r == (0, 100)
  {
    match p.range
    case Some(r) => r
    case None => (0, 100)
  }

  datatype Row = Row(caption: string, editor: Editor, bounds: (int, int))

  function RowFor(entry: (string, SensorParameter), pending: Entries<Value>): Row {
    Row(Strings.Capitalize(entry.0), EditorFor(Get(pending, entry.0)), Bounds(entry.1))
  }

  function Rows(entries: Entries<SensorParameter>, pending: Entries<Value>): (rows: seq<Row>)
    ensures |rows| == |entries|
    ensures forall i :: 0 <= i < |entries| ==> rows[i] == RowFor(entries[i], pending)
  {
    if entries == [] then [] else [RowFor(entries[0], pending)] + Rows(entries[1..], pending)
  }

  /** A visible block: its parameter rows and whether its button is disabled. */
  datatype Block = Block(rows: seq<Row>, buttonDisabled: bool)

  /** `None` for a block that is not rendered. */
  datatype Panel = Panel(runtime: Option<Block>, boot: Option<Block>)

  /**
   * The panel: nothing without a selected sensor; a shown block has one row per parameter
   * of its kind, and its button follows the matching in-flight flag.
   */
  function Render(selected: Option<Sensor>, pending: Entries<Value>, isSaving: bool, isRebooting: bool): (r: Panel)
    ensures selected.None? ==> r.runtime.None? && r.boot.None?
    ensures r.runtime.Some? ==> |r.runtime.value.rows| == |RuntimeParams(selected)| > 0 && r.runtime.value.buttonDisabled == isSaving
    ensures r.boot.Some? ==> |r.boot.value.rows| == |BootParams(selected)| > 0 && r.boot.value.buttonDisabled == isRebooting
  {
    var live, boot := RuntimeParams(selected), BootParams(selected);
    Panel(
      if |live| > 0 then Some(Block(Rows(live, pending), isSaving)) else None,
      if |boot| > 0 then Some(Block(Rows(boot, pending), isRebooting)) else None)
  }

  lemma BlockShownIffPresent(params: Entries<SensorParameter>, boot: bool)
    ensures |FilterByReboot(params, boot)| > 0 <==> exists e :: e in params && RequiresReboot(e.1) == boot
  {
    var kept := FilterByReboot(params, boot);
    if exists e :: e in params && RequiresReboot(e.1) == boot {
      var e :| e in params && RequiresReboot(e.1) == boot;
      assert e in kept;
    }
    if |kept| > 0 {
      assert kept[0] in kept;
    }
  }

  lemma KeyOfEntry(e: (string, SensorParameter), params: Entries<SensorParameter>)
    requires e in params
    ensures e.0 in Keys(params)
  {
    var j :| 0 <= j < |params| && params[j] == e;
    assert Keys(params)[j] == e.0;
  }

  /** While the pending buffer has the sensor's keys, every row built from its entries has an editor. */
  lemma RowsHaveEditors(entries: Entries<SensorParameter>, params: Entries<SensorParameter>, pending: Entries<Value>)
    requires Keys(pending) == Keys(params)
    requires forall e :: e in entries ==> e in params
    ensures forall r :: r in Rows(entries, pending) ==> r.editor != NoEditor
  {
    var rows := Rows(entries, pending);
    forall i | 0 <= i < |rows|
      ensures rows[i].editor != NoEditor
    {
      assert entries[i] in entries;
      KeyOfEntry(entries[i], params);
      assert Get(pending, entries[i].0).Some?;
    }
  }

  /**
   * Which blocks the panel shows: the runtime block (with the save button) exactly when
   * the selected sensor has a live parameter, the boot block (with the reboot button)
   * exactly when it has a reboot-required one; the save button is disabled exactly while
   * saving and the reboot button exactly while rebooting.
   */
  lemma RenderVisibility(selected: Option<Sensor>, pending: Entries<Value>, isSaving: bool, isRebooting: bool)
    ensures var panel := Render(selected, pending, isSaving, isRebooting);
      && (panel.runtime.Some? <==> selected.Some? && exists e :: e in selected.value.params && !RequiresReboot(e.1))
      && (panel.boot.Some? <==> selected.Some? && exists e :: e in selected.value.params && RequiresReboot(e.1))
      && (panel.runtime.Some? ==> panel.runtime.value.buttonDisabled == isSaving)
      && (panel.boot.Some? ==> panel.boot.value.buttonDisabled == isRebooting)
  {
    if selected.Some? {
      BlockShownIffPresent(selected.value.params, false);
      BlockShownIffPresent(selected.value.params, true);
    }
  }

  /**
   * One row per parameter of a shown block, in the block's order, captioned with the
   * capitalised parameter name and bounded by the declared range or else 0..100.
   */
  lemma RenderRows(selected: Option<Sensor>, pending: Entries<Value>, isSaving: bool, isRebooting: bool)
    ensures var panel := Render(selected, pending, isSaving, isRebooting);
      var live := RuntimeParams(selected);
      panel.runtime.Some? ==>
        && |panel.runtime.value.rows| == |live|
        && forall i :: 0 <= i < |live| ==>
             && panel.runtime.value.rows[i].caption == Strings.Capitalize(live[i].0)
             && panel.runtime.value.rows[i].bounds == (if live[i].1.range.Some? then live[i].1.range.value else (0, 100))
    ensures var panel := Render(selected, pending, isSaving, isRebooting);
      var boot := BootParams(selected);
      panel.boot.Some? ==>
        && |panel.boot.value.rows| == |boot|
        && forall i :: 0 <= i < |boot| ==>
             && panel.boot.value.rows[i].caption == Strings.Capitalize(boot[i].0)
             && panel.boot.value.rows[i].bounds == (if boot[i].1.range.Some? then boot[i].1.range.value else (0, 100))
  {
  }

  /** While the pending buffer has exactly the selected sensor's keys, every shown row has an editor. */
  lemma RenderEditors(selected: Option<Sensor>, pending: Entries<Value>, isSaving: bool, isRebooting: bool)
    requires selected.Some? && Keys(pending) == Keys(selected.value.params)
    ensures var panel := Render(selected, pending, isSaving, isRebooting);
      && (panel.runtime.Some? ==> forall r :: r in panel.runtime.value.rows ==> r.editor != NoEditor)
      && (panel.boot.Some? ==> forall r :: r in panel.boot.value.rows ==> r.editor != NoEditor)
  {
    var params := selected.value.params;
    RowsHaveEditors(RuntimeParams(selected), params, pending);
    RowsHaveEditors(BootParams(selected), params, pending);
  }
}
