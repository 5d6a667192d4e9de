/**
 * Column visibility for tables (src/components/Table/TableColumnSettings.jsx): the
 * initial map, toggling, reset, and the visibility rule.
 */
module ColumnSettings {
  import opened Wrappers
  import opened Js

  /** A table column; `key` is "" when the column has none. */
  datatype Column = Column(key: string, caption: string)

  /** `col.key || col.caption`. */
  function KeyOf(c: Column): (r: string)
    ensures c.key != "" ==> r == c.key
    ensures c.key == "" ==> r == c.caption
  {
    if c.key != "" then c.key else c.caption
  }

  /** The keys of all columns. */
  function Keys(columns: seq<Column>): (ks: set<string>)
    ensures forall k :: k in ks <==> exists i :: 0 <= i < |columns| && KeyOf(columns[i]) == k
  {
    set i | 0 <= i < |columns| :: KeyOf(columns[i])
  }

  /** Every column key set to `true`. */
  function AllVisible(columns: seq<Column>): (m: map<string, Value>)
    ensures forall k :: k in m <==> exists i :: 0 <= i < |columns| && KeyOf(columns[i]) == k
    ensures forall k :: k in m ==> m[k] == Bool(true)
  {
    map k | k in Keys(columns) :: Bool(true)
  }

  /** The `forEach` that fills `defaultVisible`. */
  method DefaultVisible(columns: seq<Column>) returns (m: map<string, Value>)
    ensures m == AllVisible(columns)
  {
    m := map[];
    var n := 0;
    while n < |columns|
      invariant 0 <= n <= |columns|
      invariant m == AllVisible(columns[..n])
    {
      m := m[KeyOf(columns[n]) := Bool(true)];
      n := n + 1;
      assert forall i :: 0 <= i < n - 1 ==> columns[..n][i] == columns[..n - 1][i];
    }
    assert columns[..n] == columns;
  }

  /** The saved map covers every column key (extra keys allowed). */
  predicate CoversAll(saved: map<string, Value>, columns: seq<Column>)
  {
    forall i :: 0 <= i < |columns| ==> KeyOf(columns[i]) in saved
  }

  /**
   * The initial state: the saved map when there is one that covers every column;
   * otherwise (nothing saved, unreadable, or incomplete) every column visible.
   */
  function Initial(columns: seq<Column>, saved: Option<map<string, Value>>): (m: map<string, Value>)
    ensures saved.Some? && CoversAll(saved.value, columns) ==> m == saved.value
    ensures saved.None? || !CoversAll(saved.value, columns) ==> m == AllVisible(columns)
  {
    if saved.Some? && CoversAll(saved.value, columns) then saved.value else AllVisible(columns)
  }

  /**
   * The checked state of a column's checkbox in the settings panel (`visibleColumns[key] !== false`):
   * checked unless the entry is exactly `false`; an absent entry is checked.
   */
  predicate IsVisible(visible: map<string, Value>, key: string)
  {
    !(key in visible && visible[key] == Bool(false))
  }

  /** `!prev[key]`, with an absent entry read as `undefined`. */
  function Toggled(visible: map<string, Value>, key: string): (m: map<string, Value>)
    ensures key in m && m[key] == Bool(!Truthy(if key in visible then visible[key] else Undef))
    ensures forall k :: k != key ==> (k in m <==> k in visible) && (k in visible ==> m[k] == visible[k])
  {
    visible[key := Bool(!Truthy(if key in visible then visible[key] else Undef))]
  }

  /**
   * Toggling a boolean entry flips that column's checkbox and toggling twice restores
   * it; no other column's checkbox changes.
   */
  lemma {:induction false} ToggleSpec(visible: map<string, Value>, key: string, other: string)
    requires other != key
    ensures IsVisible(Toggled(visible, key), other) == IsVisible(visible, other)
    ensures key in visible && visible[key].Bool? ==>
              IsVisible(Toggled(visible, key), key) == !IsVisible(visible, key)
              && Toggled(Toggled(visible, key), key) == visible
  {
    if key in visible && visible[key].Bool? {
      assert Toggled(Toggled(visible, key), key) == visible;
    }
  }

  /** With the default map every column's checkbox is checked. */
  lemma {:induction false} DefaultsShowAll(columns: seq<Column>, i: int)
    requires 0 <= i < |columns|
    ensures IsVisible(AllVisible(columns), KeyOf(columns[i]))
    ensures IsVisible(Initial(columns, None), KeyOf(columns[i]))
  {
  }

  /** The component's columns and visibility map. */
  class ColumnSettingsState {
    const columns: seq<Column>
    var visible: map<string, Value>

    /** The `useState` initializer. */
    constructor (columns: seq<Column>, saved: Option<map<string, Value>>)
      ensures this.columns == columns && visible == Initial(columns, saved)
    {
      var initial: map<string, Value>;
      if saved.Some? && CoversAll(saved.value, columns) {
        initial := saved.value;
      } else {
        initial := DefaultVisible(columns);
      }
      this.columns := columns;
      visible := initial;
    }

    /** `toggleColumn(key)`. */
    method ToggleColumn(key: string)
      modifies this
      ensures visible == Toggled(old(visible), key)
    {
      visible := Toggled(visible, key);
    }

    /** `resetToDefault`. */
    method ResetToDefault()
      modifies this
      ensures visible == AllVisible(columns)
    {
      visible := DefaultVisible(columns);
    }
  }
}
