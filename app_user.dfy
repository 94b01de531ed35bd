/** The mobile app's user-settings state as held by its context provider, and
    the updater `changeUserSettingState` that replaces or negates one of its
    properties. */
module AppUser {
  import opened Base

  /** One slice of the category pie chart as the app holds it; `labelText`
      is the slice's `label`. */
  datatype Piece = Piece(value: int, color: string, text: string, labelText: string, focused: bool)

  /** A property's value: `undefined`, or one of the kinds the settings hold. */
  datatype Value = Undefined | Bool(b: bool) | Num(n: int) | Str(s: string) | Pieces(pieces: seq<Piece>)

  /** The settings record: a property name maps to its value. */
  type Settings = map<string, Value>

  /** `prev[property]`: a missing property reads as `undefined`. */
  function Get(m: Settings, property: string): (r: Value)
    ensures property !in m ==> r == Undefined
    ensures property in m ==> r == m[property]
  {
    if property in m then m[property] else Undefined
  }

  /** `changeUserSettingState(property, newValue)` applied to the previous
      state `prev` (`None` for `null`). */
  function ChangeUserSettingState(prev: Option<Settings>, property: string, newValue: Value): (r: Option<Settings>)
    ensures prev.None? <==> r.None?
    ensures r.Some? ==> r.value.Keys == prev.value.Keys + {property}
    ensures r.Some? && Get(prev.value, property).Bool? ==>
      r.value[property] == Bool(!Get(prev.value, property).b)
    ensures r.Some? && !Get(prev.value, property).Bool? ==> r.value[property] == newValue
    ensures r.Some? ==> forall k :: k in prev.value && k != property ==> r.value[k] == prev.value[k]
  {
    if prev.None? then None
    else
      var current := Get(prev.value, property);
      if current.Bool? then Some(prev.value[property := Bool(!current.b)])
      else Some(prev.value[property := newValue])
  }

  /** Flipping a boolean property twice gives back the state it started from,
      whatever values are passed along. */
  lemma ToggleTwiceRestores(prev: Settings, property: string, v1: Value, v2: Value)
    requires Get(prev, property).Bool?
    ensures ChangeUserSettingState(ChangeUserSettingState(Some(prev), property, v1), property, v2) == Some(prev)
  {
    var once := ChangeUserSettingState(Some(prev), property, v1).value;
    var twice := ChangeUserSettingState(Some(once), property, v2).value;
    assert twice == prev;
  }

  /** Setting a non-boolean property and reading it back gives the value
      set; setting it again with the value it had restores the state. */
  lemma SetThenRestore(prev: Settings, property: string, v: Value)
    requires property in prev && !prev[property].Bool? && !v.Bool?
    ensures ChangeUserSettingState(ChangeUserSettingState(Some(prev), property, v), property, prev[property]) == Some(prev)
  {
    var once := ChangeUserSettingState(Some(prev), property, v).value;
    var twice := ChangeUserSettingState(Some(once), property, prev[property]).value;
    assert twice == prev;
  }
}
