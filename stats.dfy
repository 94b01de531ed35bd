/** The stats page's category pie chart: which slice is selected, and the
    selection of another slice, which refocuses the chart's data in the
    user's settings. */
module StatsPage {
  import opened Base
  import opened AppUser

  /** The property that holds the pie chart's data. */
  const CategoryKey: string := "puzzleCategoryData"

  /** `userSettings?.puzzleCategoryData ?? []`. */
  function CategoryData(settings: Option<Settings>): (r: seq<Piece>)
    ensures settings.Some? && Get(settings.value, CategoryKey).Pieces? ==>
      r == Get(settings.value, CategoryKey).pieces
    ensures settings.None? ==> r == []
  {
    if settings.Some? && Get(settings.value, CategoryKey).Pieces?
    then Get(settings.value, CategoryKey).pieces
    else []
  }

  /** The settings hold the chart's data as a list of slices, or not at all. */
  predicate WellTyped(settings: Settings)
  {
    Get(settings, CategoryKey).Pieces? || Get(settings, CategoryKey).Undefined?
  }

  /** The state's first value: the first slice, or `null` without one. */
  function InitialSelection(settings: Option<Settings>): (r: Option<Piece>)
    ensures r.None? <==> CategoryData(settings) == []
    ensures r.Some? ==> r.value == CategoryData(settings)[0]
  {
    if CategoryData(settings) == [] then None else Some(CategoryData(settings)[0])
  }

  /** The effect run when the settings or the selection change: with nothing
      selected and at least one slice, the first slice is selected. */
  function SyncSelection(settings: Option<Settings>, selected: Option<Piece>): (r: Option<Piece>)
    ensures selected.Some? ==> r == selected
    ensures selected.None? ==> r == InitialSelection(settings)
  {
    if selected.None? && |CategoryData(settings)| > 0 then Some(CategoryData(settings)[0]) else selected
  }

  /** The initial selection is already what the effect would choose. */
  lemma InitialSelectionIsStable(settings: Option<Settings>)
    ensures SyncSelection(settings, InitialSelection(settings)) == InitialSelection(settings)
  {
  }

  /** `changedArray`: every slice, focused exactly when its label is the
      chosen one. */
  function Refocus(data: seq<Piece>, labelText: string): (r: seq<Piece>)
    ensures |r| == |data|
    ensures forall i :: 0 <= i < |r| ==> (r[i].focused <==> r[i].labelText == labelText)
    ensures forall i :: 0 <= i < |r| ==> r[i].(focused := data[i].focused) == data[i]
  {
    seq(|data|, i requires 0 <= i < |data| => data[i].(focused := data[i].labelText == labelText))
  }

  /** The page's settings and its selected slice. */
  datatype View = View(settings: Option<Settings>, selected: Option<Piece>)

  /** `toggleSelectedPiece(data)`: nothing happens when the chosen slice has
      the selected slice's label; otherwise the chart's data is refocused
      through `changeUserSettingState` and the chosen slice is selected. */
  function ToggleSelectedPiece(v: View, data: Piece): (r: View)
    ensures v.selected.Some? && v.selected.value.labelText == data.labelText ==> r == v
    ensures !(v.selected.Some? && v.selected.value.labelText == data.labelText) ==>
      r.selected == Some(data)
      && r.settings == ChangeUserSettingState(v.settings, CategoryKey, Pieces(Refocus(CategoryData(v.settings), data.labelText)))
  {
    if v.selected.Some? && v.selected.value.labelText == data.labelText then v
    else
      var changed := Refocus(CategoryData(v.settings), data.labelText);
      View(ChangeUserSettingState(v.settings, CategoryKey, Pieces(changed)), Some(data))
  }

  /** After a selection the chart's data has the same slices in the same order,
      each focused exactly when its label is the chosen one, every other
      property is unchanged and the chosen slice is selected. */
  lemma ToggleRefocuses(v: View, data: Piece)
    requires v.settings.Some? && WellTyped(v.settings.value)
    requires !(v.selected.Some? && v.selected.value.labelText == data.labelText)
    ensures var r := ToggleSelectedPiece(v, data);
      var before := CategoryData(v.settings);
      var after := CategoryData(r.settings);
      && r.selected == Some(data)
      && |after| == |before|
      && (forall i :: 0 <= i < |after| ==> (after[i].focused <==> after[i].labelText == data.labelText))
      && (forall i :: 0 <= i < |after| ==> after[i].(focused := before[i].focused) == before[i])
      && (forall k :: k in v.settings.value && k != CategoryKey ==> r.settings.value[k] == v.settings.value[k])
  {
    var changed := Refocus(CategoryData(v.settings), data.labelText);
    var r := ToggleSelectedPiece(v, data);
    assert Get(r.settings.value, CategoryKey) == Pieces(changed);
  }

  /** Choosing the same slice twice is the same as choosing it once. */
  lemma ToggleIdempotent(v: View, data: Piece)
    ensures ToggleSelectedPiece(ToggleSelectedPiece(v, data), data) == ToggleSelectedPiece(v, data)
  {
  }

  /** Without settings a selection still moves the highlight, and the
      settings stay `null`. */
  lemma ToggleWithoutSettings(selected: Option<Piece>, data: Piece)
    requires !(selected.Some? && selected.value.labelText == data.labelText)
    ensures ToggleSelectedPiece(View(None, selected), data) == View(None, Some(data))
  {
  }
}
