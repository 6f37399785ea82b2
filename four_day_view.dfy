/**
 * The horizontal strip of day cards: card selection, the unit-suffixed
 * temperature text and each card's accessibility label.
 */
module FourDay {
  import opened Wrappers
  import opened WeatherData

  /** `formattedTemp(_:)`: the stored temperature followed by its unit. */
  function FormattedTemp(item: WeatherDataModel): (r: string)
    ensures |r| == |item.temperature| + 2
    ensures r[..|item.temperature|] == item.temperature
    ensures r[|r| - 2] == '°'
    ensures r[|r| - 1] == (if item.isFahrenheit then 'F' else 'C')
  {
    if item.isFahrenheit then item.temperature + "°F" else item.temperature + "°C"
  }

  /** One rendered card: what it shows and whether it is highlighted. */
  datatype Card = Card(day: string, icon: string, temperature: string, accessibilityLabel: string, isSelected: bool)

  /** What the view body renders. */
  datatype Screen = EmptyState | Cards(cards: seq<Card>)

  const SelectedSuffix := ", selected"

  class FourDayView {
    const forecasts: seq<WeatherDataModel>
    /** The `@Binding var selectedIndex: Int?` shared with the parent view. */
    var selectedIndex: Option<int>

    constructor (forecasts: seq<WeatherDataModel>, selectedIndex: Option<int>)
      ensures this.forecasts == forecasts && this.selectedIndex == selectedIndex
    {
      this.forecasts := forecasts;
      this.selectedIndex := selectedIndex;
    }

    /**
     * `select(index:)`: an index outside the list is ignored; a new valid
     * index is selected and fires the haptic feedback (`feedback`); the
     * already-selected index changes nothing and fires nothing, so selecting
     * twice is the same as selecting once.
     */
    method Select(index: int) returns (feedback: bool)
      modifies this
      ensures feedback <==> 0 <= index < |forecasts| && old(selectedIndex) != Some(index)
      ensures 0 <= index < |forecasts| ==> selectedIndex == Some(index)
      ensures !(0 <= index < |forecasts|) ==> selectedIndex == old(selectedIndex)
    {
      feedback := false;
      if !(index >= 0 && index < |forecasts|) {
        return;
      }
      if selectedIndex != Some(index) {
        feedback := true;
        selectedIndex := Some(index);
      }
    }

    /** `accessibilityLabel(for:index:)`: "<day>, <temp>", plus ", selected" on the selected card. */
    function AccessibilityLabel(item: WeatherDataModel, index: int): (r: string)
      reads this
      ensures |r| >= |item.day| + 2 + |FormattedTemp(item)|
      ensures r[..|item.day| + 2] == item.day + ", "
      ensures r[|item.day| + 2..|item.day| + 2 + |FormattedTemp(item)|] == FormattedTemp(item)
      ensures (|r| >= |SelectedSuffix| && r[|r| - |SelectedSuffix|..] == SelectedSuffix) <==>
        selectedIndex == Some(index)
      ensures |r| == |item.day| + 2 + |FormattedTemp(item)| + (if selectedIndex == Some(index) then |SelectedSuffix| else 0)
    {
      var temp := FormattedTemp(item);
      var selectedText := if selectedIndex == Some(index) then SelectedSuffix else "";
      var r := item.day + ", " + temp + selectedText;
      assert r[..|item.day| + 2] == item.day + ", ";
      assert r[|item.day| + 2..|item.day| + 2 + |temp|] == temp;
      assert selectedText == "" ==> r[|r| - 1] == temp[|temp| - 1] != SelectedSuffix[|SelectedSuffix| - 1];
      r
    }

    /** The view body: the empty state, or one card per forecast in order. */
    function Body(): (s: Screen)
      reads this
      ensures s.EmptyState? <==> |forecasts| == 0
      ensures s.Cards? ==> |s.cards| == |forecasts|
      ensures s.Cards? ==> forall i :: 0 <= i < |s.cards| ==>
        s.cards[i].day == forecasts[i].day && s.cards[i].icon == forecasts[i].icon &&
        s.cards[i].temperature == FormattedTemp(forecasts[i]) &&
        s.cards[i].accessibilityLabel == AccessibilityLabel(forecasts[i], i) &&
        (s.cards[i].isSelected <==> selectedIndex == Some(i))
      ensures s.Cards? ==> forall i, j :: 0 <= i < j < |s.cards| ==> !(s.cards[i].isSelected && s.cards[j].isSelected)
    {
      if |forecasts| == 0 then EmptyState
      else
        Cards(seq(|forecasts|, i requires 0 <= i < |forecasts| reads this =>
          Card(forecasts[i].day, forecasts[i].icon, FormattedTemp(forecasts[i]),
               AccessibilityLabel(forecasts[i], i), selectedIndex == Some(i))))
    }
  }
}
