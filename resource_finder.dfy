/**
 * The resource finder as the page runs it (assets/script.js, lines 38-196):
 * an object holding the tiles, the three selection variables, the dataset
 * and the results panel, whose click, filtering, display and reset handlers
 * update them in place.
 */
module ResourceFinder {
  import opened Wrappers
  import opened FinderModel
  import opened FinderResults

  class Finder {
    /** The `.finder-item` elements, in document order. */
    const tiles: array<Tile>
    /** The parsed embedded dataset; `None` when it is absent or does not parse. */
    const data: Option<Dataset>
    /** Whether the page has the results container. */
    const hasPanel: bool

    var selectedProfile: Option<string>
    var selectedApproach: Option<string>
    var selectedGoal: Option<string>

    /** Whether the results container is displayed. */
    var visible: bool
    /** The cards in the results timeline. */
    var cards: seq<Card>
    /** The path key the timeline was last rendered from. */
    ghost var shownKey: Option<string>

    function Current(): Choice
      reads this
    {
      Choice(selectedProfile, selectedApproach, selectedGoal)
    }

    /**
     * The timeline, once rendered, shows the cards of a non-empty path of the
     * dataset; the panel is only ever visible after such a rendering.
     */
    ghost predicate PanelValid()
      reads this
    {
      && (!hasPanel ==> !visible && cards == [])
      && (visible ==> shownKey.Some?)
      && (shownKey.None? ==> cards == [])
      && (shownKey.Some? ==>
            && data.Some?
            && shownKey.value in data.value.paths
            && data.value.paths[shownKey.value] != []
            && cards == Cards(data.value.paths[shownKey.value], data.value.resources))
    }

    ghost predicate Valid()
      reads this, tiles
    {
      TilesValid(tiles[..], Current(), data) && PanelValid()
    }

    /** The state after page load and after a reset. */
    ghost predicate Pristine()
      reads this, tiles
    {
      && Current() == NoChoice
      && !visible
      && forall i :: 0 <= i < tiles.Length ==> !tiles[i].selected && !tiles[i].disabled
    }

    /** Whether auto-display has all it needs: a goal, an approach and a dataset. */
    predicate Ready()
      reads this
    {
      Truthy(selectedGoal) && Truthy(selectedApproach) && data.Some?
    }

    /** The path key of the current goal and approach. */
    function CurrentKey(): string
      reads this
      requires Ready()
    {
      PathKey(selectedGoal.value, selectedApproach.value)
    }

    /** Whether the current path exists and is non-empty. */
    predicate HasPath()
      reads this
      requires Ready()
    {
      CurrentKey() in data.value.paths && data.value.paths[CurrentKey()] != []
    }

    /** The panel after auto-display, given the panel before it. */
    ghost predicate AutoShown(wasVisible: bool, oldCards: seq<Card>)
      reads this
    {
      if !Ready() then
        visible == wasVisible && cards == oldCards
      else if !HasPath() then
        !visible && cards == oldCards
      else
        visible == hasPanel
        && cards == if hasPanel then Cards(data.value.paths[CurrentKey()], data.value.resources) else oldCards
    }

    /** Page load; the page's tiles carry neither the `selected` nor the `disabled` class. */
    constructor (items: seq<Tile>, data: Option<Dataset>, hasPanel: bool)
      requires forall t :: t in items ==> !t.selected && !t.disabled
      ensures Valid() && Pristine()
      ensures fresh(tiles) && tiles[..] == items
      ensures this.data == data && this.hasPanel == hasPanel && cards == []
    {
      tiles := new Tile[|items|](i requires 0 <= i < |items| => items[i]);
      this.data := data;
      this.hasPanel := hasPanel;
      selectedProfile, selectedApproach, selectedGoal := None, None, None;
      visible := false;
      cards := [];
      shownKey := None;
    }

    /** The tiles of group `g` lose their `selected` class. */
    method DeselectGroup(g: Group)
      modifies tiles
      ensures tiles[..] == Deselected(old(tiles[..]), g)
    {
      var i := 0;
      while i < tiles.Length
        invariant 0 <= i <= tiles.Length
        invariant forall j :: 0 <= j < i ==> tiles[j] == Deselected(old(tiles[..]), g)[j]
        invariant forall j :: i <= j < tiles.Length ==> tiles[j] == old(tiles[j])
      {
        if tiles[i].group == g {
          tiles[i] := tiles[i].(selected := false);
        }
        i := i + 1;
      }
    }

    /** `updateAvailableOptions`: disable the goals the selected profile does not permit. */
    method UpdateAvailableOptions()
      modifies tiles, this`selectedGoal
      ensures tiles[..] == FilteredTiles(old(tiles[..]), data, selectedProfile)
      ensures selectedGoal == FilteredGoal(old(tiles[..]), data, old(Current()))
    {
      if data.None? {
        return;
      }
      if Truthy(selectedProfile) && data.value.profileGoals.Some? {
        var allowed := AllowedGoals(data.value, selectedProfile);
        var i := 0;
        while i < tiles.Length
          invariant 0 <= i <= tiles.Length
          invariant forall j :: 0 <= j < i ==> tiles[j] == RestrictTile(old(tiles[j]), allowed)
          invariant forall j :: i <= j < tiles.Length ==> tiles[j] == old(tiles[j])
          invariant selectedGoal == if exists j :: 0 <= j < i && old(tiles[j]).group == Goal && old(tiles[j]).selected
                                                 && !Permits(allowed, old(tiles[j]).id)
                                    then None else old(selectedGoal)
        {
          var t := tiles[i];
          if t.group == Goal {
            if allowed.Some? && t.id in allowed.value {
              tiles[i] := t.(disabled := false);
            } else {
              tiles[i] := t.(disabled := true);
              if t.selected {
                tiles[i] := tiles[i].(selected := false);
                selectedGoal := None;
              }
            }
          }
          i := i + 1;
        }
        ghost var was := old(tiles[..]);
        assert forall j :: 0 <= j < tiles.Length ==> was[j] == old(tiles[j]);
      } else {
        var i := 0;
        while i < tiles.Length
          modifies tiles
          invariant 0 <= i <= tiles.Length
          invariant forall j :: 0 <= j < i ==> tiles[j] == EnableTile(old(tiles[j]))
          invariant forall j :: i <= j < tiles.Length ==> tiles[j] == old(tiles[j])
        {
          if tiles[i].group == Goal {
            tiles[i] := tiles[i].(disabled := false);
          }
          i := i + 1;
        }
      }
    }

    /** `displayResults`: replace the timeline by the cards of `ids` and show the panel. */
    method DisplayResults(ids: seq<string>)
      modifies this`cards, this`visible
      ensures hasPanel && data.Some? ==> cards == Cards(ids, data.value.resources) && visible
      ensures !(hasPanel && data.Some?) ==> cards == old(cards) && visible == old(visible)
    {
      if !hasPanel || data.None? {
        return;
      }
      var resources := data.value.resources;
      cards := [];
      var i := 0;
      while i < |ids|
        invariant 0 <= i <= |ids|
        invariant cards == Cards(ids[..i], resources)
      {
        var id := ids[i];
        if id in resources {
          var res := resources[id];
          cards := cards + [Card(i + 1, res, if StartsWith(res.link, "http") then Blank else Self)];
        }
        assert ids[..i + 1][..i] == ids[..i];
        i := i + 1;
      }
      assert ids[..i] == ids;
      visible := true;
    }

    /** `autoShowResults`: once goal and approach are chosen, show their path or hide the panel. */
    method AutoShowResults()
      requires PanelValid()
      modifies this`visible, this`cards, this`shownKey
      ensures PanelValid()
      ensures AutoShown(old(visible), old(cards))
    {
      if !Truthy(selectedGoal) || !Truthy(selectedApproach) || data.None? {
        return;
      }
      var key := PathKey(selectedGoal.value, selectedApproach.value);
      if key !in data.value.paths || |data.value.paths[key]| == 0 {
        if hasPanel {
          visible := false;
        }
        return;
      }
      DisplayResults(data.value.paths[key]);
      if hasPanel {
        shownKey := Some(key);
      }
    }

    /** A click on tile `k`. */
    method Click(k: nat)
      requires Valid() && k < tiles.Length
      modifies this, tiles
      ensures Valid()
      ensures old(tiles[k].disabled) ==>
        tiles[..] == old(tiles[..]) && Current() == old(Current()) && visible == old(visible) && cards == old(cards)
      ensures !old(tiles[k].disabled) ==>
        && tiles[..] == ClickTiles(old(tiles[..]), old(Current()), data, k)
        && Current() == ClickChoice(old(tiles[..]), old(Current()), data, k)
        && AutoShown(old(visible), old(cards))
    {
      if tiles[k].disabled {
        return;
      }
      ghost var before := tiles[..];
      ghost var chosen := Current();
      var t := tiles[k];
      if t.group == Profile {
        DeselectGroup(Profile);
        selectedProfile := Some(t.id);
      } else if t.group == Approach {
        DeselectGroup(Approach);
        selectedApproach := Some(t.id);
      } else if t.group == Goal {
        DeselectGroup(Goal);
        selectedGoal := Some(t.id);
      }
      tiles[k] := t.(selected := true);
      assert tiles[..] == Picked(before, k);
      assert Current() == chosen.With(t.group, t.id);
      UpdateAvailableOptions();
      ClickKeepsValid(before, chosen, data, k);
      AutoShowResults();
    }

    /** The reset button: clear every selection and class, and hide the panel. */
    method Reset()
      requires Valid()
      modifies this, tiles
      ensures Valid() && Pristine()
      ensures tiles[..] == Cleared(old(tiles[..]))
      ensures cards == old(cards)
    {
      selectedProfile, selectedApproach, selectedGoal := None, None, None;
      var i := 0;
      while i < tiles.Length
        modifies tiles
        invariant 0 <= i <= tiles.Length
        invariant forall j :: 0 <= j < i ==> tiles[j] == old(tiles[j]).(selected := false, disabled := false)
        invariant forall j :: i <= j < tiles.Length ==> tiles[j] == old(tiles[j])
      {
        tiles[i] := tiles[i].(selected := false, disabled := false);
        i := i + 1;
      }
      if hasPanel {
        visible := false;
      }
      ClearedIsValid(old(tiles[..]), data);
    }
  }
}
