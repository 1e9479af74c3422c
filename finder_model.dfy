/**
 * The data of the resource finder (assets/script.js, lines 38-196) and the
 * rules its click handler applies to the tiles, stated on values.
 *
 * A tile is one `.finder-item` element: its `data-type` group, its
 * `data-id`, and whether it carries the `selected` and `disabled` classes.
 * The three closure variables `selectedProfile`, `selectedApproach` and
 * `selectedGoal` are gathered in a `Choice`.
 */
module FinderModel {
  import opened Wrappers

  /** The `data-type` of a tile; `Untyped` is any other value. */
  datatype Group = Profile | Approach | Goal | Untyped

  datatype Tile = Tile(group: Group, id: string, selected: bool, disabled: bool)

  datatype Resource = Resource(icon: string, title: string, description: string, link: string, linkText: string)

  /** The parsed embedded dataset; `profileGoals` may be missing. */
  datatype Dataset = Dataset(
    resources: map<string, Resource>,
    paths: map<string, seq<string>>,
    profileGoals: Option<map<string, seq<string>>>)

  /** The three selection variables. */
  datatype Choice = Choice(profile: Option<string>, approach: Option<string>, goal: Option<string>)
  {
    /** The selection variable of a group; untyped tiles have none. */
    function Of(g: Group): Option<string>
    {
      match g
      case Profile => profile
      case Approach => approach
      case Goal => goal
      case Untyped => None
    }

    /** The variables after a click on a tile of group `g` with id `id`. */
    function With(g: Group, id: string): (c: Choice)
      ensures g != Untyped ==> c.Of(g) == Some(id)
      ensures forall h :: h != g ==> c.Of(h) == Of(h)
    {
      match g
      case Profile => this.(profile := Some(id))
      case Approach => this.(approach := Some(id))
      case Goal => this.(goal := Some(id))
      case Untyped => this
    }
  }

  const NoChoice := Choice(None, None, None)

  // ---------------------------------------------------------------------
  // Goal filtering rules (updateAvailableOptions)
  // ---------------------------------------------------------------------

  /** Whether goals are restricted: a truthy profile and a `profileGoals` table. */
  predicate Restricts(data: Dataset, profile: Option<string>)
  {
    Truthy(profile) && data.profileGoals.Some?
  }

  /** The goal list of the selected profile, `None` when the table has no entry. */
  function AllowedGoals(data: Dataset, profile: Option<string>): Option<seq<string>>
    requires Restricts(data, profile)
  {
    var table := data.profileGoals.value;
    if profile.value in table then Some(table[profile.value]) else None
  }

  /** A goal id is permitted when the allowed list exists and contains it. */
  predicate Permits(allowed: Option<seq<string>>, goalId: string)
  {
    allowed.Some? && goalId in allowed.value
  }

  /** Whether a tile is disabled once filtering has run for a dataset and profile. */
  predicate ShouldDisable(t: Tile, data: Option<Dataset>, profile: Option<string>)
  {
    t.group == Goal && data.Some? && Restricts(data.value, profile)
    && !Permits(AllowedGoals(data.value, profile), t.id)
  }

  function RestrictTile(t: Tile, allowed: Option<seq<string>>): Tile
  {
    if t.group != Goal then t
    else if Permits(allowed, t.id) then t.(disabled := false)
    else t.(disabled := true, selected := false)
  }

  function EnableTile(t: Tile): Tile
  {
    if t.group == Goal then t.(disabled := false) else t
  }

  /** Goal tiles the allowed list does not contain are disabled and unselected; the others enabled. */
  function Restricted(ts: seq<Tile>, allowed: Option<seq<string>>): (r: seq<Tile>)
    ensures |r| == |ts|
    ensures forall i :: 0 <= i < |ts| ==> r[i].group == ts[i].group && r[i].id == ts[i].id
    ensures forall i :: 0 <= i < |ts| && ts[i].group != Goal ==> r[i] == ts[i]
    ensures forall i :: 0 <= i < |ts| && ts[i].group == Goal ==>
      && (r[i].disabled <==> !Permits(allowed, ts[i].id))
      && (r[i].selected <==> ts[i].selected && Permits(allowed, ts[i].id))
  {
    seq(|ts|, i requires 0 <= i < |ts| => RestrictTile(ts[i], allowed))
  }

  /** Every goal tile is enabled; nothing else changes. */
  function GoalsEnabled(ts: seq<Tile>): (r: seq<Tile>)
    ensures |r| == |ts|
    ensures forall i :: 0 <= i < |ts| ==>
      && r[i].group == ts[i].group && r[i].id == ts[i].id && r[i].selected == ts[i].selected
      && (r[i].disabled <==> ts[i].disabled && ts[i].group != Goal)
  {
    seq(|ts|, i requires 0 <= i < |ts| => EnableTile(ts[i]))
  }

  /** Whether restricting unselects a selected goal tile (which clears `selectedGoal`). */
  predicate DropsGoal(ts: seq<Tile>, allowed: Option<seq<string>>)
  {
    exists i :: 0 <= i < |ts| && ts[i].group == Goal && ts[i].selected && !Permits(allowed, ts[i].id)
  }

  /** The tiles after `updateAvailableOptions`. */
  function FilteredTiles(ts: seq<Tile>, data: Option<Dataset>, profile: Option<string>): seq<Tile>
  {
    if data.None? then ts
    else if Restricts(data.value, profile) then Restricted(ts, AllowedGoals(data.value, profile))
    else GoalsEnabled(ts)
  }

  /** `selectedGoal` after `updateAvailableOptions`. */
  function FilteredGoal(ts: seq<Tile>, data: Option<Dataset>, c: Choice): Option<string>
  {
    if data.Some? && Restricts(data.value, c.profile) && DropsGoal(ts, AllowedGoals(data.value, c.profile))
    then None
    else c.goal
  }

  // ---------------------------------------------------------------------
  // Tile click rules
  // ---------------------------------------------------------------------

  /** Tiles of group `g` lose their `selected` class. */
  function Deselected(ts: seq<Tile>, g: Group): (r: seq<Tile>)
    ensures |r| == |ts|
    ensures forall i :: 0 <= i < |ts| ==>
      && r[i].group == ts[i].group && r[i].id == ts[i].id && r[i].disabled == ts[i].disabled
      && (r[i].selected <==> ts[i].selected && ts[i].group != g)
  {
    seq(|ts|, i requires 0 <= i < |ts| => if ts[i].group == g then ts[i].(selected := false) else ts[i])
  }

  /**
   * The selection step of a click on tile `k`: the other tiles of its group
   * are unselected (not for an untyped tile) and tile `k` is selected.
   */
  function Picked(ts: seq<Tile>, k: nat): (r: seq<Tile>)
    requires k < |ts|
    ensures |r| == |ts|
    ensures r[k] == ts[k].(selected := true)
    ensures forall i :: 0 <= i < |ts| && i != k && ts[k].group != Untyped && ts[i].group == ts[k].group ==>
      r[i] == ts[i].(selected := false)
    ensures forall i :: 0 <= i < |ts| && i != k && (ts[k].group == Untyped || ts[i].group != ts[k].group) ==>
      r[i] == ts[i]
  {
    var base := if ts[k].group == Untyped then ts else Deselected(ts, ts[k].group);
    base[k := ts[k].(selected := true)]
  }

  /** The selection variables after a click on enabled tile `k`, filtering included. */
  function ClickChoice(ts: seq<Tile>, c: Choice, data: Option<Dataset>, k: nat): Choice
    requires k < |ts|
  {
    var picked := c.With(ts[k].group, ts[k].id);
    picked.(goal := FilteredGoal(Picked(ts, k), data, picked))
  }

  /** The tiles after a click on enabled tile `k`, filtering included. */
  function ClickTiles(ts: seq<Tile>, c: Choice, data: Option<Dataset>, k: nat): seq<Tile>
    requires k < |ts|
  {
    FilteredTiles(Picked(ts, k), data, c.With(ts[k].group, ts[k].id).profile)
  }

  /** Every tile loses both its `selected` and `disabled` classes (the reset button). */
  function Cleared(ts: seq<Tile>): (r: seq<Tile>)
    ensures |r| == |ts|
    ensures forall i :: 0 <= i < |ts| ==>
      r[i].group == ts[i].group && r[i].id == ts[i].id && !r[i].selected && !r[i].disabled
  {
    seq(|ts|, i requires 0 <= i < |ts| => ts[i].(selected := false, disabled := false))
  }

  // ---------------------------------------------------------------------
  // Invariants of the tiles and selection variables
  // ---------------------------------------------------------------------

  /** At most one selected tile in each of the three groups. */
  ghost predicate AtMostOnePerGroup(ts: seq<Tile>)
  {
    forall i, j :: 0 <= i < j < |ts| && ts[i].selected && ts[j].selected && ts[i].group == ts[j].group ==>
      ts[i].group == Untyped
  }

  /** The selection variables name the selected tiles, and are set only when such a tile exists. */
  ghost predicate MatchesChoice(ts: seq<Tile>, c: Choice)
  {
    && (forall i :: 0 <= i < |ts| && ts[i].selected && ts[i].group != Untyped ==> c.Of(ts[i].group) == Some(ts[i].id))
    && (forall g :: c.Of(g).Some? ==> exists i :: 0 <= i < |ts| && ts[i].selected && ts[i].group == g)
  }

  /** No tile is both selected and disabled. */
  ghost predicate NoneSelectedAndDisabled(ts: seq<Tile>)
  {
    forall i :: 0 <= i < |ts| ==> !(ts[i].selected && ts[i].disabled)
  }

  /** The disabled flags are exactly those filtering computes for the current profile. */
  ghost predicate DisabledAsFiltered(ts: seq<Tile>, data: Option<Dataset>, profile: Option<string>)
  {
    forall i :: 0 <= i < |ts| ==> ts[i].disabled == ShouldDisable(ts[i], data, profile)
  }

  ghost predicate TilesValid(ts: seq<Tile>, c: Choice, data: Option<Dataset>)
  {
    AtMostOnePerGroup(ts) && MatchesChoice(ts, c) && NoneSelectedAndDisabled(ts)
    && DisabledAsFiltered(ts, data, c.profile)
  }

  // ---------------------------------------------------------------------
  // What a click and a reset preserve
  // ---------------------------------------------------------------------

  /** The selection step keeps one selected tile per group, named by its variable. */
  lemma PickKeepsSelection(ts: seq<Tile>, c: Choice, k: nat)
    requires k < |ts| && !ts[k].disabled
    requires AtMostOnePerGroup(ts) && MatchesChoice(ts, c) && NoneSelectedAndDisabled(ts)
    ensures AtMostOnePerGroup(Picked(ts, k))
    ensures MatchesChoice(Picked(ts, k), c.With(ts[k].group, ts[k].id))
    ensures NoneSelectedAndDisabled(Picked(ts, k))
    ensures forall i :: 0 <= i < |ts| ==> Picked(ts, k)[i].disabled == ts[i].disabled
  {
  }

  /**
   * Filtering, run on tiles whose only disabled tiles are goals of a loaded
   * dataset, leaves tiles whose disabled flags are exactly the computed ones,
   * with no tile both selected and disabled and the variables still matching.
   */
  lemma FilterKeepsSelection(ts: seq<Tile>, c: Choice, data: Option<Dataset>)
    requires AtMostOnePerGroup(ts) && MatchesChoice(ts, c) && NoneSelectedAndDisabled(ts)
    requires forall i :: 0 <= i < |ts| && ts[i].disabled ==> ts[i].group == Goal && data.Some?
    ensures TilesValid(FilteredTiles(ts, data, c.profile), c.(goal := FilteredGoal(ts, data, c)), data)
  {
    var r := FilteredTiles(ts, data, c.profile);
    var c' := c.(goal := FilteredGoal(ts, data, c));
    forall g | c'.Of(g).Some?
      ensures exists i :: 0 <= i < |r| && r[i].selected && r[i].group == g
    {
      assert c.Of(g).Some?;
      var i :| 0 <= i < |ts| && ts[i].selected && ts[i].group == g;
      assert r[i].selected;
    }
  }

  /** A click on an enabled tile keeps every invariant of the tiles and variables. */
  lemma ClickKeepsValid(ts: seq<Tile>, c: Choice, data: Option<Dataset>, k: nat)
    requires k < |ts| && !ts[k].disabled
    requires TilesValid(ts, c, data)
    ensures TilesValid(ClickTiles(ts, c, data, k), ClickChoice(ts, c, data, k), data)
  {
    PickKeepsSelection(ts, c, k);
    FilterKeepsSelection(Picked(ts, k), c.With(ts[k].group, ts[k].id), data);
  }

  /**
   * A click on an enabled typed tile leaves it the only selected tile of its
   * group, with its id in the group's variable, even after filtering.
   */
  lemma ClickSelectsOnly(ts: seq<Tile>, c: Choice, data: Option<Dataset>, k: nat)
    requires k < |ts| && !ts[k].disabled && ts[k].group != Untyped
    requires TilesValid(ts, c, data)
    ensures ClickTiles(ts, c, data, k)[k].selected
    ensures forall i :: 0 <= i < |ts| && i != k && ts[i].group == ts[k].group ==>
      !ClickTiles(ts, c, data, k)[i].selected
    ensures ClickChoice(ts, c, data, k).Of(ts[k].group) == Some(ts[k].id)
  {
  }

  /** A profile without an entry in `profileGoals` leaves every goal tile disabled and unselected. */
  lemma NoEntryDisablesEveryGoal(ts: seq<Tile>, c: Choice, data: Option<Dataset>)
    requires TilesValid(ts, c, data)
    requires data.Some? && Restricts(data.value, c.profile)
    requires c.profile.value !in data.value.profileGoals.value
    ensures forall i :: 0 <= i < |ts| && ts[i].group == Goal ==> ts[i].disabled && !ts[i].selected
    ensures c.goal == None
  {
    assert c.Of(Goal) == c.goal;
  }

  /** The reset state: nothing selected, nothing disabled; it satisfies every invariant. */
  lemma ClearedIsValid(ts: seq<Tile>, data: Option<Dataset>)
    ensures TilesValid(Cleared(ts), NoChoice, data)
  {
  }
}
