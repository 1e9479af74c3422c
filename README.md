# Theme toggle and resource finder, modelled in Dafny

This project models the two pieces of logic in `assets/script.js`, the
client-side script of a static site:

- **The theme toggle** (lines 2-28). The document root carries a `data-theme`
  attribute and local storage keeps a `"theme"` entry. At load, a truthy
  stored value is applied. A click computes the next theme, applies it,
  stores it and updates the button glyph. An unset attribute is first forced
  to `"light"` and then flipped, so the first click on a fresh page always
  gives `"dark"`. The system-preference value on line 14 is never used, and
  neither is `next` on line 11. The model keeps this behaviour as written.
- **The resource finder** (lines 38-196). It holds clickable tiles in three
  groups (profile, approach, goal), the three selection variables, an
  optional read-only dataset (`resources`, `paths`, `profileGoals`) and a
  results panel. A tile click selects the tile and unselects the rest of its
  group. It then filters goals by the selected profile's allowed list and
  auto-displays the path stored under `goal + "_" + approach`. The panel
  shows one numbered card per known resource id. The reset button clears
  everything.

Modules:

- `Wrappers` (`wrappers.dfy`): `Option` and JavaScript truthiness of a
  string-or-null value (`null` and `""` are falsy).
- `Theme` (`theme.dfy`): class `ThemeToggle`, with fields for the attribute,
  the storage entry and the glyph. The functions `Toggled` and `LoadedTheme`
  specify it.
- `FinderModel` (`finder_model.dfy`): tiles, dataset and selection variables
  as datatypes. It states the click, filtering and reset rules as functions
  on tile sequences, and the invariants these rules keep as lemmas.
- `FinderResults` (`finder_results.dfy`): the path key, the link target and
  the card list `Cards`, with lemmas that characterise the cards.
- `ResourceFinder` (`resource_finder.dfy`): class `Finder`. It holds the tile
  array, the selection variables and the panel. Its handlers update them with
  loops and are proved against the functions above. `Valid()` holds four
  invariants:
  - at most one selected tile per group;
  - the selection variables name exactly the selected tiles;
  - no tile is both selected and disabled;
  - the disabled flags are exactly those that filtering computes for the
    current profile.

  It also holds a panel invariant: the timeline, once rendered, shows the
  cards of a non-empty path.

Four behaviours of the code to note:

- A stored theme is applied only when it is non-empty, not merely when it is
  present.
- A profile's allowed goals are a list searched with `includes`.
- Selection ids are tested for truthiness, so an empty id counts as "not
  selected".
- Auto-display leaves an already visible panel visible when the goal or the
  approach is missing. This happens after filtering drops the selected goal,
  for example. So whether the panel is visible does not depend only on the
  current path.

## Model

| member | source | states |
|---|---|---|
| Theme.Toggled | assets/script.js:10-18 | A click always yields "light" or "dark". It yields "dark" exactly when the attribute is unset (null or empty) or is "light", and "light" for any other set value. |
| Theme.ToggleAlternates | assets/script.js:10-19 | After one click, each further click flips the theme between light and dark, with period two. |
| Theme.ReloadRestoresToggle | assets/script.js:4-19 | Round trip through storage: reloading after a click applies the theme that click stored, whatever the page's own attribute, and shows the same glyph. |
| Theme.ThemeToggle.constructor | assets/script.js:3-28 | Load applies `LoadedTheme`: a truthy stored theme becomes the attribute, and a missing or empty one leaves the page's own attribute. Load leaves storage as it was and shows the moon exactly when the theme is "light" (the sun also when unset). No glyph is set when there is no button. |
| Theme.ThemeToggle.Click | assets/script.js:9-21 | The attribute becomes `Toggled(old attribute)` and the stored value equals the new attribute. The glyph is the moon exactly when the new theme is "light". |
| FinderModel.Choice.With | assets/script.js:113-128 | A click on a typed tile sets its group's selection variable to the tile's id and leaves the other two variables alone. An untyped tile changes no variable. |
| FinderModel.Picked | assets/script.js:113-130 | Before filtering, the clicked tile is selected and the other tiles of its group are unselected. Tiles of other groups are unchanged, and so is every tile when the clicked tile is untyped. |
| FinderModel.PickKeepsSelection | assets/script.js:113-130 | The selection step keeps at most one selected tile per group, keeps the variables naming the selected tiles and keeps no tile both selected and disabled. It changes no disabled flag. |
| FinderModel.FilterKeepsSelection | assets/script.js:78-103 | After filtering, each goal tile is disabled exactly when a dataset is loaded, a truthy profile is selected, `profileGoals` exists and the profile's list lacks the goal. A disabled goal is unselected, and `selectedGoal` is cleared when that happens. Profile and approach tiles are never disabled. |
| FinderModel.ClickKeepsValid | assets/script.js:105-137 | A click on an enabled tile, filtering included, preserves all four tile invariants. |
| FinderModel.ClickSelectsOnly | assets/script.js:108-133 | After a click on an enabled typed tile, even after filtering, that tile is the only selected tile of its group and its id is in the group's variable. |
| FinderModel.NoEntryDisablesEveryGoal | assets/script.js:83-95 | A selected profile with no entry in `profileGoals` leaves every goal tile disabled and unselected, and `selectedGoal` null. |
| FinderModel.ClearedIsValid | assets/script.js:143-149 | The reset state (no selection, no class on any tile) satisfies every tile invariant. |
| FinderResults.Cards | assets/script.js:171-191 | There are at most as many cards as path ids. Card numbers lie between 1 and the path length and strictly increase in rendering order, so skipped ids leave gaps. |
| FinderResults.CardsShowTheirPosition | assets/script.js:171-185 | Card number n shows the resource of the path's n-th id, and that id is a known resource. Its target is `_blank` exactly when the link starts with "http", and `_self` otherwise. |
| FinderResults.CardsCoverKnownIds | assets/script.js:171-190 | Every path position whose id is a known resource gets a card numbered position + 1. |
| FinderResults.CardsOfKnownIds | assets/script.js:171-190 | When every id is known, the cards are exactly numbered 1 to n, in path order. |
| FinderResults.CardsOfUnknownIds | assets/script.js:172-173 | A path whose ids are all unknown renders no card. |
| FinderResults.PathKeyDeterminesPair | assets/script.js:64-65 | For goal ids without an underscore, the key `goal_approach` determines both the goal and the approach. |
| FinderResults.PathKeyCollides | assets/script.js:64 | With an underscore in a goal id, two different goal/approach pairs share one key. |
| ResourceFinder.Finder.constructor | assets/script.js:38-58 | Initial state: nothing selected, no tile selected or disabled, panel hidden, no cards. All invariants hold. |
| ResourceFinder.Finder.DeselectGroup | assets/script.js:115-126 | The loop unselects exactly the tiles of the group and leaves every other tile and flag as it was. |
| ResourceFinder.Finder.UpdateAvailableOptions | assets/script.js:78-103 | With no dataset, nothing changes. With a truthy profile and `profileGoals`, goal tiles are restricted to the allowed list. A disabled selected goal is unselected and `selectedGoal` is nulled exactly when such a goal existed. Otherwise every goal tile is re-enabled. |
| ResourceFinder.Finder.DisplayResults | assets/script.js:155-194 | With a panel and a dataset, the timeline is replaced by `Cards(ids, resources)` and the panel is shown. Otherwise nothing changes. |
| ResourceFinder.Finder.AutoShowResults | assets/script.js:61-75 | Without a truthy goal, a truthy approach and a dataset, the panel is untouched. If `paths[goal_approach]` is missing or empty, the panel is hidden and the cards are kept. Otherwise the cards are rendered from it and the panel is shown. The panel invariant is kept. |
| ResourceFinder.Finder.Click | assets/script.js:105-137 | A click on a disabled tile changes nothing. Otherwise tiles and variables become `ClickTiles` and `ClickChoice`, and the panel follows auto-display for the new selections. All invariants are kept. |
| ResourceFinder.Finder.Reset | assets/script.js:141-152 | Reset clears all three selections, unselects and enables every tile and hides the panel. It keeps the rendered cards and all invariants. |

## Left out

- The DOM and event plumbing (`addEventListener`, `querySelectorAll`, `classList`) and the HTML built with `innerHTML`. Tiles and cards are records, and markup and escaping are not modelled.
- `JSON.parse` of the embedded data (assets/script.js:45-52). The dataset is already-parsed maps. A missing element or a parse failure is `None`, and the logged error is not modelled.
- Dataset shapes that would throw in the browser are not modelled. The model always has a `paths` table and every link is a string. A `null` resource entry is modelled as a missing one.
- Ids are assumed not to name `Object.prototype` members (such as "constructor" or "toString") and not to contain `"`. The model looks them up in maps and does not capture what the browser does otherwise. A profile id such as "constructor" makes `includes` throw at line 88, so no goal tile changes and auto-display never runs; the model instead disables every goal. A resource id such as "toString" makes `res.link.startsWith` throw at line 185, leaving a partial timeline and the panel's display unchanged; the model skips the id and shows the panel. A goal or approach id containing `"` makes the `querySelector` at lines 166-167 throw after line 163 has emptied the timeline; the model renders the cards and shows the panel.
- Tile ids are strings. A tile without `data-id` (JavaScript `undefined`) is not modelled.
- Real `localStorage`, its write failures and `window.matchMedia`. Storage is a field, and the media-query result is discarded by the source anyway.
- The footer year (assets/script.js:31-32), because it reads the clock.
- `scrollIntoView` on reset (assets/script.js:151).
- The context label built from tile texts (assets/script.js:166-168), which may print "undefined".
- The unused `showBtn` and `totalTimeSpan` elements (assets/script.js:56, 160).
- The results panel's timeline and context elements are assumed present whenever the panel is. A missing one would make the browser throw.
- The initial page markup is assumed to have no tile with the `selected` or `disabled` class, a hidden results panel and an empty timeline. The constructor takes these as given.
- example_sacred/experiment.py is not part of this model. It is a numerical experiment script with plotting, file output and a database logger, and has no logical core of this kind.
