# City explorer landing page — a Dafny model of its state logic

`script.js` drives a Three.js landing page. A navigation bar lists seven
cities; a group of spinning globes shows until the first city is chosen.
Choosing a city does four things:

- it swaps the globes for a curved wall of photos loaded from loremflickr;
- it shows a loading spinner while the photos load;
- it adds a crystal "view" button that toggles a 360° panorama of the city;
- it shows a home button and a clock with the city's local time.

Around the Three.js calls sits a small core of sequential state logic. This
project models that core and proves what it promises:

- **Photo URLs.** The list `getCityImageUrls` builds (`PhotoUrls`). The string
  operations on city names live in `Strings`: stripping whitespace,
  lower-casing, collapsing whitespace runs into dashes, and writing seeds in
  decimal.
- **Tables.** The three static tables: cities, panorama URLs keyed by slug,
  and time zones keyed by label. Also the lookups made in them (`CityTables`).
- **Wall layout.** The grid slot and arc position of each photo on the wall
  (`WallLayout`).
- **Load batches.** One batch per `updateImageWall` call, with its own
  `loadedCount`. Earlier batches stay live: their callbacks can still add
  tiles to the current wall or hide the shared spinner (`ImageWall`).
- **View button.** The two-flag click machine and the hover handler of the
  view button, as installed by the `setupButtonInteraction` at line 1200
  (`ViewToggle`).
- **Clock text.** The clock group's children and the swap of its time text
  (`ClockFace`).
- **The page.** Class `Page` in `Landing` holds the page's module-level state
  and the closure flags. Each event is a method:
  - a navigation click, followed by the same click reaching the window;
  - a texture callback;
  - a panorama callback;
  - a mouse move;
  - the font load;
  - the end of the globes' fade-out;
  - one animation frame.

  Some functions are rebound at load time: the clock wraps `updateImageWall`;
  the home button and then the clock wrap `transitionToImageWall`. These are
  modelled as the chain they form. A ghost trace records the order in which
  the hooks run.

Nondeterminism becomes inputs:

- `Math.random` draws are a sequence of reals in [0, 1).
- Ray hits are booleans.
- The formatted local time is a string.
- The order in which callbacks arrive is the order in which the event
  methods are called.

## Model

| member | source | states |
|---|---|---|
| `Strings.IsWhitespace` | script.js:44 | JavaScript's `\s` class, used by both `replace` calls (script.js:44 and 520): the 25 code points of the ECMAScript WhiteSpace and LineTerminator sets |
| `Strings.StripWhitespace` | script.js:44 | `replace(/\s+/g, '')`: the result has no whitespace and is no longer than the name; with `StripConcat`, `StripKeepsClean` and `StripAllWhitespace` it is fixed on every string |
| `Strings.StripAllWhitespace` | script.js:44 | a string made only of whitespace strips to the empty string |
| `Strings.StripConcat` | script.js:44 | stripping distributes over concatenation |
| `Strings.StripKeepsClean` | script.js:44 | a name without whitespace is left unchanged |
| `Strings.StripIdempotent` | script.js:44 | stripping twice is stripping once |
| `Strings.LowerChar` | script.js:520 | `toLowerCase` on one character: no upper-case letter remains, and whitespace stays whitespace |
| `Strings.LowerCharMaps` | script.js:520 | a letter 'A'..'Z' becomes the same letter 'a'..'z', and every other character is kept |
| `Strings.Lower` | script.js:520 | lower-casing keeps the length and maps every character by `LowerChar` |
| `Strings.SkipWhitespace` | script.js:520 | drops the leading whitespace run: the result is a suffix of the input and does not start with whitespace |
| `Strings.SkipDropsWhitespace` | script.js:520 | everything `SkipWhitespace` drops is whitespace |
| `Strings.SkipRun` | script.js:520 | skipping a whitespace run stops exactly at the first character after it |
| `Strings.DashRuns` | script.js:520 | `replace(/\s+/g, '-')`: no whitespace is left and the string does not grow; with `DashAt` and `DashRunsKeepsClean` it is fixed on every string |
| `Strings.DashAt` | script.js:520 | a whole run of whitespace after a clean prefix, of any length, becomes one '-', and the replacement goes on after the run |
| `Strings.DashRunsKeepsClean` | script.js:520 | a string without whitespace is left unchanged by the replacement |
| `Strings.Slug` | script.js:520 | the panorama key of a name has no whitespace and no upper-case letter |
| `Strings.NoUpperDashRuns` | script.js:520 | collapsing whitespace runs never brings back an upper-case letter |
| `Strings.DigitChar` | script.js:48 | a digit below ten prints as a decimal digit character |
| `Strings.DecimalString` | script.js:48 | how a seed is interpolated: at least one digit, all digits, and no leading zero |
| `Strings.ParseDecimal` | script.js:48 | the reading of a digit string: defined exactly on non-empty all-digit strings |
| `Strings.ParseDecimalString` | script.js:48 | round trip: reading back the printed seed gives the seed |
| `Strings.DecimalStringBelow1000` | script.js:47-48 | a seed below 1000 prints in at most three digits |
| `CityTables.Cities` | script.js:2-10 | the navigation entries as written in the source, in order, each with its section and label |
| `CityTables.PanoramaUrls` | script.js:28-36 | the panorama table as written in the source, keyed by section |
| `CityTables.TimeZones` | script.js:926-934 | the time-zone table as written in the source, keyed by label |
| `CityTables.PanoramaUrl` | script.js:28-36 | `panoramaUrls[slug]` as an own-key lookup: defined exactly when the slug is a key, and then the table's entry |
| `CityTables.TimeZone` | script.js:926-934 | `timeZones[name]` as an own-key lookup: defined exactly for the seven navigation labels, and then the table's zone |
| `CityTables.TimeZoneKeysAreLabels` | script.js:2-10 | the time-zone table is keyed by exactly the navigation labels |
| `CityTables.PanoramaKeysAreSections` | script.js:28-36 | the panorama table is keyed by exactly the cities' sections |
| `CityTables.LabelsSlugToSections` | script.js:520 | for every city, the slug of its label is its section, so its panorama URL exists and is the section's entry |
| `CityTables.SectionIsSlug` | script.js:2-10 | each entry's section is the slug of its label |
| `CityTables.SlugCupertino` | script.js:3 | "Cupertino" slugs to "cupertino" |
| `CityTables.SlugEntryNewYorkCity` | script.js:4 | "New York City" slugs to "new-york-city" |
| `CityTables.SlugLondon` | script.js:5 | "London" slugs to "london" |
| `CityTables.SlugAmsterdam` | script.js:6 | "Amsterdam" slugs to "amsterdam" |
| `CityTables.SlugTokyo` | script.js:7 | "Tokyo" slugs to "tokyo" |
| `CityTables.SlugEntryHongKong` | script.js:8 | "Hong Kong" slugs to "hong-kong" |
| `CityTables.SlugSydney` | script.js:9 | "Sydney" slugs to "sydney" |
| `CityTables.SlugJoin` | script.js:520 | a word, one space and a rest slug to the lower-case word, a dash and the rest's slug |
| `CityTables.LowerConcat` | script.js:520 | lower-casing distributes over concatenation |
| `CityTables.OneWord` | script.js:520 | a name without whitespace slugs to its lower-case form |
| `PhotoUrls.Seed` | script.js:47 | `Math.floor(draw * 1000)`: a seed in [0, 1000) that is the floor of draw × 1000 |
| `PhotoUrls.PrefixSpellsSize` | script.js:40-41 | the fixed URL part is the service address followed by width 800 and height 600 in decimal |
| `PhotoUrls.PhotoUrl` | script.js:48 | the URL template, with the 800/600 size built into its prefix, then the stripped name, `?random=` and the seed |
| `PhotoUrls.CityImageUrls` | script.js:39-52 | one URL per draw: the address, the name with all whitespace removed, `?random=` and the draw's seed |
| `PhotoUrls.GetCityImageUrls` | script.js:39-52 | the for-loop that pushes the URLs returns exactly `count` of them, and they are the list above |
| `PhotoUrls.PhotoUrlParts` | script.js:48 | every URL splits back into the address, the stripped name, `?random=` and a seed below 1000 that reads back |
| `WallLayout.SlotOf` | script.js:252-253 | `row = floor(index / 5)`, `col = index % 5`: the column is below 5 and row·5 + col gives back the index |
| `WallLayout.SlotOfInjective` | script.js:252-253 | two loads share a slot if and only if they have the same index |
| `WallLayout.SlotOfGrid` | script.js:252-253 | index 5r + c lands in row r, column c |
| `WallLayout.DefaultBatchRows` | script.js:245-253 | with 35 photos the rows reach 6; photos 20 and later fall outside the declared `rows = 4` |
| `WallLayout.ArcFraction` | script.js:268 | `col / (cols - 1)` lies in [0, 1]: 0 for the first column and 1 for the last |
| `WallLayout.Along` | script.js:268 | a fraction of the arc lies between zero and the whole arc |
| `WallLayout.AngleOffset` | script.js:268 | `angleOffset` lies in [-arcAngle/2, arcAngle/2] |
| `WallLayout.AngleOffsetSymmetric` | script.js:268 | mirrored columns get opposite offsets, and the middle column gets 0 |
| `WallLayout.RowHeight` | script.js:271 | `y = (row - 1.5) * spacing` is below the centre for rows 0–1 and above it from row 2 |
| `WallLayout.RowCentring` | script.js:245-271 | the heights of rows 0–3 sum to zero; the 7 rows of a default batch sum to 52.5 |
| `ViewToggle.Click` | script.js:1213-1245 | in the panorama, any click leaves it and re-enables the button; outside it, a click enters only on a hit while enabled and disables the button; a miss changes nothing |
| `ViewToggle.ClickKeepsCoherent` | script.js:1203-1245 | `buttonEnabled == !is360View` survives every click |
| `ViewToggle.EnterThenLeave` | script.js:1213-1245 | after entering on a hit, any click restores the previous flags |
| `ViewToggle.ClicksKeepCoherent` | script.js:1203-1245 | `buttonEnabled == !is360View` after any run of clicks |
| `ViewToggle.MissesStayOutside` | script.js:1229-1245 | clicks that all miss never enter the panorama |
| `ViewToggle.Hover` | script.js:1249-1297 | disabled: the default cursor and nothing else; enabled: hovered follows the hit, and the cursor changes exactly when the hover state changes (the pointer cursor exactly on entering the enabled button) |
| `ViewToggle.HoverKeepsCoherent` | script.js:1249-1297 | hovering never changes the panorama flags |
| `ImageWall.Issue` | script.js:233-235 | a fresh call's batch: it holds the call's city and its URL list (so `totalImages` is the list's length), `loadedCount = 0`, no hide, valid |
| `ImageWall.Settle` | script.js:279-292 | one callback: `loadedCount` up by one, a success adds one success, and the hide fires when the count reaches `totalImages` |
| `ImageWall.SettleKeepsValid` | script.js:279-292 | the batch invariant survives each callback, and the hide count is 1 exactly when the batch is full |
| `ImageWall.SettledBound` | script.js:234-235 | a set of indices below n has at most n members |
| `ImageWall.SettleAllSpec` | script.js:251-295 | after any run of distinct callbacks: the count is the number of callbacks, the successes are the successful ones, and at most one hide |
| `ImageWall.BatchOutcome` | script.js:234-235 | once all 35 callbacks ran, the spinner hide fired exactly once and never before the last; one tile per success |
| `ImageWall.CountTiles` | script.js:279 | the number of tiles from one batch is at most the wall's size |
| `ImageWall.CountTilesAppend` | script.js:279 | adding a tile adds one to its own batch's count and nothing to the others |
| `ImageWall.BatchesValidAt` | script.js:234-235 | every batch issued so far satisfies the batch invariant |
| `ImageWall.BatchesValidUpdate` | script.js:279-292 | replacing one batch by a valid one keeps every batch valid |
| `ImageWall.BatchesValidAppend` | script.js:233-235 | adding a valid batch keeps every batch valid |
| `ImageWall.TilesValidAt` | script.js:256-279 | every tile came from a settled load of its batch, carries that load's URL and its slot, and no earlier tile came from the same load |
| `ImageWall.TilesDistinct` | script.js:256-279 | no two tiles on the wall came from the same load |
| `ImageWall.TilesValidSettle` | script.js:279-292 | a later callback never invalidates a tile already on the wall |
| `ImageWall.TilesValidAppend` | script.js:279 | a fitting tile from a fresh load can join a valid wall |
| `ImageWall.WallSlotsDistinct` | script.js:252-253 | two tiles of the same batch never share a slot |
| `ImageWall.SettleWall` | script.js:279-292 | the wall after a callback: a success appends its tile and an error appends nothing; earlier tiles are untouched |
| `ImageWall.SettleKeepsWall` | script.js:256-293 | any callback, latest batch or stale, keeps the batches valid and the wall consistent: at most one tile per success, and exactly one for each success of the latest batch |
| `ImageWall.IssueKeepsWall` | script.js:233-243 | a new batch over the emptied wall keeps the batches and the wall valid |
| `ClockFace.FindFirstText` | script.js:975 | `children.find(child => child.isText)`: the first text child, or none when there is no text child |
| `ClockFace.DropFirstText` | script.js:975-976 | the children without their first text child; `DropFirstTextAt` and `DropFirstTextNone` pin it |
| `ClockFace.DropFirstTextAt` | script.js:975-976 | removing the child `find` located is dropping the first text child |
| `ClockFace.DropFirstTextNone` | script.js:975-976 | with no text child, nothing is removed |
| `ClockFace.DropFirstTextCount` | script.js:975-976 | the removal takes away exactly one text child when there is one, and the background stays first |
| `ClockFace.SwapLeavesOneText` | script.js:973-995 | after the swap the group holds exactly one text child |
| `ClockFace.SwapKeepsGroup` | script.js:973-995 | the swap keeps the group well formed: background first, one text, and it is the new time, last |
| `Landing.FirstSelectionOrder` | script.js:1010-1014 | the first selection runs: scene, batch, clock update, button, home button, then the clock update again |
| `Landing.FirstActive` | script.js:1232 | `querySelector('.nav-item.active')`: the first active item, or none exactly when no item is active |
| `Landing.OnlyActiveFound` | script.js:74-77 | with exactly one active item, the query finds it |
| `Landing.PlanFrame` | script.js:616-659 | one frame draws the panorama exactly when `is360View`, and then nothing else; otherwise the globes turn exactly in the globes scene, the wall sways exactly in the city scene, and the spinner and button animate exactly when present |
| `Landing.Page.constructor` | script.js:1129-1134 | the page after load: globes shown, no wall, no batch, no button, no item active, clock hidden with its background only, spinner hidden, font not loaded, and no panorama scene or request |
| `Landing.Page.ActivateNavItem` | script.js:74-77 | the loop that clears every item, then marks the chosen one: exactly that item is active |
| `Landing.Page.Select` | script.js:63-64 | the item is activated and remembered as the selection |
| `Landing.Page.UpdateImageWall` | script.js:230-296 | the spinner shows, the clearing loop empties the wall, and one new batch of the city's URLs is issued; batches, wall and spinner stay consistent |
| `Landing.Page.UpdateCityTime` | script.js:953-960 | a name that is not a label changes nothing; a known one sets the clock's city, shows the clock and clears its time text |
| `Landing.Page.ClockUpdateImageWall` | script.js:1016-1020 | the clock's `updateImageWall`: the batch, then the clock update |
| `Landing.Page.CreateViewButton` | script.js:315-317 | the button exists from now on, enabled and not hovered |
| `Landing.Page.TransitionToImageWall` | script.js:298-328 | enters the city scene, shows the wall, issues the batch through the global binding, and creates the button only when there is none |
| `Landing.Page.HomeTransition` | script.js:845-849 | the home button's wrapper: the original, then the home button shows |
| `Landing.Page.ClockTransition` | script.js:1010-1014 | the clock's wrapper: the home wrapper, then the clock update |
| `Landing.Page.Create360Scene` | script.js:511-527 | a new, empty panorama scene for the city, and one request for its slug's URL, possibly undefined |
| `Landing.Page.Leave360View` | script.js:1213-1228 | leaving the panorama is the click machine's leaving step |
| `Landing.Page.ActiveCity` | script.js:1232 | the active item's text is the selected city's label |
| `Landing.Page.Enter360View` | script.js:1229-1233 | entering is the click machine's entering step, and it requests the selected city's panorama |
| `Landing.Page.WindowClick` | script.js:1206-1246 | the window click follows the click machine, and a panorama is requested exactly when the click enters it |
| `Landing.Page.FirstSelection` | script.js:63-66 | from the globes: the selection, a new batch, the city scene with wall, button, home button and clock, in the hook order above |
| `Landing.Page.NextSelection` | script.js:67-69 | from the city scene: the selection, a new batch over an emptied wall, and the clock update |
| `Landing.Page.NavItemClick` | script.js:63-70 | the item's listener takes the transition path only from the globes and the update path afterwards; the scene is the city scene afterwards |
| `Landing.Page.NavClick` | script.js:63-70 | a navigation click, then the same click at the window: the selection's new state as in `NavItemClick`, the button flags as in `Click`, the panorama request exactly when the click enters the panorama, and nothing else changes |
| `Landing.Page.LoadSettled` | script.js:256-293 | a callback of any batch: its batch settles, a success adds its tile to the current wall, and the callback that fills its batch hides the spinner |
| `Landing.Page.PanoramaLoaded` | script.js:522-526 | a panorama callback adds its sphere to whatever panorama scene is current |
| `Landing.Page.MouseMove` | script.js:1249-1297 | the mousemove handler follows the hover machine; with no button it is not installed |
| `Landing.Page.FontLoaded` | script.js:938-947 | the font is set, and the page invariant holds |
| `Landing.Page.GlobesFadeOutComplete` | script.js:305-307 | the fade-out's completion hides the globes |
| `Landing.Page.AnimateClock` | script.js:963-996 | while a city shows, a new time with the font loaded replaces the first text child by the new time, leaving one text child; otherwise nothing changes |
| `Landing.Page.Frame` | script.js:1136-1141 | one frame of the rebound `animate`: the main branch's plan, then the clock update |

## Left out

- Three.js geometry, materials and shaders are not modelled. This covers scene building, the globes, the spinner rings, the background effects, the button and text meshes, and the home button's body. They are foreign calls with no state logic.
- `sin`/`cos` positions, pi, random scale and jitter, and every `Date.now()`-driven float, pulse and rotation are not modelled. The wall position is kept as the fraction of the arc, the angle offset and the row height.
- TWEEN interpolation and easing are not modelled. Only the fade-out's completion appears, as an event.
- Raycasting, `setFromCamera` and `getBoundingClientRect` are not modelled: a ray hit is a boolean input.
- Texture and font loading are not modelled: each callback is an event method. `loader.load` for the font has no error callback, so a failed font load is simply the event never happening. A panorama request whose URL is `undefined` is recorded but never answers.
- `toLocaleString` formatting is not modelled: the formatted time is an input string.
- The `requestAnimationFrame` loop is not modelled: `Frame` is one pass.
- The home button and clock hover handlers and the home button's `window.location.reload` are not modelled. They change only cursors, scales and the reload, and none of the modelled state.
- `setup360Interaction` (script.js:685-707), the touch-drag camera rotation, is never called in script.js, so no touch handler is ever installed. The window resize handler installed by `setupWindowResize` is not modelled: it changes only the camera and renderer size.
- The `setupButtonInteraction` declared at line 528 is not modelled. The declaration at line 1200 replaces it.
- `console.error` and the disposal of meshes in the clearing loop are not modelled.
- `toLowerCase` is modelled for ASCII letters only. Non-ASCII case mapping is not modelled.
- JavaScript numbers are modelled as mathematical integers and reals, without floating-point rounding.
- `getCityImageUrls` is always called with its default `count` of 35, and the model fixes that. `GetCityImageUrls` itself takes any count.
- Landing.Page.Enter360View: the `querySelector` call runs after the two flag assignments in the source and before them in the model. The flags are not read in between, so the outcome is the same.
- Landing.Page.Enter360View promises only the view part of the page invariant. The rest concerns fields it does not modify, and `WindowClick` states the whole invariant again.
- Landing.Page.Leave360View promises only the view part of the page invariant, for the same reason.
- Landing.Page.MouseMove: without a view button the listener does not exist yet, so the model does nothing.
- Landing.Page.WindowClick: without a view button the listener does not exist yet, so the model does nothing.
- CityTables.TimeZone, CityTables.PanoramaUrl and Landing.Page.UpdateCityTime model the table lookups as own-key lookups. In JavaScript, `timeZones[name]` and `panoramaUrls[slug]` also find names inherited from `Object.prototype`, such as `toString` or `constructor`, and `updateCityTime('toString')` would pass its guard. No caller reaches them: every call passes a navigation label (script.js:66, 68, 1013, 1019, 1232).
