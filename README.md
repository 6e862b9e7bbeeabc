# GAIA-Scout Pro core, modelled in Dafny

GAIA-Scout Pro is a browser demo of a ground-penetrating-radar camera. It overlays randomly
generated artifact detections on the camera image, keeps a short feed of recent discoveries,
colours a simulated density grid on a map, offers a simulated sign-in, and switches its
interface between Arabic, French and English. This project models the logic behind those
features. Every `Math.random()` call becomes an injected sample in [0, 1), the DOM becomes
fields and sequences, and JavaScript numbers become Dafny `real`s.

Modules:

- `Wrappers`: `Option`.
- `Text`: `s.split(sep)[0]` as `TextBefore`.
- `Detection`: the detection gate (readyState 4, sample > 0.8) and the attribute arithmetic, as functions of the samples.
- `Discoveries`: the specification of the discovery feed. `Recent` gives one insertion. `Feed` gives many insertions.
- `Gpr`: the density clamp, grid coordinates and the three-band colour map.
- `Auth`: the modal toggle and the display name taken from the e-mail.
- `App`: the class `GaiaScoutApp`. Its fields are the depth, the overlay boxes, the discovery feed, the modal's display value and the user button. Its methods are the handlers that change these fields. `AddToDiscoveries` pops the tail in a loop, and `GenerateGprData` builds the grid with nested loops.
- `Translations`: the three constant tables, lookup with fallback, and the class `Page`. `Page.ChangeLanguage` sets the language and text direction, then rewrites each marked element in a loop.

Facts about the code that shape the model:

- The detection threshold is 0.8 (app.js:121).
- A detection carries a fixed 0.2 by 0.2 box and no depth estimate.
- A discovery records the current depth, with no time or location.
- The app keeps no running count of discoveries.

## Model

| member | source | states |
|---|---|---|
| Text.TextBefore | app.js:282 | the result is a prefix of the string, contains no separator, and is followed by the separator whenever it is shorter than the string |
| Text.TextBeforeUnique | app.js:282 | any prefix with those three properties is the result: they characterise the text before the first separator |
| Text.TextBeforeSplits | app.js:282 | the whole string is kept exactly when it has no separator; otherwise the string is the result, the separator, and the rest |
| Detection.ArtifactIndex | app.js:138 | `floor(r * 7)` lies in [0, 7) for every sample r in [0, 1) |
| Detection.RandomArtifact | app.js:136-139 | the picked label is one of the seven artifact labels |
| Detection.EveryArtifactReachable | app.js:137-138 | every label is picked by some sample (k/7 picks the k-th) |
| Detection.Confidence | app.js:124 | the confidence lies in [0.7, 1.0) |
| Detection.ConfidenceOnto | app.js:124 | each confidence in [0.7, 1.0) comes from exactly one sample |
| Detection.Coordinate | app.js:125-126 | x and y lie in [0.1, 0.9) |
| Detection.CoordinateOnto | app.js:125-126 | each coordinate in [0.1, 0.9) comes from exactly one sample |
| Detection.Detect | app.js:117-134 | a detection exists iff the first sample is strictly above 0.8; it has a known label, confidence in [0.7, 1.0), x and y in [0.1, 0.9), width and height 0.2 |
| Detection.Tick | app.js:98-101 | a detection exists iff readyState is 4 and the sample exceeds 0.8, with the same ranges |
| Discoveries.ItemFor | app.js:163-173 | the item keeps the label, confidence and current depth; its icon is the label's text before the first space |
| Discoveries.Recent | app.js:175-180 | after an insertion the new item is first, the length is min(old length + 1, 5), and the rest is the old list's leading prefix in its old order |
| Discoveries.FeedIsNewestFirst | app.js:175-180 | after any number of insertions into an empty list, the list is the five newest items, newest first |
| Gpr.Clamp01 | app.js:203 | the clamped value lies in [0, 1], equals its input when that is in [0, 1], and is 0 below and 1 above |
| Gpr.Density | app.js:201-203 | every density lies in [0, 1] whatever the depth and noise, and equals base density plus noise when that sum is in [0, 1] |
| Gpr.Offset | app.js:197-198 | row and column offsets (i - 5) * 0.001 range from -0.005 to 0.004 for i in [0, 10) |
| Gpr.GridPoint | app.js:197-205 | each point lies within -0.005 to +0.004 degrees of the user in both axes, and its density is in [0, 1] |
| Gpr.GridPointsDistinct | app.js:195-198 | different (row, column) pairs give different points |
| Gpr.DensityColor | app.js:236-240 | below 0.3 gives #87CEEB, [0.3, 0.7) gives #FF6347, 0.7 and above gives #000000, each as an iff |
| Gpr.DensityColorMonotone | app.js:236-240 | a denser reading never gets a lighter band |
| Auth.Toggled | app.js:270-273 | 'none' becomes 'flex', and every other display value becomes 'none' |
| Auth.ToggleTwice | app.js:272 | toggling twice restores the display iff it was 'none' or 'flex' |
| Auth.DisplayName | app.js:282 | the shown name is the e-mail's text before the first '@', or the whole e-mail when it has no '@' |
| App.GaiaScoutApp.constructor | app.js:3-14 | the depth starts at 0.5 and the location is Algiers (36.7538, 3.0588); the overlay, discoveries list, modal and user button start as the page gives them |
| App.GaiaScoutApp.SetDepth | app.js:69-73 | the selected depth becomes the current depth, and the returned grid is the 100 readings generated for that depth |
| App.GaiaScoutApp.AddDetection | app.js:141-161 | the detection's box is appended to the overlay |
| App.GaiaScoutApp.AddToDiscoveries | app.js:163-181 | the feed becomes `Recent(old feed, item)`: the front insertion followed by the pop-from-the-end loop |
| App.GaiaScoutApp.PerformAIDetection | app.js:117-134 | with no detection, neither overlay nor feed changes; with one, it is drawn and put at the head of the feed |
| App.GaiaScoutApp.ScanTick | app.js:98-106 | the same, and nothing at all changes unless readyState is 4 |
| App.GaiaScoutApp.GenerateGprData | app.js:193-209 | exactly 100 points in row-major order; point k is row k / 10, column k % 10, with noise sample k |
| App.GaiaScoutApp.UpdateGprVisualization | app.js:183-191 | the grid is generated for the current depth |
| App.GaiaScoutApp.ToggleAuth | app.js:270-273 | the modal's display becomes `Toggled` of the old one |
| App.GaiaScoutApp.HandleAuth | app.js:275-285 | nothing changes unless both fields are non-empty; otherwise the button shows the icon and the name before '@', and the modal toggles |
| Translations.TablesShareKeys | translations.js:1-86 | the Arabic, French and English tables define the same keys |
| Translations.ArabicHasNoEmptyText | translations.js:2-29 | no Arabic entry is empty |
| Translations.FrenchHasNoEmptyText | translations.js:30-57 | no French entry is empty |
| Translations.EnglishHasNoEmptyText | translations.js:58-85 | no English entry is empty |
| Translations.NoEmptyEntries | translations.js:1-86 | no entry of any table is empty |
| Translations.AppTitleEverywhere | translations.js:1-86 | every table has app_title, and it is "GAIA-Scout Pro" in all of them |
| Translations.Direction | translations.js:93 | the direction is 'rtl' exactly when the language is 'ar', and 'ltr' otherwise |
| Translations.Lookup | translations.js:97 | the lookup succeeds iff the key is in the table with non-empty text, and then yields that text |
| Translations.Translated | translations.js:95-100 | the element's text is replaced by the table's text when the lookup succeeds; otherwise the element is unchanged; the key never changes |
| Translations.TranslateAll | translations.js:95-100 | each element's result depends only on that element: same length, and element k becomes `Translated` of element k |
| Translations.LastLanguageWins | translations.js:88-101 | switching to one language and then another leaves the same texts as switching to the second directly |
| Translations.Page.constructor | translations.js:88 | the current language starts as 'ar' |
| Translations.Page.ChangeLanguage | translations.js:90-101 | the language, lang attribute and direction are set first. A known code translates every element. An unknown code throws (ok is false) when an element is present, and no text changes |

## Left out

- Camera acquisition (`setupCamera`) and the canvas: browser I/O. The video's `readyState` is a parameter of `ScanTick`.
- The `requestAnimationFrame` loop: `ScanTick` models one pass of it. The depth indicator text it writes is formatting only.
- App.GaiaScoutApp.AddDetection: the 3-second `setTimeout` that removes each box is timing and is not modelled, so boxes are never removed from `overlay`.
- The Leaflet map, the tile layer, the markers and `updateMapOverlay` are calls into a foreign library. `getDensityColor` is modelled on its own, and `UpdateGprVisualization` returns the data it would draw.
- The KMZ upload (`handleKMZUpload`, `parseKMZData`) is left out. It is file I/O, and the parser ignores its input and adds two fixed map markers.
- `showError`/`alert` and the service worker registration are I/O, and sw.js is not part of this model.
- `Math.random` is left out. Its results are injected samples.
- IEEE-754 rounding is left out. Ranges are proved over the reals, and `toFixed` and percentage formatting of labels are not modelled.
- App.GaiaScoutApp.SetDepth: `parseFloat` of the slider value is not modelled; the handler receives the parsed number. The `depth-value` label it writes (and the slider value a layer button writes) is display text and is not modelled.
- Discoveries.ItemFor: the item's HTML markup is modelled as a record of its fields.
- The unused `models` and `detections` fields are left out. The app keeps no running count of discoveries.
- Translations.Lookup: language codes and keys inherited from `Object.prototype` (such as `toString`, `constructor` or `__proto__`) are not modelled; only the tables' own entries are. For such a code the source does not throw, whereas `Page.ChangeLanguage` reports every code outside ar, fr, en as failing when an element is present.
