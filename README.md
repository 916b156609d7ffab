# Operations dashboard configuration core

A Dafny model of the configuration logic of the single-page operations
dashboard (`v2/app.js`). The page shows seven embed slots in three columns.
A configuration holds:

- a title;
- a refresh interval;
- three column widths in percent;
- one HTML snippet per slot.

The configuration lives in `localStorage`, and the user edits it in a drawer
or moves it between machines with export and import.

The model covers:

- **`json.dfy`**: values as `JSON.parse` yields them, and the parts of
  ECMAScript number semantics the page depends on:
  - `Number(x)`, including the TypeError for a parsed object with an own
    `toString` key;
  - `x || d`;
  - `Math.round`;
  - the page's `clamp`.

  `JSON.parse`, `JSON.stringify` and string-to-number conversion are
  parameters, held in a `Host` value.
- **`columns.dfy`**: `normalizeColumns` as a method over its local
  variables. It is proved against a specification function and its
  properties.
- **`embed.dfy`**: `toIframeIfUrl`, with JavaScript `trim`, ASCII
  lower-casing and the URL pattern.
- **`configuration.dfy`**: the configuration record, the seven slots,
  the defaults, and the stored document. It also holds `mergeConfig`,
  twice:
  - as a method that assigns the fields step by step and loops over the
    slot keys;
  - as the function it is proved equal to.
- **`session.dfy`**: load and save, the editor commit, and a `Dashboard`
  class. The class holds the fields `cfg`, `draft`, `stored` (what
  `localStorage` holds under the key) and `editMode`. Its methods are the
  edit, save, reset, import and export actions.

Behaviour of `v2/app.js` that the proofs establish:

- **Width total.** `normalizeColumns` always returns widths that total
  exactly 100 in exact arithmetic (`Columns.NormalizedTotal`). The
  correction at v2/app.js:78-82 ("If clamping broke total, adjust center")
  always restores the total. The clamp on the third width only ever lifts
  it from below 5, and the middle width can always absorb the difference.
- **Width bounds.** Only the third width is guaranteed to lie in [5, 90].
  The first two can end at 3, for example `[5, 90, 90]` gives
  `[3, 49, 48]`. The rescaling at v2/app.js:73-74 is not clamped again.
- **Not idempotent.** `normalizeColumns` is not idempotent: `[3, 49, 48]`
  becomes `[5, 48, 47]`. So opening the editor on such a layout and saving
  again changes it.
- **Non-finite widths.** An imported width that is not finite (a literal
  such as `1e400`) is kept in `cfg`. It is written to storage as `null` and
  comes back as 0 on the next load (`Session.ReloadedWidths`).

## Model

| member | source | states |
|---|---|---|
| `Json.Or` | v2/app.js:55 | `n \|\| d` is the fallback when `n` is NaN or 0 and `n` otherwise; with a non-NaN fallback it is never NaN |
| `Json.Round` | v2/app.js:67 | `Math.round` gives an integer within half a unit of a finite input, and leaves infinities and NaN alone |
| `Json.Clamp` | v2/app.js:31 | `clamp(n, lo, hi)` is NaN exactly for NaN; otherwise it lies in [lo, hi], equals `n` inside the range, `lo` below it and `hi` above it, with -Infinity giving `lo` and Infinity giving `hi` |
| `Json.ToStringThrows` | v2/app.js:55 | defines when converting a parsed value to a string throws: an object with an own `toString` key, or an array holding such a value; `Json.ToNumber` states its use |
| `Json.JoinedNumber` | v2/app.js:55 | defines `Number` of a one-element array through the text its element prints as; `Json.ToNumber` states its use |
| `Json.ToNumber` | v2/app.js:55 | `Number(x)` throws exactly when converting `x` to a string throws; a number converts to itself, null and false to 0, true to 1 |
| `Json.NumberOrZero` | v2/app.js:55 | `Number(x) \|\| 0` is never NaN, throws exactly when `Number(x)` does, and keeps every non-NaN number |
| `Columns.ClampInt` | v2/app.js:31 | clamping an integer gives a value in [lo, hi]: the input itself inside the range, the nearer bound outside it |
| `Columns.ClampIntAgrees` | v2/app.js:31 | on integers the page's `clamp` agrees with `ClampInt` |
| `Columns.StartWidth` | v2/app.js:67 | each input becomes an integer width in [5, 90], equal to `clamp(Math.round(Number(x) \|\| 0), 5, 90)` |
| `Columns.ScaledRoundIsRound` | v2/app.js:72-74 | the integer rescaling step is exactly `Math.round(a * (100 / sum))` over the reals |
| `Columns.Normalized` | v2/app.js:66-84 | defines the three widths `normalizeColumns` returns; `NormalizedTotal`, `NormalizedBounds`, `NormalizedFixedPoint` and the examples state its properties, and `NormalizeColumns` is proved to compute it |
| `Columns.NormalizeColumns` | v2/app.js:66-84 | the step-by-step computation returns three widths that total 100, the third in [5, 90] |
| `Columns.NormalizedTotal` | v2/app.js:72-82 | for every input the three widths total exactly 100 |
| `Columns.NormalizedBounds` | v2/app.js:67-83 | the first two widths lie in [3, 90] and the third in [5, 90] |
| `Columns.NormalizedFixedPoint` | v2/app.js:67-69 | integer widths in [5, 90] that total 100 are returned unchanged |
| `Columns.NormalizedLowFirstOrMiddle` | v2/app.js:72-76 | `[5, 90, 90]` gives `[3, 49, 48]` and `[90, 5, 90]` gives `[49, 3, 48]`: the minimum is not enforced on the first two widths |
| `Columns.NormalizedResidualToMiddle` | v2/app.js:76-82 | `[90, 90, 5]` gives `[49, 46, 5]`: a third width lifted to 5 takes the difference from the middle one |
| `Columns.NormalizedNotIdempotent` | v2/app.js:66-84 | `[3, 49, 48]` gives `[5, 48, 47]`: normalizing an already normalized layout can change it |
| `Embed.Trim` | v2/app.js:87 | the trimmed text starts and ends with a character that is not white space |
| `Embed.TrimCutsSpace` | v2/app.js:87 | `trim` keeps a slice of the text and removes only white space on either side |
| `Embed.TrimEmptyIffBlank` | v2/app.js:87-88 | the trimmed text is empty exactly when the text is all white space |
| `Embed.LooksLikeIframe` | v2/app.js:90 | defines the snippet test: the lower-cased text contains both `<iframe` and `src=`; `WrapIsSnippet` and `NoTagNoSnippet` state its properties |
| `Embed.LooksLikeUrl` | v2/app.js:94 | defines `/^https?:\/\/\S+$/i`: `http://` or `https://` in any case, then at least one character and no white space |
| `Embed.Wrap` | v2/app.js:95-96 | defines the wrapping `<iframe src="URL" loading="lazy"></iframe>`, with the URL inserted unescaped |
| `Embed.ToIframeIfUrl` | v2/app.js:86-100 | defines the editor's conversion of a slot's text; `ToIframeIfUrlCases` and `ToIframeIfUrlIdempotent` state its properties |
| `Embed.ToIframeIfUrlCases` | v2/app.js:86-100 | the result is `""` exactly for blank text; it differs from the trimmed text exactly when that text is a bare http(s) URL and not already a snippet, and then it is `<iframe src="URL" loading="lazy"></iframe>` |
| `Embed.ToIframeIfUrlIdempotent` | v2/app.js:86-100 | the result needs no trimming, and converting it again changes nothing |
| `Embed.WrapIsSnippet` | v2/app.js:90-96 | a wrapped URL is itself recognised as a snippet and needs no trimming |
| `Embed.NoTagNoSnippet` | v2/app.js:90 | text without a `<` is never taken for a snippet |
| `Embed.WrapsBareUrl` | v2/app.js:94-96 | trimmed text that is a bare URL and not a snippet is wrapped |
| `Embed.WrapUrlExample` | v2/app.js:94-96 | `https://example.com/x` is wrapped into a snippet |
| `Embed.KeepSnippetExample` | v2/app.js:90-91 | `<iframe src="a"></iframe>` is kept as it is |
| `Configuration.DefaultsWellTyped` | v2/app.js:14-27 | the constant `Configuration.Defaults`, transcribed from `defaultConfig`, fills all seven slots and has finite widths |
| `Configuration.KeyInjective` | v2/app.js:4-12 | different slots have different keys |
| `Configuration.Encode` | v2/app.js:45 | defines the document `JSON.stringify(cfg)` writes: name, interval, the widths (a non-finite one as `null`) and the seven slot strings under their keys; `EncodedSlots`, `MergeEncoded` and `MergeEncodedWidths` state what reading it back gives |
| `Configuration.OverlayPanels` | v2/app.js:58-62 | defines the panel overlay: every slot key of the base, with the offered string where there is one; `Merge` states its effect |
| `Configuration.Merge` | v2/app.js:48-64 | the merge throws exactly when a width's conversion throws, and a non-object `incoming` leaves the base as it is. Otherwise: the name changes only to an offered string and always to one; the refresh interval changes only to a finite number, unclamped; the widths change only for an array of exactly three, each one coerced; each slot takes an offered string and otherwise keeps its value; the slot keys and validity are kept |
| `Configuration.CoerceWidths` | v2/app.js:54-56 | converting the three widths in order fails exactly when one conversion throws, and otherwise yields `Number(x) \|\| 0` for each |
| `Configuration.OverlayPanelsInPlace` | v2/app.js:58-62 | the loop over the base's slot keys gives the overlay of the offered strings |
| `Configuration.MergeConfig` | v2/app.js:48-64 | the in-place merge computes `Merge` |
| `Configuration.EncodedSlots` | v2/app.js:45 | the stored `panels` object gives back each slot's string under its key |
| `Configuration.MergeEncoded` | v2/app.js:48-64 | merging the stored document of a well-typed configuration onto any configuration with all seven slots gives that configuration back |
| `Configuration.MergeEncodedWidths` | v2/app.js:54-55 | after storing and merging, a finite width comes back unchanged and a non-finite one comes back as 0 |
| `Configuration.MergeIdempotent` | v2/app.js:48-64 | merging the same document a second time changes nothing |
| `Configuration.MergeRefreshOnlyExample` | v2/app.js:52 | `{"refreshIntervalSec": 45}` changes only the refresh interval |
| `Session.Serialized` | v2/app.js:45 | defines the stored text as the host's `JSON.stringify` of the document `Encode` gives |
| `Session.RoundTrips` | v2/app.js:36-45 | defines the one hypothesis the round trips take about the host, for the one configuration stored: the text is not empty and parses to the document it was written from |
| `Session.RoundTripsSatisfiable` | v2/app.js:36-45 | for every configuration some host meets that hypothesis, so the round trips do not hold vacuously |
| `Session.Load` | v2/app.js:33-42 | loading always gives a valid configuration; it gives exactly the defaults when storage is absent or empty, or when parsing fails |
| `Session.Imported` | v2/app.js:363-364 | an imported configuration is valid, and text that does not parse imports nothing |
| `Session.ParseAndMerge` | v2/app.js:363-364 | parsing and merging onto the defaults computes `Imported` |
| `Session.LoadAfterSave` | v2/app.js:33-46 | saving a well-typed configuration and loading it again gives it back, when the host reads that configuration's text back as written |
| `Session.ImportAfterExport` | v2/app.js:336-376 | exporting a well-typed configuration and importing the text gives it back, whatever the current configuration, when the host reads that text back as written |
| `Session.ReloadedWidths` | v2/app.js:44-46 | when the host reads the text back as written, save then load keeps every finite width and turns every non-finite one into 0 |
| `Session.ImportRefreshOnly` | v2/app.js:361-376 | importing `{"refreshIntervalSec": 45}` gives the defaults with only the interval changed |
| `Session.EveryPanelListed` | v2/app.js:4-12 | every slot is listed in the page order |
| `Session.Position` | v2/app.js:4-12 | each slot's index in the page order |
| `Session.CommitName` | v2/app.js:262 | the committed name is never empty: the trimmed input, or "Operations Dashboard" when that is blank |
| `Session.CommitRefresh` | v2/app.js:263 | the committed interval lies in [30, 3600]: NaN and 0 give 600, values in range are kept, others go to the nearer bound |
| `Session.CommittedPanels` | v2/app.js:271-275 | defines the committed slots: an edited slot holds its converted text, every other slot keeps its value; `CommittedPanelsKeys` and `CommittedIsNormal` state its properties |
| `Session.Committed` | v2/app.js:261-276 | defines the draft after `readDraftFromEditor`; `CommittedIsNormal`, `CommittedValid` and `ReloadAfterSave` state its properties, and `ReadEditor` is proved to compute it |
| `Session.CommittedPanelsKeys` | v2/app.js:271-275 | committing the slot texts keeps exactly the seven slots |
| `Session.CommittedThroughSlot` | v2/app.js:271-275 | after the first `n` entries of the page order, a slot holds its converted text exactly when it was edited and is among them |
| `Session.CommitPanels` | v2/app.js:271-275 | the loop over the page order gives the committed slots |
| `Session.CommittedValid` | v2/app.js:261-276 | a committed draft is valid, with finite widths |
| `Session.CommittedIsNormal` | v2/app.js:261-276 | a committed draft has a non-empty name and an interval in [30, 3600]. Its integer widths total 100, with the third in [5, 90]. Every edited slot is a fixed point of `toIframeIfUrl`, and every other slot keeps its value |
| `Session.ReloadAfterSave` | v2/app.js:317-320 | whatever is typed into the editor, saving it and reloading gives the saved configuration back, when the host reads the saved text back as written |
| `Session.ReadEditor` | v2/app.js:261-276 | reading the editor field by field computes `Committed` |
| `Session.Dashboard.constructor` | v2/app.js:191-192 | at start-up `cfg` is the loaded configuration and `draft` a copy of it |
| `Session.Dashboard.SaveConfig` | v2/app.js:44-46 | storage then holds exactly the serialised configuration |
| `Session.Dashboard.ToggleEdit` | v2/app.js:305-312 | the edit button flips edit mode; entering it restarts the draft from `cfg`, leaving it keeps the draft |
| `Session.Dashboard.CloseEditor` | v2/app.js:314-315 | closing or discarding ends edit mode and commits nothing |
| `Session.Dashboard.EditPanel` | v2/app.js:293-303 | a tile's edit button enters edit mode without refreshing the draft |
| `Session.Dashboard.ReadDraftFromEditor` | v2/app.js:261-276 | the draft becomes the committed editor contents and stays valid |
| `Session.Dashboard.Save` | v2/app.js:317-324 | the committed draft becomes `cfg` and is stored, and edit mode ends; when the host reads the stored text back as written, loading it gives `cfg` back |
| `Session.Dashboard.Publish` | v2/app.js:319-322 | the draft becomes `cfg` and is stored, and edit mode ends |
| `Session.Dashboard.Reset` | v2/app.js:326-333 | `cfg` and `draft` become the defaults, and the defaults are stored |
| `Session.Dashboard.Import` | v2/app.js:361-376 | on success, `cfg` is the pasted document merged onto the defaults, whatever `cfg` was before. It is stored, and the draft follows it while editing. On failure `cfg`, `draft` and storage are unchanged |
| `Session.Dashboard.Adopt` | v2/app.js:364-372 | the imported configuration becomes `cfg` and is stored, and the draft follows it in edit mode |
| `Session.Dashboard.Export` | v2/app.js:336-338 | importing the exported text gives `cfg` back when `cfg` is well-typed and the host reads the text back as written |

## Left out

- Rendering, editor hydration, the Twitch hint, the clock, the refresh
  countdown and the automatic reload are left out. They write to the page
  or run on timers and change none of `cfg`, `draft` or storage.
- Presets, the modal and the clipboard are left out. Only the effect of the
  buttons on `cfg`, `draft` and storage is modelled.
- `JSON.parse`, `JSON.stringify` and ECMAScript StringToNumber are
  parameters (`Json.Host`). Each round trip is proved under the
  hypothesis `Session.RoundTrips` for the one configuration it stores: the
  text is not empty and parses back to the document it was written from.
  `Session.RoundTripsSatisfiable` shows that the hypothesis can be met for
  every configuration.
- Exceptions from `localStorage.getItem`/`setItem` (disabled storage, full
  quota) are left out. Storage is a field that always accepts a write.
- Numbers are exact reals plus the two infinities and NaN. Negative zero is
  not told apart from zero.
- `Columns.ScaledRoundIsRound`: exact rational arithmetic stands in for the
  double-precision product `a * (100 / sum)` the page computes.
- `Embed.LowerChar`: only ASCII letters are lower-cased. Unicode case
  mappings of other characters are not modelled.
- `Session.EditorInput`: the editor's fields are plain strings. The slots
  with a textarea are a map, which may lack some slots. The values shown
  when the editor opens are not modelled.
- `Session.Dashboard.Export`: the export text is taken to be the stored text
  `Serialized(cfg, host)`. The page's pretty-printed
  `JSON.stringify(cfg, null, 2)` is a different string, and its layout is
  not modelled.
