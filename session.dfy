/** The page's session: `loadConfig`/`saveConfig` (v2/app.js:33-46), the
    current configuration `cfg` and the editor's `draft` (v2/app.js:191-192),
    the editor commit `readDraftFromEditor` (v2/app.js:261-276), and the
    edit-toggle, save, reset and import handlers (v2/app.js:305-333,
    v2/app.js:361-376). `localStorage` is the field `stored`; `JSON.parse`,
    `JSON.stringify` and string-to-number conversion come from a `Host`. */
module Session {
  import opened Wrappers
  import opened Json
  import opened Configuration
  import Columns
  import Embed

  /** The name used when the editor's name field is blank. */
  const FallbackName: string := "Operations Dashboard"

  /** `JSON.stringify(c)`: the text `saveConfig` stores and the export
      dialog shows. */
  function Serialized(c: Config, host: Host): string
  {
    host.stringify(Encode(c))
  }

  /** `JSON.parse(JSON.stringify(c))` gives back the document that
      describes `c`, and the stored text is not empty. The round trips below
      take this as a hypothesis about the one configuration they store;
      nothing else is assumed of the host. */
  predicate RoundTrips(host: Host, c: Config)
  {
    Serialized(c, host) != "" && host.parse(Serialized(c, host)) == Some(Encode(c))
  }

  /** The hypothesis can be met for every configuration: a host that reads
      back exactly the document it was given is one witness. */
  lemma RoundTripsSatisfiable(c: Config)
    ensures exists host :: RoundTrips(host, c)
  {
    var host := Host(_ => Some(Encode(c)), _ => "{}", _ => NaN);
    assert RoundTrips(host, c);
  }

  /** `loadConfig()` when storage holds `stored` under the key. */
  function Load(stored: Option<string>, host: Host): (r: Config)
    ensures Valid(r)
    ensures stored == None || stored == Some("") ==> r == Defaults
    ensures stored.Some? && host.parse(stored.value) == None ==> r == Defaults
  {
    DefaultsWellTyped();
    match stored
    case None => Defaults
    case Some(raw) =>
      if raw == "" then Defaults
      else match host.parse(raw)
        case None => Defaults
        case Some(doc) =>
          match Merge(Defaults, doc, host.stringToNumber)
          case None => Defaults
          case Some(c) => c
  }

  /** What the import handler makes of the pasted text: the document merged
      onto the defaults, or None when parsing or merging throws. */
  function Imported(text: string, host: Host): (r: Option<Config>)
    ensures r.Some? ==> Valid(r.value)
    ensures host.parse(text) == None ==> r == None
  {
    DefaultsWellTyped();
    match host.parse(text)
    case None => None
    case Some(doc) => Merge(Defaults, doc, host.stringToNumber)
  }

  /** The import handler's `mergeConfig(defaults, JSON.parse(text))`. */
  method ParseAndMerge(text: string, host: Host) returns (r: Option<Config>)
    ensures r == Imported(text, host)
  {
    var parsed := host.parse(text);
    if parsed.None? {
      return None;
    }
    r := MergeConfig(Defaults, parsed.value, host.stringToNumber);
  }

  /** Saving a well-typed configuration and loading it again gives it back. */
  lemma LoadAfterSave(host: Host, c: Config)
    requires RoundTrips(host, c) && WellTyped(c)
    ensures Load(Some(Serialized(c, host)), host) == c
  {
    MergeEncoded(Defaults, c, host.stringToNumber);
  }

  /** Exporting a well-typed configuration and importing the text gives it
      back, whatever the current configuration is. */
  lemma ImportAfterExport(host: Host, c: Config)
    requires RoundTrips(host, c) && WellTyped(c)
    ensures Imported(Serialized(c, host), host) == Some(c)
  {
    MergeEncoded(Defaults, c, host.stringToNumber);
  }

  /** Saving and loading keeps every finite width and turns every other
      one into 0: a width that is not finite (an imported `1e400` parses as
      Infinity) is written as `null`. */
  lemma ReloadedWidths(host: Host, c: Config)
    requires RoundTrips(host, c)
    ensures forall i | 0 <= i < 3 ::
              Load(Some(Serialized(c, host)), host).columnsPct[i] == if c.columnsPct[i].Fin? then c.columnsPct[i] else Zero
  {
    MergeEncodedWidths(Defaults, c, host.stringToNumber);
  }

  /** Importing `{"refreshIntervalSec": 45}` gives the defaults with only
      the refresh interval changed. */
  lemma ImportRefreshOnly(host: Host, text: string)
    requires host.parse(text) == Some(JObject(map["refreshIntervalSec" := JNumber(Fin(45.0))]))
    ensures Imported(text, host) == Some(Defaults.(refreshIntervalSec := 45.0))
  {
    MergeRefreshOnlyExample(host.stringToNumber);
  }

  /** Every slot is listed in `panelOrder`. */
  lemma EveryPanelListed(k: PanelId)
    ensures k in PanelOrder && k in AllPanels
  {
    match k
    case LeftTop =>
    case LeftMiddle =>
    case LeftBottom =>
    case CenterTop =>
    case CenterBottom =>
    case RightTop =>
    case RightBottom =>
  }

  /** The slot's index in `panelOrder`. */
  function Position(k: PanelId): (r: nat)
    ensures r < |PanelOrder| && PanelOrder[r] == k
  {
    match k
    case LeftTop => 0
    case LeftMiddle => 1
    case LeftBottom => 2
    case CenterTop => 3
    case CenterBottom => 4
    case RightTop => 5
    case RightBottom => 6
  }

  lemma PositionOf(i: nat)
    requires i < |PanelOrder|
    ensures Position(PanelOrder[i]) == i
  {
  }

  /** The values read from the editor's fields: the name, the refresh
      interval and the three widths as typed, and the text of each slot's
      textarea (a slot without a textarea is absent). */
  datatype EditorInput = EditorInput(
    name: string,
    refresh: string,
    col1: string,
    col2: string,
    col3: string,
    panelTexts: map<PanelId, string>)

  /** `nameInput.value.trim() || "Operations Dashboard"`. */
  function CommitName(text: string): (r: string)
    ensures r != ""
    ensures Embed.Trim(text) != "" ==> r == Embed.Trim(text)
    ensures Embed.Trim(text) == "" ==> r == FallbackName
  {
    var trimmed := Embed.Trim(text);
    if trimmed == "" then FallbackName else trimmed
  }

  /** `clamp(Number(v) || 600, 30, 3600)`: NaN and zero fall back to 600,
      anything else is clamped into [30, 3600]. */
  function CommitRefresh(n: Number): (r: real)
    ensures 30.0 <= r <= 3600.0
    ensures n == NaN || n == Zero ==> r == 600.0
    ensures n.Fin? && n != Zero && 30.0 <= n.value <= 3600.0 ==> r == n.value
    ensures n.Fin? && n != Zero && n.value < 30.0 ==> r == 30.0
    ensures n.Fin? && 3600.0 < n.value ==> r == 3600.0
    ensures n == PosInf ==> r == 3600.0
    ensures n == NegInf ==> r == 30.0
  {
    Clamp(Or(n, Fin(600.0)), 30.0, 3600.0).value
  }

  /** `Number(text)` for an editor field's value. Applying a function-valued
      parameter is a term the verifier handles poorly inside methods; naming
      the application lets `ReadEditor` and `Committed` share one term. */
  function NumberOf(num: string -> Number, text: string): Number
  {
    num(text)
  }

  /** Integer widths as the numbers stored in `columnsPct`. */
  function AsWidths(ints: seq<int>): (r: Widths)
    requires |ints| == 3
    ensures forall i | 0 <= i < 3 :: r[i] == Fin(ints[i] as real)
  {
    seq(3, i requires 0 <= i < 3 => Fin(ints[i] as real))
  }

  /** The slots after the editor's panel texts are committed, each text
      passed through `convert` (the page passes `toIframeIfUrl`). */
  function CommittedPanels(slots: map<PanelId, string>, texts: map<PanelId, string>, convert: string -> string): map<PanelId, string>
  {
    map k | k in slots.Keys + texts.Keys ::
      if k in texts then Converted(convert, texts[k]) else slots[k]
  }

  /** `convert(text)`, named so that the loop in `CommitPanels` and the
      specification above share one term. */
  function Converted(convert: string -> string, text: string): string
  {
    convert(text)
  }

  /** The draft after `readDraftFromEditor()`. */
  function Committed(draft: Config, input: EditorInput, num: string -> Number): Config
  {
    Config(
      CommitName(input.name),
      CommitRefresh(NumberOf(num, input.refresh)),
      AsWidths(Columns.Normalized([NumberOf(num, input.col1), NumberOf(num, input.col2), NumberOf(num, input.col3)])),
      CommittedPanels(draft.panels, input.panelTexts, Embed.ToIframeIfUrl))
  }

  /** Committing the editor keeps the seven slots. */
  lemma CommittedPanelsKeys(slots: map<PanelId, string>, texts: map<PanelId, string>, convert: string -> string)
    requires slots.Keys == AllPanels
    ensures CommittedPanels(slots, texts, convert).Keys == AllPanels
  {
    forall k: PanelId ensures k in AllPanels {
      EveryPanelListed(k);
    }
  }

  /** Committing the editor keeps a configuration valid. */
  lemma CommittedValid(draft: Config, input: EditorInput, num: string -> Number)
    requires Valid(draft)
    ensures WellTyped(Committed(draft, input, num)) && Valid(Committed(draft, input, num))
  {
    CommittedPanelsKeys(draft.panels, input.panelTexts, Embed.ToIframeIfUrl);
  }

  /** A committed draft is what the configuration is meant to be: a
      non-empty name, an interval in [30, 3600], integer widths totalling
      100 with the third in [5, 90], every edited slot in the form the
      editor would leave unchanged, and every other slot as it was. */
  lemma CommittedIsNormal(draft: Config, input: EditorInput, num: string -> Number)
    requires Valid(draft)
    ensures var r := Committed(draft, input, num);
      && WellTyped(r) && Valid(r)
      && r.name != ""
      && 30.0 <= r.refreshIntervalSec <= 3600.0
      && r.columnsPct[0].value + r.columnsPct[1].value + r.columnsPct[2].value == 100.0
      && 5.0 <= r.columnsPct[2].value <= 90.0
      && (forall i | 0 <= i < 3 :: r.columnsPct[i].value == r.columnsPct[i].value.Floor as real)
      && (forall k | k in input.panelTexts :: Embed.ToIframeIfUrl(r.panels[k]) == r.panels[k])
      && (forall k | k in draft.panels && k !in input.panelTexts :: r.panels[k] == draft.panels[k])
  {
    var cols := [NumberOf(num, input.col1), NumberOf(num, input.col2), NumberOf(num, input.col3)];
    var ints := Columns.Normalized(cols);
    Columns.NormalizedTotal(cols);
    Columns.NormalizedBounds(cols);
    var widths := AsWidths(ints);
    assert widths[0].value + widths[1].value + widths[2].value == 100.0;
    CommittedValid(draft, input, num);
    var r := Committed(draft, input, num);
    forall k | k in input.panelTexts
      ensures Embed.ToIframeIfUrl(r.panels[k]) == r.panels[k]
    {
      Embed.ToIframeIfUrlIdempotent(input.panelTexts[k]);
    }
  }

  /** Whatever was typed into the editor, saving it and reloading the page
      gives the saved configuration back. */
  lemma ReloadAfterSave(host: Host, draft: Config, input: EditorInput)
    requires Valid(draft) && RoundTrips(host, Committed(draft, input, host.stringToNumber))
    ensures var saved := Committed(draft, input, host.stringToNumber);
      Load(Some(Serialized(saved, host)), host) == saved
  {
    CommittedIsNormal(draft, input, host.stringToNumber);
    LoadAfterSave(host, Committed(draft, input, host.stringToNumber));
  }

  /** The slots after the loop over `panelOrder` has handled its first
      `n` entries. */
  function CommittedThrough(slots: map<PanelId, string>, texts: map<PanelId, string>, convert: string -> string, n: nat)
    : map<PanelId, string>
    requires n <= |PanelOrder|
  {
    if n == 0 then slots
    else
      var before := CommittedThrough(slots, texts, convert, n - 1);
      var id := PanelOrder[n - 1];
      if id in texts then before[id := Converted(convert, texts[id])] else before
  }

  /** After the first `n` entries, a slot holds its converted text exactly
      when it was edited and is among them. */
  lemma {:induction false} CommittedThroughSlot(
    slots: map<PanelId, string>, texts: map<PanelId, string>, convert: string -> string, n: nat, k: PanelId)
    requires n <= |PanelOrder|
    ensures k in CommittedThrough(slots, texts, convert, n) <==> k in slots || (k in texts && Position(k) < n)
    ensures k in CommittedThrough(slots, texts, convert, n) ==>
              CommittedThrough(slots, texts, convert, n)[k]
              == if k in texts && Position(k) < n then Converted(convert, texts[k]) else slots[k]
  {
    if n > 0 {
      CommittedThroughSlot(slots, texts, convert, n - 1, k);
      PositionOf(n - 1);
    }
  }

  /** `for (const {id} of panelOrder) { ...; draft.panels[id] =
      toIframeIfUrl(ta.value); }` over the slots that have a textarea. */
  method CommitPanels(slots: map<PanelId, string>, texts: map<PanelId, string>, convert: string -> string)
    returns (r: map<PanelId, string>)
    ensures r == CommittedPanels(slots, texts, convert)
  {
    r := slots;
    for i := 0 to |PanelOrder|
      invariant r == CommittedThrough(slots, texts, convert, i)
    {
      var id := PanelOrder[i];
      if id in texts {
        r := r[id := Converted(convert, texts[id])];
      }
    }
    forall k
      ensures k in r <==> k in CommittedPanels(slots, texts, convert)
      ensures k in r ==> r[k] == CommittedPanels(slots, texts, convert)[k]
    {
      CommittedThroughSlot(slots, texts, convert, |PanelOrder|, k);
    }
  }

  /** The work of `readDraftFromEditor()`, field by field. */
  method ReadEditor(draft: Config, input: EditorInput, num: string -> Number) returns (r: Config)
    ensures r == Committed(draft, input, num)
  {
    var name := Embed.Trim(input.name);
    if name == "" {
      name := FallbackName;
    }
    var refresh := CommitRefresh(NumberOf(num, input.refresh));
    var cols := Columns.NormalizeColumns([NumberOf(num, input.col1), NumberOf(num, input.col2), NumberOf(num, input.col3)]);
    var slots := CommitPanels(draft.panels, input.panelTexts, Embed.ToIframeIfUrl);
    r := Config(name, refresh, AsWidths(cols), slots);
  }

  /** The page's state: the current configuration, the editor's draft,
      what storage holds, and whether the editor is open. */
  class Dashboard {
    const host: Host
    var cfg: Config
    var draft: Config
    var stored: Option<string>
    var editMode: bool

    ghost predicate Invariant()
      reads this
    {
      Valid(cfg) && Valid(draft)
    }

    /** Page start-up: `cfg = loadConfig(); draft = structuredClone(cfg)`. */
    constructor (host: Host, stored: Option<string>)
      ensures this.host == host && this.stored == stored
      ensures cfg == Load(stored, host) && draft == cfg && !editMode
      ensures Invariant()
    {
      this.host := host;
      this.stored := stored;
      cfg := Load(stored, host);
      draft := Load(stored, host);
      editMode := false;
    }

    /** `saveConfig(c)`: storage holds exactly the serialised `c`. */
    method SaveConfig(c: Config)
      modifies this`stored
      ensures stored == Some(Serialized(c, host))
    {
      stored := Some(Serialized(c, host));
    }

    /** The edit button: entering edit mode starts the draft from `cfg`;
        leaving it keeps the draft. */
    method ToggleEdit()
      requires Invariant()
      modifies this`draft, this`editMode
      ensures Invariant()
      ensures editMode == !old(editMode)
      ensures draft == if editMode then cfg else old(draft)
    {
      var on := !editMode;
      if on {
        draft := cfg;
      }
      editMode := on;
    }

    /** Closing the drawer or discarding: edit mode ends, nothing is
        committed. */
    method CloseEditor()
      modifies this`editMode
      ensures !editMode
    {
      editMode := false;
    }

    /** A tile's edit button: edit mode starts without refreshing the
        draft from `cfg`. */
    method EditPanel()
      modifies this`editMode
      ensures editMode
    {
      editMode := true;
    }

    /** `readDraftFromEditor()`: the draft's fields are overwritten one by
        one from the editor. */
    method ReadDraftFromEditor(input: EditorInput)
      requires Invariant()
      modifies this`draft
      ensures Invariant() && WellTyped(draft)
      ensures draft == Committed(old(draft), input, host.stringToNumber)
    {
      var committed := ReadEditor(draft, input, host.stringToNumber);
      CommittedValid(draft, input, host.stringToNumber);
      draft := committed;
    }

    /** The save button: commit the editor, make the draft current, store
        it, leave edit mode. */
    method Save(input: EditorInput)
      requires Invariant()
      modifies this`draft, this`cfg, this`stored, this`editMode
      ensures Invariant()
      ensures draft == Committed(old(draft), input, host.stringToNumber)
      ensures cfg == draft && !editMode
      ensures stored == Some(Serialized(cfg, host))
      ensures RoundTrips(host, cfg) ==> Load(stored, host) == cfg
    {
      ReadDraftFromEditor(input);
      Publish();
      if RoundTrips(host, cfg) {
        LoadAfterSave(host, cfg);
      }
    }

    /** The rest of the save button: the draft becomes current and is
        stored, and edit mode ends. */
    method Publish()
      requires Invariant()
      modifies this`cfg, this`stored, this`editMode
      ensures Invariant()
      ensures cfg == draft && !editMode
      ensures stored == Some(Serialized(cfg, host))
    {
      cfg := draft;
      SaveConfig(cfg);
      editMode := false;
    }

    /** The reset button: the defaults become current and the draft, and
        are stored. */
    method Reset()
      modifies this`draft, this`cfg, this`stored
      ensures Invariant()
      ensures cfg == Defaults && draft == Defaults
      ensures stored == Some(Serialized(Defaults, host))
    {
      DefaultsWellTyped();
      cfg := Defaults;
      draft := cfg;
      SaveConfig(cfg);
    }

    /** The import dialog's confirm button. Parsed text is merged onto the
        defaults, never onto the current configuration, and stored; the
        draft follows when the editor is open. Text that does not parse (or
        whose merge throws) changes nothing. */
    method Import(text: string) returns (ok: bool)
      requires Invariant()
      modifies this`draft, this`cfg, this`stored
      ensures Invariant()
      ensures ok == Imported(text, host).Some?
      ensures ok ==> && cfg == Imported(text, host).value
                     && stored == Some(Serialized(cfg, host))
                     && draft == (if editMode then cfg else old(draft))
      ensures !ok ==> cfg == old(cfg) && draft == old(draft) && stored == old(stored)
    {
      var merged := ParseAndMerge(text, host);
      if merged.None? {
        return false;
      }
      Adopt(merged.value);
      ok := true;
    }

    /** The import handler's success path: the imported configuration
        becomes current and is stored, and the open editor's draft
        follows it. */
    method Adopt(c: Config)
      requires Invariant() && Valid(c)
      modifies this`draft, this`cfg, this`stored
      ensures Invariant()
      ensures cfg == c && stored == Some(Serialized(c, host))
      ensures draft == if editMode then c else old(draft)
    {
      cfg := c;
      SaveConfig(cfg);
      if editMode {
        draft := cfg;
      }
    }

    /** The export dialog's text. The page shows `JSON.stringify(cfg, null,
        2)`; the model takes it to be the stored text. Importing it gives
        `cfg` back when `cfg` is well-typed and the host reads the text back
        as written. */
    function Export(): (text: string)
      reads this
      ensures RoundTrips(host, cfg) && WellTyped(cfg) ==> Imported(text, host) == Some(cfg)
    {
      assert RoundTrips(host, cfg) && WellTyped(cfg) ==> Imported(Serialized(cfg, host), host) == Some(cfg) by {
        if RoundTrips(host, cfg) && WellTyped(cfg) {
          ImportAfterExport(host, cfg);
        }
      }
      Serialized(cfg, host)
    }
  }
}
