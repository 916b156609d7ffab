/** The dashboard's configuration (v2/app.js:4-27), the document it is
    stored as, and `mergeConfig` (v2/app.js:48-64), which overlays an
    untrusted parsed document onto a configuration field by field. */
module Configuration {
  import opened Wrappers
  import opened Json

  /** The fixed, closed set of layout slots (v2/app.js:4-12). */
  datatype PanelId = LeftTop | LeftMiddle | LeftBottom | CenterTop | CenterBottom | RightTop | RightBottom

  /** The slot's key in the stored document and in the page. */
  function Key(p: PanelId): string
  {
    match p
    case LeftTop => "leftTop"
    case LeftMiddle => "leftMiddle"
    case LeftBottom => "leftBottom"
    case CenterTop => "centerTop"
    case CenterBottom => "centerBottom"
    case RightTop => "rightTop"
    case RightBottom => "rightBottom"
  }

  /** `panelOrder`: the slots in page order. */
  const PanelOrder: seq<PanelId> := [LeftTop, LeftMiddle, LeftBottom, CenterTop, CenterBottom, RightTop, RightBottom]

  const AllPanels: set<PanelId> := {LeftTop, LeftMiddle, LeftBottom, CenterTop, CenterBottom, RightTop, RightBottom}

  /** `columnsPct` always holds exactly three numbers. */
  type Widths = s: seq<Number> | |s| == 3 witness [Zero, Zero, Zero]

  datatype Config = Config(
    name: string,
    refreshIntervalSec: real,
    columnsPct: Widths,
    panels: map<PanelId, string>)

  /** `defaultConfig` (v2/app.js:14-27). */
  const Defaults: Config := Config(
    "Weather & Operations Dashboard",
    600.0,
    [Fin(35.0), Fin(40.0), Fin(25.0)],
    map[
      LeftTop := "<iframe src=\"https://webcam.io/webcams/MpbQgP?embed=true\" loading=\"lazy\"></iframe>",
      LeftMiddle := "<iframe src=\"https://player.twitch.tv/?channel=5newswdtv&parent=dlukekopp.github.io\" allowfullscreen=\"true\" scrolling=\"no\"></iframe>",
      LeftBottom := "<iframe src=\"https://vtc1.roadsummary.com/rtplive/CAM001/playlist.m3u8\" loading=\"lazy\"></iframe>",
      CenterTop := "<iframe src=\"https://embed.ventusky.com/?p=38.98;-81.21;7&l=radar&m=hrrr\" loading=\"lazy\"></iframe>",
      CenterBottom := "<iframe src=\"https://www.weather.gov/rlx/briefing\" loading=\"lazy\"></iframe>",
      RightTop := "<iframe src=\"https://www.weather.gov/rlx/\" loading=\"lazy\"></iframe>",
      RightBottom := "<iframe src=\"https://www.broadcastify.com/webPlayer/40500\" loading=\"lazy\"></iframe>"
    ])

  /** What every configuration of a session satisfies: a string for each
      of the seven slots and no NaN width (`Number(x) || 0` never yields
      one). */
  predicate Valid(c: Config)
  {
    && c.panels.Keys == AllPanels
    && forall i | 0 <= i < 3 :: c.columnsPct[i] != NaN
  }

  /** A configuration that survives `JSON.stringify` unchanged: all its
      widths are finite. */
  predicate WellTyped(c: Config)
  {
    && c.panels.Keys == AllPanels
    && forall i | 0 <= i < 3 :: c.columnsPct[i].Fin?
  }

  lemma DefaultsWellTyped()
    ensures WellTyped(Defaults) && Valid(Defaults)
  {
  }

  lemma KeyInjective(p: PanelId, q: PanelId)
    ensures Key(p) == Key(q) ==> p == q
  {
    if p != q {
      assert Key(p)[..|Key(p)| - 1] != Key(q)[..|Key(q)| - 1] || Key(p)[|Key(p)| - 1] != Key(q)[|Key(q)| - 1];
    }
  }

  /** `JSON.stringify` writes a non-finite number as `null`. */
  function EncodeNumber(n: Number): Json
  {
    if n.Fin? then JNumber(n) else JNull
  }

  /** The `panels` object of the stored document. */
  function EncodePanels(panels: map<PanelId, string>): map<string, Json>
  {
    map k | k in panels :: Key(k) := JString(panels[k])
  }

  /** The `columnsPct` array of the stored document. */
  function EncodeWidths(widths: Widths): seq<Json>
  {
    seq(3, i requires 0 <= i < 3 => EncodeNumber(widths[i]))
  }

  /** The document `JSON.stringify(cfg)` describes, as `JSON.parse` reads it
      back. */
  function Encode(c: Config): Json
  {
    JObject(map[
      "name" := JString(c.name),
      "refreshIntervalSec" := JNumber(Fin(c.refreshIntervalSec)),
      "columnsPct" := JArray(EncodeWidths(c.columnsPct)),
      "panels" := JObject(EncodePanels(c.panels))
    ])
  }

  /** The string at `v[key]`, if that is a string. */
  function StringAt(v: Json, key: string): Option<string>
  {
    match Property(v, key)
    case Some(JString(s)) => Some(s)
    case _ => None
  }

  /** The string `incoming.panels[key]` offers for a slot, if any. An array
      passes the page's `typeof === "object"` test but has no property named
      like a slot, so it offers nothing, as does every non-object. */
  function PanelText(incoming: Json, k: PanelId): Option<string>
  {
    match Property(incoming, "panels")
    case Some(p) => StringAt(p, Key(k))
    case None => None
  }

  /** True when `incoming.columnsPct.map((x) => Number(x) || 0)` throws. */
  predicate ColumnsThrow(incoming: Json)
  {
    match Property(incoming, "columnsPct")
    case Some(JArray(items)) => |items| == 3 && exists i | 0 <= i < 3 :: ToStringThrows(items[i])
    case _ => false
  }

  function MergedName(base: Config, incoming: Json): string
  {
    match StringAt(incoming, "name")
    case Some(s) => s
    case None => base.name
  }

  function MergedRefresh(base: Config, incoming: Json): real
  {
    match Property(incoming, "refreshIntervalSec")
    case Some(JNumber(Fin(r))) => r
    case _ => base.refreshIntervalSec
  }

  function MergedColumns(base: Config, incoming: Json, num: string -> Number): Widths
    requires !ColumnsThrow(incoming)
  {
    match Property(incoming, "columnsPct")
    case Some(JArray(items)) =>
      if |items| == 3 then
        seq(3, i requires 0 <= i < 3 => NumberOrZero(items[i], num).value)
      else base.columnsPct
    case _ => base.columnsPct
  }

  /** The slots with each one replaced by the string `source` holds under
      its key, if any. */
  function OverlayPanels(slots: map<PanelId, string>, source: Json): map<PanelId, string>
  {
    map k | k in slots :: match StringAt(source, Key(k)) case Some(s) => s case None => slots[k]
  }

  function MergedPanels(base: Config, incoming: Json): map<PanelId, string>
  {
    match Property(incoming, "panels")
    case Some(p) => OverlayPanels(base.panels, p)
    case None => base.panels
  }

  /** `mergeConfig(base, incoming)`: None when it throws (a width whose
      conversion to a number throws), otherwise `base` with each field
      replaced by the incoming one that passes the field's check. */
  function Merge(base: Config, incoming: Json, num: string -> Number): (r: Option<Config>)
    ensures r.None? <==> ColumnsThrow(incoming)
    ensures !incoming.JObject? ==> r == Some(base)
    ensures r.Some? ==> r.value.panels.Keys == base.panels.Keys
    ensures r.Some? && Valid(base) ==> Valid(r.value)
    // `name` changes only to an incoming string, and always does when one is offered.
    ensures r.Some? ==> (StringAt(incoming, "name") == None ==> r.value.name == base.name)
    ensures r.Some? ==> (StringAt(incoming, "name") != None ==> StringAt(incoming, "name") == Some(r.value.name))
    // The refresh interval is taken only from a finite number, and is not clamped here.
    ensures r.Some? ==>
              r.value.refreshIntervalSec == base.refreshIntervalSec
              || Property(incoming, "refreshIntervalSec") == Some(JNumber(Fin(r.value.refreshIntervalSec)))
    ensures r.Some? && Property(incoming, "refreshIntervalSec").Some?
              && Property(incoming, "refreshIntervalSec").value.JNumber?
              && Property(incoming, "refreshIntervalSec").value.n.Fin?
            ==> Property(incoming, "refreshIntervalSec") == Some(JNumber(Fin(r.value.refreshIntervalSec)))
    // The widths are replaced wholesale, only by an array of exactly three, each coerced.
    ensures r.Some? && r.value.columnsPct != base.columnsPct ==>
              && Property(incoming, "columnsPct").Some?
              && Property(incoming, "columnsPct").value.JArray?
              && |Property(incoming, "columnsPct").value.items| == 3
    ensures r.Some? && Property(incoming, "columnsPct").Some? && Property(incoming, "columnsPct").value.JArray?
              && |Property(incoming, "columnsPct").value.items| == 3 ==>
              forall i | 0 <= i < 3 ::
                Some(r.value.columnsPct[i]) == NumberOrZero(Property(incoming, "columnsPct").value.items[i], num)
    // A slot changes only to an incoming string for that slot, and always does when one is offered.
    ensures r.Some? ==> forall k | k in base.panels ::
              if PanelText(incoming, k).Some? then r.value.panels[k] == PanelText(incoming, k).value
              else r.value.panels[k] == base.panels[k]
  {
    assert !incoming.JObject? ==> MergedPanels(base, incoming) == base.panels;
    if ColumnsThrow(incoming) then None
    else Some(Config(
      MergedName(base, incoming),
      MergedRefresh(base, incoming),
      MergedColumns(base, incoming, num),
      MergedPanels(base, incoming)))
  }

  /** `items.map((x) => Number(x) || 0)` on the three incoming widths,
      converted in order; None when a conversion throws. */
  method CoerceWidths(items: seq<Json>, num: string -> Number) returns (r: Option<Widths>)
    requires |items| == 3
    ensures r.None? <==> exists i | 0 <= i < 3 :: ToStringThrows(items[i])
    ensures r.Some? ==> forall i | 0 <= i < 3 :: Some(r.value[i]) == NumberOrZero(items[i], num)
  {
    var mapped: seq<Number> := [];
    for i := 0 to 3
      invariant |mapped| == i
      invariant forall j | 0 <= j < i :: !ToStringThrows(items[j]) && Some(mapped[j]) == NumberOrZero(items[j], num)
    {
      var n := NumberOrZero(items[i], num);
      if n.None? {
        return None;
      }
      mapped := mapped + [n.value];
    }
    return Some(mapped);
  }

  /** `for (const k of Object.keys(out.panels)) if (typeof
      source[k] === "string") out.panels[k] = source[k]`. */
  method OverlayPanelsInPlace(slots: map<PanelId, string>, source: Json) returns (r: map<PanelId, string>)
    ensures r == OverlayPanels(slots, source)
  {
    r := slots;
    var keys := slots.Keys;
    while keys != {}
      invariant keys <= slots.Keys && r.Keys == slots.Keys
      invariant forall k | k in slots :: r[k] == if k in keys then slots[k] else OverlayPanels(slots, source)[k]
      decreases keys
    {
      var k :| k in keys;
      var text := StringAt(source, Key(k));
      if text.Some? {
        r := r[k := text.value];
      }
      keys := keys - {k};
    }
  }

  /** `mergeConfig` as the page runs it: `out` starts as `base` and its
      fields are assigned one after another; a width whose conversion
      throws ends the merge. */
  method MergeConfig(base: Config, incoming: Json, num: string -> Number) returns (out: Option<Config>)
    ensures out == Merge(base, incoming, num)
  {
    var cfg := base;
    var name := Property(incoming, "name");
    if name.Some? && name.value.JString? {
      cfg := cfg.(name := name.value.s);
    }
    var refresh := Property(incoming, "refreshIntervalSec");
    if refresh.Some? && refresh.value.JNumber? && refresh.value.n.Fin? {
      cfg := cfg.(refreshIntervalSec := refresh.value.n.value);
    }
    var cols := Property(incoming, "columnsPct");
    if cols.Some? && cols.value.JArray? && |cols.value.items| == 3 {
      var widths := CoerceWidths(cols.value.items, num);
      if widths.None? {
        return None;
      }
      cfg := cfg.(columnsPct := widths.value);
    }
    var panels := Property(incoming, "panels");
    if panels.Some? && (panels.value.JObject? || panels.value.JArray?) {
      var slots := OverlayPanelsInPlace(cfg.panels, panels.value);
      cfg := cfg.(panels := slots);
    }
    assert cfg.panels == MergedPanels(base, incoming);
    assert cfg.columnsPct == MergedColumns(base, incoming, num);
    out := Some(cfg);
  }

  /** The stored `panels` object gives back each slot's string. */
  lemma EncodedSlots(panels: map<PanelId, string>, k: PanelId)
    requires k in panels
    ensures StringAt(JObject(EncodePanels(panels)), Key(k)) == Some(panels[k])
  {
    var slots := EncodePanels(panels);
    assert Key(k) in slots;
    forall q | q in panels && Key(q) == Key(k) ensures q == k { KeyInjective(q, k); }
    assert slots[Key(k)] == JString(panels[k]);
  }

  /** A full, well-typed document replaces every field: merging what
      `JSON.stringify` wrote for `c` onto any configuration with all seven
      slots gives `c` back. */
  lemma MergeEncoded(base: Config, c: Config, num: string -> Number)
    requires base.panels.Keys == AllPanels && WellTyped(c)
    ensures Merge(base, Encode(c), num) == Some(c)
  {
    var doc := Encode(c);
    var slots := EncodePanels(c.panels);
    assert Property(doc, "name") == Some(JString(c.name));
    assert Property(doc, "refreshIntervalSec") == Some(JNumber(Fin(c.refreshIntervalSec)));
    assert Property(doc, "panels") == Some(JObject(slots));
    var items := EncodeWidths(c.columnsPct);
    assert Property(doc, "columnsPct") == Some(JArray(items));
    assert !ColumnsThrow(doc) by {
      forall i | 0 <= i < 3 ensures !ToStringThrows(items[i]) { }
    }
    assert MergedColumns(base, doc, num) == c.columnsPct;
    forall k | k in base.panels
      ensures OverlayPanels(base.panels, JObject(slots))[k] == c.panels[k]
    {
      EncodedSlots(c.panels, k);
    }
    assert MergedPanels(base, doc) == c.panels;
  }

  /** A width survives `JSON.stringify` and `mergeConfig` only when it is
      finite: a non-finite one is written as `null` and read back as 0. */
  lemma MergeEncodedWidths(base: Config, c: Config, num: string -> Number)
    ensures Merge(base, Encode(c), num).Some?
    ensures forall i | 0 <= i < 3 ::
              Merge(base, Encode(c), num).value.columnsPct[i] == if c.columnsPct[i].Fin? then c.columnsPct[i] else Zero
  {
    var doc := Encode(c);
    var items := EncodeWidths(c.columnsPct);
    assert Property(doc, "columnsPct") == Some(JArray(items));
    assert !ColumnsThrow(doc) by {
      forall i | 0 <= i < 3 ensures !ToStringThrows(items[i]) { }
    }
  }

  /** Merging the same document a second time changes nothing. */
  lemma MergeIdempotent(base: Config, incoming: Json, num: string -> Number)
    requires Merge(base, incoming, num).Some?
    ensures Merge(Merge(base, incoming, num).value, incoming, num) == Merge(base, incoming, num)
  {
    var m := Merge(base, incoming, num).value;
    var m2 := Merge(m, incoming, num).value;
    assert m2.panels == m.panels;
  }

  /** Importing `{"refreshIntervalSec": 45}` gives the defaults with only
      the refresh interval changed. */
  lemma MergeRefreshOnlyExample(num: string -> Number)
    ensures Merge(Defaults, JObject(map["refreshIntervalSec" := JNumber(Fin(45.0))]), num)
            == Some(Defaults.(refreshIntervalSec := 45.0))
  {
    var doc := JObject(map["refreshIntervalSec" := JNumber(Fin(45.0))]);
    assert Property(doc, "name") == None && Property(doc, "columnsPct") == None && Property(doc, "panels") == None;
    var r := Merge(Defaults, doc, num).value;
    forall k | k in Defaults.panels ensures PanelText(doc, k) == None {
    }
    assert r.panels == Defaults.panels;
  }
}
