/**
 The editor's appearance settings: a JSON object kept in a settings file,
 held in memory as a map, read key by key with a per-key default, and
 rewritten in full after every change made through the Settings menu.
 */
module Preferences {
  import opened Wrappers

  /** A JSON scalar as `json.load` returns it. */
  datatype Value = Str(s: string) | Int(n: int) | Bool(b: bool) | Null

  /** The in-memory settings dictionary. */
  type Settings = map<string, Value>

  /** The settings file as `json.load` sees it: `None` when it is missing
      or does not hold valid JSON. */
  type Store = Option<Settings>

  const FontKey := "font"
  const SizeKey := "font_size"
  const BgKey := "bg_color"
  const FgKey := "fg_color"

  /** The record used when the settings file cannot be loaded. */
  const Defaults: Settings :=
    map[FontKey := Str("Arial"), SizeKey := Int(14), BgKey := Str("white"), FgKey := Str("black")]

  /** Read the settings file: its object as stored, or the default record
      when there is no usable file. Stored objects are not merged with the
      defaults, so a key missing from the file stays missing. */
  function LoadSettings(store: Store): (m: Settings)
    ensures store.None? ==> m.Keys == {FontKey, SizeKey, BgKey, FgKey}
    ensures store.None? ==>
      m[FontKey] == Str("Arial") && m[SizeKey] == Int(14) && m[BgKey] == Str("white") && m[FgKey] == Str("black")
    ensures store.Some? ==> m == store.value
  {
    store.GetOr(Defaults)
  }

  /** Write the whole dictionary to the settings file. */
  function SaveSettings(m: Settings): (store: Store)
    ensures LoadSettings(store) == m
  {
    Some(m)
  }

  /** `dict.get(key, default)`. */
  function Get(m: Settings, key: string, default: Value): Value {
    if key in m then m[key] else default
  }

  // The readers, each with the default its call sites pass to `get`.
  function Font(m: Settings): Value { Get(m, FontKey, Str("Arial")) }
  function FontSize(m: Settings): Value { Get(m, SizeKey, Int(14)) }
  function Background(m: Settings): Value { Get(m, BgKey, Str("white")) }
  function Foreground(m: Settings): Value { Get(m, FgKey, Str("black")) }

  /** Each reader yields the stored value when there is one and otherwise
      the same value the default record holds for that key. */
  lemma ReadersFallBackToDefaults(m: Settings)
    ensures FontKey in m ==> Font(m) == m[FontKey]
    ensures SizeKey in m ==> FontSize(m) == m[SizeKey]
    ensures BgKey in m ==> Background(m) == m[BgKey]
    ensures FgKey in m ==> Foreground(m) == m[FgKey]
    ensures FontKey !in m ==> Font(m) == Defaults[FontKey]
    ensures SizeKey !in m ==> FontSize(m) == Defaults[SizeKey]
    ensures BgKey !in m ==> Background(m) == Defaults[BgKey]
    ensures FgKey !in m ==> Foreground(m) == Defaults[FgKey]
  {
  }

  /** The text widget's look: font family and size, background and
      foreground colours. */
  datatype Appearance = Appearance(font: Value, size: Value, bg: Value, fg: Value)

  /** The look the widget is created with from a settings dictionary. */
  function Resolve(m: Settings): Appearance {
    Appearance(Font(m), FontSize(m), Background(m), Foreground(m))
  }

  /** An empty file looks exactly like the default record. */
  lemma EmptySettingsResolveToDefaults()
    ensures Resolve(map[]) == Resolve(Defaults)
    ensures Resolve(map[]) == Appearance(Str("Arial"), Int(14), Str("white"), Str("black"))
  {
  }

  // ---------------------------------------------------------------------
  // The selection lists

  /** Python's `range(lo, hi)` as a sequence. */
  function Range(lo: int, hi: int): (r: seq<int>)
    ensures |r| == if lo <= hi then hi - lo else 0
    ensures forall i | 0 <= i < |r| :: r[i] == lo + i
    decreases hi - lo
  {
    if lo < hi then [lo] + Range(lo + 1, hi) else []
  }

  /** The font families the Change Font list offers. */
  const Fonts: seq<string> := ["Arial", "Courier New", "Times New Roman", "Verdana", "Helvetica"]

  /** The sizes the Change Font Size list offers. */
  function Sizes(): seq<int> {
    Range(8, 30)
  }

  /** The size list holds the 22 sizes 8 to 29 in increasing order. */
  lemma SizesAreEightToTwentyNine()
    ensures |Sizes()| == 22
    ensures forall i | 0 <= i < |Sizes()| :: 8 <= Sizes()[i] <= 29
    ensures forall n | 8 <= n <= 29 :: n in Sizes()
    ensures forall i, j | 0 <= i < j < |Sizes()| :: Sizes()[i] < Sizes()[j]
  {
    forall n | 8 <= n <= 29 ensures n in Sizes() {
      assert Sizes()[n - 8] == n;
    }
  }

  /** An index the list box can report for a list of `n` entries: `None`
      when Select is pressed before anything is picked. */
  predicate PickIn(pick: Option<nat>, n: nat) {
    pick.Some? ==> pick.value < n
  }

  /** The font Select applies: the picked entry, or else the variable's
      initial value, the current font. */
  function FontChoice(m: Settings, pick: Option<nat>): (v: Value)
    requires PickIn(pick, |Fonts|)
    ensures pick.Some? ==> v == Str(Fonts[pick.value]) && v.s in Fonts
    ensures pick.None? ==> v == Font(m)
  {
    match pick
    case Some(i) => Str(Fonts[i])
    case None => Font(m)
  }

  /** The size Select applies: the picked entry, or else the variable's
      initial value, the current size. */
  function SizeChoice(m: Settings, pick: Option<nat>): (v: Value)
    requires PickIn(pick, |Sizes()|)
    ensures pick.Some? ==> v == Int(8 + pick.value) && 8 <= v.n <= 29
    ensures pick.None? ==> v == FontSize(m)
  {
    match pick
    case Some(i) => Int(Sizes()[i])
    case None => FontSize(m)
  }

  // ---------------------------------------------------------------------
  // Themes

  datatype Theme = Light | Dark | Solarized

  /** The theme names in the order the list box shows them. */
  const ThemeNames: seq<string> := ["Light", "Dark", "Solarized"]

  /** The preset table's lookup by name. */
  function ThemeNamed(name: string): Option<Theme> {
    if name == "Light" then Some(Light)
    else if name == "Dark" then Some(Dark)
    else if name == "Solarized" then Some(Solarized)
    else None
  }

  /** The (background, foreground) pair each preset holds. */
  function Colors(t: Theme): (string, string) {
    match t
    case Light => ("white", "black")
    case Dark => ("black", "white")
    case Solarized => ("#fdf6e3", "#657b83")
  }

  /** A preset as the dictionary that is merged into the settings. */
  function Preset(t: Theme): Settings {
    map[BgKey := Str(Colors(t).0), FgKey := Str(Colors(t).1)]
  }

  /** The theme Select applies: the picked name, or "Light", the variable's
      initial value. Every name the list shows is in the preset table. */
  function ThemeChoice(pick: Option<nat>): (t: Theme)
    requires PickIn(pick, |ThemeNames|)
    ensures pick.None? ==> t == Light
    ensures pick.Some? ==> ThemeNamed(ThemeNames[pick.value]) == Some(t)
  {
    var name := match pick case Some(i) => ThemeNames[i] case None => "Light";
    match ThemeNamed(name)
    case Some(t) => t
    case None => assert false; Light
  }

  // ---------------------------------------------------------------------
  // The settings updates

  /** `set_font`: store the font and nothing else. */
  function SetFont(m: Settings, v: Value): (r: Settings)
    ensures r.Keys == m.Keys + {FontKey}
    ensures Font(r) == v
    ensures forall k | k in m && k != FontKey :: r[k] == m[k]
  {
    m[FontKey := v]
  }

  /** `set_size`: store the size and nothing else. */
  function SetSize(m: Settings, v: Value): (r: Settings)
    ensures r.Keys == m.Keys + {SizeKey}
    ensures FontSize(r) == v
    ensures forall k | k in m && k != SizeKey :: r[k] == m[k]
  {
    m[SizeKey := v]
  }

  /** `set_theme`: merge the preset into the settings, which overwrites the
      two colours and nothing else. */
  function SetTheme(m: Settings, t: Theme): (r: Settings)
    ensures r.Keys == m.Keys + {BgKey, FgKey}
    ensures r[BgKey] == Str(Colors(t).0) && r[FgKey] == Str(Colors(t).1)
    ensures forall k | k in m && k != BgKey && k != FgKey :: r[k] == m[k]
  {
    m + Preset(t)
  }

  /** Dark is black on white reversed, Light is the default pair, and a
      theme never touches the font or its size. */
  lemma ThemeColors(m: Settings)
    ensures var r := SetTheme(m, Dark); Background(r) == Str("black") && Foreground(r) == Str("white")
    ensures var r := SetTheme(m, Light); Background(r) == Str("white") && Foreground(r) == Str("black")
    ensures forall t: Theme :: Font(SetTheme(m, t)) == Font(m) && FontSize(SetTheme(m, t)) == FontSize(m)
    ensures SetTheme(Defaults, Light) == Defaults
  {
  }

  // ---------------------------------------------------------------------
  // The Settings menu handlers

  /** The settings in memory, the look of the widget and the file. */
  datatype Prefs = Prefs(settings: Settings, surface: Appearance, store: Store)

  /** The widget shows what the settings say and the file holds them. */
  predicate Consistent(p: Prefs) {
    p.surface == Resolve(p.settings) && LoadSettings(p.store) == p.settings
  }

  /** Start-up: load the file and create the widget with its look. */
  function Startup(store: Store): (p: Prefs)
    ensures p.settings == LoadSettings(store) && p.store == store
    ensures Consistent(p)
    ensures store.None? ==> p.surface == Appearance(Str("Arial"), Int(14), Str("white"), Str("black"))
  {
    var m := LoadSettings(store);
    Prefs(m, Resolve(m), store)
  }

  /** Select in Change Font: store the font, apply it with the current
      size, and save the file. */
  function ChangeFont(p: Prefs, pick: Option<nat>): (r: Prefs)
    requires PickIn(pick, |Fonts|)
    ensures r.settings == SetFont(p.settings, FontChoice(p.settings, pick))
    ensures r.surface == p.surface.(font := FontChoice(p.settings, pick), size := FontSize(p.settings))
    ensures LoadSettings(r.store) == r.settings
  {
    var v := FontChoice(p.settings, pick);
    var m := SetFont(p.settings, v);
    Prefs(m, p.surface.(font := v, size := FontSize(m)), SaveSettings(m))
  }

  /** Select in Change Font Size: store the size, apply it with the current
      font, and save the file. */
  function ChangeFontSize(p: Prefs, pick: Option<nat>): (r: Prefs)
    requires PickIn(pick, |Sizes()|)
    ensures r.settings == SetSize(p.settings, SizeChoice(p.settings, pick))
    ensures r.surface == p.surface.(font := Font(p.settings), size := SizeChoice(p.settings, pick))
    ensures LoadSettings(r.store) == r.settings
  {
    var v := SizeChoice(p.settings, pick);
    var m := SetSize(p.settings, v);
    Prefs(m, p.surface.(font := Font(m), size := v), SaveSettings(m))
  }

  /** Select in Change Theme: merge the preset, apply both colours, and save
      the file. */
  function ChangeTheme(p: Prefs, pick: Option<nat>): (r: Prefs)
    requires PickIn(pick, |ThemeNames|)
    ensures r.settings == SetTheme(p.settings, ThemeChoice(pick))
    ensures r.surface == p.surface.(bg := Str(Colors(ThemeChoice(pick)).0), fg := Str(Colors(ThemeChoice(pick)).1))
    ensures LoadSettings(r.store) == r.settings
  {
    var m := SetTheme(p.settings, ThemeChoice(pick));
    Prefs(m, p.surface.(bg := m[BgKey], fg := m[FgKey]), SaveSettings(m))
  }

  /** Each handler keeps the widget showing the settings and the file
      holding them. */
  lemma ChangesKeepConsistent(p: Prefs, font: Option<nat>, size: Option<nat>, theme: Option<nat>)
    requires Consistent(p)
    requires PickIn(font, |Fonts|) && PickIn(size, |Sizes()|) && PickIn(theme, |ThemeNames|)
    ensures Consistent(ChangeFont(p, font))
    ensures Consistent(ChangeFontSize(p, size))
    ensures Consistent(ChangeTheme(p, theme))
  {
  }

  /** The entry picked in a list is what the settings and the widget then
      hold, and what a reload of the file gives back; with no pick, Select
      rewrites the value that was already in effect. */
  lemma PickedEntryReadsBack(p: Prefs, font: Option<nat>, size: Option<nat>)
    requires Consistent(p)
    requires PickIn(font, |Fonts|) && PickIn(size, |Sizes()|)
    ensures font.Some? ==>
      var r := ChangeFont(p, font);
      Font(LoadSettings(r.store)) == Str(Fonts[font.value]) && r.surface.font == Str(Fonts[font.value])
    ensures size.Some? ==>
      var r := ChangeFontSize(p, size);
      FontSize(LoadSettings(r.store)) == Int(8 + size.value) && r.surface.size == Int(8 + size.value)
    ensures font.None? ==> ChangeFont(p, font).surface == p.surface
    ensures size.None? ==> ChangeFontSize(p, size).surface == p.surface
  {
  }

  /** With no settings file: load the defaults, pick size 18, and the file
      then reads back a size of 18. */
  lemma FontSizeSurvivesReload()
    ensures var p := ChangeFontSize(Startup(None), Some(10));
      FontSize(LoadSettings(p.store)) == Int(18) && Startup(p.store).surface.size == Int(18)
  {
    assert Sizes()[10] == 18;
  }

  /** Picking Dark persists black on white reversed across a reload, and the
      reload leaves the font as it was. */
  lemma DarkThemeSurvivesReload(store: Store)
    ensures var p := ChangeTheme(Startup(store), Some(1));
      var q := Startup(p.store);
      && q.surface.bg == Str("black") && q.surface.fg == Str("white")
      && q.surface.font == Startup(store).surface.font
  {
  }
}
