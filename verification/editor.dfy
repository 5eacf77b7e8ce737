/**
 The whole editor: the document session and the appearance settings,
 driven by the File and Settings menu items one action at a time.
 */
module Editor {
  import opened Wrappers
  import opened Documents
  import opened Preferences

  datatype Editor = Editor(doc: Session, prefs: Prefs)

  /** One user action, with the dialog outcomes it meets. `chosen` is the
      save-as picker's result should a save need it; `target` the open
      picker's; a pick is the list box entry selected before Select. */
  datatype Action =
    | Type(text: string)
    | New(answer: Answer, chosen: Path)
    | Open(answer: Answer, chosen: Path, target: Path)
    | Close(answer: Answer, chosen: Path)
    | Save(chosen: Path)
    | SaveAs(chosen: Path)
    | PickFont(pick: Option<nat>)
    | PickSize(pick: Option<nat>)
    | PickTheme(pick: Option<nat>)

  /** A list box pick is always an index of its list. */
  predicate ValidAction(a: Action) {
    match a
    case PickFont(pick) => PickIn(pick, |Fonts|)
    case PickSize(pick) => PickIn(pick, |Sizes()|)
    case PickTheme(pick) => PickIn(pick, |ThemeNames|)
    case _ => true
  }

  predicate ValidActions(acts: seq<Action>) {
    forall i | 0 <= i < |acts| :: ValidAction(acts[i])
  }

  /** The editor as the constructor builds it: settings loaded from the
      file, an empty clean buffer bound to no file. */
  function Init(store: Store, fs: FileSystem): (e: Editor)
    ensures e.doc.buffer == "" && e.doc.path == None && !e.doc.modified && e.doc.fs == fs
    ensures e.prefs.settings == LoadSettings(store)
    ensures e.prefs.surface == Resolve(LoadSettings(store))
    ensures e.prefs.store == store
    ensures Invariant(e)
  {
    Editor(Start(fs), Startup(store))
  }

  /** Dispatch one action to its handler. */
  function Step(e: Editor, a: Action): Editor
    requires ValidAction(a)
  {
    match a
    case Type(text) => e.(doc := Documents.Edit(e.doc, text))
    case New(answer, chosen) => e.(doc := NewFile(e.doc, answer, chosen))
    case Open(answer, chosen, target) => e.(doc := OpenFile(e.doc, answer, chosen, target))
    case Close(answer, chosen) => e.(doc := CloseFile(e.doc, answer, chosen))
    case Save(chosen) => e.(doc := SaveFile(e.doc, chosen))
    case SaveAs(chosen) => e.(doc := SaveAsFile(e.doc, chosen))
    case PickFont(pick) => e.(prefs := ChangeFont(e.prefs, pick))
    case PickSize(pick) => e.(prefs := ChangeFontSize(e.prefs, pick))
    case PickTheme(pick) => e.(prefs := ChangeTheme(e.prefs, pick))
  }

  /** Perform the actions in order. */
  function Run(e: Editor, acts: seq<Action>): Editor
    requires ValidActions(acts)
    decreases |acts|
  {
    if acts == [] then e else Run(Step(e, acts[0]), acts[1..])
  }

  /** What every reachable editor satisfies: a bound path is never "", the
      widget shows the settings, and the settings file holds them. */
  predicate Invariant(e: Editor) {
    PathWellFormed(e.doc) && Consistent(e.prefs)
  }

  /** File actions leave the settings alone; settings actions leave the
      document alone; and the modified flag, once set, stays set. */
  lemma StepFrame(e: Editor, a: Action)
    requires ValidAction(a)
    ensures (a.PickFont? || a.PickSize? || a.PickTheme?) ==> Step(e, a).doc == e.doc
    ensures !(a.PickFont? || a.PickSize? || a.PickTheme?) ==> Step(e, a).prefs == e.prefs
    ensures a.Type? ==> Step(e, a).doc.modified
    ensures !a.Type? ==> Step(e, a).doc.modified == e.doc.modified
  {
  }

  lemma StepKeepsInvariant(e: Editor, a: Action)
    requires ValidAction(a)
    requires Invariant(e)
    ensures Invariant(Step(e, a))
  {
    match a
    case PickFont(pick) => ChangesKeepConsistent(e.prefs, pick, None, None);
    case PickSize(pick) => ChangesKeepConsistent(e.prefs, None, pick, None);
    case PickTheme(pick) => ChangesKeepConsistent(e.prefs, None, None, pick);
    case Type(text) => HandlersKeepPathWellFormed(e.doc, None, "", "", text);
    case New(answer, chosen) => HandlersKeepPathWellFormed(e.doc, answer, chosen, "", "");
    case Open(answer, chosen, target) => HandlersKeepPathWellFormed(e.doc, answer, chosen, target, "");
    case Close(answer, chosen) => HandlersKeepPathWellFormed(e.doc, answer, chosen, "", "");
    case Save(chosen) => HandlersKeepPathWellFormed(e.doc, None, chosen, "", "");
    case SaveAs(chosen) => HandlersKeepPathWellFormed(e.doc, None, chosen, "", "");
  }

  /** The invariant, which holds at start-up (see `Init`), holds after any
      run of actions. */
  lemma {:induction false} RunKeepsInvariant(e: Editor, acts: seq<Action>)
    requires ValidActions(acts)
    requires Invariant(e)
    ensures Invariant(Run(e, acts))
    decreases |acts|
  {
    if acts == [] {
    } else {
      StepKeepsInvariant(e, acts[0]);
      RunKeepsInvariant(Step(e, acts[0]), acts[1..]);
    }
  }

  /** Nothing clears the modified flag: once the buffer has been edited,
      every later state still counts as modified, saves included. */
  lemma {:induction false} ModifiedNeverCleared(e: Editor, acts: seq<Action>)
    requires ValidActions(acts)
    requires e.doc.modified
    ensures Run(e, acts).doc.modified
    decreases |acts|
  {
    if acts != [] {
      StepFrame(e, acts[0]);
      ModifiedNeverCleared(Step(e, acts[0]), acts[1..]);
    }
  }

  /** In this model, a run with no typing leaves the modified flag as it
      found it. The handlers' own delete and insert calls, which Tk can count
      as modifications, are not modelled, so this is not a claim about when
      the running editor prompts. */
  lemma {:induction false} NoEditKeepsClean(e: Editor, acts: seq<Action>)
    requires ValidActions(acts)
    requires forall i | 0 <= i < |acts| :: !acts[i].Type?
    ensures Run(e, acts).doc.modified == e.doc.modified
    decreases |acts|
  {
    if acts != [] {
      StepFrame(e, acts[0]);
      NoEditKeepsClean(Step(e, acts[0]), acts[1..]);
    }
  }

  /** A run of settings changes never touches the document, and the
      settings it ends with are what a reload of the file gives. */
  lemma {:induction false} SettingsRunPersists(e: Editor, acts: seq<Action>)
    requires ValidActions(acts)
    requires Consistent(e.prefs)
    requires forall i | 0 <= i < |acts| :: acts[i].PickFont? || acts[i].PickSize? || acts[i].PickTheme?
    ensures Run(e, acts).doc == e.doc
    ensures LoadSettings(Run(e, acts).prefs.store) == Run(e, acts).prefs.settings
    decreases |acts|
  {
    if acts != [] {
      StepFrame(e, acts[0]);
      match acts[0] {
        case PickFont(pick) => ChangesKeepConsistent(e.prefs, pick, None, None);
        case PickSize(pick) => ChangesKeepConsistent(e.prefs, None, pick, None);
        case PickTheme(pick) => ChangesKeepConsistent(e.prefs, None, None, pick);
      }
      SettingsRunPersists(Step(e, acts[0]), acts[1..]);
    }
  }
}
