/**
 The editor's document lifecycle: one text buffer, the path it is bound to
 and Tk's "modified" flag, over an abstract file system. Every dialog the
 handlers open enters as a parameter:
 - the unsaved-changes prompt's answer, an `Answer`;
 - the save-as and open file pickers' results, a `Path` where "" means the
   picker was cancelled.
 */
module Documents {
  import opened Wrappers
  import opened Whitespace

  type Path = string

  /** Contents of every file, by path. */
  type FileSystem = map<Path, string>

  /** The editor's state: the widget text, the bound file path (`None` for a
      buffer never saved or opened) and the widget's modified flag. */
  datatype Session = Session(buffer: string, path: Option<Path>, modified: bool, fs: FileSystem)

  /** Answer to the Yes/No/Cancel prompt: `Some(true)` is Yes,
      `Some(false)` is No, `None` is Cancel. */
  type Answer = Option<bool>

  /** What the unsaved-changes check returns: whether the gated action may
      go on, and the session after a save the check may have performed. */
  datatype Gate = Gate(proceed: bool, session: Session)

  /** The editor at start-up: an empty widget bound to no file. */
  function Start(fs: FileSystem): (s: Session)
    ensures s.buffer == "" && s.path == None && !s.modified
    ensures s.fs == fs
  {
    Session("", None, false, fs)
  }

  /** Python truthiness of the bound path: `None` and "" are both false. */
  predicate HasPath(s: Session) {
    s.path.Some? && s.path.value != ""
  }

  /** What the widget returns for the range from its start to its end: Tk
      always keeps one newline after the text. */
  function WidgetText(s: Session): string {
    s.buffer + "\n"
  }

  /** The text a save writes: the widget text with trailing whitespace
      stripped, which is the buffer stripped, and never ends in whitespace. */
  function Written(s: Session): (w: string)
    ensures w == RStrip(s.buffer)
    ensures w <= s.buffer
    ensures !EndsInSpace(w)
  {
    RStripAppendSpace(s.buffer, "\n");
    RStrip(WidgetText(s))
  }

  /** Save As: with a chosen path, write the stripped text there and bind
      the buffer to it; a cancelled picker does nothing. */
  function SaveAsFile(s: Session, chosen: Path): (r: Session)
    ensures chosen == "" ==> r == s
    ensures chosen != "" ==> r.path == Some(chosen) && HasPath(r)
    ensures chosen != "" ==> chosen in r.fs && r.fs[chosen] == RStrip(s.buffer)
    ensures forall p | p in s.fs && p != chosen :: p in r.fs && r.fs[p] == s.fs[p]
    ensures r.fs.Keys <= s.fs.Keys + {chosen}
    ensures r.buffer == s.buffer && r.modified == s.modified
  {
    if chosen != "" then
      s.(fs := s.fs[chosen := Written(s)], path := Some(chosen))
    else
      s
  }

  /** Save: overwrite the bound file, or fall back to Save As when the
      buffer is bound to no file. The path stays as it was when one is set,
      and the modified flag is never cleared. */
  function SaveFile(s: Session, chosen: Path): (r: Session)
    ensures HasPath(s) ==> r.path == s.path
    ensures HasPath(s) ==> r.fs == s.fs[s.path.value := RStrip(s.buffer)]
    ensures !HasPath(s) ==> r == SaveAsFile(s, chosen)
    ensures r.buffer == s.buffer && r.modified == s.modified
  {
    if HasPath(s) then
      s.(fs := s.fs[s.path.value := Written(s)])
    else
      SaveAsFile(s, chosen)
  }

  /** The unsaved-changes check in front of New, Open and Close. A clean
      buffer passes at once. A modified one asks: Cancel refuses, No passes
      without writing, Yes saves and then passes whatever the save did. */
  function ConfirmUnsavedChanges(s: Session, answer: Answer, chosen: Path): (g: Gate)
    ensures g.proceed <==> !(s.modified && answer == None)
    ensures !s.modified ==> g.session == s
    ensures s.modified && answer != Some(true) ==> g.session == s
    ensures s.modified && answer == Some(true) ==> g.session == SaveFile(s, chosen)
    ensures g.session.buffer == s.buffer && g.session.modified == s.modified
  {
    if s.modified then
      match answer
      case Some(yes) =>
        if yes then Gate(true, SaveFile(s, chosen)) else Gate(true, s)
      case None => Gate(false, s)
    else
      Gate(true, s)
  }

  /** Empty the widget and unbind the path; the action behind both New and
      Close once the check has passed. */
  function Cleared(s: Session): Session {
    s.(buffer := "", path := None)
  }

  /** New: if the check passes, an empty buffer bound to no file. */
  function NewFile(s: Session, answer: Answer, chosen: Path): (r: Session)
    ensures var g := ConfirmUnsavedChanges(s, answer, chosen);
      && (g.proceed ==> r.buffer == "" && r.path == None)
      && r.fs == g.session.fs
    ensures s.modified && answer == None ==> r == s
    ensures r.modified == s.modified
  {
    var g := ConfirmUnsavedChanges(s, answer, chosen);
    if g.proceed then Cleared(g.session) else g.session
  }

  /** Open: if the check passes and the picker returns a path, the buffer
      takes that file's contents and is bound to it. The file is read after
      the check, so it sees a save the check made. A cancelled picker, a
      refused check, or a path with no file (the read raises and the
      handler stops) leave the buffer and its path as they were. */
  function OpenFile(s: Session, answer: Answer, chosen: Path, target: Path): (r: Session)
    ensures var g := ConfirmUnsavedChanges(s, answer, chosen);
      if g.proceed && target != "" && target in g.session.fs then
        r.buffer == g.session.fs[target] && r.path == Some(target) && r.fs == g.session.fs
      else
        r == g.session
    ensures r.modified == s.modified
  {
    var g := ConfirmUnsavedChanges(s, answer, chosen);
    if g.proceed && target != "" then
      if target in g.session.fs then
        g.session.(buffer := g.session.fs[target], path := Some(target))
      else
        g.session
    else
      g.session
  }

  /** Close: if the check passes, an empty buffer bound to no file. It
      differs from New only in the window title, which is not modelled. */
  function CloseFile(s: Session, answer: Answer, chosen: Path): (r: Session)
    ensures var g := ConfirmUnsavedChanges(s, answer, chosen);
      && (g.proceed ==> r.buffer == "" && r.path == None)
      && (!g.proceed ==> r == s)
      && r.fs == g.session.fs
    ensures r.modified == s.modified
  {
    var g := ConfirmUnsavedChanges(s, answer, chosen);
    if g.proceed then Cleared(g.session) else g.session
  }

  /** A change typed into the widget: new text, and Tk sets the flag. */
  function Edit(s: Session, text: string): (r: Session)
    ensures r.buffer == text && r.modified
    ensures r.path == s.path && r.fs == s.fs
  {
    s.(buffer := text, modified := true)
  }

  /** A bound path is never "": both pickers' results are checked for
      truthiness before they are stored. */
  predicate PathWellFormed(s: Session) {
    s.path.Some? ==> s.path.value != ""
  }

  // ---------------------------------------------------------------------
  // Properties of the handlers

  /** On a clean buffer the check never prompts: its outcome does not depend
      on any dialog answer, it passes, and it changes nothing. */
  lemma CleanGateIgnoresDialogs(s: Session, a1: Answer, c1: Path, a2: Answer, c2: Path)
    requires !s.modified
    ensures ConfirmUnsavedChanges(s, a1, c1) == ConfirmUnsavedChanges(s, a2, c2) == Gate(true, s)
  {
  }

  /** Yes passes the check even when the save it triggers writes nothing
      because the save-as picker was cancelled. */
  lemma YesProceedsWithoutWrite(s: Session)
    requires s.modified && !HasPath(s)
    ensures ConfirmUnsavedChanges(s, Some(true), "") == Gate(true, s)
  {
  }

  /** A file the check changed: new, or holding other contents. */
  predicate Changed(before: FileSystem, after: FileSystem, p: Path) {
    p in after && (p !in before || after[p] != before[p])
  }

  /** Only the Yes answer on a modified buffer can touch the file system;
      then at most one file changes and it receives the stripped buffer. */
  lemma GateWritesOnlyOnYes(s: Session, answer: Answer, chosen: Path)
    ensures var g := ConfirmUnsavedChanges(s, answer, chosen);
      && (g.session.fs != s.fs ==> s.modified && answer == Some(true))
      && (forall p | Changed(s.fs, g.session.fs, p) :: g.session.fs[p] == RStrip(s.buffer))
      && (forall p, q | Changed(s.fs, g.session.fs, p) && Changed(s.fs, g.session.fs, q) :: p == q)
      && g.session.fs.Keys >= s.fs.Keys
  {
  }

  /** None of the handlers calls Tk to clear the modified flag: saving does
      not mark the buffer clean, and neither do New, Open or Close. In this
      model they leave the flag as it was; Tk's own delete and insert calls
      inside New, Open and Close can set it, which is not modelled. */
  lemma HandlersKeepModified(s: Session, answer: Answer, chosen: Path, target: Path)
    ensures SaveFile(s, chosen).modified == s.modified
    ensures SaveAsFile(s, chosen).modified == s.modified
    ensures NewFile(s, answer, chosen).modified == s.modified
    ensures OpenFile(s, answer, chosen, target).modified == s.modified
    ensures CloseFile(s, answer, chosen).modified == s.modified
  {
  }

  /** With no bound file, Save is exactly Save As. */
  lemma SaveWithoutPathIsSaveAs(s: Session, chosen: Path)
    requires s.path == None
    ensures SaveFile(s, chosen) == SaveAsFile(s, chosen)
  {
  }

  /** Saving a second time writes the same contents to the same file, so the
      file system is as the first save left it, whatever the second picker
      would have returned. */
  lemma SaveTwiceSameContent(s: Session, c1: Path, c2: Path)
    requires HasPath(s) || c1 != ""
    ensures SaveFile(SaveFile(s, c1), c2).fs == SaveFile(s, c1).fs
    ensures SaveFile(SaveFile(s, c1), c2).path == SaveFile(s, c1).path
  {
    var s1 := SaveFile(s, c1);
    assert HasPath(s1);
    var p := s1.path.value;
    assert p in s1.fs && s1.fs[p] == RStrip(s.buffer);
    assert s1.fs[p := RStrip(s1.buffer)] == s1.fs;
  }

  /** Opening a file and saving at once writes that file's contents back,
      stripped of trailing whitespace, and changes no other file. */
  lemma OpenThenSaveRoundTrip(s: Session, answer: Answer, chosen: Path, target: Path, c2: Path)
    requires ConfirmUnsavedChanges(s, answer, chosen).proceed
    requires target != "" && target in ConfirmUnsavedChanges(s, answer, chosen).session.fs
    ensures var before := ConfirmUnsavedChanges(s, answer, chosen).session.fs;
      SaveFile(OpenFile(s, answer, chosen, target), c2).fs == before[target := RStrip(before[target])]
  {
  }

  /** The file a save writes is a fixed point of the next open-and-save:
      opening it again and saving leaves it as it is. */
  lemma SavedFileIsStable(s: Session, c1: Path, c2: Path)
    requires HasPath(s) || c1 != ""
    ensures var s1 := SaveFile(s, c1);
      var p := s1.path.value;
      var s2 := OpenFile(s1, Some(false), "", p);
      && s2.buffer == s1.fs[p]
      && SaveFile(s2, c2).fs == s1.fs
  {
    var s1 := SaveFile(s, c1);
    var p := s1.path.value;
    assert s1.fs[p] == RStrip(s.buffer);
    RStripIdempotent(s.buffer);
    var s2 := OpenFile(s1, Some(false), "", p);
    assert s1.fs[p := RStrip(s2.buffer)] == s1.fs;
  }

  /** Every handler keeps a bound path non-empty, so `HasPath` and
      `path.Some?` agree on every reachable session. */
  lemma HandlersKeepPathWellFormed(s: Session, answer: Answer, chosen: Path, target: Path, text: string)
    requires PathWellFormed(s)
    ensures PathWellFormed(SaveFile(s, chosen))
    ensures PathWellFormed(SaveAsFile(s, chosen))
    ensures PathWellFormed(NewFile(s, answer, chosen))
    ensures PathWellFormed(OpenFile(s, answer, chosen, target))
    ensures PathWellFormed(CloseFile(s, answer, chosen))
    ensures PathWellFormed(Edit(s, text))
  {
  }
}
