# Markdown editor: document lifecycle and settings

This project models the state machine under the Tk widgets of a
single-window Markdown editor (`app.py`):

- the document session: the text buffer, the file path it is bound to, Tk's
  modified flag, and an abstract file system;
- the five file handlers (New, Open, Close, Save, Save As) and the
  Yes/No/Cancel unsaved-changes check that guards New, Open and Close;
- the settings dictionary: loaded from a JSON file with a hard-coded
  fallback, read key by key with defaults, and changed by the Change Font,
  Change Font Size and Change Theme dialogs, each of which rewrites the file.

Every dialog outcome is a parameter of the handler that opens it. The
unsaved-changes answer is an `Option<bool>` (`Some(true)` Yes, `Some(false)`
No, `None` Cancel). A file picker result is a string where `""` means
cancelled. A list box selection is an `Option<nat>` index, where `None`
means Select was pressed before anything was picked.

Files:
- `wrappers.dfy`: `Option`.
- `whitespace.dfy`: Python's `str.isspace` and `str.rstrip()`.
- `documents.dfy`: the session and the file handlers.
- `preferences.dfy`: settings, presets, selection lists, the settings handlers.
- `editor.dfy`: the whole editor, one action at a time, and its run invariants.

The model follows the code on two points where a reader might expect
otherwise:
- No handler clears the modified flag. Saving leaves the buffer "modified",
  and so do New, Open and Close. A later New, Open or Close on an edited
  buffer therefore prompts again even after a save.
- A stored settings object is used as it is, not merged over the defaults.
  Missing keys are only filled in at each read through `get`.

## Model

| member | source | states |
|---|---|---|
| Whitespace.RStrip | app.py:85 | the text written is a prefix of the widget text that does not end in whitespace, and only whitespace was cut off |
| Whitespace.RStripUnique | app.py:85 | those three properties determine the stripped text: any prefix that has them is the result |
| Whitespace.RStripIdempotent | app.py:93 | stripping what was already stripped changes nothing |
| Whitespace.RStripAppendSpace | app.py:85 | whitespace appended to a text, such as Tk's final newline, does not change what the text strips to |
| Whitespace.RStripEmptyIff | app.py:85 | a save writes an empty file exactly when the buffer is all whitespace |
| Documents.Start | app.py:13-16 | the editor starts empty, bound to no file, not modified |
| Documents.Written | app.py:85 | what a save writes is the buffer with trailing whitespace removed, not the widget text with its final newline; it never ends in whitespace |
| Documents.SaveAsFile | app.py:89-95 | a cancelled picker changes nothing; otherwise the stripped buffer goes to the chosen path, the buffer is bound to it, no other file changes, and buffer and modified flag stay |
| Documents.SaveFile | app.py:82-87 | with a bound path the stripped buffer overwrites that file and the path stays; with none, Save is Save As; the buffer and flag never change |
| Documents.ConfirmUnsavedChanges | app.py:97-105 | the action may go on unless the buffer is modified and the answer is Cancel; only Yes on a modified buffer saves; the buffer and flag never change |
| Documents.NewFile | app.py:56-61 | after a passed check the buffer is empty and bound to no file; Cancel on a modified buffer changes nothing; the flag is kept |
| Documents.OpenFile | app.py:63-73 | after a passed check and a chosen existing file the buffer holds that file and is bound to it; otherwise the buffer and path are those after the check |
| Documents.CloseFile | app.py:75-80 | after a passed check the buffer is empty and unbound; a refused check changes nothing |
| Documents.Edit | app.py:98 | typing changes the buffer and sets the modified flag, leaving path and files alone |
| Documents.CleanGateIgnoresDialogs | app.py:97-98 | on an unmodified buffer the check asks nothing: any answers give the same result, which passes and changes nothing |
| Documents.YesProceedsWithoutWrite | app.py:100-102 | Yes passes the check even when the save-as picker is cancelled and nothing is written |
| Documents.GateWritesOnlyOnYes | app.py:99-105 | files change only after Yes on a modified buffer, at most one file changes, and it gets the stripped buffer |
| Documents.HandlersKeepModified | app.py:56-95 | none of New, Open, Close, Save or Save As clears the modified flag; in this model they leave it as it was (Tk's own delete and insert calls inside them are not modelled) |
| Documents.SaveWithoutPathIsSaveAs | app.py:86-87 | with no bound file, Save and Save As are the same transition |
| Documents.SaveTwiceSameContent | app.py:82-95 | a second save leaves the files and the path as the first successful save left them |
| Documents.OpenThenSaveRoundTrip | app.py:63-85 | open then save writes the opened file's own contents back, stripped, and changes nothing else |
| Documents.SavedFileIsStable | app.py:63-95 | a saved file reopened and saved again stays exactly the same |
| Documents.HandlersKeepPathWellFormed | app.py:66-94 | a bound path is never "", so Python's truthiness test on it is a presence test |
| Preferences.LoadSettings | app.py:180-185 | a missing or malformed file gives exactly font Arial, size 14, white background, black text; a good file gives its object unchanged |
| Preferences.SaveSettings | app.py:187-189 | the file written loads back as the same settings |
| Preferences.ReadersFallBackToDefaults | app.py:13 | each reader gives the stored value when present and otherwise the default record's value for that key |
| Preferences.EmptySettingsResolveToDefaults | app.py:13 | an empty settings object makes the widget look like the default record |
| Preferences.Range | app.py:130 | `range(lo, hi)` lists the consecutive integers from lo below hi |
| Preferences.SizesAreEightToTwentyNine | app.py:130 | the size list is the 22 increasing sizes 8 to 29, each of them present |
| Preferences.FontChoice | app.py:120-123 | Select applies exactly the picked list entry when one was picked, and the current font otherwise |
| Preferences.SizeChoice | app.py:142-145 | Select applies exactly the picked list entry, 8 plus its index and so between 8 and 29, when one was picked, and the current size otherwise |
| Preferences.ThemeChoice | app.py:159-170 | Select applies Light when nothing was picked, and every listed name is found in the preset table |
| Preferences.SetFont | app.py:112 | only the font key changes, and the font read back is the one chosen |
| Preferences.SetSize | app.py:134 | only the size key changes, and the size read back is the one chosen |
| Preferences.SetTheme | app.py:152-160 | exactly the two colour keys take the preset's pair; every other key keeps its value |
| Preferences.ThemeColors | app.py:152-156 | Dark is black background with white text, Light is white with black and equals the defaults, and a theme keeps font and size |
| Preferences.Startup | app.py:10-13 | at start-up the settings are those loaded from the file, the widget shows them, the file is kept as found, and with no file the look is Arial 14 black on white |
| Preferences.ChangeFont | app.py:110-116 | the font is stored, the widget gets it with the current size, colours stay, and the file holds the new settings |
| Preferences.ChangeFontSize | app.py:132-138 | the size is stored, the widget gets it with the current font, colours stay, and the file holds the new settings |
| Preferences.ChangeTheme | app.py:158-163 | the preset's colours are stored and applied, the font stays, and the file holds the new settings |
| Preferences.ChangesKeepConsistent | app.py:107-163 | after any settings change the widget shows the settings and the file holds them |
| Preferences.PickedEntryReadsBack | app.py:110-145 | the picked font or size is what the widget then shows and what a reload of the file gives back; Select with no pick leaves the widget's look as it was |
| Preferences.FontSizeSurvivesReload | app.py:130-137 | with no settings file, picking size 18 and reloading reads back 18 |
| Preferences.DarkThemeSurvivesReload | app.py:154-162 | picking Dark and reloading gives black and white, and keeps the font |
| Editor.Init | app.py:6-24 | the editor starts with the loaded settings applied, the settings file as found, an empty, unbound, unmodified buffer, and the run invariant holding |
| Editor.StepFrame | app.py:26-54 | file actions leave the settings alone, settings actions leave the document alone, and only typing changes the modified flag |
| Editor.StepKeepsInvariant | app.py:56-163 | every action keeps bound paths non-empty and the widget and file in line with the settings |
| Editor.RunKeepsInvariant | app.py:56-163 | that invariant, once it holds (as it does at start-up), holds after any sequence of actions |
| Editor.ModifiedNeverCleared | app.py:56-105 | once the buffer is modified, no sequence of actions, saves included, makes it unmodified |
| Editor.NoEditKeepsClean | app.py:56-105 | in this model, a sequence of actions without typing keeps the flag as it was |
| Editor.SettingsRunPersists | app.py:107-189 | any sequence of settings changes leaves the document alone, and the file then reloads to the settings in memory |

## Left out

- Tk widgets, menus, key bindings, window titles and the Toplevel dialog layouts: presentation only. Their outcomes enter as parameters. New and Close differ only in the title, so they have the same model.
- Closing a Settings dialog without pressing Select: no handler runs, so it is no action at all.
- `update_line_count`: it depends on Tk's text index arithmetic, which is not part of this model.
- When Tk itself sets the modified flag on the handlers' own delete and insert calls: Tk internals are not part of this model. The flag is set by typing and otherwise left as it is. In Tk those calls can set it: after Open inserts a non-empty file (app.py:70), a following New prompts.
- Documents.HandlersKeepModified: says only that no handler clears the flag; that New, Open and Close may set it through Tk is not stated.
- Editor.NoEditKeepsClean: holds of the model, not of the running editor, whose Open can set the flag without any typing.
- Keyboard shortcuts: each is treated as its menu item. Ctrl+O with the text widget focused first runs Tk's Text binding, which inserts a newline, so it acts as a typing action followed by Open.
- Editor.StepFrame: assumes the settings file is not among the documents. In the source it is the ordinary file `settings.json` (app.py:10, 182, 188), which Save and Save As can overwrite and Open can read; such a save changes the file without changing the settings in memory, and the next settings change overwrites it again.
- Editor.RunKeepsInvariant: rests on the same assumption; a document saved over `settings.json` breaks "the file holds the settings in memory" until the next settings change.
- Real file and JSON I/O: the file system is a map and the settings file an `Option` of a map. Serialisation and text-mode newline translation are left out. A write never fails in the model. An open of a path with no file raises in the source and ends the handler, so the model keeps the state after the check.
- Preferences.Startup: assumes the stored values are usable by Tk. In the source the loaded values go straight into the text widget (app.py:13); an unknown colour, or a font size that is not a number, makes Tk raise, and the editor never comes up (app.py:193). The model returns a working editor for any stored value.
- Editor.Init: rests on the same assumption, so its invariant is not claimed for a settings file whose values Tk rejects.
- Settings JSON that is valid but not an object, and JSON floats, arrays and nested objects: the model's values are the JSON scalars string, integer, boolean and null.
- Preferences.FontChoice: when nothing is picked the model applies the stored font value as it is; Tk's `StringVar` would first convert a non-string stored value to its text. The dialog's variable is set when the dialog opens (app.py:120), and the dialogs are not modal, so with two font dialogs open the older one's Select without a pick restores the font it opened with; the model applies the font current at Select.
- Preferences.SizeChoice: when nothing is picked the model applies the stored size value as it is. Tk's `IntVar` reads a numeric text such as "16" as a number, a float by truncation, a boolean as 0 or 1, and raises only on non-numeric text, which ends the handler unchanged. The variable is set when the dialog opens (app.py:142), so the same two-dialog case as for the font applies.
