# LightClip clipboard store: a Dafny model

LightClip is a desktop clipboard-history manager. This project models the
core of it:

- the in-memory store `StorageManager`. It holds the clipboard history
  (newest first), the template list and the settings dictionary. It also
  does the pin-aware history trim, lookup and deletion by id, template
  upsert, and the merge of a loaded data file over the default settings;
- the `ClipEntry` record and its dictionary codec;
- the theme table and the current-theme holder, with the stylesheet it
  builds;
- the language tables, with the module-level lookup `_`;
- the rules the main window applies around the store: the filtered
  clipboard listing with its pin marker, the pin toggle, the empty-name
  guard on templates, the in-place template edit, and the settings apply
  step with its hotkey fallback.

Modules follow the program's files:

- `Storage` models `app/storage.py`;
- `Models` models `app/models.py`;
- `Theme` models `app/theme.py`;
- `Language` models `app/language.py`;
- `Window` models the rules inside `main.py`.

They share three helper modules:

- `Lists`: list comprehensions as an order-preserving `Filter`, removal by
  id, and first match by id;
- `Text`: Python's `strip`, `lower` and `in` on strings;
- `Wrappers`: `Option`.

State the program changes in place is a class: `StorageManager`,
`ThemeManager`, `LanguageManager`, and `Registry` for the module global that
`_` reads. Each method states the new state in terms of the old one. The
properties are proved as lemmas about the specification functions (`Trim`,
`Upserted`, `Filter`, `ToDict`/`FromDict`, `Render`).

Clipboard items and templates are Python dictionaries. They are modelled as
datatypes with one `Option` field per key the modelled rules read (an item's
id, preview, full_text and pinned; a template's id, name and content). A
missing key is `None`. An item counts as pinned only when its `pinned` value is `true`,
which matches the truthiness test `c.get("pinned")` for boolean values.

Files are inputs, not I/O:

- `data/data.json` is a `DataFile`: `Missing`, `Unparsable` or
  `Parsed(Snapshot)`;
- the `languages` directory is a map from language code to `LanguageFile`,
  where an absent code means no file;
- a dialog's outcome and the fresh uuid are parameters.

The history trim counts pinned items toward `max_history`. When the list is
too long, the unpinned part is cut to `max(0, max_history - #pinned)`. The
comment in `add_clipboard_item` (app/storage.py:53) says that only unpinned
items are trimmed; pinned items are indeed never removed, but they do take up
room under the cap. The model follows the code, and `Storage.AddedItemPlacement` and
`Storage.TrimOverCapacity` state the consequence. For example, with as many
pinned items as the cap, a new unpinned item is dropped at once. The code
also has no deduplication, no categories, no hotkey slots on templates and
no clear-history operation, so none of these are modelled.

## Model

| member | source | states |
|---|---|---|
| `Lists.Filter` | app/storage.py:59-60 | a comprehension keeps only elements passing the test, never more than the list had, and only elements of the list |
| `Lists.FilterCount` | app/storage.py:59-60 | a comprehension keeps each passing element exactly as often as it occurs and drops every other |
| `Lists.FilterExtend` | main.py:322-329 | one more element of the prefix adds that element exactly when it passes the test |
| `Lists.FilterSubsequence` | app/storage.py:59-60 | a comprehension keeps the relative order of what it keeps |
| `Lists.RemoveKey` | app/storage.py:75-76 | removal by id drops exactly the elements with that id, keeps every other one as often as it occurs and in order, and leaves the list unchanged when no element has the id |
| `Lists.FirstIndexOf` | app/storage.py:70-73 | the index found is that of the first element with the id; none is found exactly when no element has it |
| `Storage.DefaultSettings` | app/storage.py:18-24 | the five initial settings: max_history 100, language "zh_TW", theme "dark_default", global hotkey off, hotkey "ctrl+shift+v" |
| `Storage.MaxHistory` | app/storage.py:58 | `int(settings.get("max_history", 100))`: 100 when absent, an integer as stored, a boolean as 1 or 0 |
| `Storage.MergeSettings` | app/storage.py:38 | `settings.update(stored)`: stored values override, current keys missing from the file keep their values, no key is lost |
| `Storage.IsPinned` | app/storage.py:59-60 | the truthiness test `c.get("pinned")` on a boolean flag: only `true` counts |
| `Storage.Pinned` | app/storage.py:59 | `[c for c in items if c.get("pinned")]`: the pinned items in order |
| `Storage.Unpinned` | app/storage.py:60 | `[c for c in items if not c.get("pinned")]`: the unpinned items in order |
| `Storage.Trim` | app/storage.py:57-65 | the list `_trim_history` leaves: pinned items first, then the unpinned ones, cut to `max(0, max_history - #pinned)` when the list is over the cap; the lemmas below state its properties |
| `Storage.TrimGroups` | app/storage.py:59-65 | after the trim the pinned group is the pinned items of the input, whole and in order, and the unpinned group is a prefix of the input's unpinned items |
| `Storage.TrimPinnedFirst` | app/storage.py:62-65 | after the trim every pinned item precedes every unpinned item |
| `Storage.TrimKeepsPinned` | app/storage.py:59-65 | the trim never removes a pinned item (same multiset of pinned items) and never adds or duplicates any item |
| `Storage.TrimSubMultiset` | app/storage.py:61-65 | the trimmed list is a sub-multiset of the input: the trim only removes items |
| `Storage.TrimWithinCapacity` | app/storage.py:61-63 | when the list has at most `max_history` items the trim removes nothing and only regroups, pinned first |
| `Storage.TrimOverCapacity` | app/storage.py:61-65 | when the list is longer than `max_history` the unpinned group is cut to its newest `max(0, max_history - #pinned)` items, leaving exactly `max(max_history, #pinned)` items |
| `Storage.TrimBounds` | app/storage.py:57-65 | after the trim the list has at most `max(max_history, #pinned)` items and at most `max(0, max_history - #pinned)` unpinned ones |
| `Storage.TrimIdempotent` | app/storage.py:57-65 | trimming an already trimmed list changes nothing |
| `Storage.AddedItemPlacement` | app/storage.py:52-55 | a pinned new item heads the list after insert-and-trim; an unpinned one heads the unpinned group if and only if `max_history > #pinned` |
| `Storage.StorageManager.constructor` | app/storage.py:10-26 | the store starts from empty lists and the default settings, then takes the data file's lists and its settings merged over the defaults |
| `Storage.StorageManager.LoadAll` | app/storage.py:28-38 | a missing file changes nothing and asks for the state to be written; an unparsable file changes nothing; a parsed file replaces both lists (empty when absent) and merges its settings; default keys stay present |
| `Storage.StorageManager.Payload` | app/storage.py:40-45 | the saved document holds the current clipboard list, templates and settings |
| `Storage.SaveLoadRoundTrip` | app/storage.py:28-49 | loading the document the store saves gives a fresh store with the same clipboard list, templates and settings |
| `Storage.StorageManager.AddClipboardItem` | app/storage.py:52-55 | the new history is the trim of the old history with the item inserted at index 0 |
| `Storage.StorageManager.TrimHistory` | app/storage.py:57-65 | the new history is `Trim` of the old one under the stored `max_history` |
| `Storage.StorageManager.GetClipboardItem` | app/storage.py:67-73 | a missing or empty id finds nothing; otherwise the result is the first item with that id, or nothing when no item has it |
| `Storage.StorageManager.DeleteClipboardItem` | app/storage.py:75-76 | the new history is the old one without the items that have the id, the rest in order |
| `Storage.StorageManager.UpsertTemplate` | app/storage.py:79-85 | the new template list is `Upserted` of the old one |
| `Storage.StorageManager.DeleteTemplate` | app/storage.py:87-88 | the new template list is the old one without the templates that have the id, the rest in order |
| `Storage.Upserted` | app/storage.py:79-85 | with a template of the same id, the first one is replaced at its index and the length is unchanged; otherwise the template is appended |
| `Storage.UpsertIdempotent` | app/storage.py:79-85 | upserting the same template twice equals upserting it once |
| `Models.ToDict` | app/models.py:18-25 | every field is copied; `tags=None` becomes `[]` and `extra=None` becomes `{}`, so the output never holds `None` there |
| `Models.FromDict` | app/models.py:28-37 | missing keys default to id 0, type "text", empty content and timestamp, not pinned; missing, null or empty tags and extra become `[]` and `{}` |
| `Models.OrEmptyList` | app/models.py:35 | `data.get("tags") or []`: a missing, null or empty list gives `[]` |
| `Models.OrEmptyMap` | app/models.py:36 | `data.get("extra") or {}`: a missing, null or empty map gives `{}` |
| `Models.RoundTrip` | app/models.py:18-37 | `from_dict(to_dict(e)) == e` for every entry whose tags and extra are not `None` |
| `Models.RoundTripNormalises` | app/models.py:18-37 | for any entry, the round trip only replaces `None` tags or extra by empty ones |
| `Models.DictRoundTrip` | app/models.py:18-37 | a dictionary with every key present and non-null tags and extra survives `to_dict(from_dict(d))` unchanged |
| `Text.Strip` | main.py:321 | `str.strip()`: the result is the input with whitespace removed at both ends, and it neither starts nor ends with whitespace |
| `Text.Lower` | main.py:321 | lower-casing keeps the length and maps each character on its own |
| `Text.Contains` | main.py:325 | Python's `term in text` on strings: `term` occurs at some offset of `text` |
| `Theme.ThemeTable` | app/theme.py:11-66 | the six themes with their display names and colours |
| `Theme.StylesheetTemplate` | app/theme.py:86-135 | the stylesheet f-string, split into literal text and colour slots |
| `Theme.FieldValue` | app/theme.py:78-83 | the colour a slot names: `t["bg"]`, `t["bg_alt"]`, `t["panel"]`, `t["text"]`, `t["text_sub"]` or `t["accent"]` |
| `Theme.Render` | app/theme.py:86-135 | the f-string interpolation: literal pieces as written, each slot replaced by its colour, in order |
| `Theme.ThemeTableKeys` | app/theme.py:11-67 | the theme table has exactly the six keys, the initial "dark_default" among them |
| `Theme.ThemeManager.constructor` | app/theme.py:8-67 | the manager starts on "dark_default" with the fixed table, a key of the table |
| `Theme.ThemeManager.SetTheme` | app/theme.py:69-71 | a key of the table becomes current; an unknown key leaves the current key unchanged; the current key stays a key of the table |
| `Theme.ThemeManager.Current` | app/theme.py:73-74 | the lookup cannot fail and gives the table's theme for the current key |
| `Theme.RenderContainsSlot` | app/theme.py:86-135 | every colour slot of the template appears, filled in, in the rendered text |
| `Theme.ThemeManager.BuildStylesheet` | app/theme.py:76-136 | the stylesheet is the template filled with the current theme and contains its bg, bg_alt, panel, text, text_sub and accent values |
| `Language.Loadable` | app/language.py:17-23 | the language's file exists and parses, so `load_language` installs it |
| `Language.LanguageManager.constructor` | app/language.py:9-14 | the manager starts on "zh_TW", with that language's table if its file loads and an empty table otherwise |
| `Language.LanguageManager.LoadLanguage` | app/language.py:16-25 | a missing or unparsable file changes neither the table nor the current language; on success the table is replaced wholesale and `code` becomes current |
| `Language.LanguageManager.SetLanguage` | app/language.py:27-28 | behaves exactly as `load_language` |
| `Language.LanguageManager.Translate` | app/language.py:30-31 | the table's entry for the key when it has one, the key itself otherwise |
| `Language.Registry.constructor` | app/language.py:34 | no manager is registered at first |
| `Language.Registry.InitLanguageManager` | app/language.py:37-39 | the registered manager becomes `mgr` |
| `Language.Registry.Gettext` | app/language.py:42-45 | `_` returns the key unchanged with no manager registered, otherwise the registered manager's translation |
| `Language.RegisterAndTranslate` | app/language.py:37-45 | after a language loads and its manager is registered, `_` answers from that language's table, falling back to the key |
| `Window.SearchTerm` | main.py:321 | the search box text, stripped and lower-cased |
| `Window.DisplayText` | main.py:324 | the preview when present and non-empty, otherwise the full text (empty when missing) |
| `Window.Matches` | main.py:325 | an item is kept when the term is empty or occurs in its lower-cased display text |
| `Window.ListedItems` | main.py:322-326 | the stored items the loop keeps for the normalised search term, in storage order |
| `Window.Label` | main.py:327 | a row shows the pin marker followed by the text if and only if the item is pinned, otherwise the text alone |
| `Window.RowOf` | main.py:327-329 | a list row: the item's label and `item.get("id")` as its user data |
| `Window.RefreshClipboardList` | main.py:320-329 | one row per listed item, in storage order, carrying the item's label and id |
| `Window.ListRows` | main.py:322-329 | the loop over the stored items yields, for the normalised term, one row per item the comprehension keeps, in order, with its label and id |
| `Window.ListingSelectsMatches` | main.py:321-328 | an item is listed if and only if the stripped, lower-cased term is empty or occurs in its lower-cased preview (full text when the preview is missing or empty); each as often as stored, in order; a blank search lists everything |
| `Window.Toggled` | main.py:386 | the pin flag flips, a missing flag counting as unset, and the other fields stay |
| `Window.PinToggled` | main.py:379-386 | only the first item with the selected id changes, becoming `Toggled` of itself where it stands (flag flipped, other fields kept); ids and order are untouched; a missing, empty or unknown id changes nothing |
| `Window.TogglePinSelectedClip` | main.py:379-388 | the new history is `PinToggled` of the old one |
| `Window.HasName` | main.py:416-418 | the dialog was accepted and its name is not blank after stripping (also main.py:437-439) |
| `Window.HasNameIffVisible` | main.py:416-418 | an accepted name passes the blank-name guard if and only if it holds a character that is not whitespace |
| `Window.AddTemplate` | main.py:413-422 | a cancelled dialog or a name blank after stripping stores nothing; otherwise the template with the fresh id, stripped name and content is upserted, so it is appended when its id is new |
| `Window.Edited` | main.py:424-445 | with a selected id some template has and a non-blank name, the first such template gets the stripped name and the new content, keeping its id and index; otherwise nothing changes |
| `Window.EditSelectedTemplate` | main.py:424-445 | the new template list is `Edited` of the old one |
| `Window.HotkeyOrDefault` | main.py:123 | the stored hotkey is the stripped text, or "ctrl+shift+v" when that is empty; it is never empty |
| `Window.HotkeyStable` | main.py:103-123 | applying the dialog again with the stored hotkey keeps it: the stored value is already stripped |
| `Window.ApplySettings` | main.py:116-128 | the five settings are stored (hotkey through its fallback), then the language is loaded as `set_language` does and the theme set as `set_theme` does |

## Left out

- File I/O and JSON, because they are outside the model. Reading and decoding `data/data.json` and `languages/<code>.json` are inputs. Writing in `save_all` is the `Payload` document plus the `writeBack` flag. UTF-8 and pretty-printing are not modelled.
- Unusual JSON shapes are not modelled. This covers a section that is present but `null`, a language file that is not an object of strings, and non-string values in `extra`. Storage.ClipItem cannot hold a truthy non-boolean `pinned` such as `1` or `"yes"`, which `c.get("pinned")` (app/storage.py:59) counts as pinned, nor an `id` that is not a string. A data file that parses but is not an object is not represented either: `data.get` (app/storage.py:36) is outside the `try`, so the source raises there and `__init__` fails, while `Storage.DataFile` has no such case. Models.EntryDict reads a `null` id, type, content, timestamp or pinned as an absent key, and so gives the default, where `from_dict` keeps `None`. A settings value can only be an integer, a boolean or a string (`Storage.SettingValue`): a float under `max_history` (which `int()` truncates), a `null` there (which makes `int()` raise) and a list- or object-valued setting that `settings.update` would carry over are not represented.
- Qt widgets, dialogs, message boxes and the refresh calls after each action, because they are UI. The `self.storage.save_all()` call that follows each handler (main.py:124, :387, :421, :443) is left out of `Window.ApplySettings`, `Window.TogglePinSelectedClip`, `Window.AddTemplate` and `Window.EditSelectedTemplate`; what it would write is `Storage.StorageManager.Payload`, and `Storage.SaveLoadRoundTrip` states what reloading it gives. A selection, a dialog result or a search box text is a parameter.
- The `keyboard` global-hotkey library, because it is OS key capture.
- `app/cloud_sync.py`, `app/google_sync.py`, `app/ocr.py`, `app/ocr_engine.py`, `app/translate.py` and `app/translator.py` are not part of this model. They wrap file export, network, OCR and translation libraries.
- `uuid.uuid4()` is left out because it is random: the fresh id is a parameter of `Window.AddTemplate`.
- Storage.MaxHistory reads a string stored under `max_history` as 100. The source passes it to `int()`, which parses a numeric string and raises otherwise. Integers are used as they are, and booleans as 1 or 0, as Python does.
- Window.TogglePinSelectedClip and Window.EditSelectedTemplate replace the list element at the index of the first match. The source mutates the dictionary object that the list holds. Aliasing of one dictionary object at several places in a list is not modelled.
- Storage.ClipItem keeps only the keys the modelled rules read: id, preview, full_text and pinned. The other keys (type, timestamp, image_path …) pass through untouched and are not represented; the window's preview and copy handlers, which read type, image_path and full_text (main.py:346-349, 366), are UI and are not modelled.
- Window.DisplayText reads a `full_text` that is `null` (with an empty or missing preview) as the empty string, and `Window.Label`, `Window.RefreshClipboardList` and `Window.ListingSelectsMatches` inherit this. The source fails there: on `text.lower()` (main.py:325) when the search term is not empty, and on the concatenation at main.py:327 when it is.
- Text.Lower lower-cases only the letters A to Z. Python's `str.lower` maps every Unicode cased letter, and can change a string's length ('İ', U+0130, lowers to two code points), so the row's "keeps the length" holds of the A–Z model only.
- Window.ApplySettings accepts any integer for `max_history`. The spin box limits it to 10–1000, a widget constraint.
- Language.LanguageManager.LoadLanguage is given the whole directory as a map from code to file. The path computation `lang_dir / f"{code}.json"` is not modelled.
