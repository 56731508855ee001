/** The rules the main window (main.py) applies around the store: the
    filtered clipboard listing, the pin toggle, the template editor guards
    and the settings dialog's apply step. Widgets are left out; what a
    widget supplies (the search text, the selected id, the dialog's result)
    is a parameter. */
module Window {
  import opened Wrappers
  import opened Lists
  import opened Text
  import opened Storage
  import Theme
  import Language

  /** The marker put before pinned items: U+1F4CC and a space. */
  const PinMarker: string := "\U{1F4CC} "

  const DefaultHotkey: string := "ctrl+shift+v"

  // ---- refresh_clipboard_list ----

  /** `item.get("preview", "") or item.get("full_text", "")`. */
  function DisplayText(c: ClipItem): string {
    if c.preview.Some? && c.preview.value != "" then c.preview.value else c.fullText.GetOr("")
  }

  /** The search box text, stripped and lower-cased. */
  function SearchTerm(search: string): string {
    Lower(Strip(search))
  }

  /** An item is listed when the term is empty or occurs in its lower-cased
      display text. */
  predicate Matches(c: ClipItem, term: string) {
    term == "" || Contains(Lower(DisplayText(c)), term)
  }

  function Listed(term: string): ClipItem -> bool {
    c => Matches(c, term)
  }

  /** The items the listing shows, in storage order. */
  function ListedItems(items: seq<ClipItem>, search: string): seq<ClipItem> {
    Filter(items, Listed(SearchTerm(search)))
  }

  /** The label of a row: the pin marker and the text for a pinned item, the
      text alone otherwise. */
  function Label(c: ClipItem): (shown: string)
    ensures IsPinned(c) ==> shown == PinMarker + DisplayText(c)
    ensures !IsPinned(c) ==> shown == DisplayText(c)
  {
    (if IsPinned(c) then PinMarker else "") + DisplayText(c)
  }

  /** One row of the list widget: its label and the item id it carries. */
  datatype Row = Row(display: string, id: Option<string>)

  function RowOf(c: ClipItem): Row {
    Row(Label(c), c.id)
  }

  /** `refresh_clipboard_list`: one row per listed item, in order. */
  method RefreshClipboardList(items: seq<ClipItem>, search: string) returns (rows: seq<Row>)
    ensures |rows| == |ListedItems(items, search)|
    ensures forall i :: 0 <= i < |rows| ==> rows[i] == RowOf(ListedItems(items, search)[i])
  {
    var term := Lower(Strip(search));
    rows := ListRows(items, term);
  }

  /** The loop of `refresh_clipboard_list` over the stored items, for the
      already stripped and lower-cased search term. */
  method ListRows(items: seq<ClipItem>, term: string) returns (rows: seq<Row>)
    ensures |rows| == |Filter(items, Listed(term))|
    ensures forall i :: 0 <= i < |rows| ==> rows[i] == RowOf(Filter(items, Listed(term))[i])
  {
    rows := [];
    ghost var listed: seq<ClipItem> := [];
    var k := 0;
    while k < |items|
      invariant 0 <= k <= |items|
      invariant listed == Filter(items[..k], Listed(term))
      invariant |rows| == |listed|
      invariant forall i :: 0 <= i < |rows| ==> rows[i] == RowOf(listed[i])
    {
      var item := items[k];
      FilterExtend(items, k, Listed(term));
      if !Matches(item, term) {
        k := k + 1;
        continue;
      }
      rows := rows + [RowOf(item)];
      listed := listed + [item];
      k := k + 1;
    }
    assert items[..|items|] == items;
  }

  /** The listing shows exactly the matching items, each as often as it is
      stored, in storage order; a blank search shows everything. */
  lemma ListingSelectsMatches(items: seq<ClipItem>, search: string)
    ensures IsSubsequence(ListedItems(items, search), items)
    ensures forall x :: multiset(ListedItems(items, search))[x] ==
                        if Matches(x, SearchTerm(search)) then multiset(items)[x] else 0
    ensures Strip(search) == "" ==> ListedItems(items, search) == items
  {
    var p := Listed(SearchTerm(search));
    FilterSubsequence(items, p);
    FilterCount(items, p);
    if Strip(search) == "" {
      assert SearchTerm(search) == "";
      FilterAll(items, p);
    }
  }

  // ---- toggle_pin_selected_clip ----

  /** `clip["pinned"] = not bool(clip.get("pinned"))`: the flag flips, a
      missing flag counting as unset, and nothing else changes. */
  function Toggled(c: ClipItem): (r: ClipItem)
    ensures IsPinned(r) == !IsPinned(c)
    ensures r.pinned.Some?
    ensures r.id == c.id && r.preview == c.preview && r.fullText == c.fullText
  {
    c.(pinned := Some(!IsPinned(c)))
  }

  /** The clipboard list after toggling the selected item: the first item
      with that id has its flag flipped where it stands; no item moves, and a
      missing, empty or unknown id changes nothing. */
  function PinToggled(items: seq<ClipItem>, cid: Option<string>): (r: seq<ClipItem>)
    ensures |r| == |items|
    ensures forall j :: 0 <= j < |items| ==> r[j].id == items[j].id
    ensures cid == None || cid == Some("") || (forall j :: 0 <= j < |items| ==> items[j].id != cid) ==>
      r == items
    ensures cid != None && cid != Some("") && (exists j :: 0 <= j < |items| && items[j].id == cid) ==>
      exists i :: 0 <= i < |items| && items[i].id == cid &&
        (forall j :: 0 <= j < i ==> items[j].id != cid) &&
        r[i] == Toggled(items[i]) &&
        (forall j :: 0 <= j < |items| && j != i ==> r[j] == items[j])
  {
    if cid == None || cid == Some("") then items
    else match FirstIndexOf(items, ClipId, cid)
      case None => items
      case Some(i) => items[i := Toggled(items[i])]
  }

  /** The handler. The stored dictionary is changed in place; here the entry
      at its index is replaced. */
  method TogglePinSelectedClip(storage: StorageManager, cid: Option<string>)
    modifies storage`clipboardItems
    ensures storage.clipboardItems == PinToggled(old(storage.clipboardItems), cid)
  {
    var clip := storage.GetClipboardItem(cid);
    if clip == None {
      return;
    }
    var i := FirstIndexOf(storage.clipboardItems, ClipId, cid).value;
    storage.clipboardItems := storage.clipboardItems[i := Toggled(clip.value)];
  }

  // ---- add_template / edit_selected_template ----

  /** What the template editor returns: nothing when cancelled, otherwise the
      name and content typed. */
  datatype EditorResult = Cancelled | Accepted(name: string, content: string)

  /** Accepted with a name that is not blank once stripped. */
  predicate HasName(dialog: EditorResult) {
    dialog.Accepted? && Strip(dialog.name) != ""
  }

  /** The blank-name guard: an accepted dialog has a name exactly when the
      typed name holds a character that is not whitespace. */
  lemma {:induction false} HasNameIffVisible(dialog: EditorResult)
    requires dialog.Accepted?
    ensures HasName(dialog) <==> exists k :: 0 <= k < |dialog.name| && !IsSpace(dialog.name[k])
  {
    StripEmpty(dialog.name);
  }

  /** `add_template`: a blank name stores nothing; otherwise a template with
      the fresh id, the stripped name and the content is upserted, which
      appends it when no template has that id yet. */
  method AddTemplate(storage: StorageManager, dialog: EditorResult, freshId: string)
    modifies storage`templates
    ensures !HasName(dialog) ==> storage.templates == old(storage.templates)
    ensures HasName(dialog) ==>
      storage.templates ==
        Upserted(old(storage.templates), Template(Some(freshId), Some(Strip(dialog.name)), Some(dialog.content)))
    ensures HasName(dialog) && (forall t :: t in old(storage.templates) ==> t.id != Some(freshId)) ==>
      storage.templates ==
        old(storage.templates) + [Template(Some(freshId), Some(Strip(dialog.name)), Some(dialog.content))]
  {
    if dialog.Cancelled? {
      return;
    }
    var name := Strip(dialog.name);
    if name == "" {
      return;
    }
    storage.UpsertTemplate(Template(Some(freshId), Some(name), Some(dialog.content)));
  }

  /** The template list after editing the selected template: with a selected
      id that some template has and a non-blank name, the first such
      template gets the stripped name and the new content and keeps its id
      and place; every other case changes nothing. */
  function Edited(templates: seq<Template>, tid: Option<string>, dialog: EditorResult): (r: seq<Template>)
    ensures |r| == |templates|
    ensures forall j :: 0 <= j < |templates| ==> r[j].id == templates[j].id
    ensures (tid == None || tid == Some("") || !HasName(dialog) ||
             (forall j :: 0 <= j < |templates| ==> templates[j].id != tid)) ==>
      r == templates
    ensures (tid != None && tid != Some("") && HasName(dialog) &&
             (exists j :: 0 <= j < |templates| && templates[j].id == tid)) ==>
      exists i :: 0 <= i < |templates| && templates[i].id == tid &&
        (forall j :: 0 <= j < i ==> templates[j].id != tid) &&
        r == templates[i := Template(tid, Some(Strip(dialog.name)), Some(dialog.content))]
  {
    if tid == None || tid == Some("") || !HasName(dialog) then templates
    else match FirstIndexOf(templates, TemplateId, tid)
      case None => templates
      case Some(i) =>
        var edited := templates[i].(name := Some(Strip(dialog.name)), content := Some(dialog.content));
        ReplacedAtFirst(templates, tid, i, edited);
        templates[i := edited]
  }

  /** Replacing the first template with id `tid` by one with the same id
      keeps the length and every id. */
  lemma ReplacedAtFirst(templates: seq<Template>, tid: Option<string>, i: nat, edited: Template)
    requires i < |templates| && TemplateId(templates[i]) == tid && edited.id == tid
    requires forall j :: 0 <= j < i ==> TemplateId(templates[j]) != tid
    ensures |templates[i := edited]| == |templates|
    ensures forall j :: 0 <= j < |templates| ==> templates[i := edited][j].id == templates[j].id
    ensures exists k ::
              && 0 <= k < |templates| && templates[k].id == tid
              && (forall j :: 0 <= j < k ==> templates[j].id != tid)
              && templates[i := edited] == templates[k := edited]
  {
    assert forall j :: 0 <= j < i ==> TemplateId(templates[j]) == templates[j].id;
  }

  /** `edit_selected_template`. */
  method EditSelectedTemplate(storage: StorageManager, tid: Option<string>, dialog: EditorResult)
    modifies storage`templates
    ensures storage.templates == Edited(old(storage.templates), tid, dialog)
  {
    if tid == None || tid == Some("") {
      return;
    }
    var tpl: Option<Template> := None;
    var k := 0;
    while k < |storage.templates|
      invariant 0 <= k <= |storage.templates|
      invariant forall j :: 0 <= j < k ==> storage.templates[j].id != tid
    {
      if storage.templates[k].id == tid {
        tpl := Some(storage.templates[k]);
        break;
      }
      k := k + 1;
    }
    if tpl == None {
      return;
    }
    assert FirstIndexOf(storage.templates, TemplateId, tid) == Some(k);
    if dialog.Cancelled? {
      return;
    }
    var name := Strip(dialog.name);
    if name == "" {
      return;
    }
    storage.UpsertTemplate(tpl.value.(name := Some(name), content := Some(dialog.content)));
  }

  // ---- SettingsDialog.apply ----

  /** `edit_hotkey.text().strip() or "ctrl+shift+v"`. */
  function HotkeyOrDefault(text: string): (r: string)
    ensures r != ""
    ensures Strip(text) != "" ==> r == Strip(text)
    ensures Strip(text) == "" ==> r == DefaultHotkey
  {
    var s := Strip(text);
    if s != "" then s else DefaultHotkey
  }

  /** The stored hotkey is already in the form the dialog stores: opening the
      dialog (which shows the stored hotkey) and applying it keeps it. */
  lemma HotkeyStable(text: string)
    ensures Strip(HotkeyOrDefault(text)) == HotkeyOrDefault(text)
    ensures HotkeyOrDefault(HotkeyOrDefault(text)) == HotkeyOrDefault(text)
  {
    var h := HotkeyOrDefault(text);
    if Strip(text) != "" {
      StripIdempotent(text);
    } else {
      DefaultHotkeyStripped();
    }
    assert Strip(h) == h && h != "";
  }

  lemma DefaultHotkeyStripped()
    ensures Strip(DefaultHotkey) == DefaultHotkey
  {
    var d := DefaultHotkey;
    assert |d| == 12 && d[0] == 'c' && d[11] == 'v';
    assert !IsSpace('c') && !IsSpace('v');
    StripUnchanged(d);
  }

  /** The values the settings dialog holds when Apply is pressed. */
  datatype SettingsForm = SettingsForm(
    maxHistory: int, language: string, theme: string, hotkeyEnabled: bool, hotkeyText: string)

  /** `apply`: store the five values (the hotkey through its fallback), then
      switch the language and the theme. Writing the file and the restart
      notice are left out. */
  method ApplySettings(
    storage: StorageManager, langMgr: Language.LanguageManager, themeMgr: Theme.ThemeManager,
    form: SettingsForm, dir: Language.LanguageDir)
    requires storage.Valid() && themeMgr.Valid()
    modifies storage`settings, langMgr, themeMgr
    ensures storage.Valid() && themeMgr.Valid()
    ensures storage.settings == old(storage.settings)
      ["max_history" := IntVal(form.maxHistory)]
      ["language" := StrVal(form.language)]
      ["theme" := StrVal(form.theme)]
      ["global_hotkey_enabled" := BoolVal(form.hotkeyEnabled)]
      ["global_hotkey" := StrVal(HotkeyOrDefault(form.hotkeyText))]
    ensures Language.Loadable(dir, form.language) ==>
      langMgr.translations == dir[form.language].entries && langMgr.currentLanguage == form.language
    ensures !Language.Loadable(dir, form.language) ==>
      langMgr.translations == old(langMgr.translations) &&
      langMgr.currentLanguage == old(langMgr.currentLanguage)
    ensures form.theme in themeMgr.themes ==> themeMgr.currentThemeKey == form.theme
    ensures form.theme !in themeMgr.themes ==> themeMgr.currentThemeKey == old(themeMgr.currentThemeKey)
  {
    storage.settings := storage.settings["max_history" := IntVal(form.maxHistory)];
    storage.settings := storage.settings["language" := StrVal(form.language)];
    storage.settings := storage.settings["theme" := StrVal(form.theme)];
    storage.settings := storage.settings["global_hotkey_enabled" := BoolVal(form.hotkeyEnabled)];
    storage.settings := storage.settings["global_hotkey" := StrVal(HotkeyOrDefault(form.hotkeyText))];
    langMgr.SetLanguage(form.language, dir);
    themeMgr.SetTheme(form.theme);
  }
}
