/** The in-memory store of app/storage.py: clipboard history (newest first),
    templates and settings, with the pin-aware history trim. */
module Storage {
  import opened Wrappers
  import opened Lists

  /** A clipboard item as the store sees it: the keys it or the window read.
      Every other key of the item's dictionary is carried along untouched and
      is not modelled. A `pinned` flag counts as set only when it is `true`. */
  datatype ClipItem = ClipItem(
    id: Option<string>,
    preview: Option<string>,
    fullText: Option<string>,
    pinned: Option<bool>)

  /** A template as the store and the window see it; a key the stored
      dictionary lacks is `None`. */
  datatype Template = Template(id: Option<string>, name: Option<string>, content: Option<string>)

  datatype SettingValue = IntVal(i: int) | BoolVal(b: bool) | StrVal(s: string)

  type Settings = map<string, SettingValue>

  /** The decoded data file: each of its three sections may be absent. */
  datatype Snapshot = Snapshot(
    clipboard: Option<seq<ClipItem>>,
    templates: Option<seq<Template>>,
    settings: Option<Settings>)

  /** What `load_all` finds at data/data.json. */
  datatype DataFile = Missing | Unparsable | Parsed(snapshot: Snapshot)

  function ClipId(c: ClipItem): Option<string> { c.id }

  function TemplateId(t: Template): Option<string> { t.id }

  function DefaultSettings(): Settings {
    map[
      "max_history" := IntVal(100),
      "language" := StrVal("zh_TW"),
      "theme" := StrVal("dark_default"),
      "global_hotkey_enabled" := BoolVal(false),
      "global_hotkey" := StrVal("ctrl+shift+v")]
  }

  /** `int(settings.get("max_history", 100))`; Python's `int` of a boolean is
      0 or 1. */
  function MaxHistory(settings: Settings): int {
    if "max_history" !in settings then 100
    else match settings["max_history"]
      case IntVal(n) => n
      case BoolVal(b) => if b then 1 else 0
      case StrVal(_) => 100
  }

  /** `settings.update(stored)`: stored values win, every other current key
      keeps its value, and no key is lost. */
  function MergeSettings(current: Settings, stored: Settings): (r: Settings)
    ensures r.Keys == current.Keys + stored.Keys
    ensures forall k :: k in stored ==> r[k] == stored[k]
    ensures forall k :: k in current && k !in stored ==> r[k] == current[k]
  {
    current + stored
  }

  // ---- pin-aware trimming ----

  predicate IsPinned(c: ClipItem) { c.pinned == Some(true) }

  predicate IsUnpinned(c: ClipItem) { !IsPinned(c) }

  function Pinned(items: seq<ClipItem>): seq<ClipItem> { Filter(items, IsPinned) }

  function Unpinned(items: seq<ClipItem>): seq<ClipItem> { Filter(items, IsUnpinned) }

  function Max(a: int, b: int): int { if a >= b then a else b }

  /** The list `_trim_history` leaves: pinned items first, then the unpinned
      ones, of which only the first `max(0, maxHist - #pinned)` are kept when
      the whole list is longer than `maxHist`. */
  function Trim(items: seq<ClipItem>, maxHist: int): seq<ClipItem> {
    var pinned := Pinned(items);
    var others := Unpinned(items);
    if |pinned| + |others| <= maxHist then pinned + others
    else pinned + others[..Max(0, maxHist - |pinned|)]
  }

  /** Every item is either pinned or unpinned. */
  lemma {:induction false} PartitionLength(items: seq<ClipItem>)
    ensures |Pinned(items)| + |Unpinned(items)| == |items|
  {
    if items != [] {
      PartitionLength(items[1..]);
    }
  }

  /** The pinned and unpinned parts together hold every item exactly as often
      as the list does. */
  lemma PartitionMultiset(items: seq<ClipItem>)
    ensures multiset(Pinned(items)) + multiset(Unpinned(items)) == multiset(items)
  {
    FilterCount(items, IsPinned);
    FilterCount(items, IsUnpinned);
    forall x
      ensures (multiset(Pinned(items)) + multiset(Unpinned(items)))[x] == multiset(items)[x]
    {
    }
  }

  /** Splitting the trimmed list again gives back the pinned group whole and
      a prefix (the newest part) of the unpinned group. */
  lemma TrimGroups(items: seq<ClipItem>, maxHist: int)
    ensures Pinned(Trim(items, maxHist)) == Pinned(items)
    ensures Unpinned(Trim(items, maxHist)) <= Unpinned(items)
  {
    var p := Pinned(items);
    var o := Unpinned(items);
    PartitionLength(items);
    var kept := if |p| + |o| <= maxHist then o else o[..Max(0, maxHist - |p|)];
    assert Trim(items, maxHist) == p + kept;
    assert forall i :: 0 <= i < |kept| ==> kept[i] in o;
    SplitGroups(p, kept);
  }

  /** A list of pinned items followed by a list of unpinned ones splits back
      into the two. */
  lemma SplitGroups(p: seq<ClipItem>, kept: seq<ClipItem>)
    requires forall i :: 0 <= i < |p| ==> IsPinned(p[i])
    requires forall i :: 0 <= i < |kept| ==> IsUnpinned(kept[i])
    ensures Pinned(p + kept) == p && Unpinned(p + kept) == kept
  {
    FilterConcat(p, kept, IsPinned);
    FilterConcat(p, kept, IsUnpinned);
    FilterAll(p, IsPinned);
    FilterNone(p, IsUnpinned);
    FilterNone(kept, IsPinned);
    FilterAll(kept, IsUnpinned);
  }

  /** After trimming every pinned item precedes every unpinned one. */
  lemma TrimPinnedFirst(items: seq<ClipItem>, maxHist: int)
    ensures var r := Trim(items, maxHist);
      forall i, j :: 0 <= i < j < |r| && IsPinned(r[j]) ==> IsPinned(r[i])
  {
    var p := Pinned(items);
    var o := Unpinned(items);
    var r := Trim(items, maxHist);
    var kept := if |p| + |o| <= maxHist then o else o[..Max(0, maxHist - |p|)];
    assert r == p + kept;
    forall i, j | 0 <= i < j < |r| && IsPinned(r[j])
      ensures IsPinned(r[i])
    {
    }
  }

  /** Trimming never drops a pinned item and never adds or duplicates one. */
  lemma TrimKeepsPinned(items: seq<ClipItem>, maxHist: int)
    ensures var r := Trim(items, maxHist);
      multiset(Pinned(r)) == multiset(Pinned(items)) &&
      (forall x :: x in items && IsPinned(x) ==> x in r) &&
      multiset(r) <= multiset(items)
  {
    var r := Trim(items, maxHist);
    TrimGroups(items, maxHist);
    TrimSubMultiset(items, maxHist);
    FilterCount(items, IsPinned);
    forall x | x in items && IsPinned(x)
      ensures x in r
    {
      assert x in multiset(Pinned(items));
    }
  }

  /** Trimming only removes items. */
  lemma TrimSubMultiset(items: seq<ClipItem>, maxHist: int)
    ensures multiset(Trim(items, maxHist)) <= multiset(items)
  {
    var p := Pinned(items);
    var o := Unpinned(items);
    var kept := if |p| + |o| <= maxHist then o else o[..Max(0, maxHist - |p|)];
    assert Trim(items, maxHist) == p + kept;
    assert o == kept + o[|kept|..];
    PartitionMultiset(items);
  }

  /** When the list fits, trimming removes nothing: it only moves the pinned
      items to the front. */
  lemma TrimWithinCapacity(items: seq<ClipItem>, maxHist: int)
    requires |items| <= maxHist
    ensures Trim(items, maxHist) == Pinned(items) + Unpinned(items)
    ensures multiset(Trim(items, maxHist)) == multiset(items)
  {
    PartitionLength(items);
    PartitionMultiset(items);
  }

  /** When the list is too long, the unpinned group is cut to its newest
      `max(0, maxHist - #pinned)` items, so the list ends with exactly
      `max(maxHist, #pinned)` items: pinned items count toward the cap. */
  lemma TrimOverCapacity(items: seq<ClipItem>, maxHist: int)
    requires |items| > maxHist
    ensures var k := Max(0, maxHist - |Pinned(items)|);
      k <= |Unpinned(items)| &&
      Trim(items, maxHist) == Pinned(items) + Unpinned(items)[..k] &&
      |Trim(items, maxHist)| == Max(maxHist, |Pinned(items)|)
  {
    PartitionLength(items);
  }

  /** In every case the trimmed list has at most `max(maxHist, #pinned)`
      items, and at most `max(0, maxHist - #pinned)` unpinned ones. */
  lemma TrimBounds(items: seq<ClipItem>, maxHist: int)
    ensures |Trim(items, maxHist)| <= Max(maxHist, |Pinned(items)|)
    ensures |Unpinned(Trim(items, maxHist))| <= Max(0, maxHist - |Pinned(Trim(items, maxHist))|)
  {
    PartitionLength(items);
    TrimGroups(items, maxHist);
    var p := Pinned(items);
    var o := Unpinned(items);
    var kept := if |p| + |o| <= maxHist then o else o[..Max(0, maxHist - |p|)];
    assert Trim(items, maxHist) == p + kept;
    FilterConcat(p, kept, IsUnpinned);
    FilterNone(p, IsUnpinned);
    FilterAll(kept, IsUnpinned);
  }

  /** Trimming a trimmed list changes nothing. */
  lemma TrimIdempotent(items: seq<ClipItem>, maxHist: int)
    ensures Trim(Trim(items, maxHist), maxHist) == Trim(items, maxHist)
  {
    var p := Pinned(items);
    var o := Unpinned(items);
    var r := Trim(items, maxHist);
    PartitionLength(items);
    TrimGroups(items, maxHist);
    var kept := if |p| + |o| <= maxHist then o else o[..Max(0, maxHist - |p|)];
    assert r == p + kept;
    FilterConcat(p, kept, IsUnpinned);
    FilterNone(p, IsUnpinned);
    FilterAll(kept, IsUnpinned);
    assert Pinned(r) == p && Unpinned(r) == kept;
    if |p| + |kept| > maxHist {
      assert kept == [];
    }
  }

  /** `add_clipboard_item` puts the new item at the head before trimming. A
      pinned new item heads the result; an unpinned one heads the unpinned
      group exactly when the cap leaves room beside the pinned items. */
  lemma AddedItemPlacement(items: seq<ClipItem>, item: ClipItem, maxHist: int)
    ensures var r := Trim([item] + items, maxHist);
      (IsPinned(item) ==> |r| > 0 && r[0] == item) &&
      (!IsPinned(item) ==>
         ((|r| > |Pinned(items)| && r[|Pinned(items)|] == item) <==> maxHist > |Pinned(items)|))
  {
    var s := [item] + items;
    assert s[0] == item && s[1..] == items;
    PartitionLength(items);
    if IsPinned(item) {
      assert Pinned(s) == [item] + Pinned(items);
    } else {
      assert Pinned(s) == Pinned(items);
      assert Unpinned(s) == [item] + Unpinned(items);
    }
  }

  // ---- the store ----

  class StorageManager {
    var clipboardItems: seq<ClipItem>
    var templates: seq<Template>
    var settings: Settings

    /** Settings start from the defaults and are only ever updated, so every
        default key stays present. */
    ghost predicate Valid()
      reads this
    {
      DefaultSettings().Keys <= settings.Keys
    }

    /** `__init__`: empty lists and the default settings, then `load_all`. */
    constructor (file: DataFile)
      ensures Valid()
      ensures !file.Parsed? ==> clipboardItems == [] && templates == [] && settings == DefaultSettings()
      ensures file.Parsed? ==>
        clipboardItems == file.snapshot.clipboard.GetOr([]) &&
        templates == file.snapshot.templates.GetOr([]) &&
        settings == MergeSettings(DefaultSettings(), file.snapshot.settings.GetOr(map[]))
    {
      clipboardItems := [];
      templates := [];
      settings := DefaultSettings();
      new;
      var _ := LoadAll(file);
    }

    /** `load_all`. A missing file leaves the state as it is and asks for the
        current state to be written (`save_all`); an unparsable file leaves
        the state as it is; a parsed file replaces both lists and merges its
        settings over the current ones. */
    method LoadAll(file: DataFile) returns (writeBack: bool)
      requires Valid()
      modifies this
      ensures Valid()
      ensures writeBack <==> file.Missing?
      ensures !file.Parsed? ==>
        clipboardItems == old(clipboardItems) && templates == old(templates) && settings == old(settings)
      ensures file.Parsed? ==>
        clipboardItems == file.snapshot.clipboard.GetOr([]) &&
        templates == file.snapshot.templates.GetOr([]) &&
        settings == MergeSettings(old(settings), file.snapshot.settings.GetOr(map[]))
    {
      match file {
        case Missing =>
          writeBack := true;
        case Unparsable =>
          writeBack := false;
        case Parsed(data) =>
          writeBack := false;
          clipboardItems := data.clipboard.GetOr([]);
          templates := data.templates.GetOr([]);
          settings := MergeSettings(settings, data.settings.GetOr(map[]));
      }
    }

    /** The document `save_all` writes. */
    function Payload(): (p: Snapshot)
      reads this
      ensures p.clipboard == Some(clipboardItems)
      ensures p.templates == Some(templates)
      ensures p.settings == Some(settings)
    {
      Snapshot(Some(clipboardItems), Some(templates), Some(settings))
    }

    /** `add_clipboard_item`: insert at the head, then trim. */
    method AddClipboardItem(item: ClipItem)
      modifies this`clipboardItems
      ensures clipboardItems == Trim([item] + old(clipboardItems), MaxHistory(settings))
    {
      clipboardItems := [item] + clipboardItems;
      TrimHistory();
    }

    /** `_trim_history`. */
    method TrimHistory()
      modifies this`clipboardItems
      ensures clipboardItems == Trim(old(clipboardItems), MaxHistory(settings))
    {
      var maxHist := MaxHistory(settings);
      var pinned := Pinned(clipboardItems);
      var others := Unpinned(clipboardItems);
      if |pinned| + |others| <= maxHist {
        clipboardItems := pinned + others;
        return;
      }
      others := others[..Max(0, maxHist - |pinned|)];
      clipboardItems := pinned + others;
    }

    /** `get_clipboard_item`: nothing for a missing or empty id, otherwise the
        first item whose id matches, if any. */
    method GetClipboardItem(cid: Option<string>) returns (r: Option<ClipItem>)
      ensures cid == None || cid == Some("") ==> r == None
      ensures cid != None && cid != Some("") ==>
        r == match FirstIndexOf(clipboardItems, ClipId, cid)
             case Some(i) => Some(clipboardItems[i])
             case None => None
    {
      if cid == None || cid == Some("") {
        return None;
      }
      var i := 0;
      while i < |clipboardItems|
        invariant 0 <= i <= |clipboardItems|
        invariant forall j :: 0 <= j < i ==> clipboardItems[j].id != cid
      {
        if clipboardItems[i].id == cid {
          return Some(clipboardItems[i]);
        }
        i := i + 1;
      }
      return None;
    }

    /** `delete_clipboard_item`. */
    method DeleteClipboardItem(cid: string)
      modifies this`clipboardItems
      ensures clipboardItems == RemoveKey(old(clipboardItems), ClipId, Some(cid))
    {
      clipboardItems := RemoveKey(clipboardItems, ClipId, Some(cid));
    }

    /** `upsert_template`: overwrite the first template with the same id in
        place, or append when there is none. */
    method UpsertTemplate(tpl: Template)
      modifies this`templates
      ensures templates == Upserted(old(templates), tpl)
    {
      var i := 0;
      while i < |templates|
        invariant 0 <= i <= |templates|
        invariant templates == old(templates)
        invariant forall j :: 0 <= j < i ==> templates[j].id != tpl.id
      {
        if templates[i].id == tpl.id {
          templates := templates[i := tpl];
          return;
        }
        i := i + 1;
      }
      templates := templates + [tpl];
    }

    /** `delete_template`. */
    method DeleteTemplate(tid: string)
      modifies this`templates
      ensures templates == RemoveKey(old(templates), TemplateId, Some(tid))
    {
      templates := RemoveKey(templates, TemplateId, Some(tid));
    }
  }

  /** The template list after an upsert: with a template of the same id, the
      first such one is replaced at its index and the length is unchanged;
      without one, the new template is appended. */
  function Upserted(templates: seq<Template>, tpl: Template): (r: seq<Template>)
    ensures tpl in r
    ensures (exists j :: 0 <= j < |templates| && templates[j].id == tpl.id) ==>
      |r| == |templates| &&
      exists i :: 0 <= i < |templates| && templates[i].id == tpl.id &&
        (forall j :: 0 <= j < i ==> templates[j].id != tpl.id) &&
        r == templates[i := tpl]
    ensures (forall j :: 0 <= j < |templates| ==> templates[j].id != tpl.id) ==>
      r == templates + [tpl]
  {
    match FirstIndexOf(templates, TemplateId, tpl.id)
    case Some(i) =>
      assert templates[i := tpl][i] == tpl;
      templates[i := tpl]
    case None =>
      assert (templates + [tpl])[|templates|] == tpl;
      templates + [tpl]
  }

  /** Upserting the same template twice is the same as upserting it once. */
  lemma UpsertIdempotent(templates: seq<Template>, tpl: Template)
    ensures Upserted(Upserted(templates, tpl), tpl) == Upserted(templates, tpl)
  {
    var r := Upserted(templates, tpl);
    match FirstIndexOf(templates, TemplateId, tpl.id)
    case Some(i) =>
      assert r == templates[i := tpl];
      assert r[i].id == tpl.id;
      var k := FirstIndexOf(r, TemplateId, tpl.id);
      assert k == Some(i) by {
        assert forall j :: 0 <= j < i ==> TemplateId(r[j]) != tpl.id;
      }
    case None =>
      assert r == templates + [tpl];
      assert r[|templates|] == tpl;
      assert FirstIndexOf(r, TemplateId, tpl.id) == Some(|templates|) by {
        assert forall j :: 0 <= j < |templates| ==> TemplateId(r[j]) != tpl.id;
      }
  }

  /** Saving the store and loading the file written gives a new store in the
      same state: clipboard list, templates and settings survive unchanged. */
  method SaveLoadRoundTrip(s: StorageManager) returns (t: StorageManager)
    requires s.Valid()
    ensures t.Valid()
    ensures t.clipboardItems == s.clipboardItems
    ensures t.templates == s.templates
    ensures t.settings == s.settings
  {
    t := new StorageManager(Parsed(s.Payload()));
    assert t.settings == s.settings;
  }
}
