/** The `ClipEntry` record of app/models.py and its dictionary codec. */
module Models {
  import opened Wrappers

  /** One clipboard capture. `tags` and `extra` default to Python's `None`,
      which is `None` here; the values of `extra` are kept abstract as
      strings. */
  datatype ClipEntry = ClipEntry(
    id: int,
    kind: string,
    content: string,
    timestamp: string,
    pinned: bool,
    tags: Option<seq<string>>,
    extra: Option<map<string, string>>)

  /** The dictionary form of an entry: a field is `None` when its key is
      absent. For `tags` and `extra`, which are read with `get(key)` and no
      default, `None` also stands for a key whose value is `null`. */
  datatype EntryDict = EntryDict(
    id: Option<int>,
    kind: Option<string>,
    content: Option<string>,
    timestamp: Option<string>,
    pinned: Option<bool>,
    tags: Option<seq<string>>,
    extra: Option<map<string, string>>)

  /** `to_dict`: every field becomes a key; a `None` tag list or extra map
      is written as an empty one, so the output never holds `None` there. */
  function ToDict(e: ClipEntry): (d: EntryDict)
    ensures d.id == Some(e.id) && d.kind == Some(e.kind) && d.content == Some(e.content)
    ensures d.timestamp == Some(e.timestamp) && d.pinned == Some(e.pinned)
    ensures d.tags.Some? && d.extra.Some?
    ensures e.tags.None? ==> d.tags == Some([])
    ensures e.tags.Some? ==> d.tags == e.tags
    ensures e.extra.None? ==> d.extra == Some(map[])
    ensures e.extra.Some? ==> d.extra == e.extra
  {
    EntryDict(
      Some(e.id), Some(e.kind), Some(e.content), Some(e.timestamp), Some(e.pinned),
      Some(e.tags.GetOr([])), Some(e.extra.GetOr(map[])))
  }

  /** Python's `x or default` for a list or a map: an empty value is falsy. */
  function OrEmptyList(x: Option<seq<string>>): seq<string> {
    if x.Some? && x.value != [] then x.value else []
  }

  function OrEmptyMap(x: Option<map<string, string>>): map<string, string> {
    if x.Some? && x.value != map[] then x.value else map[]
  }

  /** `from_dict`: a missing key takes the dataclass default (id 0, type
      "text", empty content and timestamp, not pinned); missing, `null` or
      empty tags and extra become an empty list and an empty map, so the
      entry built never holds `None` in them. */
  function FromDict(d: EntryDict): (e: ClipEntry)
    ensures d.id.None? ==> e.id == 0
    ensures d.kind.None? ==> e.kind == "text"
    ensures d.content.None? ==> e.content == ""
    ensures d.timestamp.None? ==> e.timestamp == ""
    ensures d.pinned.None? ==> !e.pinned
    ensures d.id.Some? ==> e.id == d.id.value
    ensures d.kind.Some? ==> e.kind == d.kind.value
    ensures d.content.Some? ==> e.content == d.content.value
    ensures d.timestamp.Some? ==> e.timestamp == d.timestamp.value
    ensures d.pinned.Some? ==> e.pinned == d.pinned.value
    ensures e.tags.Some? && e.extra.Some?
    ensures d.tags.None? || d.tags == Some([]) ==> e.tags == Some([])
    ensures d.tags.Some? ==> e.tags == d.tags
    ensures d.extra.None? || d.extra == Some(map[]) ==> e.extra == Some(map[])
    ensures d.extra.Some? ==> e.extra == d.extra
  {
    ClipEntry(
      d.id.GetOr(0), d.kind.GetOr("text"), d.content.GetOr(""), d.timestamp.GetOr(""),
      d.pinned.GetOr(false), Some(OrEmptyList(d.tags)), Some(OrEmptyMap(d.extra)))
  }

  /** Writing an entry and reading it back gives the entry, once its tags and
      extra are not `None`. */
  lemma RoundTrip(e: ClipEntry)
    requires e.tags.Some? && e.extra.Some?
    ensures FromDict(ToDict(e)) == e
  {
  }

  /** For any entry, writing and reading back only replaces a `None` tag list
      or extra map by an empty one. */
  lemma RoundTripNormalises(e: ClipEntry)
    ensures FromDict(ToDict(e)) == e.(tags := Some(e.tags.GetOr([])), extra := Some(e.extra.GetOr(map[])))
  {
  }

  /** A dictionary that has every key, with tags and extra present, is read
      and written back unchanged. */
  lemma DictRoundTrip(d: EntryDict)
    requires d.id.Some? && d.kind.Some? && d.content.Some? && d.timestamp.Some? && d.pinned.Some?
    requires d.tags.Some? && d.extra.Some?
    ensures ToDict(FromDict(d)) == d
  {
  }
}
