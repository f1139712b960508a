/** Journal entries and the journal list. An entry is a Python dict from
    field names to text; a field that was never set is absent from the map.
    The session's journal is a Python list that `save_reflection` of
    ui/response_engine.py appends to in place, so it is an object here. */
module Journal {
  import opened Text

  type Entry = map<string, string>

  /** `e.get(key, default)`. */
  function Get(e: Entry, key: string, default: string): string {
    if key in e then e[key] else default
  }

  /** `e.get(key)` is truthy: the field is present and not empty. */
  predicate HasValue(e: Entry, key: string) {
    key in e && e[key] != ""
  }

  /** `[e.get(key, default) for e in entries]`. */
  function FieldOr(entries: seq<Entry>, key: string, default: string): seq<string> {
    if entries == [] then []
    else FieldOr(entries[..|entries| - 1], key, default) + [Get(entries[|entries| - 1], key, default)]
  }

  /** One value per entry, in order. */
  lemma {:induction false} FieldOrSpec(entries: seq<Entry>, key: string, default: string)
    ensures |FieldOr(entries, key, default)| == |entries|
    ensures forall i :: 0 <= i < |entries| ==> FieldOr(entries, key, default)[i] == Get(entries[i], key, default)
  {
    if entries != [] {
      FieldOrSpec(entries[..|entries| - 1], key, default);
    }
  }

  /** `[e.get(key) for e in entries if e.get(key)]`. */
  function Truthy(entries: seq<Entry>, key: string): (vs: seq<string>)
    ensures |vs| <= |entries|
    ensures forall v :: v in vs ==> v != ""
    ensures forall v :: v in vs <==> exists e :: e in entries && HasValue(e, key) && e[key] == v
  {
    if entries == [] then []
    else
      var init, last := entries[..|entries| - 1], entries[|entries| - 1];
      assert entries == init + [last];
      Truthy(init, key) + (if HasValue(last, key) then [last[key]] else [])
  }

  /** `[e[key] for e in entries if key in e]`. */
  function Present(entries: seq<Entry>, key: string): (vs: seq<string>)
    ensures |vs| <= |entries|
    ensures forall v :: v in vs <==> exists e :: e in entries && key in e && e[key] == v
  {
    if entries == [] then []
    else
      var init, last := entries[..|entries| - 1], entries[|entries| - 1];
      assert entries == init + [last];
      Present(init, key) + (if key in last then [last[key]] else [])
  }

  /** One entry more gives one field value more. */
  lemma FieldOrSnoc(entries: seq<Entry>, i: nat, key: string, default: string)
    requires i < |entries|
    ensures FieldOr(entries[..i + 1], key, default) == FieldOr(entries[..i], key, default) + [Get(entries[i], key, default)]
  {
    assert entries[..i + 1][..i] == entries[..i];
  }

  /** One entry more gives one truthy value more when it has one. */
  lemma TruthySnoc(entries: seq<Entry>, i: nat, key: string)
    requires i < |entries|
    ensures Truthy(entries[..i + 1], key) == Truthy(entries[..i], key) + (if HasValue(entries[i], key) then [entries[i][key]] else [])
  {
    assert entries[..i + 1][..i] == entries[..i];
  }

  /** One entry more gives one value more when it has the field. */
  lemma PresentSnoc(entries: seq<Entry>, i: nat, key: string)
    requires i < |entries|
    ensures Present(entries[..i + 1], key) == Present(entries[..i], key) + (if key in entries[i] then [entries[i][key]] else [])
  {
    assert entries[..i + 1][..i] == entries[..i];
  }

  /** The dict built by `save_reflection` of ui/response_engine.py. */
  function ChatEntry(text: string, tone: string, theme: string, mood: string, length: string,
                     source: string, reflectionType: string, timestamp: string): Entry
  {
    map["text" := text, "tone" := tone, "theme" := theme, "mood" := mood, "length" := length,
        "source" := source, "reflection_type" := reflectionType, "timestamp" := timestamp]
  }

  /** The dict built by `save_reflection` of the journal tabs: the text is
      stripped and there is no length field. */
  function TabEntry(tone: string, theme: string, text: string, mood: string, source: string,
                    reflectionType: string, timestamp: string): Entry
  {
    map["timestamp" := timestamp, "tone" := tone, "theme" := theme, "text" := Strip(text),
        "mood" := mood, "source" := source, "reflection_type" := reflectionType]
  }

  /** The session's journal list. */
  class JournalList {
    var entries: seq<Entry>

    constructor (initial: seq<Entry>)
      ensures entries == initial
    {
      entries := initial;
    }

    /** `list.append(e)`. */
    method Append(e: Entry)
      modifies this
      ensures entries == old(entries) + [e]
    {
      entries := entries + [e];
    }
  }
}
