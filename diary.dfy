/** The daily diary page: one editor for the selected day's entry (content and
    mood), the list of saved entries, and whether the selected day already has
    one. Days are matched by string prefix: an entry belongs to the day whose
    "yyyy-MM-dd" key its date string starts with. */
module Diary {
  import opened Wrappers
  import opened Text
  import Seqs

  datatype Entry = Entry(id: string, date: string, content: string, mood: string)

  /** `e.date.startsWith(dateKey)`. */
  predicate OnDay(e: Entry, dateKey: string) {
    dateKey <= e.date
  }

  /** `entries.findIndex(e => e.date.startsWith(dateKey))`, or the index of the
      entry `find` returns. */
  function FindDay(entries: seq<Entry>, dateKey: string): (r: Option<nat>)
    ensures r.Some? ==> r.value < |entries| && OnDay(entries[r.value], dateKey)
                        && forall j :: 0 <= j < r.value ==> !OnDay(entries[j], dateKey)
    ensures r.None? <==> forall j :: 0 <= j < |entries| ==> !OnDay(entries[j], dateKey)
  {
    Seqs.FindFirst(entries, (e: Entry) => OnDay(e, dateKey))
  }

  /** Where a save for `dateKey` writes: over the day's first entry, or just
      past the end. */
  function SaveIndex(entries: seq<Entry>, dateKey: string): (k: nat)
    ensures k <= |entries|
    ensures k < |entries| ==> OnDay(entries[k], dateKey)
    ensures forall j :: 0 <= j < k ==> !OnDay(entries[j], dateKey)
    ensures k < |entries| <==> exists j :: 0 <= j < |entries| && OnDay(entries[j], dateKey)
  {
    match FindDay(entries, dateKey)
    case Some(i) => i
    case None => |entries|
  }

  /** The entry list after saving `e` for `dateKey`: it replaces the first
      entry of that day, or is appended when the day has none. */
  function Upsert(entries: seq<Entry>, dateKey: string, e: Entry): (r: seq<Entry>)
    ensures FindDay(entries, dateKey).Some? ==> |r| == |entries|
    ensures FindDay(entries, dateKey).None? ==> |r| == |entries| + 1 && r[..|entries|] == entries
    ensures r[SaveIndex(entries, dateKey)] == e
    ensures forall j :: 0 <= j < |r| && j != SaveIndex(entries, dateKey) ==> r[j] == entries[j]
  {
    match FindDay(entries, dateKey)
    case Some(i) => entries[i := e]
    case None => entries + [e]
  }

  /** Looking the day up after a save finds the entry just written exactly
      when the written entry's date starts with the day's key. */
  lemma UpsertLookup(entries: seq<Entry>, dateKey: string, e: Entry)
    ensures FindDay(Upsert(entries, dateKey, e), dateKey) == Some(SaveIndex(entries, dateKey))
            <==> OnDay(e, dateKey)
  {
    var r := Upsert(entries, dateKey, e);
    var k := SaveIndex(entries, dateKey);
    var found := FindDay(r, dateKey);
    forall j | 0 <= j < k ensures !OnDay(r[j], dateKey) {
      assert r[j] == entries[j];
    }
    if OnDay(e, dateKey) {
      assert found.Some? && found.value <= k;
    }
  }

  /** As written, a save whose date string lies outside the day's key appends
      again on every repeat: saving twice for a day with no entry yields two
      new entries. */
  lemma RepeatSaveAppends(entries: seq<Entry>, dateKey: string, e1: Entry, e2: Entry)
    requires FindDay(entries, dateKey).None?
    requires !OnDay(e1, dateKey)
    ensures Upsert(Upsert(entries, dateKey, e1), dateKey, e2) == entries + [e1, e2]
  {
    var r := Upsert(entries, dateKey, e1);
    assert r == entries + [e1];
    forall j | 0 <= j < |r| ensures !OnDay(r[j], dateKey) {
      if j < |entries| {
        assert r[j] == entries[j];
      }
    }
  }

  /** `date` is `selectedDate.toISOString()`, a UTC time, while the key is
      the local calendar day. At local midnight of 15 March 2024 east of
      Greenwich the two disagree, and two saves give two entries for one day,
      neither of which the lookup finds. */
  lemma UtcDateDuplicates()
    ensures var key := "2024-03-15";
            var e := Entry("1", "2024-03-14T23:00:00.000Z", "Dear diary", "");
            Upsert(Upsert([], key, e), key, e) == [e, e]
            && FindDay([e, e], key).None?
  {
    var key := "2024-03-15";
    var e := Entry("1", "2024-03-14T23:00:00.000Z", "Dear diary", "");
    assert !OnDay(e, key) by {
      assert e.date[9] != key[9];
    }
    RepeatSaveAppends([], key, e, e);
  }

  /** An entry stamped with the local day key followed by the time of day:
      the date string the lookup can find. */
  function LocalEntry(id: string, dateKey: string, time: string, content: string, mood: string): (e: Entry)
    ensures OnDay(e, dateKey)
  {
    Entry(id, dateKey + time, content, mood)
  }

  /** With entries stamped by local day, a save is found by the next lookup,
      and saving the same day again overwrites in place instead of growing
      the list. */
  lemma LocalSaveRoundTrip(entries: seq<Entry>, dateKey: string, e1: Entry, e2: Entry)
    requires OnDay(e1, dateKey)
    ensures FindDay(Upsert(entries, dateKey, e1), dateKey) == Some(SaveIndex(entries, dateKey))
    ensures |Upsert(Upsert(entries, dateKey, e1), dateKey, e2)| == |Upsert(entries, dateKey, e1)|
  {
    UpsertLookup(entries, dateKey, e1);
  }

  /** The first twenty characters of an entry, with "..." when it is longer
      (`content.substring(0, 20)` followed by the ellipsis). */
  function Preview(content: string): (r: string)
    ensures |content| <= 20 ==> r == content
    ensures |content| > 20 ==> |r| == 23 && r[..20] == content[..20] && r[20..] == "..."
  {
    if |content| <= 20 then content else content[..20] + "..."
  }

  /** The mood shown in the list: the entry's mood, or a memo emoji when none
      was picked (`entry.mood || "📝"`). */
  function ShownMood(mood: string): (r: string)
    ensures r != ""
    ensures mood != "" ==> r == mood
    ensures mood == "" ==> r == "\U{1F4DD}"
  {
    if mood == "" then "\U{1F4DD}" else mood
  }

  class DiaryPage {
    var entries: seq<Entry>
    var content: string
    var mood: string
    var hasEntry: bool

    /** Mount with the entries read back from storage. */
    constructor (saved: seq<Entry>)
      ensures entries == saved && content == "" && mood == "" && !hasEntry
    {
      entries := saved;
      content := "";
      mood := "";
      hasEntry := false;
    }

    /** Typing in the editor. */
    method SetContent(text: string)
      modifies this
      ensures content == text
      ensures entries == old(entries) && mood == old(mood) && hasEntry == old(hasEntry)
    {
      content := text;
    }

    /** Picking a mood. */
    method SetMood(m: string)
      modifies this
      ensures mood == m
      ensures entries == old(entries) && content == old(content) && hasEntry == old(hasEntry)
    {
      mood := m;
    }

    /** The effect that runs whenever the selected day or the entries change:
        load the day's first entry into the editor, or empty it. */
    method LoadDay(dateKey: string)
      modifies this
      ensures entries == old(entries)
      ensures hasEntry <==> FindDay(entries, dateKey).Some?
      ensures hasEntry ==> content == entries[FindDay(entries, dateKey).value].content
                           && mood == entries[FindDay(entries, dateKey).value].mood
      ensures !hasEntry ==> content == "" && mood == ""
    {
      match FindDay(entries, dateKey)
      case Some(i) =>
        content := entries[i].content;
        mood := entries[i].mood;
        hasEntry := true;
      case None =>
        content := "";
        mood := "";
        hasEntry := false;
    }

    /** `handleSaveEntry`: refuse a blank editor; otherwise write an entry
        with the editor's content and mood over the day's first entry or at
        the end, and mark the day as having one. `id` and `isoDate` stand for
        the clock readings the source takes. */
    method SaveEntry(dateKey: string, id: string, isoDate: string) returns (saved: bool)
      modifies this
      ensures saved <==> !IsBlank(old(content))
      ensures !saved ==> entries == old(entries) && hasEntry == old(hasEntry)
      ensures saved ==> entries == Upsert(old(entries), dateKey, Entry(id, isoDate, old(content), old(mood)))
                        && hasEntry
      ensures content == old(content) && mood == old(mood)
    {
      TrimEmptyIffBlank(content);
      if Trim(content) == "" {
        return false;
      }
      var existing := FindDay(entries, dateKey);
      var newEntry := Entry(id, isoDate, content, mood);
      ghost var target := Upsert(entries, dateKey, newEntry);
      if existing.Some? {
        var updated := entries;
        updated := updated[existing.value := newEntry];
        entries := updated;
      } else {
        entries := entries + [newEntry];
      }
      assert entries == target;
      hasEntry := true;
      saved := true;
    }
  }
}
