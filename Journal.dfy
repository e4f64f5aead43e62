/** The journal screen: entries with a title, content, mood and tags; a form
    whose tags field is a comma-separated string; saving a new entry or the
    one being edited; deleting; and case-insensitive search. New identifiers
    and dates come from the clock and are parameters. */
module Journal {
  import opened Common

  datatype Mood = Happy | Sad | Anxious | Calm | Angry | Neutral

  datatype Entry = Entry(id: string, title: string, content: string, mood: Mood, date: int,
                         tags: seq<string>)

  /** The writing form; `tags` is the raw comma-separated text. */
  datatype Form = Form(title: string, content: string, mood: Mood, tags: string)

  const EmptyForm := Form("", "", Neutral, "")

  // ------------------------------------------------------------- tags

  /** The tags a stored entry can carry: non-empty, trimmed, comma-free. */
  predicate CleanTags(tags: seq<string>) {
    forall t :: t in tags ==> t != [] && IsTrimmed(t) && ',' !in t
  }

  /** `.map(tag => tag.trim())`. */
  function TrimAll(parts: seq<string>): (r: seq<string>)
    ensures |r| == |parts|
    ensures forall t :: t in r ==> IsTrimmed(t)
  {
    if parts == [] then [] else [Trim(parts[0])] + TrimAll(parts[1..])
  }

  predicate NonEmpty(t: string) {
    t != []
  }

  /** `tags.split(',').map(tag => tag.trim()).filter(tag => tag)`. */
  function ParseTags(s: string): (tags: seq<string>)
    ensures CleanTags(tags)
  {
    var pieces := Split(s, ',');
    var trimmed := TrimAll(pieces);
    TrimAllKeepsSeparatorOut(pieces, ',');
    Filter(trimmed, NonEmpty)
  }

  lemma {:induction false} TrimAllKeepsSeparatorOut(parts: seq<string>, sep: char)
    requires forall p :: p in parts ==> sep !in p
    ensures forall t :: t in TrimAll(parts) ==> sep !in t
  {
    if parts != [] {
      assert parts[0] in parts;
      TrimAllKeepsSeparatorOut(parts[1..], sep);
    }
  }

  /** Leading whitespace never matters to the parse. */
  lemma ParseIgnoresLeadingSpace(s: string)
    ensures ParseTags([' '] + s) == ParseTags(s)
  {
    var parts := Split(s, ',');
    assert ([' '] + s)[1..] == s;
    var spaced := Split([' '] + s, ',');
    assert spaced == [[' '] + parts[0]] + parts[1..];
    assert ([' '] + parts[0])[1..] == parts[0];
    assert Trim([' '] + parts[0]) == Trim(parts[0]);
    assert TrimAll(spaced) == TrimAll(parts) by {
      assert spaced[1..] == parts[1..];
    }
  }

  /** The text `startEdit` puts in the form parses back to the entry's tags. */
  lemma {:induction false} TagsRoundTrip(tags: seq<string>)
    requires CleanTags(tags)
    ensures ParseTags(Join(tags, ", ")) == tags
  {
    if tags == [] {
      ParseEmpty();
    } else if |tags| == 1 {
      assert tags[0] in tags;
      ParseSingleTag(tags[0]);
    } else {
      ParseJoinCons(tags);
      TagsRoundTrip(tags[1..]);
      assert [tags[0]] + tags[1..] == tags;
    }
  }

  /** One step of the round trip: the first tag comes back, then the rest. */
  lemma ParseJoinCons(tags: seq<string>)
    requires |tags| >= 2 && CleanTags(tags)
    ensures ParseTags(Join(tags, ", ")) == [tags[0]] + ParseTags(Join(tags[1..], ", "))
  {
    var rest := Join(tags[1..], ", ");
    JoinCons(tags);
    assert tags[0] in tags;
    ParseConsTag(tags[0], [' '] + rest);
    ParseIgnoresLeadingSpace(rest);
  }

  lemma JoinCons(tags: seq<string>)
    requires |tags| >= 2
    ensures Join(tags, ", ") == tags[0] + [','] + ([' '] + Join(tags[1..], ", "))
  {
    var rest := Join(tags[1..], ", ");
    assert Join(tags, ", ") == tags[0] + ", " + rest;
    CommaSpace(tags[0], rest);
  }

  lemma CommaSpace(a: string, b: string)
    ensures a + ", " + b == a + [','] + ([' '] + b)
  {
    assert ", " == [','] + [' '];
  }

  /** The empty form field parses to no tags. */
  lemma ParseEmpty()
    ensures ParseTags("") == []
  {
    assert Split("", ',') == [""];
    assert TrimAll([""]) == [""];
  }

  /** A single clean tag parses to itself. */
  lemma ParseSingleTag(t: string)
    requires t != [] && IsTrimmed(t) && ',' !in t
    ensures ParseTags(t) == [t]
  {
    SplitNoSeparator(t, ',');
    assert TrimAll([t]) == [t];
    assert Filter([t], NonEmpty) == [t] + Filter([], NonEmpty);
  }

  /** A clean tag followed by a comma parses to itself ahead of the rest. */
  lemma ParseConsTag(t: string, rest: string)
    requires t != [] && IsTrimmed(t) && ',' !in t
    ensures ParseTags(t + [','] + rest) == [t] + ParseTags(rest)
  {
    SplitAtSeparator(t, ',', rest);
    var tail := Split(rest, ',');
    assert TrimAll([t] + tail) == [t] + TrimAll(tail) by {
      assert ([t] + tail)[1..] == tail;
    }
    var trimmedTail := TrimAll(tail);
    assert Filter([t] + trimmedTail, NonEmpty) == [t] + Filter(trimmedTail, NonEmpty) by {
      assert ([t] + trimmedTail)[1..] == trimmedTail;
    }
  }

  // ------------------------------------------------------------- entries

  /** The `map` that swaps in the edited entry wherever its id occurs. */
  function ReplaceById(entries: seq<Entry>, entry: Entry): (r: seq<Entry>)
    ensures |r| == |entries|
    ensures forall i :: 0 <= i < |r| ==> r[i] == if entries[i].id == entry.id then entry else entries[i]
    ensures forall i :: 0 <= i < |r| ==> r[i].id == entries[i].id
  {
    if entries == [] then []
    else [if entries[0].id == entry.id then entry else entries[0]] + ReplaceById(entries[1..], entry)
  }

  /** Every entry's tags are clean. */
  predicate AllClean(entries: seq<Entry>) {
    forall i :: 0 <= i < |entries| ==> CleanTags(entries[i].tags)
  }

  /** Swapping in an entry with clean tags keeps every entry's tags clean. */
  lemma ReplaceKeepsClean(entries: seq<Entry>, entry: Entry)
    requires AllClean(entries) && CleanTags(entry.tags)
    ensures AllClean(ReplaceById(entries, entry))
  {
  }

  lemma PrependKeepsClean(entries: seq<Entry>, entry: Entry)
    requires AllClean(entries) && CleanTags(entry.tags)
    ensures AllClean([entry] + entries)
  {
    assert forall i :: 1 <= i < |entries| + 1 ==> ([entry] + entries)[i] == entries[i - 1];
  }

  /** No two entries share an id. */
  predicate UniqueIds(entries: seq<Entry>) {
    forall i, j :: 0 <= i < j < |entries| ==> entries[i].id != entries[j].id
  }

  /** `deleteEntry`. */
  function DeleteById(entries: seq<Entry>, id: string): (r: seq<Entry>)
    ensures forall e :: e in r <==> e in entries && e.id != id
    ensures IsSubsequence(r, entries)
  {
    Filter(entries, (e: Entry) => e.id != id)
  }

  /** The search predicate: the term occurs, ignoring case, in the title, the
      content or some tag. */
  predicate Matches(entry: Entry, term: string) {
    ContainsIgnoringCase(entry.title, term) || ContainsIgnoringCase(entry.content, term)
    || exists t :: t in entry.tags && ContainsIgnoringCase(t, term)
  }

  /** `filteredEntries`. */
  function Search(entries: seq<Entry>, term: string): (r: seq<Entry>)
    ensures forall e :: e in r <==> e in entries && Matches(e, term)
    ensures IsSubsequence(r, entries)
  {
    Filter(entries, (e: Entry) => Matches(e, term))
  }

  lemma EmptySearchKeepsAll(entries: seq<Entry>)
    ensures Search(entries, "") == entries
  {
    forall i | 0 <= i < |entries| ensures Matches(entries[i], "") {
      EmptyTermMatches(entries[i].title);
    }
    FilterKeepsAll(entries, (e: Entry) => Matches(e, ""));
  }

  /** The guard of `saveEntry`: neither the title nor the content is blank. */
  predicate CanSave(form: Form) {
    !IsBlank(form.title) && !IsBlank(form.content)
  }

  /** The entry `saveEntry` builds: an edit keeps the edited entry's id and date. */
  function EntryFrom(form: Form, editing: Option<Entry>, newId: string, now: int): (e: Entry)
    ensures CleanTags(e.tags) && e.tags == ParseTags(form.tags)
    ensures e.id == (if editing.Some? then editing.value.id else newId)
    ensures e.date == (if editing.Some? then editing.value.date else now)
    ensures e.title == form.title && e.content == form.content && e.mood == form.mood
  {
    Entry(if editing.Some? then editing.value.id else newId, form.title, form.content, form.mood,
          if editing.Some? then editing.value.date else now, ParseTags(form.tags))
  }

  /** Editing a stored entry and saving it unchanged rebuilds the same entry:
      same id, date, text, mood and tags. */
  lemma EditThenSaveIsIdentity(entry: Entry, newId: string, now: int)
    requires CleanTags(entry.tags)
    ensures EntryFrom(EditForm(entry), Some(entry), newId, now) == entry
  {
    TagsRoundTrip(entry.tags);
  }

  /** The form `startEdit` fills in: the tags joined with ", ". */
  function EditForm(entry: Entry): Form {
    Form(entry.title, entry.content, entry.mood, Join(entry.tags, ", "))
  }

  // ------------------------------------------------------------- the screen

  /** The screen's state hooks. */
  datatype Screen = Screen(entries: seq<Entry>, isWriting: bool, editing: Option<Entry>,
                           searchTerm: string, form: Form)

  const InitialScreen := Screen([], false, None, "", EmptyForm)

  /** Every stored entry's tags came through the parser. */
  predicate ScreenInv(s: Screen) {
    AllClean(s.entries)
  }

  /** `saveEntry`: nothing on a blank title or content; otherwise the edited
      entry is replaced by id or the new one goes first, and the form closes
      and empties. */
  function Save(s: Screen, newId: string, now: int): (t: Screen)
    ensures t.searchTerm == s.searchTerm
    ensures !CanSave(s.form) ==> t == s
    ensures CanSave(s.form) ==>
      t.form == EmptyForm && !t.isWriting && t.editing == None
      && (s.editing.None? ==> t.entries == [EntryFrom(s.form, None, newId, now)] + s.entries
                              && t.entries[0].id == newId && t.entries[0].date == now)
      && (s.editing.Some? ==> t.entries == ReplaceById(s.entries, EntryFrom(s.form, s.editing, newId, now)))
  {
    if !CanSave(s.form) then s
    else
      var entry := EntryFrom(s.form, s.editing, newId, now);
      Screen(if s.editing.Some? then ReplaceById(s.entries, entry) else [entry] + s.entries,
             false, None, s.searchTerm, EmptyForm)
  }

  lemma SaveKeepsInv(s: Screen, newId: string, now: int)
    requires ScreenInv(s)
    ensures ScreenInv(Save(s, newId, now))
  {
    if CanSave(s.form) {
      var entry := EntryFrom(s.form, s.editing, newId, now);
      if s.editing.None? {
        PrependKeepsClean(s.entries, entry);
      } else {
        ReplaceKeepsClean(s.entries, entry);
      }
    }
  }

  /** Putting back an entry that is already stored, under unique ids, changes nothing. */
  lemma ReplaceWithStored(entries: seq<Entry>, k: nat)
    requires k < |entries| && UniqueIds(entries)
    ensures ReplaceById(entries, entries[k]) == entries
  {
  }

  /** Opening a stored entry for editing and saving without a change leaves
      the list as it was, when ids are unique. */
  lemma EditAndSaveKeepsEntries(s: Screen, k: nat, newId: string, now: int)
    requires k < |s.entries| && CleanTags(s.entries[k].tags) && UniqueIds(s.entries)
    requires CanSave(EditForm(s.entries[k]))
    ensures Save(StartEdit(s, s.entries[k]), newId, now).entries == s.entries
  {
    var e := s.entries[k];
    EditThenSaveIsIdentity(e, newId, now);
    ReplaceWithStored(s.entries, k);
  }

  /** `startEdit`: the form shows the entry, tags joined by ", ", and writing starts. */
  function StartEdit(s: Screen, entry: Entry): (t: Screen)
    ensures t.editing == Some(entry) && t.form == EditForm(entry) && t.isWriting
    ensures t.entries == s.entries && t.searchTerm == s.searchTerm
  {
    s.(editing := Some(entry), form := EditForm(entry), isWriting := true)
  }

  /** The Cancel button: writing stops and the form empties; entries are kept. */
  function Cancel(s: Screen): (t: Screen)
    ensures !t.isWriting && t.editing == None && t.form == EmptyForm
    ensures t.entries == s.entries && t.searchTerm == s.searchTerm
  {
    s.(isWriting := false, editing := None, form := EmptyForm)
  }

  /** `deleteEntry`. */
  function Delete(s: Screen, id: string): (t: Screen)
    ensures ScreenInv(s) ==> ScreenInv(t)
  {
    var r := DeleteById(s.entries, id);
    assert ScreenInv(s) ==> forall i :: 0 <= i < |r| ==> r[i] in s.entries;
    s.(entries := r)
  }

  /** The journal component: its state hooks as one value. */
  class JournalScreen {
    var screen: Screen

    ghost predicate Valid()
      reads this
    {
      ScreenInv(screen)
    }

    constructor ()
      ensures Valid() && screen == InitialScreen
    {
      screen := InitialScreen;
    }

    method SaveEntry(newId: string, now: int)
      requires Valid()
      modifies this
      ensures Valid() && screen == Save(old(screen), newId, now)
    {
      SaveKeepsInv(screen, newId, now);
      screen := Save(screen, newId, now);
    }

    method DeleteEntry(id: string)
      requires Valid()
      modifies this
      ensures Valid() && screen == Delete(old(screen), id)
    {
      screen := Delete(screen, id);
    }

    method BeginEdit(entry: Entry)
      requires Valid()
      modifies this
      ensures Valid() && screen == StartEdit(old(screen), entry)
    {
      screen := StartEdit(screen, entry);
    }

    method CancelWriting()
      requires Valid()
      modifies this
      ensures Valid() && screen == Cancel(old(screen))
    {
      screen := Cancel(screen);
    }

    /** The New Entry button. */
    method OpenWriting()
      requires Valid()
      modifies this
      ensures Valid() && screen == old(screen).(isWriting := true)
    {
      screen := screen.(isWriting := true);
    }

    /** Typing in the title, mood, tags or content field. */
    method TypeInForm(form: Form)
      requires Valid()
      modifies this
      ensures Valid() && screen == old(screen).(form := form)
    {
      screen := screen.(form := form);
    }

    /** Typing in the search box. */
    method SetSearchTerm(term: string)
      requires Valid()
      modifies this
      ensures Valid() && screen == old(screen).(searchTerm := term)
    {
      screen := screen.(searchTerm := term);
    }

    /** `filteredEntries`. */
    function FilteredEntries(): (r: seq<Entry>)
      reads this
      ensures forall e :: e in r <==> e in screen.entries && Matches(e, screen.searchTerm)
    {
      Search(screen.entries, screen.searchTerm)
    }
  }
}
