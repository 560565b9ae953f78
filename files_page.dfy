/**
 * The student's file browser (frontend/src/pages/Files.js): the four
 * collections the admins publish shown as one tagged list, narrowed by a
 * case-insensitive search over title, description and message and by a type
 * filter, with a download button for items that carry a file.
 */
module FilesPage {
  import opened Wrappers
  import opened Text
  import opened Lists

  /** The tag each collection's items carry. */
  datatype Kind = Note | Important | Timetable | McqTest

  function TagName(k: Kind): string {
    match k
    case Note => "note"
    case Important => "important"
    case Timetable => "timetable"
    case McqTest => "mcq"
  }

  /** The text and file fields of a published item; absent fields are `None`. */
  datatype Item = Item(id: string, title: Option<string>, description: Option<string>, message: Option<string>,
                       fileName: Option<string>, filePath: Option<string>, imagePath: Option<string>)

  datatype Tagged = Tagged(kind: Kind, item: Item)

  /** What the page fetched: `{ notes, importantNotes, timetables, mcqTests }`. */
  datatype Files = Files(notes: seq<Item>, importantNotes: seq<Item>, timetables: seq<Item>, mcqTests: seq<Item>)

  /** `items.map(f => ({ ...f, type }))` */
  function Tag(items: seq<Item>, k: Kind): (r: seq<Tagged>)
    ensures |r| == |items|
    ensures forall i :: 0 <= i < |items| ==> r[i] == Tagged(k, items[i])
  {
    seq(|items|, i requires 0 <= i < |items| => Tagged(k, items[i]))
  }

  /** The combined list: notes, then important notes, then timetables, then MCQ tests. */
  function Combined(files: Files): seq<Tagged> {
    Tag(files.notes, Note) + Tag(files.importantNotes, Important)
    + Tag(files.timetables, Timetable) + Tag(files.mcqTests, McqTest)
  }

  /** The combined list holds every fetched item once, in collection order, under its collection's tag. */
  lemma CombinedLayout(files: Files)
    ensures var c := Combined(files);
            var n1, n2, n3 := |files.notes|, |files.importantNotes|, |files.timetables|;
            && |c| == n1 + n2 + n3 + |files.mcqTests|
            && (forall i :: 0 <= i < n1 ==> c[i] == Tagged(Note, files.notes[i]))
            && (forall i :: 0 <= i < n2 ==> c[n1 + i] == Tagged(Important, files.importantNotes[i]))
            && (forall i :: 0 <= i < n3 ==> c[n1 + n2 + i] == Tagged(Timetable, files.timetables[i]))
            && (forall i :: 0 <= i < |files.mcqTests| ==> c[n1 + n2 + n3 + i] == Tagged(McqTest, files.mcqTests[i]))
  {
  }

  /** `field?.toLowerCase().includes(term.toLowerCase())`: an absent field never matches. */
  predicate FieldMatches(field: Option<string>, term: string) {
    field.Some? && Includes(Lower(field.value), Lower(term))
  }

  predicate MatchesSearch(item: Item, term: string) {
    FieldMatches(item.title, term) || FieldMatches(item.description, term) || FieldMatches(item.message, term)
  }

  predicate MatchesFilter(t: Tagged, filterType: string) {
    filterType == "all" || TagName(t.kind) == filterType
  }

  predicate Kept(t: Tagged, term: string, filterType: string) {
    MatchesSearch(t.item, term) && MatchesFilter(t, filterType)
  }

  /** `getFilteredFiles` */
  function FilteredFiles(files: Files, term: string, filterType: string): (r: seq<Tagged>)
    ensures |r| <= |Combined(files)|
    ensures forall i :: 0 <= i < |r| ==> Kept(r[i], term, filterType)
  {
    Filter(Combined(files), t => Kept(t, term, filterType))
  }

  /**
   * The shown files are the combined list in its own order with some items
   * left out, and an item is shown exactly when it is fetched, matches the
   * search and passes the type filter.
   */
  lemma FilteredSelection(files: Files, term: string, filterType: string, t: Tagged)
    ensures IsSubsequence(FilteredFiles(files, term, filterType), Combined(files))
    ensures t in FilteredFiles(files, term, filterType) <==> t in Combined(files) && Kept(t, term, filterType)
  {
    FilterIsSubsequence(Combined(files), t => Kept(t, term, filterType));
    FilterMembership(Combined(files), t' => Kept(t', term, filterType), t);
  }

  /** Every string contains the empty string. */
  lemma IncludesEmpty(s: string)
    ensures Includes(s, "")
  {
    assert OccursAt(s, "", 0);
  }

  /**
   * An item with no title, description or message is never shown, whatever
   * the search; with an empty search and the `all` filter every other item
   * is shown.
   */
  lemma TextlessNeverShown(files: Files, term: string, filterType: string, t: Tagged)
    ensures t.item.title.None? && t.item.description.None? && t.item.message.None? ==>
              t !in FilteredFiles(files, term, filterType)
    ensures t in Combined(files) && !(t.item.title.None? && t.item.description.None? && t.item.message.None?) ==>
              t in FilteredFiles(files, "", "all")
  {
    FilteredSelection(files, term, filterType, t);
    FilteredSelection(files, "", "all", t);
    if t.item.title.Some? { IncludesEmpty(Lower(t.item.title.value)); }
    if t.item.description.Some? { IncludesEmpty(Lower(t.item.description.value)); }
    if t.item.message.Some? { IncludesEmpty(Lower(t.item.message.value)); }
  }

  /** A type filter other than `all` shows only items of that type. */
  lemma TypeFilterShowsOneKind(files: Files, term: string, k: Kind, t: Tagged)
    requires t in FilteredFiles(files, term, TagName(k))
    ensures t.kind == k
  {
    FilteredSelection(files, term, TagName(k), t);
  }

  /** The searched term is matched case-insensitively. */
  lemma SearchIgnoresCase(item: Item, term: string)
    ensures MatchesSearch(item, term) <==> MatchesSearch(item, Lower(term))
  {
    LowerIdempotent(term);
  }

  /** `Object.values(files).flat().length`: the header's count. */
  function TotalCount(files: Files): (r: nat)
    ensures r == |Combined(files)|
  {
    |files.notes| + |files.importantNotes| + |files.timetables| + |files.mcqTests|
  }

  /** `fileName || filePath || imagePath`: some file field present and non-empty. */
  predicate ShowDownload(item: Item) {
    (item.fileName.Some? && item.fileName.value != "")
    || (item.filePath.Some? && item.filePath.value != "")
    || (item.imagePath.Some? && item.imagePath.value != "")
  }

  /** The route type the download button asks for: `note` and `important` as tagged, everything else `timetable`. */
  function DownloadType(k: Kind): (r: string)
    ensures r == "note" || r == "important" || r == "timetable"
    ensures k != McqTest ==> r == TagName(k)
    ensures k == McqTest ==> r == "timetable"
  {
    if k == Note then "note" else if k == Important then "important" else "timetable"
  }

  /** The suggested name of the download: `fileName || title`. */
  function DownloadName(item: Item): (r: Option<string>)
    ensures item.fileName.Some? && item.fileName.value != "" ==> r == item.fileName
    ensures !(item.fileName.Some? && item.fileName.value != "") ==> r == item.title
  {
    if item.fileName.Some? && item.fileName.value != "" then item.fileName else item.title
  }
}
