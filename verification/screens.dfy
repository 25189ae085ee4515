/** The list logic of ui/screens/AlbumPickerScreen.kt and
    ui/screens/TagPickerScreen.kt: the text filter, the selection count, the
    picked/available split of the tags, and which rows are shown selected. */
module Screens {
  import opened Text
  import opened Lists
  import opened Models
  import opened AlbumPicker
  import opened TagPicker

  /** `if (filterText.isBlank()) items else items.filter { field(it).contains(filterText, ignoreCase = true) }`. */
  function FilterByText<T(==,!new)>(items: seq<T>, field: T -> string, filterText: string, fold: char -> char): (r: seq<T>)
    ensures IsBlank(filterText) ==> r == items
    ensures !IsBlank(filterText) ==>
              forall x :: x in r <==> x in items && ContainsIgnoreCase(field(x), filterText, fold)
    ensures !IsBlank(filterText) ==>
              forall x :: multiset(r)[x] == if ContainsIgnoreCase(field(x), filterText, fold) then multiset(items)[x] else 0
    ensures IsSubsequence(r, items)
  {
    if IsBlank(filterText) then
      IsSubsequenceOfSelf(items);
      items
    else
      var keep := (x: T) => ContainsIgnoreCase(field(x), filterText, fold);
      FilterIsSubsequence(items, keep);
      assert forall x :: keep(x) == ContainsIgnoreCase(field(x), filterText, fold);
      assert forall x :: multiset(Filter(items, keep))[x] == if keep(x) then multiset(items)[x] else 0 by {
        forall x ensures multiset(Filter(items, keep))[x] == if keep(x) then multiset(items)[x] else 0 {
          FilterCount(items, keep, x);
        }
      }
      Filter(items, keep)
  }

  lemma {:induction false} IsSubsequenceOfSelf<T>(s: seq<T>)
    ensures IsSubsequence(s, s)
    decreases |s|
  {
    if s != [] { IsSubsequenceOfSelf(s[1..]); }
  }

  function AlbumTitle(a: AlbumUi): string { a.title }
  function TagName(t: TagUi): string { t.name }

  /** An album row as the list shows it. */
  datatype AlbumRow = AlbumRow(album: AlbumUi, selected: bool)

  /** The rows of the album picker: the filtered albums in order, each marked
      selected exactly when its id is in the selection. */
  function AlbumRows(state: AlbumPickerUiState, filterText: string, fold: char -> char): (r: seq<AlbumRow>)
    ensures var shown := FilterByText(state.albums, AlbumTitle, filterText, fold);
      && |r| == |shown|
      && forall i :: 0 <= i < |r| ==> r[i].album == shown[i] && (r[i].selected <==> shown[i].id in state.config.selectedAlbumIds)
  {
    var shown := FilterByText(state.albums, AlbumTitle, filterText, fold);
    seq(|shown|, i requires 0 <= i < |shown| => AlbumRow(shown[i], shown[i].id in state.config.selectedAlbumIds))
  }

  const NoneSelectedLabel := "No albums selected (all albums will be used)"
  const ManySuffix := " albums selected"

  /** The count line, chosen from the size of the selection (not of the
      filtered list). */
  function SelectionLabel(selected: set<string>): (r: string)
    ensures |selected| == 0 ==> r == NoneSelectedLabel
    ensures |selected| == 1 ==> r == "1 album selected"
    ensures |selected| >= 2 ==> EndsWith(r, ManySuffix)
  {
    if |selected| == 0 then NoneSelectedLabel
    else if |selected| == 1 then "1 album selected"
    else NatToString(|selected|) + ManySuffix
  }

  /** For two or more albums the label starts with the decimal count, which
      reads back as the size of the selection. */
  lemma SelectionLabelCount(selected: set<string>)
    requires |selected| >= 2
    ensures var r := SelectionLabel(selected);
      var digits := r[..|r| - |ManySuffix|];
      && (forall i :: 0 <= i < |digits| ==> '0' <= digits[i] <= '9')
      && ParseDecimal(digits) == |selected|
  {
    var r := SelectionLabel(selected);
    assert r[..|r| - |ManySuffix|] == NatToString(|selected|);
    NatToStringRoundTrip(|selected|);
  }

  function NameKey(t: TagUi): Key { TextKey(t.name) }

  /** A tag row and whether it is drawn as selected. */
  datatype TagRow = TagRow(tag: TagUi, selected: bool)

  /** One section of the tag list: its header and its rows. */
  datatype TagSection = TagSection(header: string, rows: seq<TagRow>)

  function Tags(rows: seq<TagRow>): seq<TagUi> {
    if rows == [] then [] else [rows[0].tag] + Tags(rows[1..])
  }

  function Rows(tags: seq<TagUi>, selected: bool): (r: seq<TagRow>)
    ensures |r| == |tags| && Tags(r) == tags
    ensures forall i :: 0 <= i < |r| ==> r[i] == TagRow(tags[i], selected)
  {
    if tags == [] then [] else [TagRow(tags[0], selected)] + Rows(tags[1..], selected)
  }

  function SectionHeader(title: string, n: nat): string {
    title + " (" + NatToString(n) + ")"
  }

  /** The tag picker's split: the filtered tags whose id is selected and the
      others, each sorted by name. */
  function TagSplit(state: TagPickerUiState, filterText: string, fold: char -> char): (r: (seq<TagUi>, seq<TagUi>))
    ensures var shown := FilterByText(state.tags, TagName, filterText, fold);
      && multiset(r.0) + multiset(r.1) == multiset(shown)
      && (forall t :: t in r.0 ==> t.id in state.config.selectedTagIds)
      && (forall t :: t in r.1 ==> t.id !in state.config.selectedTagIds)
      && SortedBy(r.0, NameKey) && SortedBy(r.1, NameKey)
  {
    var shown := FilterByText(state.tags, TagName, filterText, fold);
    var isPicked := (t: TagUi) => t.id in state.config.selectedTagIds;
    var split := Partition(shown, isPicked);
    var picked := SortByKey(split.0, NameKey);
    var available := SortByKey(split.1, NameKey);
    SameElements(split.0, picked);
    SameElements(split.1, available);
    assert forall t :: isPicked(t) == (t.id in state.config.selectedTagIds);
    (picked, available)
  }

  lemma SameElements(a: seq<TagUi>, b: seq<TagUi>)
    requires multiset(a) == multiset(b)
    ensures forall t :: t in b <==> t in a
  {
    forall t ensures t in b <==> t in a {
      assert t in b <==> t in multiset(b);
      assert t in a <==> t in multiset(a);
    }
  }

  /** The two sections as drawn: "Picked" rows selected, "Available" rows not,
      each header showing the exact number of rows under it. */
  function TagSections(state: TagPickerUiState, filterText: string, fold: char -> char): (r: (TagSection, TagSection))
    ensures var split := TagSplit(state, filterText, fold);
      && Tags(r.0.rows) == split.0 && Tags(r.1.rows) == split.1
      && (forall i :: 0 <= i < |r.0.rows| ==> r.0.rows[i].selected)
      && (forall i :: 0 <= i < |r.1.rows| ==> !r.1.rows[i].selected)
      && r.0.header == SectionHeader("Picked", |split.0|)
      && r.1.header == SectionHeader("Available", |split.1|)
  {
    var split := TagSplit(state, filterText, fold);
    (TagSection(SectionHeader("Picked", |split.0|), Rows(split.0, true)),
     TagSection(SectionHeader("Available", |split.1|), Rows(split.1, false)))
  }

  /** No tag is in both sections, and a shown tag is picked exactly when its id
      is selected. */
  lemma TagSectionsSplit(state: TagPickerUiState, filterText: string, fold: char -> char, t: TagUi)
    ensures var r := TagSplit(state, filterText, fold);
      var shown := FilterByText(state.tags, TagName, filterText, fold);
      && !(t in r.0 && t in r.1)
      && (t in shown && t.id in state.config.selectedTagIds ==> t in r.0)
      && (t in shown && t.id !in state.config.selectedTagIds ==> t in r.1)
  {
    var r := TagSplit(state, filterText, fold);
    var shown := FilterByText(state.tags, TagName, filterText, fold);
    if t in shown {
      assert t in multiset(shown);
      assert t in multiset(r.0) || t in multiset(r.1);
    }
  }
}
