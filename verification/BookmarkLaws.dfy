/** What the toolbar keeps of the entries that come in, written out over their fields. */
module BookmarkLaws {
  import opened Wrappers
  import opened Trimming
  import opened Bookmarks

  predicate PlainText(s: string) {
    forall i :: 0 <= i < |s| ==> s[i] as int > 31 && s[i] as int != 127 && s[i] != '<' && s[i] != '>'
  }

  /** The field is a short plain text, and `inner` is what is left without the white space around it. */
  ghost predicate ReadsText(field: Option<string>, most: nat, inner: string) {
    field.Some? && |field.value| <= most && PlainText(field.value) && Surrounds(field.value, inner) && inner != ""
  }

  lemma TextIsRead(field: Option<string>, most: nat, inner: string)
    ensures Text(field, most) == Some(inner) <==> ReadsText(field, most, inner)
  {
    if field.Some? { TrimIs(field.value, inner); }
  }

  predicate IdChar(c: char) { 'a' <= c <= 'z' || '0' <= c <= '9' || c == '-' }

  /** The entry reads as the bookmark: trimmed id and name within their limits, and the flag as it is. */
  ghost predicate ReadsAs(raw: Raw, b: Bookmark) {
    && b.official == raw.official && ReadsText(raw.id, 40, b.id) && ReadsText(raw.name, 80, b.name)
    && forall i :: 0 <= i < |b.id| ==> IdChar(b.id[i])
  }

  lemma CandidateIs(raw: Raw, b: Bookmark)
    ensures Candidate(raw) == Some(b) <==> ReadsAs(raw, b)
  {
    hide Text, ReadsText;
    TextIsRead(raw.id, 40, b.id);
    TextIsRead(raw.name, 80, b.name);
    if Text(raw.id, 40).Some? { TextIsRead(raw.id, 40, Text(raw.id, 40).value); }
    if ReadsText(raw.id, 40, b.id) { assert b.id != "" by { ReadIsSomething(raw.id, 40, b.id); } }
  }

  lemma ReadIsSomething(field: Option<string>, most: nat, inner: string)
    requires ReadsText(field, most, inner)
    ensures inner != ""
  {
  }

  ghost predicate FolderIdText(id: string) {
    exists tail: string ::
      id == "group_" + tail && 12 <= |tail| <= 64 &&
      forall i :: 0 <= i < |tail| ==> IdChar(tail[i]) || tail[i] == '_'
  }

  lemma FolderIdIs(id: string)
    ensures IsFolderId(id) <==> FolderIdText(id)
  {
    if IsFolderId(id) {
      var tail := id[6..];
      assert id == "group_" + tail;
    }
    if FolderIdText(id) {
      var tail: string :|
        id == "group_" + tail && 12 <= |tail| <= 64 && forall i :: 0 <= i < |tail| ==>
          IdChar(tail[i]) || tail[i] == '_';
      forall i | 6 <= i < |id| ensures IsLowerOrDigit(id[i]) || id[i] == '_' || id[i] == '-' {
        assert id[i] == tail[i - 6];
      }
    }
  }

  /** The entry reads as a folder of this id and name. */
  ghost predicate ReadsAsFolder(raw: Raw, id: string, name: string) {
    && raw.kind == FolderKind && raw.children.Some? && |raw.children.value| < 65
    && ReadsText(raw.id, 70, id) && ReadsText(raw.name, 30, name) && FolderIdText(id)
  }

  lemma FolderIs(raw: Raw, id: string, name: string)
    ensures IsFolder(raw) && FolderName(raw) == Some((id, name)) <==> ReadsAsFolder(raw, id, name)
  {
    hide Text, ReadsText, IsFolderId, FolderIdText;
    TextIsRead(raw.id, 70, id);
    TextIsRead(raw.name, 30, name);
    FolderIdIs(id);
  }

  // ---- The bookmarks that are kept --------------------------------------------------------------------------

  /** The bookmark is read from one of the entries, and no earlier one reads as a bookmark of the same id. */
  ghost predicate FirstReading(raws: seq<Raw>, b: Bookmark) {
    exists i ::
      0 <= i < |raws| && ReadsAs(raws[i], b) &&
      forall j, c: Bookmark :: 0 <= j < i && ReadsAs(raws[j], c) ==> c.id != b.id
  }

  lemma {:induction false} ResourcesAreReadings(raws: seq<Raw>, seen: set<string>, b: Bookmark)
    ensures b in Resources(raws, seen) <==> b.id !in seen && FirstReading(raws, b)
    decreases |raws|
  {
    hide ReadsAs, Candidate;
    if raws != [] {
      var rest, first := raws[1..], Candidate(raws[0]);
      forall c: Bookmark ensures first == Some(c) <==> ReadsAs(raws[0], c) { CandidateIs(raws[0], c); }
      ResourcesAreReadings(rest, seen, b);
      if first.Some? { ResourcesAreReadings(rest, seen + {first.value.id}, b); }
      ReadingsBehind(raws, b);
    }
  }

  lemma ReadingsBehind(raws: seq<Raw>, b: Bookmark)
    requires raws != []
    ensures FirstReading(raws, b) <==>
      || ReadsAs(raws[0], b)
      || (FirstReading(raws[1..], b) && forall c: Bookmark :: ReadsAs(raws[0], c) ==> c.id != b.id)
  {
    hide ReadsAs;
    var rest := raws[1..];
    if ReadsAs(raws[0], b) {
      assert FirstReading(raws, b);
    } else if FirstReading(raws, b) {
      var i :| 0 <= i < |raws| && ReadsAs(raws[i], b) &&
               forall j, c: Bookmark :: 0 <= j < i && ReadsAs(raws[j], c) ==> c.id != b.id;
      assert rest[i - 1] == raws[i];
      forall j, c: Bookmark | 0 <= j < i - 1 && ReadsAs(rest[j], c)
        ensures c.id != b.id
      {
        assert rest[j] == raws[j + 1];
      }
    } else if FirstReading(rest, b) && forall c: Bookmark :: ReadsAs(raws[0], c) ==> c.id != b.id {
      var i :| 0 <= i < |rest| && ReadsAs(rest[i], b) &&
               forall j, c: Bookmark :: 0 <= j < i && ReadsAs(rest[j], c) ==> c.id != b.id;
      assert raws[i + 1] == rest[i];
      forall j, c: Bookmark | 0 <= j < i + 1 && ReadsAs(raws[j], c) ensures c.id != b.id {
        if j > 0 { assert raws[j] == rest[j - 1]; }
      }
    }
  }

  /** The bookmarks of the bar and of its folders are the first readings of what the entries offer. */
  lemma KeptAreFirstReadings(raws: seq<Raw>, b: Bookmark)
    ensures |raws| < 65 ==>
      (b in Flatten(Normalized(Some(raws))) <==> FirstReading(Offered(raws), b))
    ensures |raws| >= 65 ==> Normalized(Some(raws)) == []
  {
    hide FirstReading;
    FirstAppearances(raws, {});
    ResourcesAreReadings(Offered(raws), {}, b);
  }

  /** The entry reads as a folder and holds the other. */
  ghost predicate Offers(raw: Raw, child: Raw) {
    exists id, name :: ReadsAsFolder(raw, id, name) && child in raw.children.value
  }

  lemma OffersIs(raw: Raw, child: Raw)
    ensures Offers(raw, child) <==> IsFolder(raw) && child in raw.children.value
  {
    hide FolderName;
    if IsFolder(raw) {
      var (id, name) := FolderName(raw).value;
      FolderIs(raw, id, name);
    }
    if id, name :| ReadsAsFolder(raw, id, name) { FolderIs(raw, id, name); }
  }

  /** What the entries offer: the bookmarks among them, and what their folders hold. */
  lemma {:induction false} OfferedAre(raws: seq<Raw>, raw: Raw)
    ensures raw in Offered(raws) <==>
      (raw in raws && raw.kind == BookmarkKind) || exists i :: 0 <= i < |raws| && Offers(raws[i], raw)
    decreases |raws|
  {
    hide FolderName, Offers;
    if raws != [] {
      var rest := raws[1..];
      OfferedAre(rest, raw);
      OffersIs(raws[0], raw);
      if i :| 0 <= i < |rest| && Offers(rest[i], raw) { assert raws[i + 1] == rest[i]; }
      if i :| 0 <= i < |raws| && Offers(raws[i], raw) {
        if i > 0 { assert raws[i] == rest[i - 1]; }
      }
    }
  }

  // ---- Folders ------------------------------------------------------------------------------------------------

  /** The folder stands for one of the entries: it has its trimmed id and name, and its bookmarks are read from what
      that entry holds. */
  ghost predicate StandsFor(raw: Raw, folder: Entry) {
    && folder.Folder? && ReadsAsFolder(raw, folder.id, folder.name) && |folder.children| > 0
    && forall b :: b in folder.children ==> FirstReading(raw.children.value, b)
  }

  lemma KeptStandsFor(raw: Raw, seen: set<string>)
    ensures Kept(raw, seen).Some? && Kept(raw, seen).value.Folder? ==> StandsFor(raw, Kept(raw, seen).value)
    ensures Kept(raw, seen).Some? && Kept(raw, seen).value.Single? ==>
      raw.kind == BookmarkKind && ReadsAs(raw, Kept(raw, seen).value.bookmark)
  {
    hide FolderName, Candidate, ReadsAs, ReadsAsFolder, FirstReading, Resources;
    var kept := Kept(raw, seen);
    if kept.Some? && kept.value.Folder? {
      FolderIs(raw, kept.value.id, kept.value.name);
      forall b | b in kept.value.children ensures FirstReading(raw.children.value, b) {
        ResourcesAreReadings(raw.children.value, seen, b);
      }
    }
    if kept.Some? && kept.value.Single? { CandidateIs(raw, kept.value.bookmark); }
  }

  /** Every entry of the bar stands for one of the entries that came in. */
  lemma {:induction false} EntriesStandFor(raws: seq<Raw>, seen: set<string>, e: Entry)
    requires e in Entries(raws, seen)
    ensures exists raw ::
      raw in raws &&
      (if e.Folder? then StandsFor(raw, e) else raw.kind == BookmarkKind && ReadsAs(raw, e.bookmark))
    decreases |raws|
  {
    hide Kept, StandsFor, ReadsAs, IdsOf, BookmarksIn;
    var kept := Kept(raws[0], seen);
    KeptStandsFor(raws[0], seen);
    if kept != Some(e) {
      var next := if kept.Some? then seen + IdsOf(BookmarksIn(kept.value)) else seen;
      EntriesStandFor(raws[1..], next, e);
    }
  }
}
