/** The toolbar's bookmarks: checking a list that comes in, and checking again what the check kept. */
module Bookmarks {
  import opened Wrappers
  import opened Trimming

  datatype Kind = BookmarkKind | FolderKind | OtherKind

  /** An entry as it comes in: any field may be missing or of another type. */
  datatype Raw = Raw(kind: Kind, id: Option<string>, name: Option<string>, official: bool, children: Option<seq<Raw>>)

  datatype Bookmark = Bookmark(id: string, name: string, official: bool)

  datatype Entry = Single(bookmark: Bookmark) | Folder(id: string, name: string, children: seq<Bookmark>)

  const MAX_ENTRIES := 64

  predicate IsForbidden(c: char) {
    c as int <= 0x1f || c as int == 0x7f || c == '<' || c == '>'
  }

  predicate AcceptableText(input: string, max: nat) {
    Trim(input) != "" && |input| <= max && forall i :: 0 <= i < |input| ==> !IsForbidden(input[i])
  }

  /** The trimmed text, if it is acceptable. */
  function Text(input: Option<string>, max: nat): Option<string> {
    if input.Some? && AcceptableText(input.value, max) then Some(Trim(input.value)) else None
  }

  predicate IsLowerOrDigit(c: char) { 'a' <= c <= 'z' || '0' <= c <= '9' }

  predicate IsResourceId(id: string) {
    id != "" && forall i :: 0 <= i < |id| ==> IsLowerOrDigit(id[i]) || id[i] == '-'
  }

  predicate IsFolderId(id: string) {
    && "group_" <= id && 12 <= |id| - 6 <= 64
    && forall i :: 6 <= i < |id| ==> IsLowerOrDigit(id[i]) || id[i] == '_' || id[i] == '-'
  }

  /** A bookmark by itself, before it is known whether its id was seen. */
  function Candidate(raw: Raw): Option<Bookmark> {
    var id, name := Text(raw.id, 40), Text(raw.name, 80);
    if id.Some? && name.Some? && IsResourceId(id.value) then Some(Bookmark(id.value, name.value, raw.official))
    else None
  }

  function FolderName(raw: Raw): Option<(string, string)> {
    var id, name := Text(raw.id, 70), Text(raw.name, 30);
    if id.Some? && name.Some? && IsFolderId(id.value) then Some((id.value, name.value)) else None
  }

  predicate IsFolder(raw: Raw) {
    raw.kind == FolderKind && raw.children.Some? && |raw.children.value| <= MAX_ENTRIES && FolderName(raw).Some?
  }

  // ---- What is kept -----------------------------------------------------------------------------------

  /** The bookmark, if its id was not seen. */
  function Fresh(raw: Raw, seen: set<string>): Option<Bookmark> {
    var c := Candidate(raw);
    if c.Some? && c.value.id !in seen then c else None
  }

  /** The bookmarks among the raw entries, each id but for its first appearance left out. */
  function Resources(raws: seq<Raw>, seen: set<string>): seq<Bookmark> {
    if raws == [] then []
    else
      var c := Fresh(raws[0], seen);
      if c.Some? then [c.value] + Resources(raws[1..], seen + {c.value.id})
      else Resources(raws[1..], seen)
  }

  function IdsOf(bookmarks: seq<Bookmark>): set<string> {
    set b | b in bookmarks :: b.id
  }

  /** The bookmarks of an entry, in order. */
  function BookmarksIn(e: Entry): seq<Bookmark> {
    if e.Single? then [e.bookmark] else e.children
  }

  /** What is kept of one entry. */
  function Kept(raw: Raw, seen: set<string>): Option<Entry> {
    if raw.kind == BookmarkKind then
      var c := Fresh(raw, seen);
      if c.Some? then Some(Single(c.value)) else None
    else if IsFolder(raw) then
      var children := Resources(raw.children.value, seen);
      if children == [] then None else Some(Folder(FolderName(raw).value.0, FolderName(raw).value.1, children))
    else None
  }

  function Entries(raws: seq<Raw>, seen: set<string>): seq<Entry> {
    if raws == [] then []
    else
      var kept := Kept(raws[0], seen);
      if kept.Some? then [kept.value] + Entries(raws[1..], seen + IdsOf(BookmarksIn(kept.value)))
      else Entries(raws[1..], seen)
  }

  function Normalized(value: Option<seq<Raw>>): seq<Entry> {
    if value.None? || |value.value| > MAX_ENTRIES then [] else Entries(value.value, {})
  }

  /** The growing set of ids and the growing list of what is kept. */
  class Normalizer {
    var ids: set<string>

    constructor ()
      ensures ids == {}
    {
      ids := {};
    }

    method Resource(raw: Raw) returns (kept: Option<Bookmark>)
      modifies this
      ensures kept == Fresh(raw, old(ids))
      ensures ids == old(ids) + if kept.Some? then {kept.value.id} else {}
    {
      var id, name := Text(raw.id, 40), Text(raw.name, 80);
      if id.None? || !IsResourceId(id.value) || name.None? || id.value in ids { return None; }
      ids := ids + {id.value};
      kept := Some(Bookmark(id.value, name.value, raw.official));
    }

    method Children(raws: seq<Raw>) returns (kept: seq<Bookmark>)
      modifies this
      ensures kept == Resources(raws, old(ids))
      ensures ids == old(ids) + IdsOf(kept)
    {
      kept := [];
      for i := 0 to |raws|
        invariant kept == Resources(raws[..i], old(ids))
        invariant ids == old(ids) + IdsOf(kept)
      {
        ResourcesConcat(raws[..i], [raws[i]], old(ids));
        assert raws[..i] + [raws[i]] == raws[..i + 1];
        IdsConcat(kept, Resources([raws[i]], ids));
        OneResource(raws[i], ids);
        var item := Resource(raws[i]);
        if item.Some? { kept := kept + [item.value]; }
      }
      assert raws[..|raws|] == raws;
    }

    method Normalize(value: Option<seq<Raw>>) returns (result: seq<Entry>)
      requires ids == {}
      modifies this
      ensures result == Normalized(value)
    {
      hide Candidate, FolderName, Entries;
      NoEntries(ids);
      if value.None? || |value.value| > MAX_ENTRIES { return []; }
      var raws := value.value;
      result := [];
      assert raws[..0] == [] && raws[..|raws|] == raws;
      for i := 0 to |raws|
        invariant result == Entries(raws[..i], {})
        invariant ids == IdsOf(Flatten(result))
      {
        var raw := raws[i];
        OneMoreEntry(raws[..i], raw);
        assert raws[..i + 1] == raws[..i] + [raw];
        if raw.kind == BookmarkKind {
          var item := Resource(raw);
          if item.Some? { result := result + [Single(item.value)]; }
        } else if raw.kind == FolderKind && raw.children.Some? && |raw.children.value| <= MAX_ENTRIES {
          var name := FolderName(raw);
          if name.None? { continue; }
          var children := Children(raw.children.value);
          if children != [] { result := result + [Folder(name.value.0, name.value.1, children)]; }
        }
      }
    }
  }

  lemma NoEntries(seen: set<string>)
    ensures Entries([], seen) == [] && Flatten([]) == []
  {
  }

  /** The next entry is checked against the ids of all that was kept before it. */
  lemma OneMoreEntry(raws: seq<Raw>, raw: Raw)
    ensures var before := Entries(raws, {});
      var kept := Kept(raw, IdsOf(Flatten(before)));
      && Entries(raws + [raw], {}) == (if kept.Some? then before + [kept.value] else before)
      && (kept.Some? ==>
            IdsOf(Flatten(before + [kept.value])) == IdsOf(Flatten(before)) + IdsOf(BookmarksIn(kept.value)))
  {
    hide Kept;
    var before := Entries(raws, {});
    var seen := IdsOf(Flatten(before));
    var kept := Kept(raw, seen);
    EntriesConcat(raws, [raw], {});
    assert {} + seen == seen;
    assert [raw][1..] == [];
    if kept.Some? {
      FlattenConcat(before, [kept.value]);
      FlattenCons(kept.value, []);
      IdsConcat(Flatten(before), BookmarksIn(kept.value));
    }
  }

  lemma {:induction false} FlattenConcat(a: seq<Entry>, b: seq<Entry>)
    ensures Flatten(a + b) == Flatten(a) + Flatten(b)
    decreases |a|
  {
    if a == [] {
      assert a + b == b;
    } else {
      assert (a + b)[1..] == a[1..] + b;
      FlattenConcat(a[1..], b);
    }
  }

  lemma {:induction false} EntriesConcat(a: seq<Raw>, b: seq<Raw>, seen: set<string>)
    ensures Entries(a + b, seen) == Entries(a, seen) + Entries(b, seen + IdsOf(Flatten(Entries(a, seen))))
    decreases |a|
  {
    hide Kept, IdsOf, BookmarksIn, Flatten;
    if a == [] {
      NoEntries(seen);
      assert a + b == b && seen + IdsOf([]) == seen by { NoIds(seen); }
    } else {
      assert (a + b)[1..] == a[1..] + b && (a + b)[0] == a[0];
      var kept := Kept(a[0], seen);
      if kept.Some? {
        var own := BookmarksIn(kept.value);
        var rest := Entries(a[1..], seen + IdsOf(own));
        EntriesConcat(a[1..], b, seen + IdsOf(own));
        FlattenCons(kept.value, rest);
        IdsConcat(own, Flatten(rest));
        assert seen + IdsOf(own) + IdsOf(Flatten(rest)) == seen + IdsOf(own + Flatten(rest));
      } else {
        EntriesConcat(a[1..], b, seen);
      }
    }
  }

  lemma OneResource(raw: Raw, seen: set<string>)
    ensures Resources([raw], seen) == if Fresh(raw, seen).Some? then [Fresh(raw, seen).value] else []
  {
    hide Candidate;
    assert [raw][1..] == [];
  }

  lemma IdsConcat(a: seq<Bookmark>, b: seq<Bookmark>)
    ensures IdsOf(a + b) == IdsOf(a) + IdsOf(b)
  {
    assert forall x :: x in a + b <==> x in a || x in b;
  }

  lemma {:induction false} ResourcesConcat(a: seq<Raw>, b: seq<Raw>, seen: set<string>)
    ensures Resources(a + b, seen) == Resources(a, seen) + Resources(b, seen + IdsOf(Resources(a, seen)))
    decreases |a|
  {
    if a == [] {
      assert a + b == b && seen + IdsOf([]) == seen;
    } else {
      assert (a + b)[1..] == a[1..] + b;
      hide Candidate;
      var c := Fresh(a[0], seen);
      var next := if c.Some? then seen + {c.value.id} else seen;
      ResourcesConcat(a[1..], b, next);
      if c.Some? {
        IdsConcat([c.value], Resources(a[1..], next));
        assert seen + IdsOf(Resources(a, seen)) == next + IdsOf(Resources(a[1..], next));
      }
    }
  }

  // ---- Unique ids ---------------------------------------------------------------------------------------

  /** All bookmarks of the bar and its folders, in order. */
  function Flatten(entries: seq<Entry>): seq<Bookmark> {
    if entries == [] then [] else BookmarksIn(entries[0]) + Flatten(entries[1..])
  }

  predicate IdsUnique(bookmarks: seq<Bookmark>) {
    forall i, j :: 0 <= i < j < |bookmarks| ==> bookmarks[i].id != bookmarks[j].id
  }

  /** What the entries offer, before ids are compared. */
  function Offered(raws: seq<Raw>): seq<Raw> {
    if raws == [] then []
    else if raws[0].kind == BookmarkKind then [raws[0]] + Offered(raws[1..])
    else if IsFolder(raws[0]) then raws[0].children.value + Offered(raws[1..])
    else Offered(raws[1..])
  }

  /** The bar and its folders hold the first appearance of every id that is offered, in order. */
  lemma {:induction false} FirstAppearances(raws: seq<Raw>, seen: set<string>)
    ensures Flatten(Entries(raws, seen)) == Resources(Offered(raws), seen)
    decreases |raws|
  {
    if raws != [] {
      hide Kept, Resources, BookmarksIn, IdsOf;
      var raw, rest := raws[0], raws[1..];
      OneOffer(raw, seen);
      OfferedInTurn(raws);
      var kept := Kept(raw, seen);
      if kept.Some? {
        var own := BookmarksIn(kept.value);
        FirstAppearances(rest, seen + IdsOf(own));
        FlattenCons(kept.value, Entries(rest, seen + IdsOf(own)));
      } else {
        NoIds(seen);
        FirstAppearances(rest, seen);
      }
      ResourcesConcat(Offered([raw]), Offered(rest), seen);
    }
  }

  lemma NoIds(seen: set<string>)
    ensures seen + IdsOf([]) == seen
  {
  }

  lemma OfferedInTurn(raws: seq<Raw>)
    requires raws != []
    ensures Offered(raws) == Offered([raws[0]]) + Offered(raws[1..])
  {
    hide FolderName;
    var one, rest := [raws[0]], Offered(raws[1..]);
    assert one[1..] == [] && Offered([]) == [];
    if raws[0].kind == BookmarkKind {
      assert Offered(one) == one;
    } else if IsFolder(raws[0]) {
      assert Offered(one) == raws[0].children.value;
    } else {
      assert [] + rest == rest;
    }
  }

  lemma OneOffer(raw: Raw, seen: set<string>)
    ensures Resources(Offered([raw]), seen) == if Kept(raw, seen).Some? then BookmarksIn(Kept(raw, seen).value) else []
  {
    assert [raw][1..] == [];
    if raw.kind == BookmarkKind {
      assert Offered([raw]) == [raw];
      OneResource(raw, seen);
    } else if IsFolder(raw) {
      assert Offered([raw]) == raw.children.value;
    }
  }

  lemma FlattenCons(e: Entry, entries: seq<Entry>)
    ensures Flatten([e] + entries) == BookmarksIn(e) + Flatten(entries)
  {
    assert ([e] + entries)[1..] == entries;
  }

  /** Of the offered entries exactly the valid ones with an unseen id are kept, one for each id. */
  lemma {:induction false} ResourcesAreFirst(raws: seq<Raw>, seen: set<string>)
    ensures IdsUnique(Resources(raws, seen))
    ensures IdsOf(Resources(raws, seen)) !! seen
    ensures forall raw :: raw in raws && Candidate(raw).Some? && Candidate(raw).value.id !in seen ==>
      Candidate(raw).value.id in IdsOf(Resources(raws, seen))
    ensures |Resources(raws, seen)| <= |raws|
    ensures forall b :: b in Resources(raws, seen) ==> exists raw :: raw in raws && Candidate(raw) == Some(b)
    decreases |raws|
  {
    if raws != [] {
      hide Candidate;
      var c := Fresh(raws[0], seen);
      var rest := raws[1..];
      if c.Some? {
        var later := Resources(rest, seen + {c.value.id});
        ResourcesAreFirst(rest, seen + {c.value.id});
        assert forall k :: 0 <= k < |later| ==> later[k].id in IdsOf(later);
        IdsConcat([c.value], later);
      } else {
        ResourcesAreFirst(rest, seen);
      }
    }
  }

  // ---- Checking again -----------------------------------------------------------------------------------

  function AsRaw(b: Bookmark): Raw {
    Raw(BookmarkKind, Some(b.id), Some(b.name), b.official, None)
  }

  function AsRaws(bookmarks: seq<Bookmark>): (r: seq<Raw>)
    ensures |r| == |bookmarks|
    ensures forall i :: 0 <= i < |r| ==> r[i] == AsRaw(bookmarks[i])
  {
    seq(|bookmarks|, i requires 0 <= i < |bookmarks| => AsRaw(bookmarks[i]))
  }

  /** An entry handed in again. */
  function EntryAsRaw(e: Entry): Raw {
    if e.Single? then AsRaw(e.bookmark)
    else Raw(FolderKind, Some(e.id), Some(e.name), false, Some(AsRaws(e.children)))
  }

  function EntriesAsRaw(entries: seq<Entry>): (r: seq<Raw>)
    ensures |r| == |entries|
  {
    if entries == [] then [] else [EntryAsRaw(entries[0])] + EntriesAsRaw(entries[1..])
  }

  /** Text that passed once passes again unchanged. */
  lemma TextIsStable(input: Option<string>, max: nat)
    requires Text(input, max).Some?
    ensures Text(Text(input, max), max) == Text(input, max)
  {
    var s := Trim(input.value);
    TrimTrims(input.value);
    TrimmedStays(s);
    forall i | 0 <= i < |s| ensures !IsForbidden(s[i]) { assert s[i] in input.value; }
  }

  predicate Stable(b: Bookmark) {
    Candidate(AsRaw(b)) == Some(b)
  }

  lemma CandidatesAreStable(raw: Raw)
    ensures Candidate(raw).Some? ==> Stable(Candidate(raw).value)
  {
    hide AcceptableText, IsResourceId;
    if Candidate(raw).Some? {
      TextIsStable(raw.id, 40);
      TextIsStable(raw.name, 80);
    }
  }

  /** What the check can have kept: stable bookmarks, and named folders that are neither empty nor too large. */
  predicate WellKept(e: Entry) {
    && (forall b :: b in BookmarksIn(e) ==> Stable(b))
    && (e.Folder? ==> 1 <= |e.children| <= MAX_ENTRIES && FolderName(EntryAsRaw(e)) == Some((e.id, e.name)))
  }

  lemma FolderNamesAreStable(raw: Raw, children: seq<Bookmark>)
    requires FolderName(raw).Some?
    ensures var name := FolderName(raw).value;
      FolderName(EntryAsRaw(Folder(name.0, name.1, children))) == Some(name)
  {
    hide AcceptableText, IsFolderId;
    TextIsStable(raw.id, 70);
    TextIsStable(raw.name, 30);
  }

  lemma KeptAreStable(raws: seq<Raw>, seen: set<string>)
    ensures forall b :: b in Resources(raws, seen) ==> Stable(b)
  {
    hide Candidate, Stable;
    ResourcesAreFirst(raws, seen);
    forall b | b in Resources(raws, seen) ensures Stable(b) {
      var raw :| raw in raws && Candidate(raw) == Some(b);
      CandidatesAreStable(raw);
    }
  }

  lemma {:induction false} EntriesAreWellKept(raws: seq<Raw>, seen: set<string>)
    ensures |Entries(raws, seen)| <= |raws|
    ensures forall e :: e in Entries(raws, seen) ==> WellKept(e)
    decreases |raws|
  {
    if raws != [] {
      hide Kept, WellKept;
      var kept := Kept(raws[0], seen);
      KeptIsWellKept(raws[0], seen);
      EntriesAreWellKept(raws[1..], if kept.Some? then seen + IdsOf(BookmarksIn(kept.value)) else seen);
    }
  }

  lemma KeptIsWellKept(raw: Raw, seen: set<string>)
    ensures Kept(raw, seen).Some? ==> WellKept(Kept(raw, seen).value)
  {
    hide Candidate, FolderName, Stable;
    if raw.kind == BookmarkKind {
      CandidatesAreStable(raw);
    } else if IsFolder(raw) {
      var children := Resources(raw.children.value, seen);
      KeptAreStable(raw.children.value, seen);
      ResourcesAreFirst(raw.children.value, seen);
      FolderNamesAreStable(raw, children);
    }
  }

  lemma {:induction false} StableAreKept(bookmarks: seq<Bookmark>, seen: set<string>)
    requires IdsUnique(bookmarks) && IdsOf(bookmarks) !! seen && forall b :: b in bookmarks ==> Stable(b)
    ensures Resources(AsRaws(bookmarks), seen) == bookmarks
    decreases |bookmarks|
  {
    if bookmarks != [] {
      hide Candidate;
      var b := bookmarks[0];
      assert b in bookmarks && b.id in IdsOf(bookmarks);
      assert AsRaws(bookmarks)[1..] == AsRaws(bookmarks[1..]);
      assert bookmarks == [b] + bookmarks[1..];
      IdsConcat([b], bookmarks[1..]);
      assert forall k :: 0 < k < |bookmarks| ==> bookmarks[k].id != b.id;
      StableAreKept(bookmarks[1..], seen + {b.id});
    }
  }

  lemma UniqueParts(a: seq<Bookmark>, b: seq<Bookmark>)
    requires IdsUnique(a + b)
    ensures IdsUnique(a) && IdsUnique(b) && IdsOf(a) !! IdsOf(b)
  {
    var all := a + b;
    forall i, j | 0 <= i < j < |a| ensures a[i].id != a[j].id { assert all[i].id != all[j].id; }
    forall i, j | 0 <= i < j < |b| ensures b[i].id != b[j].id { assert all[|a| + i].id != all[|a| + j].id; }
    forall i, j | 0 <= i < |a| && 0 <= j < |b| ensures a[i].id != b[j].id { assert all[i].id != all[|a| + j].id; }
  }

  /** One well-kept entry with unseen ids is kept as it is. */
  lemma EntryIsKept(e: Entry, raws: seq<Raw>, seen: set<string>)
    requires WellKept(e) && IdsUnique(BookmarksIn(e)) && IdsOf(BookmarksIn(e)) !! seen
    ensures Entries([EntryAsRaw(e)] + raws, seen) == [e] + Entries(raws, seen + IdsOf(BookmarksIn(e)))
  {
    hide Candidate, FolderName;
    var raw := EntryAsRaw(e);
    assert ([raw] + raws)[1..] == raws;
    if e.Single? {
      assert e.bookmark in BookmarksIn(e) && e.bookmark.id in IdsOf(BookmarksIn(e));
      assert IdsOf(BookmarksIn(e)) == {e.bookmark.id};
    } else {
      StableAreKept(e.children, seen);
    }
  }

  lemma {:induction false} WellKeptAreKept(entries: seq<Entry>, seen: set<string>)
    requires forall e :: e in entries ==> WellKept(e)
    requires IdsUnique(Flatten(entries)) && IdsOf(Flatten(entries)) !! seen
    ensures Entries(EntriesAsRaw(entries), seen) == entries
    decreases |entries|
  {
    hide WellKept, IdsUnique, IdsOf, Entries, BookmarksIn, EntryAsRaw, Kept, Candidate, FolderName;
    if entries == [] {
      NoEntries(seen);
    } else {
      var own, rest := BookmarksIn(entries[0]), entries[1..];
      assert Flatten(entries) == own + Flatten(rest) && [entries[0]] + rest == entries;
      UniqueParts(own, Flatten(rest));
      IdsConcat(own, Flatten(rest));
      EntryIsKept(entries[0], EntriesAsRaw(rest), seen);
      WellKeptAreKept(rest, seen + IdsOf(own));
    }
  }

  /** The bar holds at most 64 entries, no folder is empty or holds more than 64, and no id appears twice
      in the bar and all its folders. */
  lemma NormalizedIsSound(value: Option<seq<Raw>>)
    ensures |Normalized(value)| <= MAX_ENTRIES
    ensures forall e :: e in Normalized(value) && e.Folder? ==> 1 <= |e.children| <= MAX_ENTRIES
    ensures IdsUnique(Flatten(Normalized(value)))
  {
    if value.Some? && |value.value| <= MAX_ENTRIES {
      EntriesAreWellKept(value.value, {});
      FirstAppearances(value.value, {});
      ResourcesAreFirst(Offered(value.value), {});
    }
  }

  /** Rendering again what was rendered, as a change of language does, loses and changes nothing. */
  lemma NormalizedTwice(value: Option<seq<Raw>>)
    ensures Normalized(Some(EntriesAsRaw(Normalized(value)))) == Normalized(value)
  {
    hide WellKept;
    if value.Some? && |value.value| <= MAX_ENTRIES {
      EntriesAreWellKept(value.value, {});
      FirstAppearances(value.value, {});
      ResourcesAreFirst(Offered(value.value), {});
      WellKeptAreKept(Normalized(value), {});
    }
  }
}
