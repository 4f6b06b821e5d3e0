/**
 * The service-plan download screen (`PlanDownloadScreen`). A plan's venue lists sections of
 * actions, each with files; the plan's items form a tree of references into that venue. The
 * playlist is the venue's "play" and "add-on" files, in the order the plan items give when they
 * resolve to anything, else in venue order.
 *
 * The add-on request (`ApiHelper.getAnonymous("/addOns/public/<id>")`) is the function parameter
 * `fetch`, from id to reply.
 */
module PlanDownload {
  import opened Wrappers
  import opened Text
  import opened Storage
  import opened CachedData
  import opened DownloadProgress

  /** A venue file; a missing url is "" and missing seconds are 0. */
  datatype VenueFile = VenueFile(id: string, name: string, url: string, seconds: int, fileType: string)

  /** A venue action; a missing id or action type is "", missing files are []. */
  datatype VenueAction = VenueAction(id: string, actionType: string, files: seq<VenueFile>)

  /** A venue section; a missing id is "", missing actions are []. */
  datatype VenueSection = VenueSection(id: string, actions: seq<VenueAction>)

  /** `FeedVenueInterface`, as far as the playlist reads it. */
  datatype Venue = Venue(sections: seq<VenueSection>)

  /** A plan item; a missing `relatedId` is "", a missing `sort` is 0, missing children are []. */
  datatype PlanItem = PlanItem(relatedId: string, itemType: string, sort: int, children: seq<PlanItem>)

  /** One `{ id, itemType }` record of `collectRelatedIds`. */
  datatype RelatedRef = RelatedRef(id: string, itemType: string)

  datatype AddOnVideo = AddOnVideo(id: string, seconds: int)

  datatype AddOnFile = AddOnFile(id: string, contentPath: string, fileType: string)

  /** How the add-on request settles: no data, a record (`name` "" when missing), or a failure. */
  datatype AddOnReply = NoAddOn | AddOn(name: string, video: Option<AddOnVideo>, file: Option<AddOnFile>) | AddOnThrew

  const AddOnVideoPrefix: string := "https://api.lessons.church/externalVideos/download/"

  // ---- buildFileMaps ----

  /** The playlist entry of a venue file: url "" when missing, 10 seconds when missing or 0. */
  function Entry(file: VenueFile): (e: MediaFile)
    ensures e.id == file.id && e.name == file.name && e.url == file.url && e.fileType == file.fileType
    ensures e.seconds == (if file.seconds == 0 then 10 else file.seconds)
    ensures !e.loop && !e.loopVideo && e.image == None
  {
    MediaFile(file.id, file.name, file.url, file.fileType,
              if file.seconds == 0 then 10 else file.seconds, false, false, None)
  }

  /** The entries of a list of venue files, one per file, in order. */
  function Entries(files: seq<VenueFile>): (es: seq<MediaFile>)
    ensures |es| == |files|
    ensures forall i :: 0 <= i < |files| ==> es[i] == Entry(files[i])
  {
    if files == [] then [] else Entries(files[..|files| - 1]) + [Entry(files[|files| - 1])]
  }

  /** An action contributes files iff its lower-cased type is "play" or "add-on". */
  predicate Qualifies(action: VenueAction) {
    ToLower(action.actionType) == "play" || ToLower(action.actionType) == "add-on"
  }

  /** The files of the qualifying actions of a list, in order. */
  function PlayFiles(actions: seq<VenueAction>): seq<MediaFile> {
    if actions == [] then []
    else
      var last := actions[|actions| - 1];
      PlayFiles(actions[..|actions| - 1]) + (if Qualifies(last) then Entries(last.files) else [])
  }

  /** `sectionFiles`: the files of a section's qualifying actions. */
  function SectionFiles(section: VenueSection): seq<MediaFile> {
    PlayFiles(section.actions)
  }

  /**
   * The `actionMap` entries of one section's actions: every qualifying action with an id maps to
   * the entries of its files; a later action with the same id replaces an earlier one.
   */
  function ActionEntries(actions: seq<VenueAction>): map<string, seq<MediaFile>> {
    if actions == [] then map[]
    else
      var last := actions[|actions| - 1];
      var m := ActionEntries(actions[..|actions| - 1]);
      if Qualifies(last) && last.id != "" then m[last.id := Entries(last.files)] else m
  }

  /** `actionMap` over a list of sections, later sections replacing earlier ones. */
  function ActionMapOf(sections: seq<VenueSection>): map<string, seq<MediaFile>> {
    if sections == [] then map[]
    else ActionMapOf(sections[..|sections| - 1]) + ActionEntries(sections[|sections| - 1].actions)
  }

  /**
   * Every entry of a section's action entries belongs to a qualifying action with that id and
   * holds the entries of that action's files.
   */
  lemma {:induction false} ActionEntriesFrom(actions: seq<VenueAction>, id: string)
    requires id in ActionEntries(actions)
    ensures id != ""
    ensures exists j :: 0 <= j < |actions| && actions[j].id == id && Qualifies(actions[j])
                        && ActionEntries(actions)[id] == Entries(actions[j].files)
  {
    var n := |actions| - 1;
    var last := actions[n];
    if !(Qualifies(last) && last.id != "" && last.id == id) {
      ActionEntriesFrom(actions[..n], id);
      var j :| 0 <= j < n && actions[..n][j].id == id && Qualifies(actions[..n][j])
               && ActionEntries(actions[..n])[id] == Entries(actions[..n][j].files);
      assert actions[j] == actions[..n][j];
    }
  }

  /** A qualifying action with an id gets its entry unless a later action takes the id over. */
  lemma {:induction false} ActionEntriesLastWins(actions: seq<VenueAction>, j: nat)
    requires j < |actions| && Qualifies(actions[j]) && actions[j].id != ""
    requires forall k :: j < k < |actions| && Qualifies(actions[k]) ==> actions[k].id != actions[j].id
    ensures actions[j].id in ActionEntries(actions)
    ensures ActionEntries(actions)[actions[j].id] == Entries(actions[j].files)
  {
    var n := |actions| - 1;
    if j < n {
      ActionEntriesLastWins(actions[..n], j);
    }
  }

  /**
   * `actionMap` holds only ids of qualifying actions somewhere in the venue, each mapped to the
   * entries of one such action's files.
   */
  lemma {:induction false} ActionMapFrom(sections: seq<VenueSection>, id: string)
    requires id in ActionMapOf(sections)
    ensures id != ""
    ensures exists i, j :: (0 <= i < |sections| && 0 <= j < |sections[i].actions|
      && sections[i].actions[j].id == id && Qualifies(sections[i].actions[j])
      && ActionMapOf(sections)[id] == Entries(sections[i].actions[j].files))
  {
    var n := |sections| - 1;
    var actions := sections[n].actions;
    if id in ActionEntries(actions) {
      ActionEntriesFrom(actions, id);
    } else {
      ActionMapFrom(sections[..n], id);
      var i, j :| 0 <= i < n && 0 <= j < |sections[..n][i].actions|
        && sections[..n][i].actions[j].id == id && Qualifies(sections[..n][i].actions[j])
        && ActionMapOf(sections[..n])[id] == Entries(sections[..n][i].actions[j].files);
      assert sections[i] == sections[..n][i];
    }
  }

  /** `sectionMap` over a list of sections: every section with an id maps to its files. */
  function SectionMapOf(sections: seq<VenueSection>): (m: map<string, seq<MediaFile>>)
    ensures forall id :: id in m <==> id != "" && exists i :: 0 <= i < |sections| && sections[i].id == id
  {
    if sections == [] then map[]
    else
      var init := sections[..|sections| - 1];
      var last := sections[|sections| - 1];
      assert forall i :: 0 <= i < |init| ==> init[i] == sections[i];
      var m := SectionMapOf(init);
      if last.id != "" then m[last.id := SectionFiles(last)] else m
  }

  /** All qualifying files of the venue: the concatenation of every section's files. */
  function VenueFiles(sections: seq<VenueSection>): seq<MediaFile> {
    if sections == [] then []
    else VenueFiles(sections[..|sections| - 1]) + SectionFiles(sections[|sections| - 1])
  }

  /** A section's `sectionMap` entry is its own files when no later section has the same id. */
  lemma {:induction false} SectionMapLastWins(sections: seq<VenueSection>, i: nat)
    requires i < |sections| && sections[i].id != ""
    requires forall j :: i < j < |sections| ==> sections[j].id != sections[i].id
    ensures sections[i].id in SectionMapOf(sections)
    ensures SectionMapOf(sections)[sections[i].id] == SectionFiles(sections[i])
  {
    var init := sections[..|sections| - 1];
    if i < |sections| - 1 {
      SectionMapLastWins(init, i);
    }
  }

  /** An action contributes to its section's files exactly the entries of its files, if it qualifies. */
  lemma PlayFilesAppend(actions: seq<VenueAction>, action: VenueAction)
    ensures PlayFiles(actions + [action])
            == PlayFiles(actions) + (if Qualifies(action) then Entries(action.files) else [])
  {
    assert (actions + [action])[..|actions|] == actions;
  }

  /** Appending one more action's files to `result` plus the files so far. */
  lemma AppendPlayFiles(result: seq<MediaFile>, actions: seq<VenueAction>, action: VenueAction,
                        sofar: seq<MediaFile>)
    requires sofar == result + PlayFiles(actions)
    ensures result + PlayFiles(actions + [action])
            == if Qualifies(action) then sofar + Entries(action.files) else sofar
  {
    PlayFilesAppend(actions, action);
    if !Qualifies(action) {
      assert PlayFiles(actions) + [] == PlayFiles(actions);
    }
  }

  /** An action sets its own id's entry, if it qualifies and has an id. */
  lemma ActionEntriesAppend(actions: seq<VenueAction>, action: VenueAction)
    ensures ActionEntries(actions + [action])
            == if Qualifies(action) && action.id != "" then ActionEntries(actions)[action.id := Entries(action.files)]
               else ActionEntries(actions)
  {
    assert (actions + [action])[..|actions|] == actions;
  }

  lemma UnionThenUpdate<K, V>(m1: map<K, V>, m2: map<K, V>, k: K, v: V)
    ensures (m1 + m2)[k := v] == m1 + m2[k := v]
  {
  }

  /** `action.files?.forEach(file => files.push(fileEntry))`. */
  method EntriesOf(files: seq<VenueFile>) returns (entries: seq<MediaFile>)
    ensures entries == Entries(files)
  {
    entries := [];
    var k := 0;
    while k < |files|
      invariant 0 <= k <= |files|
      invariant entries == Entries(files[..k])
    {
      assert files[..k + 1][..k] == files[..k];
      entries := entries + [Entry(files[k])];
      k := k + 1;
    }
    assert files[..k] == files;
  }

  /**
   * The body of `buildFileMaps` for one section: each qualifying action's entries are set in
   * `actionMap` under its id and appended to the section's files.
   */
  method AddSection(section: VenueSection, actionMap: map<string, seq<MediaFile>>)
    returns (actionMap': map<string, seq<MediaFile>>, sectionFiles: seq<MediaFile>)
    ensures actionMap' == actionMap + ActionEntries(section.actions)
    ensures sectionFiles == SectionFiles(section)
  {
    actionMap' := actionMap;
    sectionFiles := [];
    var j := 0;
    while j < |section.actions|
      invariant 0 <= j <= |section.actions|
      invariant sectionFiles == PlayFiles(section.actions[..j])
      invariant actionMap' == actionMap + ActionEntries(section.actions[..j])
    {
      var action := section.actions[j];
      assert section.actions[..j + 1] == section.actions[..j] + [action];
      PlayFilesAppend(section.actions[..j], action);
      ActionEntriesAppend(section.actions[..j], action);
      if Qualifies(action) {
        var files := EntriesOf(action.files);
        sectionFiles := sectionFiles + files;
        if action.id != "" {
          UnionThenUpdate(actionMap, ActionEntries(section.actions[..j]), action.id, files);
          actionMap' := actionMap'[action.id := files];
        }
      }
      j := j + 1;
    }
    assert section.actions[..j] == section.actions;
  }

  /**
   * `buildFileMaps(venue)`: one pass over the sections filling both maps; a section with an id
   * maps to its files.
   */
  method BuildFileMaps(venue: Venue)
    returns (actionMap: map<string, seq<MediaFile>>, sectionMap: map<string, seq<MediaFile>>)
    ensures actionMap == ActionMapOf(venue.sections)
    ensures sectionMap == SectionMapOf(venue.sections)
  {
    var sections := venue.sections;
    actionMap := map[];
    sectionMap := map[];
    var i := 0;
    while i < |sections|
      invariant 0 <= i <= |sections|
      invariant actionMap == ActionMapOf(sections[..i])
      invariant sectionMap == SectionMapOf(sections[..i])
    {
      var section := sections[i];
      var sectionFiles;
      actionMap, sectionFiles := AddSection(section, actionMap);
      if section.id != "" {
        sectionMap := sectionMap[section.id := sectionFiles];
      }
      assert sections[..i + 1][..i] == sections[..i];
      i := i + 1;
    }
    assert sections[..i] == sections;
  }

  /** The fallback's inner loops for one section: its qualifying files appended to `result`. */
  method AppendSectionFiles(result: seq<MediaFile>, section: VenueSection) returns (result': seq<MediaFile>)
    ensures result' == result + SectionFiles(section)
  {
    result' := result;
    var j := 0;
    while j < |section.actions|
      invariant 0 <= j <= |section.actions|
      invariant result' == result + PlayFiles(section.actions[..j])
    {
      var action := section.actions[j];
      AppendPlayFiles(result, section.actions[..j], action, result');
      assert section.actions[..j + 1] == section.actions[..j] + [action];
      if Qualifies(action) {
        var files := EntriesOf(action.files);
        result' := result' + files;
      }
      j := j + 1;
    }
    assert section.actions[..j] == section.actions;
  }

  /**
   * The fallback of `getFilesFromVenue`: every qualifying file of the venue, section by section
   * and action by action.
   */
  method AllVenueFiles(venue: Venue) returns (result: seq<MediaFile>)
    ensures result == VenueFiles(venue.sections)
  {
    var sections := venue.sections;
    result := [];
    var i := 0;
    while i < |sections|
      invariant 0 <= i <= |sections|
      invariant result == VenueFiles(sections[..i])
    {
      result := AppendSectionFiles(result, sections[i]);
      assert sections[..i + 1][..i] == sections[..i];
      i := i + 1;
    }
    assert sections[..i] == sections;
  }

  // ---- collectRelatedIds ----

  predicate SortedByKey(items: seq<PlanItem>) {
    forall i, j :: 0 <= i < j < |items| ==> items[i].sort <= items[j].sort
  }

  /** Insert `x` into a sorted list after every element whose key is not larger. */
  function InsertByKey(sorted: seq<PlanItem>, x: PlanItem): (r: seq<PlanItem>)
    requires SortedByKey(sorted)
    ensures |r| == |sorted| + 1
    ensures forall y :: y in r ==> y in sorted || y == x
    ensures SortedByKey(r)
    ensures multiset(r) == multiset(sorted) + multiset{x}
  {
    if sorted == [] then [x]
    else
      var init := sorted[..|sorted| - 1];
      var last := sorted[|sorted| - 1];
      assert sorted == init + [last];
      if x.sort < last.sort then
        var r := InsertByKey(init, x);
        assert forall y :: y in r ==> y.sort <= last.sort;
        r + [last]
      else sorted + [x]
  }

  /** `[...items].sort((a, b) => (a.sort || 0) - (b.sort || 0))`: a stable sort on a copy. */
  function SortBySortKey(items: seq<PlanItem>): (sorted: seq<PlanItem>)
    ensures SortedByKey(sorted)
    ensures multiset(sorted) == multiset(items)
  {
    if items == [] then []
    else
      assert items == items[..|items| - 1] + [items[|items| - 1]];
      InsertByKey(SortBySortKey(items[..|items| - 1]), items[|items| - 1])
  }

  /** The elements of a list whose key is `key`, in order. */
  function WithKey(items: seq<PlanItem>, key: int): seq<PlanItem> {
    if items == [] then []
    else WithKey(items[..|items| - 1], key)
         + (if items[|items| - 1].sort == key then [items[|items| - 1]] else [])
  }

  lemma {:induction false} WithKeyAppend(a: seq<PlanItem>, b: seq<PlanItem>, key: int)
    ensures WithKey(a + b, key) == WithKey(a, key) + WithKey(b, key)
  {
    if b == [] {
      assert a + b == a;
    } else {
      assert (a + b)[..|a + b| - 1] == a + b[..|b| - 1];
      WithKeyAppend(a, b[..|b| - 1], key);
    }
  }

  lemma WithKeySingle(y: PlanItem, key: int)
    ensures WithKey([y], key) == if y.sort == key then [y] else []
  {
    assert [y][..0] == [];
  }

  lemma {:induction false} InsertKeepsKeyOrder(sorted: seq<PlanItem>, x: PlanItem, key: int)
    requires SortedByKey(sorted)
    ensures WithKey(InsertByKey(sorted, x), key)
            == WithKey(sorted, key) + (if x.sort == key then [x] else [])
    decreases |sorted|, 1
  {
    WithKeySingle(x, key);
    if sorted == [] {
      assert InsertByKey(sorted, x) == [x];
    } else if x.sort < sorted[|sorted| - 1].sort {
      InsertBeforeLast(sorted, x, key);
    } else {
      assert InsertByKey(sorted, x) == sorted + [x];
      WithKeyAppend(sorted, [x], key);
    }
  }

  /** When `x` sorts before the last element, it is inserted into the rest of the list. */
  lemma InsertByKeyBeforeLast(sorted: seq<PlanItem>, x: PlanItem)
    requires SortedByKey(sorted) && sorted != [] && x.sort < sorted[|sorted| - 1].sort
    ensures SortedByKey(sorted[..|sorted| - 1])
    ensures InsertByKey(sorted, x) == InsertByKey(sorted[..|sorted| - 1], x) + [sorted[|sorted| - 1]]
  {
  }

  /** Appending one element extends the key's sublist by that element when it has the key. */
  lemma WithKeySnoc(s: seq<PlanItem>, y: PlanItem, key: int)
    ensures WithKey(s + [y], key) == WithKey(s, key) + (if y.sort == key then [y] else [])
  {
    assert (s + [y])[..|s|] == s;
  }

  /** The step of `InsertKeepsKeyOrder` where `x` moves before the last element. */
  lemma {:induction false} InsertBeforeLast(sorted: seq<PlanItem>, x: PlanItem, key: int)
    requires SortedByKey(sorted) && sorted != [] && x.sort < sorted[|sorted| - 1].sort
    ensures WithKey(InsertByKey(sorted, x), key)
            == WithKey(sorted, key) + (if x.sort == key then [x] else [])
    decreases |sorted|, 0
  {
    var init := sorted[..|sorted| - 1];
    var last := sorted[|sorted| - 1];
    InsertByKeyBeforeLast(sorted, x);
    var r := InsertByKey(init, x);
    InsertKeepsKeyOrder(init, x, key);
    WithKeySnoc(r, last, key);
    WithKeySnoc(init, last, key);
    assert sorted == init + [last];
    var w := WithKey(init, key);
    var xs := if x.sort == key then [x] else [];
    var ls := if last.sort == key then [last] else [];
    if last.sort == key {
      assert xs == [];
      assert w + xs + ls == w + ls + xs;
    } else {
      assert ls == [];
      assert w + xs + ls == w + ls + xs;
    }
  }

  /** The sort is stable: items with equal keys keep their relative order. */
  lemma {:induction false} SortIsStable(items: seq<PlanItem>, key: int)
    ensures WithKey(SortBySortKey(items), key) == WithKey(items, key)
  {
    if items != [] {
      var init := items[..|items| - 1];
      SortIsStable(init, key);
      InsertKeepsKeyOrder(SortBySortKey(init), items[|items| - 1], key);
    }
  }

  predicate SectionType(t: string) {
    t == "item" || t == "lessonSection" || t == "providerSection" || t == "section"
  }

  predicate ActionType(t: string) {
    t == "lessonAction" || t == "providerPresentation" || t == "action"
  }

  predicate AddOnType(t: string) {
    t == "lessonAddOn" || t == "providerFile"
  }

  /** The nine item types `collectRelatedIds` accepts. */
  predicate AcceptedType(t: string) {
    SectionType(t) || ActionType(t) || AddOnType(t)
  }

  /** The record an item contributes itself: one when it has a related id and an accepted type. */
  function OwnRef(item: PlanItem): (refs: seq<RelatedRef>)
    ensures |refs| <= 1
    ensures |refs| == 1 <==> item.relatedId != "" && AcceptedType(item.itemType)
  {
    if item.relatedId != "" && AcceptedType(item.itemType) then [RelatedRef(item.relatedId, item.itemType)]
    else []
  }

  /** A reference `collectRelatedIds` can emit. */
  predicate ValidRef(r: RelatedRef) {
    r.id != "" && AcceptedType(r.itemType)
  }

  /**
   * `collectRelatedIds(items)`: the items in ascending `sort` order, each followed by the records
   * of its children; only items with a related id and an accepted type contribute.
   */
  function CollectRelatedIds(items: seq<PlanItem>): (refs: seq<RelatedRef>)
    decreases items, 1
    ensures forall k :: 0 <= k < |refs| ==> ValidRef(refs[k])
  {
    var sorted := SortBySortKey(items);
    assert forall x :: x in sorted ==> x in multiset(items);
    CollectInOrder(sorted, items)
  }

  /** The loop of `collectRelatedIds` over the sorted copy `list` of `bound`. */
  function CollectInOrder(list: seq<PlanItem>, ghost bound: seq<PlanItem>): (refs: seq<RelatedRef>)
    requires forall x :: x in list ==> x in bound
    decreases bound, 0, |list|
    ensures forall k :: 0 <= k < |refs| ==> ValidRef(refs[k])
  {
    if list == [] then []
    else
      var item := list[0];
      assert item in bound;
      OwnRef(item)
      + (if |item.children| > 0 then CollectRelatedIds(item.children) else [])
      + CollectInOrder(list[1..], bound)
  }

  /** The loop's result does not depend on the list it is bounded by. */
  lemma {:induction false} CollectInOrderAnyBound(list: seq<PlanItem>, bound1: seq<PlanItem>,
                                                   bound2: seq<PlanItem>)
    requires forall x :: x in list ==> x in bound1
    requires forall x :: x in list ==> x in bound2
    ensures CollectInOrder(list, bound1) == CollectInOrder(list, bound2)
  {
    if list != [] {
      CollectInOrderAnyBound(list[1..], bound1, bound2);
    }
  }

  lemma SortSingle(item: PlanItem)
    ensures SortBySortKey([item]) == [item]
  {
    assert [item][..0] == [];
  }

  /** Pre-order: a single item's own record comes before its children's records. */
  lemma ParentBeforeChildren(item: PlanItem)
    ensures CollectRelatedIds([item]) == OwnRef(item) + CollectRelatedIds(item.children)
  {
    SortSingle(item);
    assert [item][1..] == [];
    assert CollectRelatedIds([item]) == CollectInOrder([item], [item]);
    if |item.children| == 0 {
      assert CollectRelatedIds(item.children) == CollectInOrder([], []);
    }
  }

  /** The record an item emits for itself, when it emits one. */
  function RefOf(item: PlanItem): RelatedRef {
    RelatedRef(item.relatedId, item.itemType)
  }

  /** The loop emits the own record and the children's records of every item of its list. */
  lemma {:induction false} CollectInOrderHas(list: seq<PlanItem>, bound: seq<PlanItem>, x: PlanItem)
    requires forall y :: y in list ==> y in bound
    requires x in list
    ensures x.relatedId != "" && AcceptedType(x.itemType) ==> RefOf(x) in CollectInOrder(list, bound)
    ensures forall r :: r in CollectRelatedIds(x.children) ==> r in CollectInOrder(list, bound)
    decreases |list|
  {
    var item := list[0];
    CollectInOrderStep(list, bound);
    if item != x {
      CollectInOrderHas(list[1..], bound, x);
    } else if |item.children| == 0 {
      assert item.children == [];
    }
  }

  /**
   * Completeness: every item with a related id and an accepted type is emitted, and so is every
   * record of its children.
   */
  lemma CollectedComplete(items: seq<PlanItem>, x: PlanItem)
    requires x in items
    ensures x.relatedId != "" && AcceptedType(x.itemType) ==> RefOf(x) in CollectRelatedIds(items)
    ensures forall r :: r in CollectRelatedIds(x.children) ==> r in CollectRelatedIds(items)
  {
    var sorted := SortBySortKey(items);
    assert x in multiset(sorted);
    assert forall y :: y in sorted ==> y in multiset(items);
    CollectInOrderHas(sorted, items, x);
  }

  /** `x` occurs in `refs` before some occurrence of `y`. */
  predicate Precedes(refs: seq<RelatedRef>, x: RelatedRef, y: RelatedRef) {
    exists i, j :: 0 <= i < j < |refs| && refs[i] == x && refs[j] == y
  }

  lemma PrecedesAcross(front: seq<RelatedRef>, back: seq<RelatedRef>, x: RelatedRef, y: RelatedRef)
    requires x in front && y in back
    ensures Precedes(front + back, x, y)
  {
    var i :| 0 <= i < |front| && front[i] == x;
    var j :| 0 <= j < |back| && back[j] == y;
    var refs := front + back;
    assert refs[i] == x && refs[|front| + j] == y;
  }

  lemma PrecedesAfter(front: seq<RelatedRef>, back: seq<RelatedRef>, x: RelatedRef, y: RelatedRef)
    requires Precedes(back, x, y)
    ensures Precedes(front + back, x, y)
  {
    var i, j :| 0 <= i < j < |back| && back[i] == x && back[j] == y;
    var refs := front + back;
    assert refs[|front| + i] == x && refs[|front| + j] == y;
  }

  /** The records one item of the loop emits: its own, then its children's. */
  function ItemRefs(item: PlanItem): seq<RelatedRef>
    decreases item, 2
  {
    OwnRef(item) + (if |item.children| > 0 then CollectRelatedIds(item.children) else [])
  }

  lemma OwnRefInItemRefs(item: PlanItem)
    requires OwnRef(item) != []
    ensures RefOf(item) in ItemRefs(item)
  {
    assert ItemRefs(item)[0] == RefOf(item);
  }

  lemma CollectInOrderStep(list: seq<PlanItem>, bound: seq<PlanItem>)
    requires forall y :: y in list ==> y in bound
    requires list != []
    ensures CollectInOrder(list, bound) == ItemRefs(list[0]) + CollectInOrder(list[1..], bound)
  {
  }

  /** In the loop, the first item's record precedes the record of any later item. */
  lemma CollectInOrderHeadFirst(list: seq<PlanItem>, bound: seq<PlanItem>, q: int)
    requires forall y :: y in list ==> y in bound
    requires 0 < q < |list|
    requires OwnRef(list[0]) != [] && OwnRef(list[q]) != []
    ensures Precedes(CollectInOrder(list, bound), RefOf(list[0]), RefOf(list[q]))
  {
    var tail := list[1..];
    assert tail[q - 1] == list[q];
    CollectInOrderStep(list, bound);
    CollectInOrderHas(tail, bound, list[q]);
    OwnRefInItemRefs(list[0]);
    PrecedesAcross(ItemRefs(list[0]), CollectInOrder(tail, bound), RefOf(list[0]), RefOf(list[q]));
  }

  /** In the loop, the record of an earlier item of the list precedes that of a later one. */
  lemma {:induction false} CollectInOrderOrder(list: seq<PlanItem>, bound: seq<PlanItem>, p: int, q: int)
    requires forall y :: y in list ==> y in bound
    requires 0 <= p < q < |list|
    requires OwnRef(list[p]) != [] && OwnRef(list[q]) != []
    ensures Precedes(CollectInOrder(list, bound), RefOf(list[p]), RefOf(list[q]))
    decreases p
  {
    if p == 0 {
      CollectInOrderHeadFirst(list, bound, q);
    } else {
      var tail := list[1..];
      assert tail[p - 1] == list[p] && tail[q - 1] == list[q];
      CollectInOrderOrder(tail, bound, p - 1, q - 1);
      CollectInOrderStep(list, bound);
      PrecedesAfter(ItemRefs(list[0]), CollectInOrder(tail, bound), RefOf(list[p]), RefOf(list[q]));
    }
  }

  /** In a list sorted by key, an item with a smaller key sits at a smaller position. */
  lemma SmallerKeyEarlier(sorted: seq<PlanItem>, a: PlanItem, b: PlanItem)
    requires SortedByKey(sorted) && a in sorted && b in sorted && a.sort < b.sort
    ensures exists p, q :: 0 <= p < q < |sorted| && sorted[p] == a && sorted[q] == b
  {
    var p :| 0 <= p < |sorted| && sorted[p] == a;
    var q :| 0 <= q < |sorted| && sorted[q] == b;
    assert p < q;
  }

  /**
   * Order: of two items that both emit a record, the one with the smaller `sort` key emits its
   * record first, whatever order the items are given in.
   */
  lemma CollectedInKeyOrder(items: seq<PlanItem>, a: PlanItem, b: PlanItem)
    requires a in items && b in items && a.sort < b.sort
    requires a.relatedId != "" && AcceptedType(a.itemType)
    requires b.relatedId != "" && AcceptedType(b.itemType)
    ensures Precedes(CollectRelatedIds(items), RefOf(a), RefOf(b))
  {
    var sorted := SortBySortKey(items);
    assert a in multiset(sorted) && b in multiset(sorted);
    assert forall y :: y in sorted ==> y in multiset(items);
    SmallerKeyEarlier(sorted, a, b);
    var p, q :| 0 <= p < q < |sorted| && sorted[p] == a && sorted[q] == b;
    CollectInOrderOrder(sorted, items, p, q);
  }

  // ---- fetchAddOn and getFilesFromVenue ----

  /**
   * `fetchAddOn(id)` once its request settles: a video is preferred to a file; a video plays from
   * the external-video download url, a file for 10 seconds; otherwise null.
   */
  function FetchAddOn(reply: AddOnReply): (files: Option<seq<MediaFile>>)
    ensures files.Some? <==> reply.AddOn? && (reply.video.Some? || reply.file.Some?)
    ensures files.Some? ==> |files.value| == 1
    ensures reply.AddOn? && reply.video.Some? ==>
      var v := reply.video.value;
      files.value[0] == MediaFile(v.id, reply.name, AddOnVideoPrefix + v.id, "video",
                                  if v.seconds == 0 then 10 else v.seconds, false, false, None)
    ensures reply.AddOn? && reply.video.None? && reply.file.Some? ==>
      var f := reply.file.value;
      files.value[0] == MediaFile(f.id, reply.name, f.contentPath, f.fileType, 10, false, false, None)
  {
    match reply
    case NoAddOn => None
    case AddOnThrew => None
    case AddOn(name, video, file) =>
      if video.Some? then
        Some([MediaFile(video.value.id, name, AddOnVideoPrefix + video.value.id, "video",
                        if video.value.seconds == 0 then 10 else video.value.seconds, false, false, None)])
      else if file.Some? then
        Some([MediaFile(file.value.id, name, file.value.contentPath, file.value.fileType, 10,
                        false, false, None)])
      else None
  }

  function Lookup(m: map<string, seq<MediaFile>>, id: string): Option<seq<MediaFile>> {
    if id in m then Some(m[id]) else None
  }

  /** Whether resolving a reference asks the add-on service. */
  predicate NeedsFetch(r: RelatedRef, actionMap: map<string, seq<MediaFile>>) {
    AddOnType(r.itemType) && (r.id !in actionMap || actionMap[r.id] == [])
  }

  /** The files a reference resolves to (null when none). */
  function ResolveRef(r: RelatedRef, actionMap: map<string, seq<MediaFile>>,
                      sectionMap: map<string, seq<MediaFile>>, fetch: string -> AddOnReply)
    : (files: Option<seq<MediaFile>>)
    ensures SectionType(r.itemType) ==> files == Lookup(sectionMap, r.id)
    ensures ActionType(r.itemType) ==> files == Lookup(actionMap, r.id)
    ensures AddOnType(r.itemType) && !NeedsFetch(r, actionMap) ==> files == Some(actionMap[r.id])
    ensures NeedsFetch(r, actionMap) ==> files == FetchAddOn(fetch(r.id))
    ensures !AcceptedType(r.itemType) ==> files == None
  {
    if SectionType(r.itemType) then Lookup(sectionMap, r.id)
    else if ActionType(r.itemType) then Lookup(actionMap, r.id)
    else if AddOnType(r.itemType) then
      if NeedsFetch(r, actionMap) then FetchAddOn(fetch(r.id)) else Lookup(actionMap, r.id)
    else None
  }

  /** The files of a list of references, in order. */
  function ResolvedFiles(refs: seq<RelatedRef>, actionMap: map<string, seq<MediaFile>>,
                         sectionMap: map<string, seq<MediaFile>>, fetch: string -> AddOnReply)
    : seq<MediaFile>
  {
    if refs == [] then []
    else ResolvedFiles(refs[..|refs| - 1], actionMap, sectionMap, fetch)
         + ResolveRef(refs[|refs| - 1], actionMap, sectionMap, fetch).GetOr([])
  }

  /** The add-on ids requested while resolving a list of references, in order. */
  function Fetched(refs: seq<RelatedRef>, actionMap: map<string, seq<MediaFile>>): (ids: seq<string>)
    ensures forall k :: 0 <= k < |ids| ==>
      exists i :: 0 <= i < |refs| && refs[i].id == ids[k] && NeedsFetch(refs[i], actionMap)
  {
    if refs == [] then []
    else
      var init := refs[..|refs| - 1];
      var last := refs[|refs| - 1];
      assert forall i :: 0 <= i < |init| ==> init[i] == refs[i];
      Fetched(init, actionMap) + (if NeedsFetch(last, actionMap) then [last.id] else [])
  }

  /** Resolving one more reference appends its files and, if it asks the service, its id. */
  lemma ResolveStep(refs: seq<RelatedRef>, i: int, actionMap: map<string, seq<MediaFile>>,
                    sectionMap: map<string, seq<MediaFile>>, fetch: string -> AddOnReply)
    requires 0 <= i < |refs|
    ensures ResolvedFiles(refs[..i + 1], actionMap, sectionMap, fetch)
            == ResolvedFiles(refs[..i], actionMap, sectionMap, fetch)
               + ResolveRef(refs[i], actionMap, sectionMap, fetch).GetOr([])
    ensures Fetched(refs[..i + 1], actionMap)
            == Fetched(refs[..i], actionMap) + (if NeedsFetch(refs[i], actionMap) then [refs[i].id] else [])
  {
    assert refs[..i + 1][..i] == refs[..i];
  }

  /** What `getFilesFromVenue` returns, given the maps and the related ids. */
  function VenuePlaylist(venue: Venue, planItems: seq<PlanItem>, fetch: string -> AddOnReply)
    : (files: seq<MediaFile>)
    ensures planItems == [] || CollectRelatedIds(planItems) == [] ==> files == VenueFiles(venue.sections)
  {
    var resolved := ResolvedFiles(CollectRelatedIds(planItems), ActionMapOf(venue.sections),
                                  SectionMapOf(venue.sections), fetch);
    if planItems != [] && CollectRelatedIds(planItems) != [] && resolved != [] then resolved
    else VenueFiles(venue.sections)
  }

  /** The loop of `getFilesFromVenue` over the related ids: each one's files, in order. */
  method ResolveAll(refs: seq<RelatedRef>, actionMap: map<string, seq<MediaFile>>,
                    sectionMap: map<string, seq<MediaFile>>, fetch: string -> AddOnReply)
    returns (result: seq<MediaFile>, fetched: seq<string>)
    ensures result == ResolvedFiles(refs, actionMap, sectionMap, fetch)
    ensures fetched == Fetched(refs, actionMap)
  {
    result := [];
    fetched := [];
    var i := 0;
    while i < |refs|
      invariant 0 <= i <= |refs|
      invariant result == ResolvedFiles(refs[..i], actionMap, sectionMap, fetch)
      invariant fetched == Fetched(refs[..i], actionMap)
    {
      ResolveStep(refs, i, actionMap, sectionMap, fetch);
      var r := refs[i];
      var found: Option<seq<MediaFile>> := None;
      if SectionType(r.itemType) {
        found := Lookup(sectionMap, r.id);
      } else if ActionType(r.itemType) {
        found := Lookup(actionMap, r.id);
      } else if AddOnType(r.itemType) {
        found := Lookup(actionMap, r.id);
        if found.None? || found.value == [] {
          found := FetchAddOn(fetch(r.id));
          fetched := fetched + [r.id];
        }
      }
      assert found == ResolveRef(r, actionMap, sectionMap, fetch);
      if found.Some? {
        result := result + found.value;
      } else {
        assert result + [] == result;
      }
      i := i + 1;
    }
    assert refs[..i] == refs;
  }

  /**
   * `getFilesFromVenue(venue, planItems)`: the plan items' files in their order when they resolve
   * to any file, else the whole venue. Also returns the add-on ids it requested, in order.
   */
  method GetFilesFromVenue(venue: Venue, planItems: seq<PlanItem>, fetch: string -> AddOnReply)
    returns (files: seq<MediaFile>, fetched: seq<string>)
    ensures files == VenuePlaylist(venue, planItems, fetch)
    ensures fetched == if planItems != [] then Fetched(CollectRelatedIds(planItems), ActionMapOf(venue.sections))
                       else []
  {
    var actionMap, sectionMap := BuildFileMaps(venue);
    fetched := [];
    if |planItems| > 0 {
      var refs := CollectRelatedIds(planItems);
      if |refs| > 0 {
        var result;
        result, fetched := ResolveAll(refs, actionMap, sectionMap, fetch);
        if |result| > 0 {
          return result, fetched;
        }
      } else {
        assert Fetched(refs, actionMap) == [];
      }
    }
    files := AllVenueFiles(venue);
  }

  /** The add-on service is asked only for add-on references the venue's actions leave empty. */
  lemma FetchOnlyWhenMissing(venue: Venue, planItems: seq<PlanItem>, id: string)
    requires id in Fetched(CollectRelatedIds(planItems), ActionMapOf(venue.sections))
    ensures exists r :: r in CollectRelatedIds(planItems) && r.id == id && AddOnType(r.itemType)
    ensures id !in ActionMapOf(venue.sections) || ActionMapOf(venue.sections)[id] == []
  {
    var refs := CollectRelatedIds(planItems);
    var ids := Fetched(refs, ActionMapOf(venue.sections));
    var k :| 0 <= k < |ids| && ids[k] == id;
    var i :| 0 <= i < |refs| && refs[i].id == ids[k] && NeedsFetch(refs[i], ActionMapOf(venue.sections));
    assert refs[i] in refs;
  }

  // ---- the screen ----

  class PlanDownloadScreen {
    const cache: Cache
    const store: KeyValueStore
    const filesCodec: Codec<seq<MediaFile>>
    var venue: Option<Venue>
    var planItems: seq<PlanItem>
    var counts: Counts
    var ready: bool

    constructor (cache: Cache, store: KeyValueStore, filesCodec: Codec<seq<MediaFile>>)
      ensures this.cache == cache && this.store == store && this.filesCodec == filesCodec
      ensures venue == None && planItems == [] && counts == Counts(0, 0) && !ready
    {
      this.cache := cache;
      this.store := store;
      this.filesCodec := filesCodec;
      venue := None;
      planItems := [];
      counts := Counts(0, 0);
      ready := false;
    }

    /** The Start button is shown. */
    predicate ShowsStart()
      reads this
    {
      StartVisible(ready, counts)
    }

    /** `updateCounts(cached, total)`. */
    method UpdateCounts(cached: nat, total: nat)
      modifies this`counts
      ensures counts == Counts(cached, total)
    {
      counts := Counts(cached, total);
    }

    /**
     * `startDownload` up to `prefetch`: without a venue nothing happens; a non-empty playlist is
     * stored in `messageFiles` and persisted, `ready` drops and the playlist is returned for
     * prefetching; an empty one sets `messageFiles` to [] and marks the screen ready.
     */
    method StartDownload(fetch: string -> AddOnReply) returns (toPrefetch: Option<seq<MediaFile>>)
      modifies this`ready, cache`messageFiles, store
      ensures venue.None? ==>
        toPrefetch == None && ready == old(ready) && cache.messageFiles == old(cache.messageFiles)
        && store.items == old(store.items)
      ensures venue.Some? && VenuePlaylist(venue.value, planItems, fetch) != [] ==>
        var files := VenuePlaylist(venue.value, planItems, fetch);
        toPrefetch == Some(files) && !ready && cache.messageFiles == Some(files)
        && store.items == old(store.items)["messageFiles" := filesCodec.show(files)]
      ensures venue.Some? && VenuePlaylist(venue.value, planItems, fetch) == [] ==>
        toPrefetch == None && ready && cache.messageFiles == Some([])
        && store.items == old(store.items)
    {
      toPrefetch := None;
      if venue.None? {
        return;
      }
      var files, _ := GetFilesFromVenue(venue.value, planItems, fetch);
      if |files| > 0 {
        cache.messageFiles := Some(files);
        Cache.SetAsyncStorage(store, "messageFiles", files, filesCodec);
        ready := false;
        toPrefetch := Some(files);
      } else {
        cache.messageFiles := Some([]);
        ready := true;
      }
    }

    /**
     * `prefetch(files, updateCounts).then(() => setReady(true))`: the counts follow every
     * `changeCallback` call, and once the prefetch settles the Start button is shown.
     */
    method PrefetchThenReady(files: seq<MediaFile>, decode: string -> string, disk: set<string>,
                             net: nat -> Transfer, jobIds: nat -> int)
      returns (disk': set<string>)
      modifies this`counts, this`ready, cache`cachedItems, cache`downloadedBytes, cache`totalBytes,
               cache`totalCachableItems, cache`activeDownloads
      ensures var b := PrefetchRun(cache.cachePath, decode, files, |files|, net, disk);
        disk' == b.disk && counts == CountsAfter(b.log, old(counts))
      ensures counts == Counts(|files|, |files|) && ready && ShowsStart()
    {
      var log;
      log, disk' := cache.Prefetch(files, decode, disk, net, jobIds);
      counts := CountsAfter(log, counts);
      PrefetchCompletesCounts(cache.cachePath, decode, files, net, disk, old(counts));
      ready := true;
    }

    /** `handleBack`: expand the sidebar. */
    method HandleBack() returns (expandSidebar: bool)
      ensures expandSidebar
    {
      expandSidebar := true;
    }
  }
}
