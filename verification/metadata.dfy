/** The tracker metadata the ticket loop needs (migrate.py:217-239): an
    id-to-label map for categories and for groups, the list of labels to
    create, and the ids of the statuses that close an issue. */
module Metadata {
  import opened Text
  import opened Labels
  import opened Export

  /** No later entry of `items` carries the id of entry `i`. */
  predicate IsLastWithId(items: seq<Named>, i: int)
    requires 0 <= i < |items|
  {
    forall j :: i < j < |items| ==> items[j].id != items[i].id
  }

  /** The dict built by `d[item.id] = labelify(item.name)` over `items` in
      order: its keys are the ids, and a later entry overwrites an earlier
      one with the same id. */
  function IdLabels(items: seq<Named>): (m: map<string, string>)
    ensures m.Keys == set i | 0 <= i < |items| :: items[i].id
  {
    if |items| == 0 then map[]
    else
      var init := items[..|items| - 1];
      var last := items[|items| - 1];
      assert forall i :: 0 <= i < |init| ==> init[i] == items[i];
      assert (set i | 0 <= i < |items| :: items[i].id) == (set i | 0 <= i < |init| :: init[i].id) + {last.id};
      IdLabels(init)[last.id := Labelify(last.name)]
  }

  /** Each id maps to the label of the last entry carrying it. */
  lemma {:induction false} IdLabelsLastWins(items: seq<Named>, i: int)
    requires 0 <= i < |items| && IsLastWithId(items, i)
    ensures IdLabels(items)[items[i].id] == Labelify(items[i].name)
    decreases |items|
  {
    if i < |items| - 1 {
      var init := items[..|items| - 1];
      assert init[i] == items[i];
      assert IsLastWithId(init, i);
      IdLabelsLastWins(init, i);
    }
  }

  /** An id carried by some entry is carried by a last one. */
  lemma {:induction false} LastWithIdExists(items: seq<Named>, key: string)
    requires exists i :: 0 <= i < |items| && items[i].id == key
    ensures exists i :: 0 <= i < |items| && items[i].id == key && IsLastWithId(items, i)
    decreases |items|
  {
    var n := |items| - 1;
    if items[n].id == key {
      assert IsLastWithId(items, n);
    } else {
      var init := items[..n];
      var i :| 0 <= i < |items| && items[i].id == key;
      assert init[i] == items[i];
      LastWithIdExists(init, key);
      var j :| 0 <= j < |init| && init[j].id == key && IsLastWithId(init, j);
      assert forall k :: j < k < n ==> items[k] == init[k];
      assert IsLastWithId(items, j);
    }
  }

  /** An id some entry carries is a key of the dict, and the lookup gives
      the label of the last entry with that id. */
  lemma IdLabelsLookup(items: seq<Named>, key: string)
    requires exists i :: 0 <= i < |items| && items[i].id == key
    ensures key in IdLabels(items)
    ensures exists i ::
      && 0 <= i < |items| && items[i].id == key && IsLastWithId(items, i)
      && IdLabels(items)[key] == Labelify(items[i].name)
  {
    LastWithIdExists(items, key);
    var i :| 0 <= i < |items| && items[i].id == key && IsLastWithId(items, i);
    IdLabelsLastWins(items, i);
  }

  /** The labels appended for `items`, one per entry, in order. */
  function NameLabels(items: seq<Named>): (r: seq<string>)
    ensures |r| == |items|
    ensures forall i :: 0 <= i < |items| ==> r[i] == Labelify(items[i].name)
  {
    if |items| == 0 then []
    else
      var init := items[..|items| - 1];
      assert forall i :: 0 <= i < |init| ==> init[i] == items[i];
      NameLabels(init) + [Labelify(items[|items| - 1].name)]
  }

  /** The labels to create: category labels in export order, then group
      labels in export order, duplicates kept. */
  function LabelList(t: Tracker): (r: seq<string>)
    ensures |r| == |t.categories| + |t.groups|
    ensures forall i :: 0 <= i < |t.categories| ==> r[i] == Labelify(t.categories[i].name)
    ensures forall j :: 0 <= j < |t.groups| ==> r[|t.categories| + j] == Labelify(t.groups[j].name)
  {
    NameLabels(t.categories) + NameLabels(t.groups)
  }

  /** `status_name.lower() in closed_statuses`. The entries of the closing
      list are compared as given, only the status name is lowered. The name
      is a unicode string and a `-c` entry a byte string: Python 2 decodes
      the entry as ASCII before comparing, so a name that only a non-ASCII
      entry could equal matches nothing. */
  predicate Closes(closing: seq<string>, status: Named) {
    IsAscii(Lower(status.name)) && Lower(status.name) in closing
  }

  /** The comparison seen from the entries: a status closes exactly when an
      ASCII entry of the list equals its lowered name. */
  lemma ClosesByAsciiEntry(closing: seq<string>, status: Named)
    ensures Closes(closing, status)
        <==> exists k :: 0 <= k < |closing| && IsAscii(closing[k]) && closing[k] == Lower(status.name)
  {
  }

  /** The ids of the closing statuses, in export order. */
  function ClosedStatusIds(statuses: seq<Named>, closing: seq<string>): (r: seq<string>)
    ensures |r| <= |statuses|
    ensures forall k :: k in r <==> exists i :: 0 <= i < |statuses| && statuses[i].id == k && Closes(closing, statuses[i])
  {
    if |statuses| == 0 then []
    else
      var init := statuses[..|statuses| - 1];
      var last := statuses[|statuses| - 1];
      assert forall i :: 0 <= i < |init| ==> init[i] == statuses[i];
      ClosedStatusIds(init, closing) + (if Closes(closing, last) then [last.id] else [])
  }

  /** Everything the ticket loop reads, resolved once per run. */
  datatype Resolved = Resolved(
    categories: map<string, string>,
    groups: map<string, string>,
    labels: seq<string>,
    closedStatusIds: seq<string>)

  function Resolve(t: Tracker, closing: seq<string>): Resolved {
    Resolved(IdLabels(t.categories), IdLabels(t.groups), LabelList(t), ClosedStatusIds(t.statuses, closing))
  }

  /** The category loop (migrate.py:219-223) and the group loop
      (migrate.py:226-230): one label appended and one dict entry set per item. */
  method LabelLoop(items: seq<Named>) returns (ids: map<string, string>, added: seq<string>)
    ensures ids == IdLabels(items)
    ensures added == NameLabels(items)
  {
    ids := map[];
    added := [];
    var i := 0;
    while i < |items|
      invariant 0 <= i <= |items|
      invariant ids == IdLabels(items[..i])
      invariant added == NameLabels(items[..i])
    {
      var item := items[i];
      var newLabel := Labelify(item.name);
      added := added + [newLabel];
      ids := ids[item.id := newLabel];
      assert items[..i + 1][..i] == items[..i];
      i := i + 1;
    }
    assert items[..i] == items;
  }

  /** The status loop (migrate.py:233-239). */
  method StatusLoop(statuses: seq<Named>, closing: seq<string>) returns (closedIds: seq<string>)
    ensures closedIds == ClosedStatusIds(statuses, closing)
  {
    closedIds := [];
    var k := 0;
    while k < |statuses|
      invariant 0 <= k <= |statuses|
      invariant closedIds == ClosedStatusIds(statuses[..k], closing)
    {
      var status := statuses[k];
      var lowered := Lower(status.name);
      if IsAscii(lowered) && lowered in closing {
        closedIds := closedIds + [status.id];
      }
      assert statuses[..k + 1][..k] == statuses[..k];
      k := k + 1;
    }
    assert statuses[..k] == statuses;
  }

  /** The three loops of migrate.py:217-239, in the script's order. */
  method ResolveTracker(t: Tracker, closing: seq<string>) returns (res: Resolved)
    ensures res == Resolve(t, closing)
  {
    var categories, categoryLabels := LabelLoop(t.categories);
    var groups, groupLabels := LabelLoop(t.groups);
    var closedIds := StatusLoop(t.statuses, closing);
    res := Resolved(categories, groups, categoryLabels + groupLabels, closedIds);
  }

  /** Under the default closing list a status closes exactly when its name
      is "closed" or "deleted" in any letter case. */
  lemma DefaultClosingStatuses(o: Options, status: Named)
    requires o.closedStatuses.None?
    ensures status.id in ClosedStatusIds([status], ClosingStatuses(o))
        <==> Lower(status.name) == "closed" || Lower(status.name) == "deleted"
  {
    assert IsAscii("closed") && IsAscii("deleted");
  }

  /** A closing-list entry holding a non-ASCII character matches no status:
      the decoding of the byte string fails and the comparison is false. */
  lemma {:induction false} NonAsciiEntryNeverCloses(statuses: seq<Named>, entry: string)
    requires !IsAscii(entry)
    ensures ClosedStatusIds(statuses, [entry]) == []
    decreases |statuses|
  {
    if |statuses| > 0 {
      var last := statuses[|statuses| - 1];
      assert !Closes([entry], last);
      NonAsciiEntryNeverCloses(statuses[..|statuses| - 1], entry);
    }
  }

  /** A closing-list entry holding an upper-case letter matches no status,
      since only the status name is lowered before the comparison. */
  lemma {:induction false} UpperCaseEntryNeverCloses(statuses: seq<Named>, entry: string)
    requires exists i :: 0 <= i < |entry| && IsUpper(entry[i])
    ensures ClosedStatusIds(statuses, [entry]) == []
    decreases |statuses|
  {
    if |statuses| > 0 {
      var last := statuses[|statuses| - 1];
      var i :| 0 <= i < |entry| && IsUpper(entry[i]);
      assert Lower(last.name) != entry by {
        if |Lower(last.name)| == |entry| {
          assert !IsUpper(Lower(last.name)[i]);
        }
      }
      UpperCaseEntryNeverCloses(statuses[..|statuses| - 1], entry);
    }
  }
}
