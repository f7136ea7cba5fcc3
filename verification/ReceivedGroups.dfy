/**
 * The groups waiting in the inbox (src/db/sync/operation-repository.ts, 626-650): collected
 * by mutation group, checked for their size, and put in order.
 */
module ReceivedGroups {
  import opened Wrappers
  import opened SyncOperation
  import opened RemoteApply

  type Records = seq<InboxRecord>

  function GroupId(r: InboxRecord): OpaqueId { r.operation.groupId }

  /** The records of one group, in the order they are read. */
  function Members(records: Records, id: OpaqueId): Records {
    if records == [] then []
    else
      var last := records[|records| - 1];
      Members(records[..|records| - 1], id) + if GroupId(last) == id then [last] else []
  }

  /** The groups in the order of their first record. */
  function GroupIds(records: Records): seq<OpaqueId> {
    if records == [] then []
    else
      var earlier := GroupIds(records[..|records| - 1]);
      var id := GroupId(records[|records| - 1]);
      if id in earlier then earlier else earlier + [id]
  }

  predicate HasItsSize(group: Records) {
    group != [] && |group| == group[0].operation.groupSize
  }

  /** A stable insertion by index. */
  function InsertByIndex(sorted: Records, r: InboxRecord): Records {
    if sorted == [] then [r]
    else if r.operation.groupIndex < sorted[|sorted| - 1].operation.groupIndex
    then InsertByIndex(sorted[..|sorted| - 1], r) + [sorted[|sorted| - 1]]
    else sorted + [r]
  }

  function SortByGroupIndex(records: Records): Records {
    if records == [] then []
    else InsertByIndex(SortByGroupIndex(records[..|records| - 1]), records[|records| - 1])
  }

  function FirstCursor(group: Records): nat { if group == [] then 0 else group[0].cursor }

  /** A stable insertion by the cursor of the first record. */
  function InsertByCursor(sorted: seq<Records>, g: Records): seq<Records> {
    if sorted == [] then [g]
    else if FirstCursor(g) < FirstCursor(sorted[|sorted| - 1])
    then InsertByCursor(sorted[..|sorted| - 1], g) + [sorted[|sorted| - 1]]
    else sorted + [g]
  }

  /** The records of one group, in the order of their indexes. */
  function GroupOf(records: Records, id: OpaqueId): Records { SortByGroupIndex(Members(records, id)) }

  function SortedGroups(records: Records, ids: seq<OpaqueId>): seq<Records> {
    if ids == [] then []
    else InsertByCursor(SortedGroups(records, ids[..|ids| - 1]), GroupOf(records, ids[|ids| - 1]))
  }

  predicate AllHaveTheirSize(records: Records) {
    forall id :: id in GroupIds(records) ==> HasItsSize(Members(records, id))
  }

  /** `None` stands for the error about an incomplete group. */
  function Grouped(records: Records): Option<seq<Records>> {
    if AllHaveTheirSize(records) then Some(SortedGroups(records, GroupIds(records))) else None
  }

  // ---- The loops ----

  method CollectGroups(records: Records) returns (groups: map<OpaqueId, Records>, ids: seq<OpaqueId>)
    ensures ids == GroupIds(records) && forall id :: id in groups <==> id in ids
    ensures forall id :: id in groups ==> groups[id] == Members(records, id)
  {
    groups, ids := map[], [];
    for i := 0 to |records|
      invariant ids == GroupIds(records[..i]) && forall id :: id in groups <==> id in ids
      invariant forall id :: id in groups ==> groups[id] == Members(records[..i], id)
      invariant forall id :: id !in groups ==> Members(records[..i], id) == []
    {
      assert records[..i + 1][..i] == records[..i];
      var id := GroupId(records[i]);
      if id in groups {
        groups := groups[id := groups[id] + [records[i]]];
      } else {
        groups, ids := groups[id := [records[i]]], ids + [id];
      }
    }
    assert records[..|records|] == records;
  }

  method GroupReceived(records: Records) returns (r: Option<seq<Records>>)
    ensures r == Grouped(records)
  {
    var collected, ids := CollectGroups(records);
    if exists id :: id in ids && !HasItsSize(collected[id]) { return None; }
    var groups: seq<Records> := [];
    for i := 0 to |ids|
      invariant groups == SortedGroups(records, ids[..i])
    {
      assert ids[..i + 1][..i] == ids[..i] && ids[i] in ids;
      groups := InsertByCursor(groups, SortByGroupIndex(collected[ids[i]]));
    }
    assert ids[..|ids|] == ids;
    r := Some(groups);
  }

  // ---- Members and sorting ----

  lemma {:induction false} MembersAre(records: Records, id: OpaqueId, r: InboxRecord)
    ensures r in Members(records, id) <==> r in records && GroupId(r) == id
    decreases |records|
  {
    if records != [] {
      MembersAre(records[..|records| - 1], id, r);
      assert records == records[..|records| - 1] + [records[|records| - 1]];
    }
  }

  lemma {:induction false} GroupIdsAre(records: Records, id: OpaqueId)
    ensures id in GroupIds(records) <==> exists r :: r in records && GroupId(r) == id
    decreases |records|
  {
    if records != [] {
      GroupIdsAre(records[..|records| - 1], id);
      assert records == records[..|records| - 1] + [records[|records| - 1]];
    }
  }

  lemma {:induction false} GroupIdsDiffer(records: Records)
    ensures forall i, j :: 0 <= i < j < |GroupIds(records)| ==> GroupIds(records)[i] != GroupIds(records)[j]
    decreases |records|
  {
    if records != [] { GroupIdsDiffer(records[..|records| - 1]); }
  }

  lemma {:induction false} InsertHolds(sorted: Records, r: InboxRecord, x: InboxRecord)
    ensures x in InsertByIndex(sorted, r) <==> x == r || x in sorted
    decreases |sorted|
  {
    if sorted != [] && r.operation.groupIndex < sorted[|sorted| - 1].operation.groupIndex {
      InsertHolds(sorted[..|sorted| - 1], r, x);
      assert sorted == sorted[..|sorted| - 1] + [sorted[|sorted| - 1]];
    }
  }

  predicate IndexesRise(s: Records) {
    forall i, j :: 0 <= i < j < |s| ==> s[i].operation.groupIndex <= s[j].operation.groupIndex
  }

  lemma {:induction false} InsertRises(sorted: Records, r: InboxRecord)
    requires IndexesRise(sorted)
    ensures IndexesRise(InsertByIndex(sorted, r))
    decreases |sorted|
  {
    if sorted != [] && r.operation.groupIndex < sorted[|sorted| - 1].operation.groupIndex {
      var n := |sorted| - 1;
      InsertRises(sorted[..n], r);
      forall x | x in InsertByIndex(sorted[..n], r) ensures x.operation.groupIndex <= sorted[n].operation.groupIndex {
        InsertHolds(sorted[..n], r, x);
      }
    }
  }

  lemma {:induction false} SortHolds(records: Records, x: InboxRecord)
    ensures x in SortByGroupIndex(records) <==> x in records
    decreases |records|
  {
    if records != [] {
      var n := |records| - 1;
      SortHolds(records[..n], x);
      InsertHolds(SortByGroupIndex(records[..n]), records[n], x);
      assert records == records[..n] + [records[n]];
    }
  }

  lemma {:induction false} InsertKeepsLength(sorted: Records, r: InboxRecord)
    ensures |InsertByIndex(sorted, r)| == |sorted| + 1
    decreases |sorted|
  {
    if sorted != [] { InsertKeepsLength(sorted[..|sorted| - 1], r); }
  }

  lemma {:induction false} SortKeepsLength(records: Records)
    ensures |SortByGroupIndex(records)| == |records|
    decreases |records|
  {
    if records != [] {
      SortKeepsLength(records[..|records| - 1]);
      InsertKeepsLength(SortByGroupIndex(records[..|records| - 1]), records[|records| - 1]);
    }
  }

  predicate Distinct(s: Records) {
    forall i, j :: 0 <= i < j < |s| ==> s[i] != s[j]
  }

  lemma {:induction false} InsertKeepsDistinct(sorted: Records, r: InboxRecord)
    requires Distinct(sorted) && r !in sorted
    ensures Distinct(InsertByIndex(sorted, r))
    decreases |sorted|
  {
    if sorted != [] && r.operation.groupIndex < sorted[|sorted| - 1].operation.groupIndex {
      var n := |sorted| - 1;
      InsertKeepsDistinct(sorted[..n], r);
      InsertHolds(sorted[..n], r, sorted[n]);
    }
  }

  lemma {:induction false} SortKeepsDistinct(records: Records)
    requires Distinct(records)
    ensures Distinct(SortByGroupIndex(records))
    decreases |records|
  {
    if records != [] {
      var n := |records| - 1;
      SortKeepsDistinct(records[..n]);
      SortHolds(records[..n], records[n]);
      InsertKeepsDistinct(SortByGroupIndex(records[..n]), records[n]);
    }
  }

  lemma {:induction false} SortRises(records: Records)
    ensures IndexesRise(SortByGroupIndex(records))
    decreases |records|
  {
    if records != [] {
      SortRises(records[..|records| - 1]);
      InsertRises(SortByGroupIndex(records[..|records| - 1]), records[|records| - 1]);
    }
  }

  // ---- What is offered ----

  predicate CursorsRise(groups: seq<Records>) {
    forall i, j :: 0 <= i < j < |groups| ==> FirstCursor(groups[i]) <= FirstCursor(groups[j])
  }

  lemma {:induction false} InsertGroupHolds(sorted: seq<Records>, g: Records, x: Records)
    ensures x in InsertByCursor(sorted, g) <==> x == g || x in sorted
    decreases |sorted|
  {
    if sorted != [] && FirstCursor(g) < FirstCursor(sorted[|sorted| - 1]) {
      InsertGroupHolds(sorted[..|sorted| - 1], g, x);
      assert sorted == sorted[..|sorted| - 1] + [sorted[|sorted| - 1]];
    }
  }

  lemma {:induction false} InsertGroupRises(sorted: seq<Records>, g: Records)
    requires CursorsRise(sorted)
    ensures CursorsRise(InsertByCursor(sorted, g))
    decreases |sorted|
  {
    if sorted != [] && FirstCursor(g) < FirstCursor(sorted[|sorted| - 1]) {
      var n := |sorted| - 1;
      InsertGroupRises(sorted[..n], g);
      forall x | x in InsertByCursor(sorted[..n], g) ensures FirstCursor(x) <= FirstCursor(sorted[n]) {
        InsertGroupHolds(sorted[..n], g, x);
      }
    }
  }

  lemma {:induction false} SortedGroupsAre(records: Records, ids: seq<OpaqueId>, g: Records)
    ensures g in SortedGroups(records, ids) <==> exists id :: id in ids && g == GroupOf(records, id)
    decreases |ids|
  {
    if ids != [] {
      var n := |ids| - 1;
      SortedGroupsAre(records, ids[..n], g);
      InsertGroupHolds(SortedGroups(records, ids[..n]), GroupOf(records, ids[n]), g);
      assert ids == ids[..n] + [ids[n]];
      assert forall id :: id in ids <==> id in ids[..n] || id == ids[n];
    }
  }

  lemma {:induction false} SortedGroupsRise(records: Records, ids: seq<OpaqueId>)
    ensures CursorsRise(SortedGroups(records, ids))
    decreases |ids|
  {
    if ids != [] {
      SortedGroupsRise(records, ids[..|ids| - 1]);
      InsertGroupRises(SortedGroups(records, ids[..|ids| - 1]), GroupOf(records, ids[|ids| - 1]));
    }
  }

  lemma GroupOfHolds(records: Records, id: OpaqueId)
    ensures forall x :: x in GroupOf(records, id) <==> x in records && GroupId(x) == id
    ensures IndexesRise(GroupOf(records, id)) && |GroupOf(records, id)| == |Members(records, id)|
  {
    SortRises(Members(records, id));
    forall x ensures x in GroupOf(records, id) <==> x in records && GroupId(x) == id {
      SortHolds(Members(records, id), x);
      MembersAre(records, id, x);
    }
    SortKeepsLength(Members(records, id));
  }

  /** The groups are offered in the order of their first cursors, and each is one whole group. */
  lemma OfferedAreGroups(records: Records, g: Records) returns (id: OpaqueId)
    requires Grouped(records).Some? && g in Grouped(records).value
    ensures g == GroupOf(records, id) && HasItsSize(Members(records, id)) && |g| == |Members(records, id)|
    ensures IndexesRise(g) && forall x :: x in g <==> x in records && GroupId(x) == id
    ensures CursorsRise(Grouped(records).value)
  {
    SortedGroupsAre(records, GroupIds(records), g);
    SortedGroupsRise(records, GroupIds(records));
    id :| id in GroupIds(records) && g == GroupOf(records, id);
    GroupOfHolds(records, id);
  }

  predicate IdsDiffer(groups: seq<Records>) {
    && (forall i :: 0 <= i < |groups| ==> groups[i] != [])
    && forall i, j :: 0 <= i < j < |groups| ==> GroupId(groups[i][0]) != GroupId(groups[j][0])
  }

  predicate OtherId(groups: seq<Records>, id: OpaqueId) {
    forall g :: g in groups ==> g != [] && GroupId(g[0]) != id
  }

  lemma SnocDiffers(groups: seq<Records>, g: Records)
    requires IdsDiffer(groups) && g != [] && OtherId(groups, GroupId(g[0]))
    ensures IdsDiffer(groups + [g])
  {
    var all := groups + [g];
    forall i, j | 0 <= i < j < |all| ensures GroupId(all[i][0]) != GroupId(all[j][0]) {
      assert all[i] == groups[i] && groups[i] in groups;
    }
  }

  lemma {:induction false} InsertDiffers(sorted: seq<Records>, g: Records)
    requires IdsDiffer(sorted) && g != [] && OtherId(sorted, GroupId(g[0]))
    ensures IdsDiffer(InsertByCursor(sorted, g))
    decreases |sorted|
  {
    if sorted != [] && FirstCursor(g) < FirstCursor(sorted[|sorted| - 1]) {
      var n := |sorted| - 1;
      assert sorted[n] in sorted && forall x :: x in sorted[..n] ==> x in sorted;
      InsertDiffers(sorted[..n], g);
      forall x | x in InsertByCursor(sorted[..n], g) ensures x != [] && GroupId(x[0]) != GroupId(sorted[n][0]) {
        InsertGroupHolds(sorted[..n], g, x);
      }
      SnocDiffers(InsertByCursor(sorted[..n], g), sorted[n]);
    } else {
      SnocDiffers(sorted, g);
    }
  }

  lemma GroupOfStarts(records: Records, id: OpaqueId)
    requires id in GroupIds(records)
    ensures GroupOf(records, id) != [] && GroupId(GroupOf(records, id)[0]) == id
  {
    GroupIdsAre(records, id);
    GroupOfHolds(records, id);
    var r :| r in records && GroupId(r) == id;
    assert r in GroupOf(records, id) && GroupOf(records, id)[0] in GroupOf(records, id);
  }

  lemma {:induction false} SortedGroupsDiffer(records: Records, n: nat)
    requires n <= |GroupIds(records)|
    ensures IdsDiffer(SortedGroups(records, GroupIds(records)[..n]))
    decreases n
  {
    if n > 0 {
      var ids, id := GroupIds(records)[..n - 1], GroupIds(records)[n - 1];
      assert GroupIds(records)[..n] == ids + [id] && (ids + [id])[..n - 1] == ids;
      SortedGroupsDiffer(records, n - 1);
      GroupIdsDiffer(records);
      GroupOfStarts(records, id);
      forall g | g in SortedGroups(records, ids) ensures g != [] && GroupId(g[0]) != id {
        SortedGroupsAre(records, ids, g);
        var other :| other in ids && g == GroupOf(records, other);
        GroupOfStarts(records, other);
      }
      InsertDiffers(SortedGroups(records, ids), GroupOf(records, id));
    }
  }

  /** Every waiting record is offered, in exactly one place: the offered groups have different ids. */
  lemma EachIsOfferedOnce(records: Records, r: InboxRecord)
    requires Grouped(records).Some? && r in records
    ensures GroupOf(records, GroupId(r)) in Grouped(records).value && r in GroupOf(records, GroupId(r))
    ensures forall g :: g in Grouped(records).value && r in g ==> g == GroupOf(records, GroupId(r))
    ensures IdsDiffer(Grouped(records).value)
  {
    GroupIdsAre(records, GroupId(r));
    SortedGroupsAre(records, GroupIds(records), GroupOf(records, GroupId(r)));
    GroupOfHolds(records, GroupId(r));
    forall g | g in Grouped(records).value && r in g ensures g == GroupOf(records, GroupId(r)) {
      var id := OfferedAreGroups(records, g);
    }
    SortedGroupsDiffer(records, |GroupIds(records)|);
    assert GroupIds(records)[..|GroupIds(records)|] == GroupIds(records);
  }

  /** The read fails exactly when some group has not as many records as its first one says. */
  lemma IncompleteIff(records: Records)
    ensures Grouped(records).None? <==>
      exists r :: r in records && !HasItsSize(Members(records, GroupId(r)))
  {
    forall id
      ensures id in GroupIds(records) <==> exists r :: r in records && GroupId(r) == id
    {
      GroupIdsAre(records, id);
    }
    if Grouped(records).None? {
      var id :| id in GroupIds(records) && !HasItsSize(Members(records, id));
      var r :| r in records && GroupId(r) == id;
    }
  }

  // ---- A staged group comes back whole ----

  predicate IndexedFrom0(g: Records) {
    forall i :: 0 <= i < |g| ==> g[i].operation.groupIndex == i
  }

  /** Records in rising order of index are the group itself. */
  lemma {:induction false} SortRestores(group: Records, read: Records, k: nat)
    requires IndexedFrom0(group) && IndexesRise(read) && Distinct(read) && |read| == |group| && k <= |group|
    requires forall r :: r in read <==> r in group
    ensures read[..k] == group[..k]
    decreases k
  {
    if k > 0 {
      SortRestores(group, read, k - 1);
      assert read[k - 1] in read && group[k - 1] in group;
      var i :| 0 <= i < |group| && group[i] == read[k - 1];
      var j :| 0 <= j < |read| && read[j] == group[k - 1];
      assert forall m :: 0 <= m < k - 1 ==> read[m] == read[..k - 1][m] == group[m];
    }
  }

  lemma {:induction false} OneGroupOnly(records: Records, id: OpaqueId)
    requires records != [] && forall r :: r in records ==> GroupId(r) == id
    ensures GroupIds(records) == [id] && Members(records, id) == records
    decreases |records|
  {
    var n := |records| - 1;
    assert records[n] in records && records == records[..n] + [records[n]];
    if n > 0 { OneGroupOnly(records[..n], id); }
  }

  lemma SortRestoresGroup(group: Records, read: Records)
    requires IndexedFrom0(group) && Distinct(read) && |read| == |group|
    requires forall r :: r in read <==> r in group
    ensures SortByGroupIndex(read) == group
  {
    var sorted := SortByGroupIndex(read);
    SortRises(read);
    SortKeepsLength(read);
    SortKeepsDistinct(read);
    forall r ensures r in sorted <==> r in group { SortHolds(read, r); }
    SortRestores(group, sorted, |group|);
    assert sorted[..|group|] == sorted && group[..|group|] == group;
  }

  lemma SoleGroup(records: Records, id: OpaqueId)
    ensures SortedGroups(records, [id]) == [GroupOf(records, id)]
  {
    assert [id][..0] == [];
    assert SortedGroups(records, []) == [];
  }

  lemma AloneIsOffered(read: Records, id: OpaqueId)
    requires read != [] && forall r :: r in read ==> GroupId(r) == id && r.operation.groupSize == |read|
    ensures Grouped(read) == Some([SortByGroupIndex(read)])
  {
    assert read[0] in read;
    OneGroupOnly(read, id);
    SoleGroup(read, id);
    assert HasItsSize(read);
  }

  /** A complete group waiting alone is offered as it was sent, in whatever order its records are read. */
  lemma WaitingGroupComesBack(group: Records, read: Records, id: OpaqueId)
    requires group != [] && IndexedFrom0(group) && Distinct(read) && |read| == |group|
    requires forall r :: r in group ==> GroupId(r) == id && r.operation.groupSize == |group|
    requires forall r :: r in read <==> r in group
    ensures Grouped(read) == Some([group])
  {
    SortRestoresGroup(group, read);
    AloneIsOffered(read, id);
  }
}
