/** The feed of recently added items: each scan records a batch and prunes the table to the newest
    fifty. Exactly when is the bounded table what pruning the whole history would leave? */
module RecentFeed {
  import opened ByteOrder
  import opened Domain
  import Decimal
  import Timestamps

  const SCAN_BATCH: nat := 30
  const KEEP_LATEST: nat := 50

  // ----- the order of the feed, on ids and stored date texts -----

  /** ORDER BY date_created DESC, emby_item_id DESC */
  ghost predicate Newer(dates: map<string, string>, a: string, b: string)
    requires a in dates && b in dates
  {
    Below(dates[b], dates[a]) || (dates[b] == dates[a] && Below(b, a))
  }

  lemma NewerTotal(dates: map<string, string>, a: string, b: string)
    requires a in dates && b in dates && a != b
    ensures Newer(dates, a, b) <==> !Newer(dates, b, a)
  {
    BelowTrichotomy(dates[a], dates[b]);
    BelowTrichotomy(a, b);
    BelowIrreflexive(dates[a]);
  }

  lemma NewerTransitive(dates: map<string, string>, a: string, b: string, c: string)
    requires a in dates && b in dates && c in dates && Newer(dates, a, b) && Newer(dates, b, c)
    ensures Newer(dates, a, c) && a != c
  {
    if Below(dates[b], dates[a]) && Below(dates[c], dates[b]) {
      BelowTransitive(dates[c], dates[b], dates[a]);
    } else if dates[b] == dates[a] && dates[c] == dates[b] {
      BelowTransitive(c, b, a);
    }
    BelowIrreflexive(dates[a]);
    BelowIrreflexive(a);
  }

  ghost function NewerThan(stored: set<string>, dates: map<string, string>, b: string): set<string>
    requires b in dates && stored <= dates.Keys
  {
    set a | a in stored && Newer(dates, a, b)
  }

  /** The stored items are the `keep` newest of all items. */
  ghost predicate IsTop(stored: set<string>, dates: map<string, string>, keep: nat) {
    && stored <= dates.Keys
    && |stored| == (if |dates| < keep then |dates| else keep)
    && (forall a, b :: a in stored && b in dates && b !in stored ==> Newer(dates, a, b))
  }

  /** Every item that is not stored has `keep` newer ones that are. */
  ghost predicate Covers(stored: set<string>, dates: map<string, string>, keep: nat) {
    stored <= dates.Keys && forall b :: b in dates && b !in stored ==> |NewerThan(stored, dates, b)| >= keep
  }

  lemma {:induction false} SubsetSize(small: set<string>, big: set<string>)
    requires small <= big
    ensures |small| <= |big| && (|small| == |big| ==> small == big)
  {
    assert big == small + (big - small);
  }

  /** There is only one set of the newest items. */
  lemma TopIsUnique(s: set<string>, t: set<string>, dates: map<string, string>, keep: nat)
    requires IsTop(s, dates, keep) && IsTop(t, dates, keep)
    ensures s == t
  {
    if s != t {
      if s <= t {
        SubsetSize(s, t);
      }
      if t <= s {
        SubsetSize(t, s);
      }
      var a :| a in s && a !in t;
      var b :| b in t && b !in s;
      NewerTotal(dates, a, b);
    }
  }

  lemma TopCovers(stored: set<string>, dates: map<string, string>, keep: nat)
    requires IsTop(stored, dates, keep)
    ensures Covers(stored, dates, keep)
  {
    forall b | b in dates && b !in stored
      ensures |NewerThan(stored, dates, b)| >= keep
    {
      assert NewerThan(stored, dates, b) == stored;
      SubsetSize(stored + {b}, dates.Keys);
      assert |dates| == |dates.Keys|;
    }
  }

  // ----- an upsert -----

  // Of two versions of the order only `id` differs, and it did not get older.
  lemma NewerKept(dates: map<string, string>, id: string, date: string, a: string, b: string)
    requires a in dates && b in dates && b != id && Newer(dates, a, b)
    requires id in dates ==> !Below(date, dates[id])
    ensures Newer(dates[id := date], a, b)
  {
    if a == id {
      BelowTrichotomy(date, dates[id]);
      if Below(dates[b], dates[id]) && Below(dates[id], date) {
        BelowTransitive(dates[b], dates[id], date);
      }
    }
  }

  /** Recording a version that is not older than the last one keeps the cover. */
  lemma UpsertCovers(stored: set<string>, dates: map<string, string>, keep: nat, id: string, date: string)
    requires Covers(stored, dates, keep)
    requires id in dates ==> !Below(date, dates[id])
    ensures Covers(stored + {id}, dates[id := date], keep)
  {
    var dates' := dates[id := date];
    forall b | b in dates' && b !in stored + {id}
      ensures |NewerThan(stored + {id}, dates', b)| >= keep
    {
      forall a | a in NewerThan(stored, dates, b)
        ensures a in NewerThan(stored + {id}, dates', b)
      {
        NewerKept(dates, id, date, a, b);
      }
      SubsetSize(NewerThan(stored, dates, b), NewerThan(stored + {id}, dates', b));
    }
  }

  // ----- a prune -----

  lemma KeptIsNewer(stored: set<string>, kept: set<string>, own: map<string, string>, dates: map<string, string>, keep: nat, a: string, b: string)
    requires Covers(stored, dates, keep) && own.Keys == stored && (forall x :: x in stored ==> own[x] == dates[x])
    requires IsTop(kept, own, keep) && a in kept && b in dates && b !in kept
    ensures Newer(dates, a, b)
  {
    if b in stored {
      assert Newer(own, a, b);
    } else {
      var newer := NewerThan(stored, dates, b);
      if a !in newer {
        if newer <= kept {
          SubsetSize(newer + {a}, kept);
        } else {
          var n :| n in newer && n !in kept;
          assert Newer(own, a, n);
          NewerTransitive(dates, a, n, b);
        }
      }
    }
  }

  lemma PruneOfCover(stored: set<string>, kept: set<string>, own: map<string, string>, dates: map<string, string>, keep: nat)
    requires Covers(stored, dates, keep) && own.Keys == stored && (forall x :: x in stored ==> own[x] == dates[x])
    requires IsTop(kept, own, keep)
    ensures IsTop(kept, dates, keep)
  {
    forall a, b | a in kept && b in dates && b !in kept
      ensures Newer(dates, a, b)
    {
      KeptIsNewer(stored, kept, own, dates, keep, a, b);
    }
    assert |own| == |own.Keys| && |dates| == |dates.Keys|;
    if stored == dates.Keys {
    } else {
      SubsetSize(stored, dates.Keys);
      var b :| b in dates && b !in stored;
      SubsetSize(NewerThan(stored, dates, b), stored);
    }
  }

  lemma MoreCover(few: set<string>, more: set<string>, dates: map<string, string>, keep: nat)
    requires Covers(few, dates, keep) && few <= more <= dates.Keys
    ensures Covers(more, dates, keep)
  {
    forall b | b in dates && b !in more
      ensures |NewerThan(more, dates, b)| >= keep
    {
      SubsetSize(NewerThan(few, dates, b), NewerThan(more, dates, b));
    }
  }

  /** Pruning a table leaves the newest of everything ever seen exactly when the table covers it: when
      every item that was forgotten has `keep` newer ones in the table. */
  lemma PruneLeavesTop(stored: set<string>, kept: set<string>, own: map<string, string>, dates: map<string, string>, keep: nat)
    requires stored <= dates.Keys && own.Keys == stored && (forall x :: x in stored ==> own[x] == dates[x])
    requires IsTop(kept, own, keep)
    ensures IsTop(kept, dates, keep) <==> Covers(stored, dates, keep)
  {
    if Covers(stored, dates, keep) {
      PruneOfCover(stored, kept, own, dates, keep);
    } else if IsTop(kept, dates, keep) {
      TopCovers(kept, dates, keep);
      MoreCover(kept, stored, dates, keep);
    }
  }

  // ----- the table has a last row -----

  lemma {:induction false} OldestOf(dates: map<string, string>, candidates: set<string>) returns (last: string)
    requires candidates != {} && candidates <= dates.Keys
    ensures last in candidates && forall a :: a in candidates && a != last ==> Newer(dates, a, last)
    decreases |candidates|
  {
    var b :| b in candidates;
    var rest := candidates - {b};
    assert candidates == rest + {b};
    if rest == {} {
      last := b;
    } else {
      last := OldestOf(dates, rest);
      NewerTotal(dates, b, last);
      if Newer(dates, last, b) {
        forall a | a in candidates && a != b
          ensures Newer(dates, a, b)
        {
          if a != last {
            NewerTransitive(dates, a, last, b);
          }
        }
        last := b;
      }
    }
  }

  lemma {:induction false} TopExists(dates: map<string, string>, keep: nat) returns (top: set<string>)
    ensures IsTop(top, dates, keep)
    decreases |dates|
  {
    assert |dates| == |dates.Keys|;
    if |dates| <= keep {
      top := dates.Keys;
    } else {
      var last := OldestOf(dates, dates.Keys);
      var others := dates - {last};
      assert others.Keys == dates.Keys - {last} && |others| == |others.Keys|;
      top := TopExists(others, keep);
      forall a, b | a in top && b in dates && b !in top
        ensures Newer(dates, a, b)
      {
        assert b != last ==> Newer(others, a, b);
      }
    }
  }

  // ----- a scan -----

  /** An item of Emby's list; it may come without an id or a readable date. */
  datatype Item = Item(id: string, tmdbId: int, mediaType: string, title: string, created: Option<string>)

  // An item without a date is anchored to the scan.
  function DateOf(item: Item, now: string): string {
    if item.created.Some? then item.created.value else now
  }

  /** The last recorded version of every item, after a batch; items without an id are passed over. */
  function Seen(dates: map<string, string>, items: seq<Item>, now: string): map<string, string> {
    if items == [] then dates
    else
      var earlier, item := Seen(dates, items[..|items| - 1], now), items[|items| - 1];
      if item.id == "" then earlier else earlier[item.id := DateOf(item, now)]
  }

  /** No item of the batch is dated before its last recorded version. */
  ghost predicate NeverOlder(dates: map<string, string>, items: seq<Item>, now: string) {
    forall i :: 0 <= i < |items| && items[i].id in Seen(dates, items[..i], now) ==>
      !Below(DateOf(items[i], now), Seen(dates, items[..i], now)[items[i].id])
  }

  // The ids that a batch records.
  function IdsOf(items: seq<Item>): set<string> {
    set i | 0 <= i < |items| && items[i].id != "" :: items[i].id
  }

  function Among(dates: map<string, string>, ids: set<string>): map<string, string> {
    map id | id in dates && id in ids :: dates[id]
  }

  /** What the table holds, and every item ever seen with its last recorded date. */
  datatype FeedState = FeedState(stored: set<string>, latest: map<string, string>)

  /** A scan: the batch, its time, how many items of it were recorded, and whether the prune was reached. */
  datatype Scan = Scan(items: seq<Item>, now: string, recorded: nat, pruned: bool)

  function Merged(s: FeedState, scan: Scan): set<string>
    requires scan.recorded <= |scan.items|
  {
    s.stored + IdsOf(scan.items[..scan.recorded])
  }

  ghost predicate Scans(s: FeedState, scan: Scan, s': FeedState) {
    && scan.recorded <= |scan.items| && (scan.pruned ==> scan.recorded == |scan.items|)
    && s'.latest == Seen(s.latest, scan.items[..scan.recorded], scan.now)
    && if scan.pruned then IsTop(s'.stored, Among(s'.latest, Merged(s, scan)), KEEP_LATEST) else s'.stored == Merged(s, scan)
  }

  ghost predicate IsRight(s: FeedState) {
    IsTop(s.stored, s.latest, KEEP_LATEST)
  }

  lemma {:induction false} SeenKeys(dates: map<string, string>, items: seq<Item>, now: string)
    ensures Seen(dates, items, now).Keys == dates.Keys + IdsOf(items)
  {
    if items != [] {
      var front, last := items[..|items| - 1], items[|items| - 1];
      SeenKeys(dates, front, now);
      IdsOfMore(front, last);
      assert items == front + [last];
    }
  }

  lemma SeenMore(dates: map<string, string>, items: seq<Item>, item: Item, now: string)
    ensures Seen(dates, items + [item], now) ==
      if item.id == "" then Seen(dates, items, now) else Seen(dates, items, now)[item.id := DateOf(item, now)]
    ensures IdsOf(items + [item]) == IdsOf(items) + if item.id == "" then {} else {item.id}
  {
    assert (items + [item])[..|items|] == items;
    IdsOfMore(items, item);
  }

  lemma IdsOfMore(items: seq<Item>, item: Item)
    ensures IdsOf(items + [item]) == IdsOf(items) + if item.id == "" then {} else {item.id}
  {
    var more := items + [item];
    assert forall i :: 0 <= i < |items| ==> more[i] == items[i];
    assert more[|items|] == item;
  }

  lemma SeenNothing(dates: map<string, string>, now: string)
    ensures Seen(dates, [], now) == dates && IdsOf([]) == {}
  {
  }

  lemma NeverOlderFront(dates: map<string, string>, items: seq<Item>, now: string)
    requires NeverOlder(dates, items, now) && items != []
    ensures var front, last := items[..|items| - 1], items[|items| - 1];
      && NeverOlder(dates, front, now)
      && (last.id in Seen(dates, front, now) ==> !Below(DateOf(last, now), Seen(dates, front, now)[last.id]))
  {
    var front := items[..|items| - 1];
    forall i | 0 <= i < |front|
      ensures front[i] == items[i] && front[..i] == items[..i]
    {
    }
    hide Seen, Below, DateOf;
  }

  lemma {:induction false} SeenCovers(stored: set<string>, dates: map<string, string>, items: seq<Item>, now: string, keep: nat)
    requires Covers(stored, dates, keep) && NeverOlder(dates, items, now)
    ensures Covers(stored + IdsOf(items), Seen(dates, items, now), keep)
  {
    hide Covers, NeverOlder, Below, Seen, IdsOf;
    if items == [] {
      SeenNothing(dates, now);
      assert stored + {} == stored;
    } else {
      var front, last := items[..|items| - 1], items[|items| - 1];
      NeverOlderFront(dates, items, now);
      SeenCovers(stored, dates, front, now, keep);
      SeenMore(dates, front, last, now);
      assert items == front + [last];
      if last.id != "" {
        UpsertCovers(stored + IdsOf(front), Seen(dates, front, now), keep, last.id, DateOf(last, now));
        assert stored + IdsOf(items) == stored + IdsOf(front) + {last.id};
      } else {
        assert stored + IdsOf(items) == stored + IdsOf(front);
      }
    }
  }

  /** A complete scan leaves the newest fifty of all items ever seen exactly when every forgotten item has
      fifty newer ones among the old rows and the batch. */
  lemma ScanIsExact(s: FeedState, scan: Scan, s': FeedState)
    requires s.stored <= s.latest.Keys && Scans(s, scan, s')
    ensures Merged(s, scan) <= s'.latest.Keys && s'.stored <= s'.latest.Keys
    ensures scan.pruned ==> (IsRight(s') <==> Covers(Merged(s, scan), s'.latest, KEEP_LATEST))
    ensures Covers(Merged(s, scan), s'.latest, KEEP_LATEST) ==> Covers(s'.stored, s'.latest, KEEP_LATEST)
  {
    SeenKeys(s.latest, scan.items[..scan.recorded], scan.now);
    hide Covers;
    if scan.pruned {
      var own := Among(s'.latest, Merged(s, scan));
      assert own.Keys == Merged(s, scan);
      PruneLeavesTop(Merged(s, scan), s'.stored, own, s'.latest, KEEP_LATEST);
      if IsRight(s') {
        TopCovers(s'.stored, s'.latest, KEEP_LATEST);
      }
    }
  }

  // ----- runs of scans -----

  datatype FeedRun = FeedRun(scans: seq<Scan>, states: seq<FeedState>)

  ghost predicate Advances(run: FeedRun, n: nat)
    requires n < |run.scans| && |run.states| == |run.scans| + 1
  {
    Scans(run.states[n], run.scans[n], run.states[n + 1])
  }

  /** Scans from the empty table on, each as Feed.ScanOnce ends; some failed on their way. */
  ghost predicate IsFeedRun(run: FeedRun) {
    && |run.states| == |run.scans| + 1 && run.states[0] == FeedState({}, map[])
    && forall n: nat :: n < |run.scans| ==> Advances(run, n)
  }

  lemma {:induction false} StoredIsSeen(run: FeedRun, n: nat)
    requires IsFeedRun(run) && n <= |run.scans|
    ensures run.states[n].stored <= run.states[n].latest.Keys
  {
    if n > 0 {
      StoredIsSeen(run, n - 1);
      assert Advances(run, n - 1);
      ScanIsExact(run.states[n - 1], run.scans[n - 1], run.states[n]);
    }
  }

  /** In every run, whatever was lost before, a complete scan ends with the right table exactly when every
      item that the table does not know by then has fifty newer ones in it. */
  lemma FeedIsExact(run: FeedRun, n: nat)
    requires IsFeedRun(run) && n < |run.scans| && run.scans[n].pruned && run.scans[n].recorded == |run.scans[n].items|
    ensures IsRight(run.states[n + 1]) <==> Covers(Merged(run.states[n], run.scans[n]), run.states[n + 1].latest, KEEP_LATEST)
  {
    hide Covers, IsTop;
    StoredIsSeen(run, n);
    assert Advances(run, n);
    ScanIsExact(run.states[n], run.scans[n], run.states[n + 1]);
  }

  ghost predicate NothingOlder(run: FeedRun, n: nat)
    requires n < |run.scans| && n < |run.states|
  {
    run.scans[n].recorded <= |run.scans[n].items| &&
    NeverOlder(run.states[n].latest, run.scans[n].items[..run.scans[n].recorded], run.scans[n].now)
  }

  /** While no item is dated before its last recorded version, the table covers everything ever seen,
      after failed scans too, and is right after every complete one. */
  lemma {:induction false} RightWithoutOlderDates(run: FeedRun, n: nat)
    requires IsFeedRun(run) && n <= |run.scans|
    requires forall i: nat :: i < n ==> NothingOlder(run, i)
    ensures Covers(run.states[n].stored, run.states[n].latest, KEEP_LATEST)
    ensures n > 0 && run.scans[n - 1].pruned ==> IsRight(run.states[n])
  {
    hide IsTop;
    if n > 0 {
      var s, scan, s' := run.states[n - 1], run.scans[n - 1], run.states[n];
      RightWithoutOlderDates(run, n - 1);
      StoredIsSeen(run, n - 1);
      assert Advances(run, n - 1) && NothingOlder(run, n - 1);
      SeenCovers(s.stored, s.latest, scan.items[..scan.recorded], scan.now, KEEP_LATEST);
      ScanIsExact(s, scan, s');
    }
  }

  // ----- the rows -----

  datatype RequestStatus = RequestPending | RequestFulfilled | RequestRejected

  datatype MediaRequest = MediaRequest(tmdbId: int, mediaType: string, full: bool, status: RequestStatus, updatedAt: string)

  datatype Row = Row(
    tmdbId: int, mediaType: string, title: string, dateCreated: string, firstSeenAt: string, requestId: nat, updatedAt: string)

  datatype Listed = Listed(id: string, row: Row)

  function Ids(items: seq<Listed>): seq<string> {
    seq(|items|, i requires 0 <= i < |items| => items[i].id)
  }

  function Dates(rows: map<string, Row>): map<string, string> {
    map id | id in rows :: rows[id].dateCreated
  }

  /** A request that an addition answers. */
  predicate Answers(request: MediaRequest, item: Item) {
    request.status == RequestPending && request.full && request.tmdbId == item.tmdbId && request.mediaType == item.mediaType
  }

  /** The row carries what was just seen of the item; without a date it is dated to the scan. */
  ghost predicate AsSeen(row: Row, item: Item, now: string) {
    && row.tmdbId == item.tmdbId && row.mediaType == item.mediaType && row.title == item.title && row.updatedAt == now
    && (item.created.Some? ==> row.dateCreated == item.created.value) && (item.created.None? ==> row.dateCreated == now)
  }

  /** A pending request for the whole of this title. */
  ghost predicate AsksFor(request: MediaRequest, item: Item) {
    request.status.RequestPending? && request.full && request.tmdbId == item.tmdbId && request.mediaType == item.mediaType
  }

  ghost predicate NothingAsked(requests: map<nat, MediaRequest>, item: Item) {
    forall r :: r in requests ==> !AsksFor(requests[r], item)
  }

  // The items of a batch that have an id.
  function Given(items: seq<Item>): nat {
    if items == [] then 0 else Given(items[..|items| - 1]) + if items[|items| - 1].id == "" then 0 else 1
  }

  lemma GivenMore(items: seq<Item>, item: Item)
    ensures Given(items + [item]) == Given(items) + (if item.id == "" then 0 else 1) && Given([]) == 0
  {
    assert (items + [item])[..|items|] == items;
  }

  /** INSERT ... ON CONFLICT DO UPDATE: the first sighting and the first request stay. */
  function Recorded(rows: map<string, Row>, item: Item, requestId: nat, now: string): Row {
    var row := Row(item.tmdbId, item.mediaType, item.title, DateOf(item, now), now, requestId, now);
    if item.id in rows then
      row.(firstSeenAt := rows[item.id].firstSeenAt, requestId := if rows[item.id].requestId == 0 then requestId else rows[item.id].requestId)
    else row
  }

  /** Requests only ever go from pending to fulfilled. */
  ghost predicate OnlyFulfilled(before: map<nat, MediaRequest>, after: map<nat, MediaRequest>) {
    after.Keys == before.Keys &&
    forall r :: r in before ==>
      after[r] == before[r] || (before[r].status == RequestPending && before[r].full &&
        after[r] == before[r].(status := RequestFulfilled, updatedAt := after[r].updatedAt))
  }

  function Members(ids: seq<string>): set<string> {
    set id | id in ids
  }

  /** Known ids, each once, newest first. */
  ghost predicate InOrder(ids: seq<string>, dates: map<string, string>) {
    && (forall i :: 0 <= i < |ids| ==> ids[i] in dates)
    && (forall i, j :: 0 <= i < j < |ids| ==> ids[i] != ids[j] && Newer(dates, ids[i], ids[j]))
  }

  lemma RankedOneMore(ids: seq<string>, dates: map<string, string>, rest: set<string>, first: string)
    requires InOrder(ids, dates) && rest <= dates.Keys && Members(ids) == dates.Keys - rest && first in rest
    requires forall a, b :: a in dates && a !in rest && b in rest ==> Newer(dates, a, b)
    ensures InOrder(ids + [first], dates) && Members(ids + [first]) == dates.Keys - (rest - {first})
  {
    hide Newer;
    forall i | 0 <= i < |ids|
      ensures ids[i] != first && Newer(dates, ids[i], first)
    {
      assert ids[i] in Members(ids);
    }
    assert Members(ids + [first]) == Members(ids) + {first};
  }

  lemma TopWhenRanked(ids: seq<string>, dates: map<string, string>, rest: set<string>, limit: nat)
    requires InOrder(ids, dates) && rest <= dates.Keys && Members(ids) == dates.Keys - rest && |ids| + |rest| == |dates.Keys|
    requires forall a, b :: a in dates && a !in rest && b in rest ==> Newer(dates, a, b)
    requires |ids| <= limit && (|ids| == limit || rest == {})
    ensures IsTop(Members(ids), dates, limit)
  {
    hide Newer;
    assert Members(ids) + rest == dates.Keys;
    assert |Members(ids) + rest| == |Members(ids)| + |rest|;
    assert |dates| == |dates.Keys|;
  }

  class Feed {
    var rows: map<string, Row>
    var requests: map<nat, MediaRequest>
    ghost var latest: map<string, string>
    ghost var writes: seq<bool>

    /** The rows carry the last recorded dates of items that were seen. */
    ghost predicate Valid()
      reads this
    {
      && (forall id :: id in rows ==> id in latest && latest[id] == rows[id].dateCreated)
      && 0 !in requests
    }

    ghost function State(): FeedState
      reads this
    {
      FeedState(rows.Keys, latest)
    }

    constructor ()
      ensures Valid() && State() == FeedState({}, map[])
    {
      rows, requests, latest, writes := map[], map[], map[], [];
    }

    /** One transaction, which may fail to be stored: the row as it was just seen, with its first sighting
        and its first request kept, and at most one pending full request of that title fulfilled. */
    method UpsertRecentlyAdded(item: Item, now: string) returns (requestId: nat, ok: bool)
      requires 0 !in requests
      modifies `rows, `requests, `writes
      ensures writes == old(writes) + [ok]
      ensures !ok ==> rows == old(rows) && requests == old(requests)
      ensures ok ==> item.id in rows && rows == old(rows)[item.id := rows[item.id]] && AsSeen(rows[item.id], item, now)
      ensures ok ==> rows[item.id].firstSeenAt == if item.id in old(rows) then old(rows)[item.id].firstSeenAt else now
      ensures ok && item.id in old(rows) && old(rows)[item.id].requestId != 0 ==> rows[item.id].requestId == old(rows)[item.id].requestId
      ensures ok && (item.id in old(rows) ==> old(rows)[item.id].requestId == 0) ==> rows[item.id].requestId == requestId
      ensures ok && requestId == 0 ==> requests == old(requests) && (item.tmdbId > 0 ==> NothingAsked(requests, item))
      ensures ok && requestId > 0 ==>
        && item.tmdbId > 0 && requestId in old(requests) && AsksFor(old(requests)[requestId], item)
        && requests == old(requests)[requestId := old(requests)[requestId].(status := RequestFulfilled, updatedAt := now)]
    {
      requestId := 0;
      ok := *;
      writes := writes + [ok];
      if !ok {
        return;
      }
      if item.tmdbId > 0 {
        if r :| r in requests && Answers(requests[r], item) {
          requestId := r;
          requests := requests[r := requests[r].(status := RequestFulfilled, updatedAt := now)];
        }
      }
      rows := rows[item.id := Recorded(rows, item, requestId, now)];
    }

    method NewestOf(candidates: set<string>) returns (first: string)
      requires candidates != {} && candidates <= rows.Keys
      ensures first in candidates && forall a :: a in candidates && a != first ==> Newer(Dates(rows), first, a)
    {
      first :| first in candidates;
      var rest := candidates - {first};
      while rest != {}
        invariant first in candidates && first !in rest && rest <= candidates
        invariant forall a :: a in candidates && a !in rest && a != first ==> Newer(Dates(rows), first, a)
        decreases |rest|
      {
        var next :| next in rest;
        NewerTotal(Dates(rows), first, next);
        if Below(rows[first].dateCreated, rows[next].dateCreated) || (rows[first].dateCreated == rows[next].dateCreated && Below(first, next)) {
          forall a | a in candidates && a !in rest - {next} && a != next
            ensures Newer(Dates(rows), next, a)
          {
            if a != first {
              NewerTransitive(Dates(rows), next, first, a);
            }
          }
          first := next;
        }
        rest := rest - {next};
      }
    }

    /** ORDER BY ... LIMIT: the newest rows, newest first. */
    method Ranked(limit: nat) returns (ids: seq<string>)
      ensures IsTop(Members(ids), Dates(rows), limit) && InOrder(ids, Dates(rows))
    {
      ids := [];
      var rest := rows.Keys;
      assert Members(ids) == {};
      while |ids| < limit && rest != {}
        invariant |ids| <= limit && |ids| + |rest| == |rows.Keys|
        invariant rest <= rows.Keys && Members(ids) == rows.Keys - rest
        invariant InOrder(ids, Dates(rows))
        invariant forall a, b :: a in rows && a !in rest && b in rest ==> Newer(Dates(rows), a, b)
        decreases |rest|
      {
        var first := NewestOf(rest);
        RankedOneMore(ids, Dates(rows), rest, first);
        ids, rest := ids + [first], rest - {first};
      }
      assert Dates(rows).Keys == rows.Keys;
      TopWhenRanked(ids, Dates(rows), rest, limit);
    }

    method ListRecentlyAdded(limit: int) returns (items: seq<Listed>)
      ensures IsTop(Members(Ids(items)), Dates(rows), if limit < 1 then 50 else limit) && InOrder(Ids(items), Dates(rows))
      ensures forall i :: 0 <= i < |items| ==> items[i].id in rows && items[i].row == rows[items[i].id]
    {
      var ranked := Ranked(if limit < 1 then 50 else limit);
      items := [];
      for i := 0 to |ranked|
        invariant |items| == i && forall j :: 0 <= j < i ==> ranked[j] in rows && items[j] == Listed(ranked[j], rows[ranked[j]])
      {
        items := items + [Listed(ranked[i], rows[ranked[i]])];
      }
      assert Ids(items) == ranked;
    }

    method PruneRecentlyAdded(keep: int) returns (ok: bool)
      modifies `rows, `writes
      ensures writes == old(writes) + [ok]
      ensures if !ok || keep < 1 then rows == old(rows) else IsTop(rows.Keys, Dates(old(rows)), keep)
      ensures forall id :: id in rows ==> id in old(rows) && rows[id] == old(rows)[id]
    {
      ok := *;
      writes := writes + [ok];
      if !ok || keep < 1 {
        return;
      }
      var ids := Ranked(keep);
      rows := map id | id in rows && id in ids :: rows[id];
      assert rows.Keys == Members(ids);
    }

    method RecordOne(item: Item, now: string) returns (ok: bool)
      requires Valid() && item.id != ""
      modifies this
      ensures Valid() && writes == old(writes) + [ok] && OnlyFulfilled(old(requests), requests)
      ensures !ok ==> latest == old(latest) && rows == old(rows)
      ensures ok ==> latest == old(latest)[item.id := DateOf(item, now)] && rows.Keys == old(rows).Keys + {item.id}
    {
      var requestId;
      requestId, ok := UpsertRecentlyAdded(item, now);
      if ok {
        latest := latest[item.id := DateOf(item, now)];
      }
    }

    // The rows of a batch, up to the first one that could not be stored.
    method RecordBatch(items: seq<Item>, now: string) returns (ok: bool, ghost recorded: nat)
      requires Valid()
      modifies this
      ensures Valid() && recorded <= |items| && (ok ==> recorded == |items|)
      ensures latest == Seen(old(latest), items[..recorded], now) && rows.Keys == old(rows).Keys + IdsOf(items[..recorded])
      ensures OnlyFulfilled(old(requests), requests)
      ensures old(writes) <= writes && |writes| == |old(writes)| + Given(items[..recorded]) + if ok then 0 else 1
      ensures forall j :: |old(writes)| <= j < |old(writes)| + Given(items[..recorded]) ==> writes[j]
      ensures !ok ==> recorded < |items| && items[recorded].id != "" && !writes[|writes| - 1]
    {
      hide Seen, IdsOf, DateOf, OnlyFulfilled, Given;
      RequestsUntouched(requests);
      SeenNothing(latest, now);
      GivenMore([], UNDATED);
      assert items[..0] == [];
      for i := 0 to |items|
        invariant Valid() && latest == Seen(old(latest), items[..i], now)
        invariant rows.Keys == old(rows).Keys + IdsOf(items[..i])
        invariant OnlyFulfilled(old(requests), requests)
        invariant old(writes) <= writes && |writes| == |old(writes)| + Given(items[..i])
        invariant forall j :: |old(writes)| <= j < |writes| ==> writes[j]
      {
        assert items[..i + 1] == items[..i] + [items[i]];
        SeenMore(old(latest), items[..i], items[i], now);
        GivenMore(items[..i], items[i]);
        if items[i].id == "" {
          continue;
        }
        ghost var before := requests;
        var stored := RecordOne(items[i], now);
        RequestsOnward(old(requests), before, requests);
        if !stored {
          return false, i;
        }
      }
      assert items[..|items|] == items;
      ok, recorded := true, |items|;
    }

    /** One scan. After a complete one the table holds exactly the newest fifty of all items ever seen, as
        last recorded, if and only if every item that is neither in the old table nor in the batch has fifty
        newer ones there; it suffices that the table covered what was seen and no date moved back, and then
        a scan that fails in between leaves a table from which the next one gets there. It stops at the first
        write that is not stored, and is complete exactly when all of them are. */
    method ScanOnce(items: seq<Item>, now: string) returns (ok: bool, ghost scanned: nat)
      requires Valid()
      modifies this
      ensures Valid() && Scans(old(State()), Scan(items, now, scanned, ok), State())
      ensures ok ==> scanned == |items| && (IsTop(rows.Keys, latest, 50) <==>
                       Covers(old(rows).Keys + IdsOf(items), latest, 50))
      ensures Covers(old(rows).Keys, old(latest), 50) && NeverOlder(old(latest), items[..scanned], now) ==>
        Covers(rows.Keys, latest, 50) && (ok ==> IsTop(rows.Keys, latest, 50))
      ensures OnlyFulfilled(old(requests), requests)
      ensures old(writes) <= writes && |writes| == |old(writes)| + Given(items[..scanned]) + 1
      ensures forall j :: |old(writes)| <= j < |writes| - 1 ==> writes[j]
      ensures (ok <==> writes[|writes| - 1]) && (scanned < |items| ==> !ok && items[scanned].id != "")
    {
      hide Covers, IsTop, NeverOlder, Scans, Seen, IdsOf, IsRight, OnlyFulfilled, Newer, Given;
      ok, scanned := RecordBatch(items, now);
      assert items[..|items|] == items;
      if ok {
        ghost var merged := rows;
        ok := PruneRecentlyAdded(KEEP_LATEST);
        assert Dates(merged) == Among(latest, merged.Keys);
      }
      ScanEffect(old(State()), Scan(items, now, scanned, ok), State());
    }
  }

  lemma ScanEffect(s: FeedState, scan: Scan, s': FeedState)
    requires s.stored <= s.latest.Keys && scan.recorded <= |scan.items| && (scan.pruned ==> scan.recorded == |scan.items|)
    requires s'.latest == Seen(s.latest, scan.items[..scan.recorded], scan.now)
    requires scan.pruned ==> IsTop(s'.stored, Among(s'.latest, Merged(s, scan)), KEEP_LATEST)
    requires !scan.pruned ==> s'.stored == Merged(s, scan)
    ensures Scans(s, scan, s')
    ensures scan.pruned ==> (IsTop(s'.stored, s'.latest, KEEP_LATEST) <==> Covers(Merged(s, scan), s'.latest, KEEP_LATEST))
    ensures Covers(s.stored, s.latest, KEEP_LATEST) && NeverOlder(s.latest, scan.items[..scan.recorded], scan.now) ==>
      Covers(s'.stored, s'.latest, KEEP_LATEST) && (scan.pruned ==> IsTop(s'.stored, s'.latest, KEEP_LATEST))
  {
    hide IsTop, Covers, NeverOlder, Seen;
    ScanIsExact(s, scan, s');
    if Covers(s.stored, s.latest, KEEP_LATEST) && NeverOlder(s.latest, scan.items[..scan.recorded], scan.now) {
      RecordedCovers(s, scan, s');
    }
  }

  lemma RequestsUntouched(requests: map<nat, MediaRequest>)
    ensures OnlyFulfilled(requests, requests)
  {
  }

  lemma RequestsOnward(first: map<nat, MediaRequest>, before: map<nat, MediaRequest>, after: map<nat, MediaRequest>)
    requires OnlyFulfilled(first, before) && OnlyFulfilled(before, after)
    ensures OnlyFulfilled(first, after)
  {
  }

  lemma RecordedCovers(s: FeedState, scan: Scan, s': FeedState)
    requires Scans(s, scan, s')
    requires Covers(s.stored, s.latest, KEEP_LATEST) && NeverOlder(s.latest, scan.items[..scan.recorded], scan.now)
    ensures Covers(Merged(s, scan), s'.latest, KEEP_LATEST)
  {
    SeenCovers(s.stored, s.latest, scan.items[..scan.recorded], scan.now, KEEP_LATEST);
  }

  // ----- what the table itself can tell -----

  // The items that are dated no earlier than a given place in the order.
  ghost function NotBehind(ids: set<string>, dates: map<string, string>, date: string, id: string): set<string> {
    set a | a in ids && a in dates && (Below(date, dates[a]) || (dates[a] == date && (a == id || Below(id, a))))
  }

  lemma {:induction false} SeenOthers(dates: map<string, string>, items: seq<Item>, now: string, b: string)
    requires b in dates && b !in IdsOf(items)
    ensures b in Seen(dates, items, now) && Seen(dates, items, now)[b] == dates[b]
  {
    if items != [] {
      var front, last := items[..|items| - 1], items[|items| - 1];
      IdsOfMore(front, last);
      assert items == front + [last];
      SeenOthers(dates, front, now, b);
    }
  }

  /** A table that was right stays so, whatever dates moved back, if fifty of its rows and the batch are not
      behind the place that its last row had: a guard that can be read off the table. */
  lemma EnoughAboveTheLast(s: FeedState, scan: Scan, s': FeedState, last: string)
    requires IsRight(s) && Scans(s, scan, s') && last in s.stored && s.stored <= s.latest.Keys
    requires forall a :: a in s.stored && a != last ==> Newer(s.latest, a, last)
    requires |NotBehind(Merged(s, scan), s'.latest, s.latest[last], last)| >= KEEP_LATEST
    ensures Covers(s'.stored, s'.latest, KEEP_LATEST) && (scan.pruned ==> IsRight(s'))
  {
    var merged, above := Merged(s, scan), NotBehind(Merged(s, scan), s'.latest, s.latest[last], last);
    SeenKeys(s.latest, scan.items[..scan.recorded], scan.now);
    forall b | b in s'.latest && b !in merged
      ensures |NewerThan(merged, s'.latest, b)| >= KEEP_LATEST
    {
      SeenOthers(s.latest, scan.items[..scan.recorded], scan.now, b);
      assert Newer(s.latest, last, b);
      forall a | a in above
        ensures a in NewerThan(merged, s'.latest, b)
      {
        BehindIsOlder(s'.latest, a, s.latest[last], last, b);
      }
      SubsetSize(above, NewerThan(merged, s'.latest, b));
    }
    hide IsTop, Scans;
    ScanIsExact(s, scan, s');
  }

  lemma BehindIsOlder(dates: map<string, string>, a: string, date: string, id: string, b: string)
    requires a in dates && b in dates
    requires Below(date, dates[a]) || (dates[a] == date && (a == id || Below(id, a)))
    requires Below(dates[b], date) || (dates[b] == date && Below(b, id))
    ensures Newer(dates, a, b)
  {
    if Below(date, dates[a]) && Below(dates[b], date) {
      BelowTransitive(dates[b], date, dates[a]);
    } else if a != id && Below(b, id) && Below(id, a) {
      BelowTransitive(b, id, a);
    }
  }

  // ----- a run that loses an item -----

  // Three stored times, a day apart, and fifty titles that were added at the middle one.
  const TRUE_DATE := Timestamps.Civil(2024, 1, 1, 0, 0, 0, 0)
  const ADDED := Timestamps.Civil(2024, 1, 2, 0, 0, 0, 0)
  const NOW := Timestamps.Civil(2024, 1, 3, 0, 0, 0, 0)

  ghost predicate IsStoredTime(text: string) {
    exists c :: Timestamps.Valid(c) && text == Timestamps.Timestamp(c)
  }

  function Title(k: nat): Item {
    Item(Decimal.Digits(k, 2), 0, "Movie", "title", Some(Timestamps.Timestamp(ADDED)))
  }

  function Titles(from: nat, to: nat): seq<Item>
    requires from <= to
  {
    seq(to - from, i requires 0 <= i < to - from => Title(from + i))
  }

  const UNDATED := Item("x", 0, "Movie", "title", None)
  const DATED := Item("x", 0, "Movie", "title", Some(Timestamps.Timestamp(TRUE_DATE)))

  lemma TimesInOrder()
    ensures Below(Timestamps.Timestamp(TRUE_DATE), Timestamps.Timestamp(ADDED)) && Below(Timestamps.Timestamp(ADDED), Timestamps.Timestamp(NOW))
    ensures IsStoredTime(Timestamps.Timestamp(TRUE_DATE)) && IsStoredTime(Timestamps.Timestamp(ADDED)) && IsStoredTime(Timestamps.Timestamp(NOW))
  {
    assert Timestamps.Valid(TRUE_DATE) && Timestamps.Valid(ADDED) && Timestamps.Valid(NOW);
    hide Timestamps.Timestamp;
    Timestamps.StoredOrder(TRUE_DATE, ADDED);
    Timestamps.StoredOrder(ADDED, NOW);
  }

  ghost function TitleIds(n: nat): set<string> {
    set k | 0 <= k < n :: Decimal.Digits(k, 2)
  }

  lemma TwoDigits(k: nat, m: nat)
    requires k < m < 100
    ensures Decimal.Digits(k, 2) != Decimal.Digits(m, 2)
  {
    hide Decimal.Digits;
    Timestamps.TenPowers();
    Timestamps.DigitsOrder(k, m, 2);
  }

  lemma {:induction false} TitlesAreDistinct(n: nat)
    requires n <= 50
    ensures |TitleIds(n)| == n && "x" !in TitleIds(n)
  {
    hide Decimal.Digits;
    if n > 0 {
      TitlesAreDistinct(n - 1);
      var last := Decimal.Digits(n - 1, 2);
      assert TitleIds(n) == TitleIds(n - 1) + {last};
      forall k: nat | k < n - 1
        ensures Decimal.Digits(k, 2) != last
      {
        TwoDigits(k, n - 1);
      }
      assert last !in TitleIds(n - 1);
    }
  }

  lemma TitlesTogether()
    ensures IdsOf([UNDATED] + Titles(0, 25)) == {"x"} + TitleIds(25)
    ensures IdsOf(Titles(25, 50)) + TitleIds(25) == TitleIds(50)
  {
    hide Decimal.Digits;
    var first, second := [UNDATED] + Titles(0, 25), Titles(25, 50);
    assert forall i :: 1 <= i < |first| ==> first[i] == Title(i - 1);
    assert forall k :: 0 <= k < 25 ==> first[k + 1] == Title(k);
    assert first[0] == UNDATED;
    assert forall k :: 25 <= k < 50 ==> second[k - 25] == Title(k);
    forall id | id in TitleIds(50)
      ensures id in IdsOf(second) + TitleIds(25)
    {
      var k :| 0 <= k < 50 && id == Decimal.Digits(k, 2);
      assert k < 25 || second[k - 25].id == id;
    }
    forall id | id in TitleIds(25)
      ensures id in IdsOf(first)
    {
      var k :| 0 <= k < 25 && id == Decimal.Digits(k, 2);
      assert first[k + 1].id == id;
    }
  }

  // If every version of an item that a batch brings has one date, that is the item's date.
  lemma {:induction false} SeenDate(dates: map<string, string>, items: seq<Item>, now: string, id: string, date: string)
    requires id in dates ==> dates[id] == date
    requires forall i :: 0 <= i < |items| && items[i].id == id ==> DateOf(items[i], now) == date
    ensures id in Seen(dates, items, now) ==> Seen(dates, items, now)[id] == date
  {
    if items != [] {
      SeenDate(dates, items[..|items| - 1], now, id, date);
    }
  }

  lemma ScanFrom(s: FeedState, items: seq<Item>, now: string) returns (s': FeedState)
    requires s.stored <= s.latest.Keys
    ensures Scans(s, Scan(items, now, |items|, true), s') && s'.latest == Seen(s.latest, items, now)
    ensures s'.latest.Keys == s.latest.Keys + IdsOf(items) && s'.stored <= s'.latest.Keys
    ensures s.stored == s.latest.Keys ==> IsRight(s')
  {
    assert items[..|items|] == items;
    var scan, latest := Scan(items, now, |items|, true), Seen(s.latest, items, now);
    SeenKeys(s.latest, items, now);
    var top := TopExists(Among(latest, Merged(s, scan)), KEEP_LATEST);
    s' := FeedState(top, latest);
    ScanIsExact(s, scan, s');
  }

  // A stored item whose date falls behind a forgotten one leaves the table wrong.
  lemma Displaced(s: FeedState, now: string, s': FeedState, lost: string)
    requires IsRight(s) && |s.stored| == KEEP_LATEST && "x" in s.stored && lost in s.latest && lost !in s.stored
    requires Scans(s, Scan([DATED], now, 1, true), s')
    requires Below(Timestamps.Timestamp(TRUE_DATE), s.latest[lost])
    ensures !IsRight(s')
  {
    hide Timestamps.Timestamp;
    var scan := Scan([DATED], now, 1, true);
    var front: seq<Item> := [];
    assert scan.items[..1] == front + [DATED];
    SeenMore(s.latest, front, DATED, now);
    SeenNothing(s.latest, now);
    assert s'.latest == s.latest["x" := Timestamps.Timestamp(TRUE_DATE)];
    assert Merged(s, scan) == s.stored;
    var own := Among(s'.latest, s.stored);
    assert own.Keys == s.stored && |own| == |own.Keys|;
    SubsetSize(s'.stored, s.stored);
    BelowTrichotomy(s'.latest["x"], s'.latest[lost]);
    BelowIrreflexive(s'.latest["x"]);
    assert !Newer(s'.latest, "x", lost);
  }

  /** A run that loses an item: fifty titles and one without a date, which its scan puts first. When that one
      comes with its true date, older than theirs, it stays, and the title that was pruned for it is missing. */
  lemma OlderDatesLoseItems() returns (run: FeedRun)
    ensures IsFeedRun(run) && |run.scans| == 3
    ensures forall i :: 0 <= i < 3 ==> run.scans[i].pruned && |run.scans[i].items| <= SCAN_BATCH && OnStoredTimes(run.scans[i])
    ensures IsRight(run.states[1]) && IsRight(run.states[2]) && !IsRight(run.states[3])
  {
    hide Timestamps.Timestamp, Decimal.Digits, Scans, IsRight, Seen, OnStoredTimes;
    var now := Timestamps.Timestamp(NOW);
    var start, first, second := FeedState({}, map[]), [UNDATED] + Titles(0, 25), Titles(25, 50);
    var s1, s2 := FullTable(start);
    TimesInOrder();
    var lost := OneIsLost(s2, now);
    var s3 := ScanFrom(s2, [DATED], now);
    Displaced(s2, now, s3, lost);
    BatchesOnTime();
    run := FeedRun([Scan(first, now, 26, true), Scan(second, now, 25, true), Scan([DATED], now, 1, true)], [start, s1, s2, s3]);
    assert Advances(run, 0) && Advances(run, 1) && Advances(run, 2);
  }

  lemma FullTable(start: FeedState) returns (s1: FeedState, s2: FeedState)
    requires start == FeedState({}, map[])
    ensures var now := Timestamps.Timestamp(NOW);
      && Scans(start, Scan([UNDATED] + Titles(0, 25), now, 26, true), s1) && Scans(s1, Scan(Titles(25, 50), now, 25, true), s2)
    ensures IsRight(s1) && IsRight(s2) && s2.stored <= s2.latest.Keys && "x" in s2.latest && |s2.latest.Keys| == 51
    ensures forall id :: id in s2.latest ==> s2.latest[id] == Timestamps.Timestamp(if id == "x" then NOW else ADDED)
  {
    hide Timestamps.Timestamp, Decimal.Digits, Scans, IsRight, Seen, IdsOf, TitleIds;
    var now := Timestamps.Timestamp(NOW);
    TitlesTogether();
    TitlesAreDistinct(25);
    TitlesAreDistinct(50);
    s1 := ScanFrom(start, [UNDATED] + Titles(0, 25), now);
    AllFit(start, [UNDATED] + Titles(0, 25), now, s1);
    s2 := ScanFrom(s1, Titles(25, 50), now);
    assert s2.latest.Keys == {"x"} + TitleIds(50);
    DatesOfTitles(now, s1.latest, s2.latest);
  }

  lemma BatchesOnTime()
    ensures var now := Timestamps.Timestamp(NOW);
      && OnStoredTimes(Scan([UNDATED] + Titles(0, 25), now, 26, true)) && OnStoredTimes(Scan(Titles(25, 50), now, 25, true))
      && OnStoredTimes(Scan([DATED], now, 1, true))
  {
    hide Timestamps.Timestamp, Decimal.Digits, IsStoredTime;
    TimesInOrder();
    var first := [UNDATED] + Titles(0, 25);
    assert forall i :: 1 <= i < |first| ==> first[i] == Title(i - 1);
  }

  ghost predicate OnStoredTimes(scan: Scan) {
    IsStoredTime(scan.now) && forall i :: 0 <= i < |scan.items| && scan.items[i].created.Some? ==> IsStoredTime(scan.items[i].created.value)
  }

  lemma AllFit(s: FeedState, items: seq<Item>, now: string, s': FeedState)
    requires Scans(s, Scan(items, now, |items|, true), s') && s.stored == s.latest.Keys
    requires s'.latest.Keys == s.latest.Keys + IdsOf(items) && |s'.latest.Keys| <= KEEP_LATEST
    ensures s'.stored == s'.latest.Keys
  {
    assert items[..|items|] == items;
    var own := Among(s'.latest, Merged(s, Scan(items, now, |items|, true)));
    assert own == s'.latest && |own| == |own.Keys|;
    SubsetSize(s'.stored, s'.latest.Keys);
  }

  lemma DatesOfTitles(now: string, latest: map<string, string>, latest': map<string, string>)
    requires now == Timestamps.Timestamp(NOW)
    requires latest == Seen(map[], [UNDATED] + Titles(0, 25), now) && latest' == Seen(latest, Titles(25, 50), now)
    ensures forall id :: id in latest' ==> latest'[id] == if id == "x" then now else Timestamps.Timestamp(ADDED)
  {
    hide Timestamps.Timestamp, Seen, Decimal.Digits;
    var first, second := [UNDATED] + Titles(0, 25), Titles(25, 50);
    assert forall i :: 1 <= i < |first| ==> first[i] == Title(i - 1) && |first[i].id| == 2;
    assert first[0] == UNDATED;
    assert forall i :: 0 <= i < |second| ==> second[i] == Title(25 + i) && |second[i].id| == 2;
    forall id | id in latest'
      ensures latest'[id] == if id == "x" then now else Timestamps.Timestamp(ADDED)
    {
      var date := if id == "x" then now else Timestamps.Timestamp(ADDED);
      SeenDate(map[], first, now, id, date);
      SeenDate(latest, second, now, id, date);
    }
  }

  // Of the fifty-one the newest fifty stay, the undated one among them.
  lemma OneIsLost(s: FeedState, now: string) returns (lost: string)
    requires IsRight(s) && "x" in s.latest && |s.latest.Keys| == 51 && now == Timestamps.Timestamp(NOW)
    requires forall id :: id in s.latest ==> s.latest[id] == if id == "x" then now else Timestamps.Timestamp(ADDED)
    requires Below(Timestamps.Timestamp(ADDED), now)
    ensures |s.stored| == KEEP_LATEST && "x" in s.stored && lost in s.latest && lost !in s.stored && lost != "x"
  {
    hide Timestamps.Timestamp;
    assert |s.latest| == |s.latest.Keys|;
    if "x" !in s.stored {
      var a :| a in s.stored;
      BelowTrichotomy(s.latest[a], now);
      BelowIrreflexive(now);
      assert false;
    }
    if s.latest.Keys <= s.stored {
      SubsetSize(s.latest.Keys, s.stored);
    }
    lost :| lost in s.latest && lost !in s.stored;
  }
}
