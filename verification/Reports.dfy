/** The analytics reports, computed two ways: SQL aggregates over the engagement
    store, and in-memory loops over per-recipient records. The loops are proved
    against a flat list of opens, and that list against the store. */
module Reports {
  import opened Wrappers
  import opened Engagement

  const MAX_OPENS_PER_RECIPIENT := 500
  const SECONDS_PER_DAY := 86400

  type Day = int

  /** A per-recipient record, with the instants of its most recent opens. */
  datatype Record = Record(
    emailId: EmailId,
    to: Address,
    hasOpened: bool,
    openCount: nat,
    lastOpened: Option<Time>,
    openedAt: seq<Time>,
    failed: bool)

  datatype DailyOpens = DailyOpens(date: Day, opens: nat, unique: nat)

  datatype Bucket = Bucket(opens: nat, keys: set<string>)

  datatype Detail = Detail(uniqueOpens: nat, daily: seq<DailyOpens>, last: Option<Time>, failed: seq<Address>)

  // The UTC calendar day of an instant.
  function DayOf(t: Time): Day {
    t / SECONDS_PER_DAY
  }

  /* ---- the opens a list of records stands for ---- */

  datatype Seen = Seen(key: string, at: Time)

  // Older email-service builds report no series, only the last instant.
  function EventsOf(r: Record): seq<Time> {
    if r.openedAt == [] && r.hasOpened && r.lastOpened.Some? then [r.lastOpened.value] else r.openedAt
  }

  function KeyOf(r: Record): string {
    if r.emailId == "" then r.to else r.emailId
  }

  function SeenBy(r: Record, n: nat): seq<Seen>
    requires n <= |EventsOf(r)|
  {
    seq(n, i requires 0 <= i < n => Seen(KeyOf(r), EventsOf(r)[i]))
  }

  function AllSeen(records: seq<Record>): seq<Seen> {
    if records == [] then [] else
    var r := records[|records| - 1];
    AllSeen(records[..|records| - 1]) + SeenBy(r, |EventsOf(r)|)
  }

  function CountOn(seen: seq<Seen>, d: Day): nat {
    if seen == [] then 0 else
    CountOn(seen[..|seen| - 1], d) + if DayOf(seen[|seen| - 1].at) == d then 1 else 0
  }

  function KeysOn(seen: seq<Seen>, d: Day): set<string> {
    set i | 0 <= i < |seen| && DayOf(seen[i].at) == d :: seen[i].key
  }

  predicate Ascending(daily: seq<DailyOpens>) {
    forall i, j :: 0 <= i < j < |daily| ==> daily[i].date < daily[j].date
  }

  predicate HasDate(daily: seq<DailyOpens>, d: Day) {
    exists j :: 0 <= j < |daily| && daily[j].date == d
  }

  /** The per-day series of a list of opens: ascending, one entry for each day with
      an open, holding that day's opens and distinct recipients. */
  predicate IsSeries(seen: seq<Seen>, daily: seq<DailyOpens>) {
    && Ascending(daily)
    && (forall j :: 0 <= j < |daily| ==> && daily[j].opens == CountOn(seen, daily[j].date) > 0
                                         && daily[j].unique == |KeysOn(seen, daily[j].date)|)
    && (forall i :: 0 <= i < |seen| ==> HasDate(daily, DayOf(seen[i].at)))
  }

  predicate IsLastSeen(seen: seq<Seen>, last: Option<Time>) {
    && (last.Some? ==> exists i :: 0 <= i < |seen| && seen[i].at == last.value)
    && (forall i :: 0 <= i < |seen| ==> last.Some? && seen[i].at <= last.value)
  }

  predicate Bucketed(seen: seq<Seen>, buckets: map<Day, Bucket>) {
    && (forall d :: d in buckets ==> buckets[d] == Bucket(CountOn(seen, d), KeysOn(seen, d)) && buckets[d].opens > 0)
    && (forall i :: 0 <= i < |seen| ==> DayOf(seen[i].at) in buckets)
  }

  lemma {:induction false} NotSeenOn(seen: seq<Seen>, d: Day)
    requires forall i :: 0 <= i < |seen| ==> DayOf(seen[i].at) != d
    ensures CountOn(seen, d) == 0 && KeysOn(seen, d) == {}
  {
    if seen != [] {
      NotSeenOn(seen[..|seen| - 1], d);
    }
  }

  lemma OneMoreSeen(seen: seq<Seen>, x: Seen, d: Day)
    ensures CountOn(seen + [x], d) == CountOn(seen, d) + if DayOf(x.at) == d then 1 else 0
    ensures KeysOn(seen + [x], d) == KeysOn(seen, d) + if DayOf(x.at) == d then {x.key} else {}
  {
  }

  lemma BucketOneMore(seen: seq<Seen>, x: Seen, buckets: map<Day, Bucket>)
    requires Bucketed(seen, buckets)
    ensures var d := DayOf(x.at);
            var b := if d in buckets then buckets[d] else Bucket(0, {});
            Bucketed(seen + [x], buckets[d := Bucket(b.opens + 1, b.keys + {x.key})])
  {
    var d := DayOf(x.at);
    if d !in buckets {
      NotSeenOn(seen, d);
    }
    forall e { OneMoreSeen(seen, x, e); }
  }

  // sort.Slice over the buckets: insert each entry before the later dates.
  function Inserted(daily: seq<DailyOpens>, x: DailyOpens): seq<DailyOpens> {
    if daily == [] || daily[|daily| - 1].date < x.date then daily + [x]
    else Inserted(daily[..|daily| - 1], x) + [daily[|daily| - 1]]
  }

  lemma {:induction false} InsertedSorted(daily: seq<DailyOpens>, x: DailyOpens)
    requires Ascending(daily) && !HasDate(daily, x.date)
    ensures var r := Inserted(daily, x);
            && Ascending(r) && |r| == |daily| + 1
            && (forall y :: y in r <==> y in daily || y == x)
  {
    if daily != [] && x.date <= daily[|daily| - 1].date {
      var front := daily[..|daily| - 1];
      InsertedSorted(front, x);
      var r := Inserted(front, x);
      forall i | 0 <= i < |r| ensures r[i].date < daily[|daily| - 1].date {
        assert r[i] in r;
      }
      assert daily == front + [daily[|daily| - 1]];
    }
  }

  // The entry of one bucket.
  function EntryOf(d: Day, b: Bucket): DailyOpens {
    DailyOpens(d, b.opens, |b.keys|)
  }

  method SortBuckets(buckets: map<Day, Bucket>) returns (daily: seq<DailyOpens>)
    ensures Ascending(daily)
    ensures forall y :: y in daily <==> y.date in buckets && y == EntryOf(y.date, buckets[y.date])
  {
    daily := [];
    var left := buckets.Keys;
    while left != {}
      invariant left <= buckets.Keys && Ascending(daily)
      invariant forall y :: y in daily <==> y.date in buckets && y.date !in left && y == EntryOf(y.date, buckets[y.date])
      decreases |left|
    {
      assert (exists d :: d in left) || left == {};
      var d :| d in left;
      InsertedSorted(daily, EntryOf(d, buckets[d]));
      daily := Inserted(daily, EntryOf(d, buckets[d]));
      left := left - {d};
    }
  }

  // The inner loop: one recipient's opens.
  method BucketEvents(r: Record, buckets0: map<Day, Bucket>, last0: Option<Time>, ghost before: seq<Seen>)
    returns (buckets: map<Day, Bucket>, last: Option<Time>)
    requires Bucketed(before, buckets0) && IsLastSeen(before, last0)
    ensures Bucketed(before + SeenBy(r, |EventsOf(r)|), buckets)
    ensures IsLastSeen(before + SeenBy(r, |EventsOf(r)|), last)
  {
    hide Bucketed, IsLastSeen, SeenBy;
    var events := r.openedAt;
    if |events| == 0 && r.hasOpened && r.lastOpened.Some? {
      events := [r.lastOpened.value];
    }
    var key := if r.emailId == "" then r.to else r.emailId;
    buckets, last := buckets0, last0;
    NothingGathered(before, r, buckets0, last0);
    for k := 0 to |events|
      invariant GatheredUpTo(before, r, k, buckets, last)
    {
      var at := events[k];
      SeenOneMore(before, r, k, buckets, last);
      if last.None? || last.value < at {
        last := Some(at);
      }
      var d := DayOf(at);
      var b := if d in buckets then buckets[d] else Bucket(0, {});
      buckets := buckets[d := Bucket(b.opens + 1, b.keys + {key})];
    }
  }

  /** The in-memory bucketing of the email-service reader. */
  method DailyOpensFromRecords(records: seq<Record>) returns (daily: seq<DailyOpens>, last: Option<Time>)
    ensures IsSeries(AllSeen(records), daily)
    ensures IsLastSeen(AllSeen(records), last)
  {
    var buckets: map<Day, Bucket> := map[];
    last := None;
    for i := 0 to |records|
      invariant Bucketed(AllSeen(records[..i]), buckets)
      invariant IsLastSeen(AllSeen(records[..i]), last)
    {
      assert records[..i + 1][..i] == records[..i];
      buckets, last := BucketEvents(records[i], buckets, last, AllSeen(records[..i]));
    }
    assert records[..|records|] == records;
    daily := SortBuckets(buckets);
    SortedIsSeries(AllSeen(records), buckets, daily);
  }

  lemma LastOneMore(seen: seq<Seen>, x: Seen, last: Option<Time>)
    requires IsLastSeen(seen, last)
    ensures IsLastSeen(seen + [x], if last.None? || last.value < x.at then Some(x.at) else last)
  {
    var more := seen + [x];
    assert more[|seen|] == x;
    if last.Some? {
      var i :| 0 <= i < |seen| && seen[i].at == last.value;
      assert more[i].at == last.value;
    }
  }

  // The loop variables after k of a record's opens.
  predicate GatheredUpTo(before: seq<Seen>, r: Record, k: nat, buckets: map<Day, Bucket>, last: Option<Time>) {
    k <= |EventsOf(r)| && Bucketed(before + SeenBy(r, k), buckets) && IsLastSeen(before + SeenBy(r, k), last)
  }

  lemma NothingGathered(before: seq<Seen>, r: Record, buckets: map<Day, Bucket>, last: Option<Time>)
    requires Bucketed(before, buckets) && IsLastSeen(before, last)
    ensures GatheredUpTo(before, r, 0, buckets, last)
  {
    assert before + SeenBy(r, 0) == before;
  }

  lemma SeenOneMore(before: seq<Seen>, r: Record, k: nat, buckets: map<Day, Bucket>, last: Option<Time>)
    requires k < |EventsOf(r)| && GatheredUpTo(before, r, k, buckets, last)
    ensures var at := EventsOf(r)[k];
            var d := DayOf(at);
            var b := if d in buckets then buckets[d] else Bucket(0, {});
            GatheredUpTo(before, r, k + 1, buckets[d := Bucket(b.opens + 1, b.keys + {KeyOf(r)})],
                         if last.None? || last.value < at then Some(at) else last)
  {
    var so, x := before + SeenBy(r, k), Seen(KeyOf(r), EventsOf(r)[k]);
    BucketOneMore(so, x, buckets);
    LastOneMore(so, x, last);
    assert before + SeenBy(r, k + 1) == so + [x];
  }

  lemma SortedIsSeries(seen: seq<Seen>, buckets: map<Day, Bucket>, daily: seq<DailyOpens>)
    requires Bucketed(seen, buckets) && Ascending(daily)
    requires forall y :: y in daily <==> y.date in buckets && y == EntryOf(y.date, buckets[y.date])
    ensures IsSeries(seen, daily)
  {
    forall j | 0 <= j < |daily|
      ensures daily[j].opens == CountOn(seen, daily[j].date) > 0 && daily[j].unique == |KeysOn(seen, daily[j].date)|
    {
      assert daily[j] in daily;
    }
    forall i | 0 <= i < |seen| ensures HasDate(daily, DayOf(seen[i].at)) {
      var d := DayOf(seen[i].at);
      assert EntryOf(d, buckets[d]) in daily;
    }
  }

  // The addresses of failed records, normalized, blanks dropped.
  predicate FailedAddress(records: seq<Record>, norm: Address -> Address, a: Address) {
    a != "" && exists i :: 0 <= i < |records| && records[i].failed && norm(records[i].to) == a
  }

  predicate NoRepeats<T(==)>(s: seq<T>) {
    forall i, j :: 0 <= i < j < |s| ==> s[i] != s[j]
  }

  function OpenedIn(records: seq<Record>): set<nat> {
    set i: nat | i < |records| && records[i].hasOpened
  }

  // Record k is the first to report this address failed.
  predicate FailsFirstAt(records: seq<Record>, norm: Address -> Address, a: Address, k: nat) {
    && k < |records| && records[k].failed && norm(records[k].to) == a
    && forall l :: 0 <= l < k ==> !(records[l].failed && norm(records[l].to) == a)
  }

  /** The addresses stand in the order in which they first occur. */
  ghost predicate InFirstOrder(records: seq<Record>, norm: Address -> Address, failed: seq<Address>) {
    exists ats: seq<nat> :: FirstsAt(records, norm, failed, ats)
  }

  predicate FirstsAt(records: seq<Record>, norm: Address -> Address, failed: seq<Address>, ats: seq<nat>) {
    && |ats| == |failed| && (forall i, j :: 0 <= i < j < |ats| ==> ats[i] < ats[j])
    && (forall i :: 0 <= i < |ats| ==> FailsFirstAt(records, norm, failed[i], ats[i]))
  }

  /** norm is lower-casing after trimming. */
  method GroupDetailFromRecords(records: seq<Record>, norm: Address -> Address) returns (d: Detail)
    ensures IsSeries(AllSeen(records), d.daily) && IsLastSeen(AllSeen(records), d.last)
    ensures d.uniqueOpens == |OpenedIn(records)|
    ensures NoRepeats(d.failed) && forall a :: a in d.failed <==> FailedAddress(records, norm, a)
    ensures InFirstOrder(records, norm, d.failed)
  {
    var daily, last := DailyOpensFromRecords(records);
    var unique := 0;
    var failedSeen: set<Address> := {};
    var failed: seq<Address> := [];
    ghost var ats: seq<nat> := [];
    for i := 0 to |records|
      invariant unique == |OpenedIn(records[..i])|
      invariant forall a :: a in failedSeen <==> a in failed
      invariant NoRepeats(failed) && forall a :: a in failed <==> FailedAddress(records[..i], norm, a)
      invariant FirstsAt(records, norm, failed, ats) && forall k :: 0 <= k < |ats| ==> ats[k] < i
    {
      var r := records[i];
      OneMoreRecord(records, i, norm);
      if r.hasOpened {
        unique := unique + 1;
      }
      var email := norm(r.to);
      if r.failed && email != "" && email !in failedSeen {
        failedSeen := failedSeen + {email};
        NotFailedBefore(records, i, norm, email);
        ats := ats + [i];
        failed := failed + [email];
      }
    }
    assert records[..|records|] == records;
    assert FirstsAt(records, norm, failed, ats);
    d := Detail(unique, daily, last, failed);
  }

  lemma NotFailedBefore(records: seq<Record>, i: nat, norm: Address -> Address, a: Address)
    requires i < |records| && a != "" && !FailedAddress(records[..i], norm, a)
    ensures forall l :: 0 <= l < i ==> !(records[l].failed && norm(records[l].to) == a)
  {
    forall l | 0 <= l < i ensures !(records[l].failed && norm(records[l].to) == a) {
      assert records[..i][l] == records[l];
    }
  }

  lemma OneMoreRecord(records: seq<Record>, i: nat, norm: Address -> Address)
    requires i < |records|
    ensures |OpenedIn(records[..i + 1])| == |OpenedIn(records[..i])| + if records[i].hasOpened then 1 else 0
    ensures forall a :: FailedAddress(records[..i + 1], norm, a) <==>
                        FailedAddress(records[..i], norm, a) || (a != "" && records[i].failed && norm(records[i].to) == a)
  {
    var before, after := records[..i], records[..i + 1];
    assert forall k :: 0 <= k < i ==> before[k] == after[k];
    assert OpenedIn(after) == OpenedIn(before) + if records[i].hasOpened then {i} else {};
    forall a ensures FailedAddress(after, norm, a) <==>
                     FailedAddress(before, norm, a) || (a != "" && records[i].failed && norm(records[i].to) == a)
    {
      if FailedAddress(before, norm, a) {
        var k :| 0 <= k < |before| && before[k].failed && norm(before[k].to) == a;
        assert after[k].failed && norm(after[k].to) == a;
      }
      if a != "" && records[i].failed && norm(records[i].to) == a {
        assert after[i].failed;
      }
    }
  }

  lemma {:induction false} SeriesSum(seen: seq<Seen>, daily: seq<DailyOpens>)
    requires Ascending(daily)
    requires forall j :: 0 <= j < |daily| ==> daily[j].opens == CountOn(seen, daily[j].date)
    requires forall i :: 0 <= i < |seen| ==> HasDate(daily, DayOf(seen[i].at))
    ensures SumOpens(daily) == |seen|
    decreases |seen|
  {
    if seen == [] {
      ZeroSum(daily);
    } else {
      var x, rest := seen[|seen| - 1], seen[..|seen| - 1];
      var j :| 0 <= j < |daily| && daily[j].date == DayOf(x.at);
      var fewer := daily[j := daily[j].(opens := CountOn(rest, daily[j].date))];
      forall i | 0 <= i < |rest| ensures HasDate(fewer, DayOf(rest[i].at)) {
        assert rest[i] == seen[i];
        var k :| 0 <= k < |daily| && daily[k].date == DayOf(seen[i].at);
        assert fewer[k].date == DayOf(rest[i].at);
      }
      SeriesSum(rest, fewer);
      BumpSum(daily, fewer, j);
    }
  }

  function SumOpens(daily: seq<DailyOpens>): nat {
    if daily == [] then 0 else SumOpens(daily[..|daily| - 1]) + daily[|daily| - 1].opens
  }

  lemma {:induction false} ZeroSum(daily: seq<DailyOpens>)
    requires forall j :: 0 <= j < |daily| ==> daily[j].opens == 0
    ensures SumOpens(daily) == 0
  {
    if daily != [] {
      ZeroSum(daily[..|daily| - 1]);
    }
  }

  lemma {:induction false} BumpSum(a: seq<DailyOpens>, b: seq<DailyOpens>, j: nat)
    requires j < |a| == |b| && a[j].opens == b[j].opens + 1
    requires forall k :: 0 <= k < |a| && k != j ==> a[k] == b[k]
    ensures SumOpens(a) == SumOpens(b) + 1
  {
    var n := |a| - 1;
    if j < n {
      BumpSum(a[..n], b[..n], j);
    } else {
      assert a[..n] == b[..n];
    }
  }

  /** The opens determine their series. */
  lemma SeriesUnique(seen: seq<Seen>, a: seq<DailyOpens>, b: seq<DailyOpens>)
    requires IsSeries(seen, a) && IsSeries(seen, b)
    ensures a == b
  {
    SeriesIncluded(seen, a, b);
    SeriesIncluded(seen, b, a);
    AscendingEqual(a, b);
  }

  lemma {:induction false} AscendingEqual(a: seq<DailyOpens>, b: seq<DailyOpens>)
    requires Ascending(a) && Ascending(b)
    requires (forall y :: y in a ==> y in b) && (forall y :: y in b ==> y in a)
    ensures a == b
  {
    assert |b| > 0 ==> b[0] in a;
    assert |a| > 0 ==> a[0] in b;
    if a != [] {
      var n, m := |a| - 1, |b| - 1;
      assert a[n] in b && b[m] in a;
      assert a[n] == b[m];
      forall y | y in a[..n] ensures y in b[..m] { assert y in b; }
      forall y | y in b[..m] ensures y in a[..n] { assert y in a; }
      AscendingEqual(a[..n], b[..m]);
    }
  }

  lemma SeriesIncluded(seen: seq<Seen>, a: seq<DailyOpens>, b: seq<DailyOpens>)
    requires IsSeries(seen, a) && IsSeries(seen, b)
    ensures forall y :: y in a ==> y in b
  {
    forall j | 0 <= j < |a| ensures a[j] in b {
      var d := a[j].date;
      if forall i :: 0 <= i < |seen| ==> DayOf(seen[i].at) != d {
        NotSeenOn(seen, d);
      }
      var i :| 0 <= i < |seen| && DayOf(seen[i].at) == d;
      var k :| 0 <= k < |b| && b[k].date == d;
      assert b[k] == a[j];
    }
  }

  /* ---- the same reports as SQL aggregates ---- */

  function EventsOn(s: Store, g: GroupId, d: Day): set<EventId> {
    set ev | ev in s.opens && InGroup(s, s.opens[ev].email, g) && DayOf(s.opens[ev].at) == d
  }

  function ReadersOn(s: Store, g: GroupId, d: Day): set<EmailId> {
    set ev | ev in EventsOn(s, g, d) :: s.opens[ev].email
  }

  /** GROUP BY day, ORDER BY day. */
  ghost predicate IsGroupSeries(s: Store, g: GroupId, daily: seq<DailyOpens>) {
    && Ascending(daily)
    && (forall j :: 0 <= j < |daily| ==> && daily[j].opens == |EventsOn(s, g, daily[j].date)| > 0
                                         && daily[j].unique == |ReadersOn(s, g, daily[j].date)|)
    && (forall ev :: ev in s.opens && InGroup(s, s.opens[ev].email, g) ==> HasDate(daily, DayOf(s.opens[ev].at)))
  }

  function OpenedRows(s: Store, g: GroupId): set<EmailId> {
    set e | e in s.rows && InGroup(s, e, g) && s.rows[e].everOpened
  }

  ghost predicate FailedRow(s: Store, g: GroupId, norm: Address -> Address, a: Address) {
    a != "" && exists e :: InGroup(s, e, g) && s.rows[e].failed && norm(s.rows[e].to) == a
  }

  // MAX over the group's events, NULL for none.
  predicate IsGroupMax(s: Store, hits: map<EventId, Hit>, g: GroupId, last: Option<Time>) {
    && (last.Some? ==> exists ev :: ev in hits && InGroup(s, hits[ev].email, g) && hits[ev].at == last.value)
    && (forall ev :: ev in hits && InGroup(s, hits[ev].email, g) ==> last.Some? && hits[ev].at <= last.value)
  }

  /* ---- the records the store returns ---- */

  function Capped(n: nat): nat {
    if n <= MAX_OPENS_PER_RECIPIENT then n else MAX_OPENS_PER_RECIPIENT
  }

  // The open events behind one record: the most recent ones, at most the cap.
  predicate SeriesRead(opens: map<EventId, Hit>, e: EmailId, evs: seq<EventId>, at: seq<Time>) {
    && NoRepeats(evs) && |at| == |evs| == Capped(|HitsOf(opens, e)|)
    && (forall j :: 0 <= j < |evs| ==> evs[j] in HitsOf(opens, e) && at[j] == opens[evs[j]].at)
    && (forall ev, j :: ev in HitsOf(opens, e) && ev !in evs && 0 <= j < |evs| ==> opens[ev].at <= at[j])
  }

  predicate RecordRead(s: Store, r: Record, evs: seq<EventId>) {
    && r.emailId != "" && r.emailId in s.rows
    && var row := s.rows[r.emailId];
       && r.to == row.to && r.hasOpened == row.everOpened && r.openCount == row.openCount
       && r.lastOpened == row.lastOpened && r.failed == row.failed
       && SeriesRead(s.opens, r.emailId, evs, r.openedAt)
  }

  /** Records as RecipientRecordsByGroupID reads them, in any order: one per row of
      the group. evs[i] are the events behind record i. */
  predicate RecordsRead(s: Store, records: seq<Record>, evs: seq<seq<EventId>>) {
    && |records| == |evs| && DistinctIds(records)
    && (forall i :: 0 <= i < |records| ==> RecordRead(s, records[i], evs[i]))
  }

  predicate HasRecord(records: seq<Record>, e: EmailId) {
    exists i :: 0 <= i < |records| && records[i].emailId == e
  }

  ghost predicate GroupRead(s: Store, g: GroupId, records: seq<Record>, evs: seq<seq<EventId>>) {
    && Consistent(s) && RecordsRead(s, records, evs)
    && forall e :: InGroup(s, e, g) <==> HasRecord(records, e)
  }

  ghost predicate Uncapped(s: Store, g: GroupId) {
    forall e :: InGroup(s, e, g) ==> s.rows[e].openCount <= MAX_OPENS_PER_RECIPIENT
  }

  function Flat(evs: seq<seq<EventId>>): seq<EventId> {
    if evs == [] then [] else Flat(evs[..|evs| - 1]) + evs[|evs| - 1]
  }

  // A row with opens has events, so the record never falls back to one instant.
  lemma RecordEvents(s: Store, r: Record, evs: seq<EventId>)
    requires Consistent(s) && RecordRead(s, r, evs)
    ensures EventsOf(r) == r.openedAt && KeyOf(r) == r.emailId
    ensures r.openCount == |HitsOf(s.opens, r.emailId)|
    ensures r.hasOpened <==> r.openedAt != []
  {
  }

  lemma RecordFor(s: Store, g: GroupId, records: seq<Record>, evs: seq<seq<EventId>>, e: EmailId) returns (i: nat)
    requires GroupRead(s, g, records, evs) && InGroup(s, e, g)
    ensures i < |records| == |evs| && records[i].emailId == e && RecordRead(s, records[i], evs[i])
  {
    assert HasRecord(records, e);
    i :| 0 <= i < |records| && records[i].emailId == e;
  }

  predicate EventAt(opens: map<EventId, Hit>, x: Seen, ev: EventId) {
    ev in opens && x == Seen(opens[ev].email, opens[ev].at)
  }

  // Position k of the opens the loops see is the event at position k.
  predicate FlatAt(opens: map<EventId, Hit>, records: seq<Record>, x: Seen, ev: EventId) {
    EventAt(opens, x, ev) && HasRecord(records, opens[ev].email)
  }

  predicate FlatMatches(opens: map<EventId, Hit>, records: seq<Record>, seen: seq<Seen>, flat: seq<EventId>) {
    && |seen| == |flat| && NoRepeats(flat)
    && forall k :: 0 <= k < |flat| ==> FlatAt(opens, records, seen[k], flat[k])
  }

  lemma FlatAppends(opens: map<EventId, Hit>, records: seq<Record>, r: Record, seen: seq<Seen>, flat: seq<EventId>,
                    evs: seq<EventId>)
    requires FlatMatches(opens, records, seen, flat) && SeriesRead(opens, r.emailId, evs, r.openedAt)
    requires !HasRecord(records, r.emailId)
    requires EventsOf(r) == r.openedAt && KeyOf(r) == r.emailId
    ensures FlatMatches(opens, records + [r], seen + SeenBy(r, |EventsOf(r)|), flat + evs)
  {
    var more, all := records + [r], flat + evs;
    assert more[|records|] == r;
    forall k | 0 <= k < |all| ensures FlatAt(opens, more, (seen + SeenBy(r, |EventsOf(r)|))[k], all[k]) {
      if k < |flat| {
        assert FlatAt(opens, records, seen[k], flat[k]);
        var i :| 0 <= i < |records| && records[i].emailId == opens[flat[k]].email;
        assert more[i] == records[i];
      } else {
        assert evs[k - |flat|] in HitsOf(opens, r.emailId);
      }
    }
    forall i, j | 0 <= i < j < |all| ensures all[i] != all[j] {
      if i < |flat| <= j {
        assert FlatAt(opens, records, seen[i], flat[i]) && evs[j - |flat|] in HitsOf(opens, r.emailId);
      }
    }
  }

  lemma {:induction false} FlatIsSeen(s: Store, records: seq<Record>, evs: seq<seq<EventId>>)
    requires Consistent(s) && RecordsRead(s, records, evs)
    ensures FlatMatches(s.opens, records, AllSeen(records), Flat(evs))
  {
    if records != [] {
      var n := |records| - 1;
      FlatIsSeen(s, records[..n], evs[..n]);
      assert RecordRead(s, records[n], evs[n]);
      RecordEvents(s, records[n], evs[n]);
      assert !HasRecord(records[..n], records[n].emailId);
      FlatAppends(s.opens, records[..n], records[n], AllSeen(records[..n]), Flat(evs[..n]), evs[n]);
      assert records[..n] + [records[n]] == records;
    }
  }

  function ListedOn(opens: map<EventId, Hit>, flat: seq<EventId>, d: Day): set<EventId> {
    set ev | ev in flat && ev in opens && DayOf(opens[ev].at) == d
  }

  lemma ListedOneMore(opens: map<EventId, Hit>, flat: seq<EventId>, ev: EventId, d: Day)
    requires ev in opens && ev !in flat
    ensures |ListedOn(opens, flat + [ev], d)| == |ListedOn(opens, flat, d)| + if DayOf(opens[ev].at) == d then 1 else 0
  {
    assert ListedOn(opens, flat + [ev], d) == ListedOn(opens, flat, d) + if DayOf(opens[ev].at) == d then {ev} else {};
  }

  // Counting positions of a list without repeats is counting its elements.
  lemma {:induction false} CountIsCard(opens: map<EventId, Hit>, seen: seq<Seen>, flat: seq<EventId>, d: Day)
    requires |seen| == |flat| && NoRepeats(flat)
    requires forall k :: 0 <= k < |flat| ==> EventAt(opens, seen[k], flat[k])
    ensures CountOn(seen, d) == |ListedOn(opens, flat, d)|
  {
    if seen == [] {
      assert ListedOn(opens, flat, d) == {};
    } else {
      var n := |seen| - 1;
      CountIsCard(opens, seen[..n], flat[..n], d);
      assert EventAt(opens, seen[n], flat[n]);
      assert flat == flat[..n] + [flat[n]];
      ListedOneMore(opens, flat[..n], flat[n], d);
    }
  }

  // Every event of an uncapped recipient is in the record's series.
  lemma SeriesComplete(opens: map<EventId, Hit>, e: EmailId, evs: seq<EventId>, at: seq<Time>)
    requires SeriesRead(opens, e, evs, at) && |HitsOf(opens, e)| <= MAX_OPENS_PER_RECIPIENT
    ensures forall ev :: ev in HitsOf(opens, e) <==> ev in evs
  {
    var got := set ev | ev in evs;
    CardOfNoRepeats(evs);
    assert got <= HitsOf(opens, e);
    SubsetOfSameSize(got, HitsOf(opens, e));
  }

  lemma {:induction false} CardOfNoRepeats(q: seq<EventId>)
    requires NoRepeats(q)
    ensures |set x | x in q| == |q|
  {
    var got := set x | x in q;
    if q == [] {
      assert got == {};
    } else {
      var n := |q| - 1;
      CardOfNoRepeats(q[..n]);
      assert q == q[..n] + [q[n]];
      assert got == (set x | x in q[..n]) + {q[n]};
    }
  }

  lemma SubsetOfSameSize<T>(a: set<T>, b: set<T>)
    requires a <= b && |a| == |b|
    ensures a == b
  {
    assert b == a + (b - a);
  }

  lemma {:induction false} FlatHas(evs: seq<seq<EventId>>, i: nat, ev: EventId)
    requires i < |evs| && ev in evs[i]
    ensures ev in Flat(evs)
  {
    var n := |evs| - 1;
    if i < n {
      FlatHas(evs[..n], i, ev);
    }
  }

  /** The opens the loops see, next to the events they came from, are exactly the
      group's. */
  predicate ListsGroup(s: Store, g: GroupId, seen: seq<Seen>, flat: seq<EventId>) {
    && |seen| == |flat| && NoRepeats(flat)
    && (forall k :: 0 <= k < |flat| ==> EventAt(s.opens, seen[k], flat[k]) && InGroup(s, seen[k].key, g))
    && (forall ev :: ev in s.opens && InGroup(s, s.opens[ev].email, g) ==> ev in flat)
  }

  lemma FlatIsGroup(s: Store, g: GroupId, records: seq<Record>, evs: seq<seq<EventId>>)
    requires GroupRead(s, g, records, evs) && Uncapped(s, g)
    ensures ListsGroup(s, g, AllSeen(records), Flat(evs))
  {
    FlatIsSeen(s, records, evs);
    var flat, seen := Flat(evs), AllSeen(records);
    forall k | 0 <= k < |flat| ensures EventAt(s.opens, seen[k], flat[k]) && InGroup(s, seen[k].key, g) {
      assert FlatAt(s.opens, records, seen[k], flat[k]);
    }
    forall ev | ev in s.opens && InGroup(s, s.opens[ev].email, g) ensures ev in flat {
      var e := s.opens[ev].email;
      var i := RecordFor(s, g, records, evs, e);
      RecordEvents(s, records[i], evs[i]);
      SeriesComplete(s.opens, e, evs[i], records[i].openedAt);
      assert ev in HitsOf(s.opens, e);
      FlatHas(evs, i, ev);
    }
  }

  lemma ListedEvent(s: Store, g: GroupId, seen: seq<Seen>, flat: seq<EventId>, ev: EventId)
    requires ListsGroup(s, g, seen, flat)
    ensures ev in flat <==> ev in s.opens && InGroup(s, s.opens[ev].email, g)
    ensures ev in flat <==> exists k :: 0 <= k < |flat| && flat[k] == ev && EventAt(s.opens, seen[k], ev)
  {
  }

  lemma DayCount(s: Store, g: GroupId, seen: seq<Seen>, flat: seq<EventId>, d: Day)
    requires ListsGroup(s, g, seen, flat)
    ensures CountOn(seen, d) == |EventsOn(s, g, d)|
  {
    CountIsCard(s.opens, seen, flat, d);
    forall ev ensures ev in flat <==> ev in s.opens && InGroup(s, s.opens[ev].email, g) {
      ListedEvent(s, g, seen, flat, ev);
    }
    assert ListedOn(s.opens, flat, d) == EventsOn(s, g, d);
  }

  lemma DayReaders(s: Store, g: GroupId, seen: seq<Seen>, flat: seq<EventId>, d: Day)
    requires ListsGroup(s, g, seen, flat)
    ensures KeysOn(seen, d) == ReadersOn(s, g, d)
  {
  }

  lemma SeriesIsGroupSeries(s: Store, g: GroupId, seen: seq<Seen>, flat: seq<EventId>, daily: seq<DailyOpens>)
    requires ListsGroup(s, g, seen, flat)
    ensures IsSeries(seen, daily) <==> IsGroupSeries(s, g, daily)
  {
    forall d ensures CountOn(seen, d) == |EventsOn(s, g, d)| && KeysOn(seen, d) == ReadersOn(s, g, d) {
      DayCount(s, g, seen, flat, d);
      DayReaders(s, g, seen, flat, d);
    }
    if IsSeries(seen, daily) {
      forall ev | ev in s.opens && InGroup(s, s.opens[ev].email, g) ensures HasDate(daily, DayOf(s.opens[ev].at)) {
        ListedEvent(s, g, seen, flat, ev);
      }
    }
    if IsGroupSeries(s, g, daily) {
      forall i | 0 <= i < |seen| ensures HasDate(daily, DayOf(seen[i].at)) {
        assert EventAt(s.opens, seen[i], flat[i]);
      }
    }
  }

  /** The in-memory daily series is the SQL one. */
  lemma DailySeriesRefines(s: Store, g: GroupId, records: seq<Record>, evs: seq<seq<EventId>>, daily: seq<DailyOpens>)
    requires GroupRead(s, g, records, evs) && Uncapped(s, g)
    ensures IsSeries(AllSeen(records), daily) <==> IsGroupSeries(s, g, daily)
  {
    FlatIsGroup(s, g, records, evs);
    SeriesIsGroupSeries(s, g, AllSeen(records), Flat(evs), daily);
  }

  /** Unique opens and failed addresses agree, capped or not. */
  lemma FlagsRefine(s: Store, g: GroupId, records: seq<Record>, evs: seq<seq<EventId>>, norm: Address -> Address)
    requires GroupRead(s, g, records, evs)
    ensures |OpenedIn(records)| == |OpenedRows(s, g)|
    ensures forall a :: FailedAddress(records, norm, a) <==> FailedRow(s, g, norm, a)
  {
    forall a ensures FailedAddress(records, norm, a) <==> FailedRow(s, g, norm, a) {
      if FailedAddress(records, norm, a) {
        var i :| 0 <= i < |records| && records[i].failed && norm(records[i].to) == a;
        assert RecordRead(s, records[i], evs[i]) && HasRecord(records, records[i].emailId);
      }
      if FailedRow(s, g, norm, a) {
        var e :| InGroup(s, e, g) && s.rows[e].failed && norm(s.rows[e].to) == a;
        var i := RecordFor(s, g, records, evs, e);
      }
    }
    OpenedCard(records);
    forall e ensures e in OpenedIds(records) <==> e in OpenedRows(s, g) {
      if e in OpenedRows(s, g) {
        var i := RecordFor(s, g, records, evs, e);
      }
      if e in OpenedIds(records) {
        var i :| 0 <= i < |records| && records[i].hasOpened && records[i].emailId == e;
        assert RecordRead(s, records[i], evs[i]) && HasRecord(records, e);
      }
    }
    assert OpenedIds(records) == OpenedRows(s, g);
  }

  predicate DistinctIds(records: seq<Record>) {
    forall i, j :: 0 <= i < j < |records| ==> records[i].emailId != records[j].emailId
  }

  function OpenedIds(records: seq<Record>): set<EmailId> {
    set i | 0 <= i < |records| && records[i].hasOpened :: records[i].emailId
  }

  lemma OpenedGrows(before: seq<Record>, r: Record)
    ensures OpenedIn(before + [r]) == OpenedIn(before) + if r.hasOpened then {|before|} else {}
    ensures OpenedIds(before + [r]) == OpenedIds(before) + if r.hasOpened then {r.emailId} else {}
  {
    var all := before + [r];
    forall e | e in OpenedIds(before) ensures e in OpenedIds(all) {
      var i :| 0 <= i < |before| && before[i].hasOpened && before[i].emailId == e;
      assert all[i] == before[i];
    }
    if r.hasOpened {
      assert all[|before|].emailId in OpenedIds(all);
    }
  }

  lemma {:induction false} OpenedCard(records: seq<Record>)
    requires DistinctIds(records)
    ensures |OpenedIds(records)| == |OpenedIn(records)|
  {
    if records == [] {
      assert OpenedIds(records) == {} && OpenedIn(records) == {};
    } else {
      var before, r := records[..|records| - 1], records[|records| - 1];
      assert records == before + [r];
      OpenedCard(before);
      OpenedGrows(before, r);
      assert r.emailId !in OpenedIds(before);
    }
  }

  /* ---- totals and last instants ---- */

  // SUM(open_count) over the rows behind the records.
  function TotalOpens(records: seq<Record>): nat {
    if records == [] then 0 else TotalOpens(records[..|records| - 1]) + records[|records| - 1].openCount
  }

  lemma {:induction false} SeenAgainstTotal(s: Store, records: seq<Record>, evs: seq<seq<EventId>>)
    requires Consistent(s) && RecordsRead(s, records, evs)
    ensures |AllSeen(records)| <= TotalOpens(records)
    ensures |AllSeen(records)| == TotalOpens(records) <==>
            forall i :: 0 <= i < |records| ==> records[i].openCount <= MAX_OPENS_PER_RECIPIENT
  {
    if records != [] {
      var n := |records| - 1;
      SeenAgainstTotal(s, records[..n], evs[..n]);
      assert RecordRead(s, records[n], evs[n]);
      RecordEvents(s, records[n], evs[n]);
      assert forall i :: 0 <= i < n ==> records[..n][i] == records[i];
    }
  }

  /** The daily opens add up to the group's open total exactly when no recipient is
      over the cap; otherwise they fall short. */
  lemma DailySumsToOpened(s: Store, g: GroupId, records: seq<Record>, evs: seq<seq<EventId>>, daily: seq<DailyOpens>)
    requires GroupRead(s, g, records, evs) && IsSeries(AllSeen(records), daily)
    ensures SumOpens(daily) <= TotalOpens(records)
    ensures SumOpens(daily) == TotalOpens(records) <==> forall e :: InGroup(s, e, g) ==> s.rows[e].openCount <= 500
  {
    SeriesSum(AllSeen(records), daily);
    SeenAgainstTotal(s, records, evs);
    forall i | 0 <= i < |records| ensures InGroup(s, records[i].emailId, g)
        && s.rows[records[i].emailId].openCount == records[i].openCount {
      assert RecordRead(s, records[i], evs[i]) && HasRecord(records, records[i].emailId);
    }
    if forall i :: 0 <= i < |records| ==> records[i].openCount <= MAX_OPENS_PER_RECIPIENT {
      forall e | InGroup(s, e, g) ensures s.rows[e].openCount <= MAX_OPENS_PER_RECIPIENT {
        assert HasRecord(records, e);
      }
    }
  }

  // A record with a series keeps its recipient's latest open.
  lemma RecordKeepsLatest(s: Store, r: Record, evs: seq<EventId>, ev: EventId)
    requires Consistent(s) && RecordRead(s, r, evs) && ev in HitsOf(s.opens, r.emailId)
    ensures exists j :: 0 <= j < |r.openedAt| && s.opens[ev].at <= r.openedAt[j]
  {
    RecordEvents(s, r, evs);
    assert |HitsOf(s.opens, r.emailId)| > 0 by {
      assert HitsOf(s.opens, r.emailId) != {};
    }
    if ev in evs {
      var j :| 0 <= j < |evs| && evs[j] == ev;
      assert s.opens[ev].at <= r.openedAt[j];
    } else {
      assert s.opens[ev].at <= r.openedAt[0];
    }
  }

  predicate HasInstant(seen: seq<Seen>, at: Time) {
    exists k :: 0 <= k < |seen| && seen[k].at == at
  }

  lemma HasInstantWithin(front: seq<Seen>, back: seq<Seen>, at: Time)
    requires HasInstant(front, at) || HasInstant(back, at)
    ensures HasInstant(front + back, at)
  {
    if HasInstant(front, at) {
      var k :| 0 <= k < |front| && front[k].at == at;
      assert (front + back)[k].at == at;
    } else {
      var k :| 0 <= k < |back| && back[k].at == at;
      assert (front + back)[|front| + k].at == at;
    }
  }

  lemma {:induction false} SeenHas(records: seq<Record>, i: nat, j: nat)
    requires i < |records| && j < |EventsOf(records[i])|
    ensures HasInstant(AllSeen(records), EventsOf(records[i])[j])
  {
    var n := |records| - 1;
    var at, r := EventsOf(records[i])[j], records[n];
    if i < n {
      SeenHas(records[..n], i, j);
    } else {
      assert SeenBy(r, |EventsOf(r)|)[j].at == at;
    }
    HasInstantWithin(AllSeen(records[..n]), SeenBy(r, |EventsOf(r)|), at);
  }

  lemma LastOpenCovers(s: Store, g: GroupId, records: seq<Record>, evs: seq<seq<EventId>>, last: Option<Time>,
                       ev: EventId)
    requires GroupRead(s, g, records, evs) && IsLastSeen(AllSeen(records), last)
    requires ev in s.opens && InGroup(s, s.opens[ev].email, g)
    ensures last.Some? && s.opens[ev].at <= last.value
  {
    var i := RecordFor(s, g, records, evs, s.opens[ev].email);
    RecordEvents(s, records[i], evs[i]);
    RecordKeepsLatest(s, records[i], evs[i], ev);
    var j :| 0 <= j < |records[i].openedAt| && s.opens[ev].at <= records[i].openedAt[j];
    SeenHas(records, i, j);
  }

  /** The last open is the SQL maximum, capped or not. */
  lemma LastOpenRefines(s: Store, g: GroupId, records: seq<Record>, evs: seq<seq<EventId>>, last: Option<Time>)
    requires GroupRead(s, g, records, evs) && IsLastSeen(AllSeen(records), last)
    ensures IsGroupMax(s, s.opens, g, last)
  {
    if last.Some? {
      FlatIsSeen(s, records, evs);
      var flat, seen := Flat(evs), AllSeen(records);
      var k :| 0 <= k < |seen| && seen[k].at == last.value;
      assert FlatAt(s.opens, records, seen[k], flat[k]);
      assert HasRecord(records, s.opens[flat[k]].email);
    }
    forall ev | ev in s.opens && InGroup(s, s.opens[ev].email, g) ensures last.Some? && s.opens[ev].at <= last.value {
      LastOpenCovers(s, g, records, evs, last, ev);
    }
  }

  // The SQL detail's last event: the later of the last open and the last click.
  function LaterOf(lastOpen: Option<Time>, lastClick: Option<Time>): Option<Time> {
    if lastOpen.Some? && lastClick.Some? then
      Some(if lastOpen.value < lastClick.value then lastClick.value else lastOpen.value)
    else if lastOpen.Some? then lastOpen else lastClick
  }

  lemma MaxUnique(s: Store, hits: map<EventId, Hit>, g: GroupId, a: Option<Time>, b: Option<Time>)
    requires IsGroupMax(s, hits, g, a) && IsGroupMax(s, hits, g, b)
    ensures a == b
  {
  }

  ghost predicate NoClickAfter(s: Store, g: GroupId, last: Option<Time>) {
    forall ev :: ev in s.clicks && InGroup(s, s.clicks[ev].email, g) ==> last.Some? && s.clicks[ev].at <= last.value
  }

  lemma NoClickAfterMax(s: Store, g: GroupId, last: Option<Time>, lastClick: Option<Time>)
    requires IsGroupMax(s, s.clicks, g, lastClick)
    ensures NoClickAfter(s, g, last) <==> (lastClick.Some? ==> last.Some? && lastClick.value <= last.value)
  {
  }

  /** The two reports name the same last event exactly when no click of the group is
      later than its last open; without clicks they always do. */
  lemma LastEventAgreesIff(s: Store, g: GroupId, records: seq<Record>, evs: seq<seq<EventId>>,
                           last: Option<Time>, lastOpen: Option<Time>, lastClick: Option<Time>)
    requires GroupRead(s, g, records, evs) && IsLastSeen(AllSeen(records), last)
    requires IsGroupMax(s, s.opens, g, lastOpen) && IsGroupMax(s, s.clicks, g, lastClick)
    ensures last == LaterOf(lastOpen, lastClick) <==> NoClickAfter(s, g, lastOpen)
  {
    LastOpenRefines(s, g, records, evs, last);
    MaxUnique(s, s.opens, g, last, lastOpen);
    NoClickAfterMax(s, g, last, lastClick);
  }
}
