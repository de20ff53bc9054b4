/** What the in-memory daily series says about the records, told without the buckets. */
module ReportRules {
  import opened Wrappers
  import opened Engagement
  import opened Reports

  // The opens a record reports; older ones name only the last.
  function Instants(r: Record): seq<Time> {
    if |r.openedAt| > 0 then r.openedAt
    else if r.hasOpened && r.lastOpened.Some? then [r.lastOpened.value]
    else []
  }

  function NameOf(r: Record): string {
    if r.emailId != "" then r.emailId else r.to
  }

  // A UTC day is 86400 seconds.
  predicate IsOn(t: Time, d: Day) {
    86400 * d <= t < 86400 * d + 86400
  }

  predicate OpenedOn(r: Record, k: nat, d: Day) {
    k < |Instants(r)| && IsOn(Instants(r)[k], d)
  }

  // Open k of record i was on the day.
  ghost function OpensOn(records: seq<Record>, d: Day): set<(nat, nat)> {
    set i: nat, k: nat | i < |records| && k < |Instants(records[i])| && OpenedOn(records[i], k, d) :: (i, k)
  }

  ghost function NamesOn(records: seq<Record>, d: Day): set<string> {
    set i: nat, k: nat | i < |records| && k < |Instants(records[i])| && OpenedOn(records[i], k, d) :: NameOf(records[i])
  }

  lemma DayBounds(t: Time, d: Day)
    ensures DayOf(t) == d <==> IsOn(t, d)
  {
  }

  lemma {:induction false} CountBoth(a: seq<Seen>, b: seq<Seen>, d: Day)
    ensures CountOn(a + b, d) == CountOn(a, d) + CountOn(b, d)
    ensures KeysOn(a + b, d) == KeysOn(a, d) + KeysOn(b, d)
  {
    if b == [] {
      assert a + b == a;
    } else {
      var n := |b| - 1;
      CountBoth(a, b[..n], d);
      assert a + b == a + b[..n] + [b[n]] && b == b[..n] + [b[n]];
      OneMoreSeen(a + b[..n], b[n], d);
      OneMoreSeen(b[..n], b[n], d);
    }
  }

  // The first m opens of record i on the day.
  ghost function OwnOn(r: Record, i: nat, m: nat, d: Day): set<(nat, nat)> {
    set k: nat | k < m && OpenedOn(r, k, d) :: (i, k)
  }

  lemma SameOpens(r: Record)
    ensures Instants(r) == EventsOf(r) && NameOf(r) == KeyOf(r)
  {
  }

  lemma SeenNext(r: Record, m: nat)
    requires 0 < m <= |EventsOf(r)|
    ensures SeenBy(r, m) == SeenBy(r, m - 1) + [Seen(KeyOf(r), EventsOf(r)[m - 1])]
  {
  }

  lemma OwnNext(r: Record, i: nat, m: nat, d: Day)
    requires 0 < m
    ensures var isOpen := OpenedOn(r, m - 1, d);
            && |OwnOn(r, i, m, d)| == |OwnOn(r, i, m - 1, d)| + (if isOpen then 1 else 0)
            && (OwnOn(r, i, m, d) == {} <==> OwnOn(r, i, m - 1, d) == {} && !isOpen)
  {
    var all, before := OwnOn(r, i, m, d), OwnOn(r, i, m - 1, d);
    if OpenedOn(r, m - 1, d) {
      assert all == before + {(i, m - 1)} && (i, m - 1) !in before;
      assert (i, m - 1) in all;
    } else {
      assert all == before;
    }
  }

  // Counting a record's opens on a day, against the set of their numbers.
  ghost predicate CountsOwn(r: Record, i: nat, m: nat, d: Day)
    requires m <= |EventsOf(r)|
  {
    && CountOn(SeenBy(r, m), d) == |OwnOn(r, i, m, d)|
    && KeysOn(SeenBy(r, m), d) == if OwnOn(r, i, m, d) == {} then {} else {NameOf(r)}
  }

  lemma OwnNone(r: Record, i: nat, d: Day)
    ensures CountsOwn(r, i, 0, d)
  {
    assert SeenBy(r, 0) == [] && OwnOn(r, i, 0, d) == {};
  }

  lemma {:induction false} OwnCount(r: Record, i: nat, m: nat, d: Day)
    requires m <= |EventsOf(r)|
    ensures CountsOwn(r, i, m, d)
  {
    if m == 0 {
      OwnNone(r, i, d);
    } else {
      hide CountOn, KeysOn, SeenBy, OwnOn, EventsOf, KeyOf, NameOf, Instants, DayOf, IsOn;
      var x := Seen(KeyOf(r), EventsOf(r)[m - 1]);
      SameOpens(r);
      OwnCount(r, i, m - 1, d);
      SeenNext(r, m);
      OneMoreSeen(SeenBy(r, m - 1), x, d);
      DayBounds(x.at, d);
      OwnNext(r, i, m, d);
    }
  }

  lemma OneMoreRecordOn(front: seq<Record>, r: Record, d: Day)
    ensures OpensOn(front + [r], d) == OpensOn(front, d) + OwnOn(r, |front|, |Instants(r)|, d)
    ensures OpensOn(front, d) !! OwnOn(r, |front|, |Instants(r)|, d)
    ensures NamesOn(front + [r], d) ==
            NamesOn(front, d) + if OwnOn(r, |front|, |Instants(r)|, d) == {} then {} else {NameOf(r)}
  {
    var all, own := front + [r], OwnOn(r, |front|, |Instants(r)|, d);
    assert all[|front|] == r && forall i :: 0 <= i < |front| ==> all[i] == front[i];
    if own != {} {
      var p :| p in own;
      assert OpenedOn(all[|front|], p.1, d);
    }
    forall i: nat, k: nat | i < |all| && k < |Instants(all[i])| && OpenedOn(all[i], k, d)
      ensures if i < |front| then (i, k) in OpensOn(front, d) && NameOf(all[i]) in NamesOn(front, d)
              else (i, k) in own
    {
      if i < |front| {
        assert OpenedOn(front[i], k, d);
      }
    }
    forall i: nat, k: nat | i < |front| && k < |Instants(front[i])| && OpenedOn(front[i], k, d)
      ensures (i, k) in OpensOn(all, d) && NameOf(front[i]) in NamesOn(all, d)
    {
      assert OpenedOn(all[i], k, d);
    }
  }

  // Counting the opens on a day, against the set of their positions.
  ghost predicate CountsOpens(records: seq<Record>, d: Day) {
    CountOn(AllSeen(records), d) == |OpensOn(records, d)| && KeysOn(AllSeen(records), d) == NamesOn(records, d)
  }

  lemma NoOpens(d: Day)
    ensures CountsOpens([], d)
  {
    assert AllSeen([]) == [] && OpensOn([], d) == {} && NamesOn([], d) == {};
  }

  lemma OpensGrow(front: seq<Record>, r: Record, d: Day)
    requires CountsOpens(front, d)
    ensures CountsOpens(front + [r], d)
  {
    hide CountOn, KeysOn, SeenBy, OwnOn, OpensOn, NamesOn, EventsOf, NameOf, Instants;
    SameOpens(r);
    OwnCount(r, |front|, |EventsOf(r)|, d);
    CountBoth(AllSeen(front), SeenBy(r, |EventsOf(r)|), d);
    OneMoreRecordOn(front, r, d);
    assert (front + [r])[..|front|] == front;
    assert AllSeen(front + [r]) == AllSeen(front) + SeenBy(r, |EventsOf(r)|);
  }

  lemma {:induction false} SeenAreOpens(records: seq<Record>, d: Day)
    ensures CountsOpens(records, d)
  {
    if records == [] {
      NoOpens(d);
    } else {
      var n := |records| - 1;
      SeenAreOpens(records[..n], d);
      OpensGrow(records[..n], records[n], d);
      assert records == records[..n] + [records[n]];
    }
  }

  /** The daily series has, in ascending order, exactly the UTC days on which some record
      was opened, each with the number of its opens and of the recipients behind them. */
  lemma SeriesOfRecords(records: seq<Record>, daily: seq<DailyOpens>)
    requires IsSeries(AllSeen(records), daily)
    ensures forall j, k :: 0 <= j < k < |daily| ==> daily[j].date < daily[k].date
    ensures forall j :: 0 <= j < |daily| ==> && daily[j].opens == |OpensOn(records, daily[j].date)| > 0
                                             && daily[j].unique == |NamesOn(records, daily[j].date)|
    ensures forall d :: OpensOn(records, d) != {} ==> exists j :: 0 <= j < |daily| && daily[j].date == d
  {
    forall j | 0 <= j < |daily|
      ensures daily[j].opens == |OpensOn(records, daily[j].date)| > 0
      ensures daily[j].unique == |NamesOn(records, daily[j].date)|
    {
      SeenAreOpens(records, daily[j].date);
    }
    forall d | OpensOn(records, d) != {} ensures exists j :: 0 <= j < |daily| && daily[j].date == d {
      SeenAreOpens(records, d);
      if forall i :: 0 <= i < |AllSeen(records)| ==> DayOf(AllSeen(records)[i].at) != d {
        NotSeenOn(AllSeen(records), d);
      }
      var i :| 0 <= i < |AllSeen(records)| && DayOf(AllSeen(records)[i].at) == d;
      assert HasDate(daily, d);
    }
  }

  lemma {:induction false} SeenFrom(records: seq<Record>, j: nat) returns (i: nat, k: nat)
    requires j < |AllSeen(records)|
    ensures i < |records| && k < |Instants(records[i])| && Instants(records[i])[k] == AllSeen(records)[j].at
  {
    var n := |records| - 1;
    var before := AllSeen(records[..n]);
    SameOpens(records[n]);
    if j < |before| {
      i, k := SeenFrom(records[..n], j);
    } else {
      i, k := n, j - |before|;
    }
  }

  // No open of the record is later.
  predicate NoneLater(r: Record, last: Option<Time>) {
    forall k :: 0 <= k < |Instants(r)| ==> last.Some? && Instants(r)[k] <= last.value
  }

  /** The last instant is the latest open of all the records, none if there is none. */
  lemma LastOfRecords(records: seq<Record>, last: Option<Time>)
    requires IsLastSeen(AllSeen(records), last)
    ensures forall i :: 0 <= i < |records| ==> NoneLater(records[i], last)
    ensures last.Some? ==>
              exists i, k :: 0 <= i < |records| && 0 <= k < |Instants(records[i])| && Instants(records[i])[k] == last.value
  {
    forall i | 0 <= i < |records| ensures NoneLater(records[i], last) {
      SameOpens(records[i]);
      forall k | 0 <= k < |Instants(records[i])| ensures last.Some? && Instants(records[i])[k] <= last.value {
        SeenHas(records, i, k);
        assert HasInstant(AllSeen(records), Instants(records[i])[k]);
      }
    }
    if last.Some? {
      var j :| 0 <= j < |AllSeen(records)| && AllSeen(records)[j].at == last.value;
      var i, k := SeenFrom(records, j);
    }
  }
}
