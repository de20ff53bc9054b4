/** Keyset pagination of a committee's sent newsletters, followed to the end while
    other newsletters become sent. */
module Pagination {
  import opened Wrappers
  import opened Repository
  import Lifecycle
  import LifecycleRows

  const LIST_LIMIT := 20

  /** The (sent_at, id) of the last row of a page. */
  datatype Cursor = Cursor(sentAt: Time, id: Uuid)

  datatype Page = Page(ids: seq<Uuid>, next: Option<Cursor>)

  predicate Below(a: Cursor, b: Cursor) {
    a.sentAt < b.sentAt || (a.sentAt == b.sentAt && a.id < b.id)
  }

  /* ---- the query ---- */

  predicate IsListed(t: Table, committee: string, id: Uuid) {
    id in t && t[id].status == Sent && committee in t[id].content.committeeUids && t[id].sentAt.Some?
  }

  function KeyOf(t: Table, id: Uuid): Cursor
    requires id in t && t[id].sentAt.Some?
  {
    Cursor(t[id].sentAt.value, id)
  }

  predicate After(t: Table, committee: string, from: Option<Cursor>, id: Uuid) {
    IsListed(t, committee, id) && (from.Some? ==> Below(KeyOf(t, id), from.value))
  }

  function Matches(t: Table, committee: string, from: Option<Cursor>): set<Uuid> {
    set id | id in t && After(t, committee, from, id)
  }

  predicate Descending(t: Table, ids: seq<Uuid>) {
    && (forall i :: 0 <= i < |ids| ==> ids[i] in t && t[ids[i]].sentAt.Some?)
    && (forall i, j :: 0 <= i < j < |ids| ==> Below(KeyOf(t, ids[j]), KeyOf(t, ids[i])))
  }

  /** WHERE status = 'sent' AND committee AND (sent_at, id) < cursor
      ORDER BY sent_at DESC, id DESC LIMIT n. */
  predicate IsSelection(t: Table, committee: string, from: Option<Cursor>, n: nat, ids: seq<Uuid>) {
    && Descending(t, ids)
    && (forall i :: 0 <= i < |ids| ==> ids[i] in Matches(t, committee, from))
    && |ids| <= n
    && (|ids| < n ==> forall id :: id in Matches(t, committee, from) ==> id in ids)
    && (|ids| > 0 ==> forall id :: id in Matches(t, committee, from) && id !in ids ==>
        Below(KeyOf(t, id), KeyOf(t, ids[|ids| - 1])))
  }

  /** One page of the list on a table. */
  predicate IsPage(t: Table, committee: string, from: Option<Cursor>, p: Page) {
    && Descending(t, p.ids) && |p.ids| <= LIST_LIMIT
    && (forall i :: 0 <= i < |p.ids| ==> p.ids[i] in Matches(t, committee, from))
    && (p.next.None? ==> forall id :: id in Matches(t, committee, from) ==> id in p.ids)
    && (p.next.Some? ==> |p.ids| == LIST_LIMIT && p.next.value == KeyOf(t, p.ids[LIST_LIMIT - 1])
                         && forall id :: id in Matches(t, committee, from) && id !in p.ids ==>
                             Below(KeyOf(t, id), p.next.value))
  }

  /** ListSentByCommittee: `rows` is what the query returned for one row more than the
      page holds; the lookahead row is trimmed and its presence gives the token. */
  method ListSentByCommittee(t: Table, committee: string, from: Option<Cursor>, rows: seq<Uuid>) returns (p: Page)
    requires IsSelection(t, committee, from, LIST_LIMIT + 1, rows)
    ensures IsPage(t, committee, from, p)
    ensures p.ids <= rows && |p.ids| <= 20 && (p.next.Some? <==> |rows| > 20)
  {
    var ids, next := rows, None;
    if |rows| > LIST_LIMIT {
      var last := rows[LIST_LIMIT - 1];
      ids := rows[..LIST_LIMIT];
      if t[last].sentAt.Some? {
        next := Some(Cursor(t[last].sentAt.value, last));
      }
      assert rows == ids + [rows[LIST_LIMIT]];
      forall id | id in Matches(t, committee, from) && id !in ids ensures Below(KeyOf(t, id), next.value) {
        assert id == rows[LIST_LIMIT] || id !in rows;
      }
    }
    p := Page(ids, next);
  }

  /* ---- following the tokens ---- */

  /** Between two requests, rows already sent stay as they are. */
  predicate Evolves(a: Table, b: Table) {
    forall id :: id in a && a[id].status == Sent ==> id in b && b[id] == a[id]
  }

  predicate History(ts: seq<Table>) {
    && (forall i :: 0 <= i < |ts| ==> forall id :: id in ts[i] && ts[i][id].status == Sent ==> ts[i][id].sentAt.Some?)
    && (forall i, j :: 0 <= i <= j < |ts| ==> Evolves(ts[i], ts[j]))
  }

  function FromOf(pages: seq<Page>, i: nat): Option<Cursor>
    requires i <= |pages|
  {
    if i == 0 then None else pages[i - 1].next
  }

  // Page i, requested with the token of page i - 1.
  predicate PageAt(t: Table, committee: string, pages: seq<Page>, i: nat)
    requires i < |pages|
  {
    IsPage(t, committee, FromOf(pages, i), pages[i])
  }

  /** Page i is requested from the table as it then is, with the token of page i - 1. */
  predicate IsWalk(ts: seq<Table>, committee: string, pages: seq<Page>) {
    && |ts| == |pages|
    && (forall i :: 0 <= i < |pages| ==> PageAt(ts[i], committee, pages, i))
    && (forall i :: 0 <= i < |pages| - 1 ==> pages[i].next.Some?)
  }

  function Returned(pages: seq<Page>): seq<Uuid> {
    if pages == [] then [] else Returned(pages[..|pages| - 1]) + pages[|pages| - 1].ids
  }

  // What the walk has returned so far, against the last table: in order, all above the
  // token, and nothing of the first table above the token is missing.
  ghost predicate CoveredSoFar(first: Table, now: Table, committee: string, ids: seq<Uuid>, next: Option<Cursor>) {
    && Descending(now, ids)
    && (forall i :: 0 <= i < |ids| ==> IsListed(now, committee, ids[i]))
    && (next.Some? ==> forall i :: 0 <= i < |ids| ==> !Below(KeyOf(now, ids[i]), next.value))
    && (forall id :: IsListed(first, committee, id) ==> id in ids || (next.Some? && Below(KeyOf(first, id), next.value)))
  }

  lemma StaysListed(a: Table, b: Table, committee: string, id: Uuid)
    requires Evolves(a, b) && IsListed(a, committee, id)
    ensures IsListed(b, committee, id) && KeyOf(b, id) == KeyOf(a, id)
  {
  }

  lemma OlderPages(a: Table, b: Table, committee: string, ids: seq<Uuid>)
    requires Evolves(a, b) && Descending(a, ids) && forall i :: 0 <= i < |ids| ==> IsListed(a, committee, ids[i])
    ensures Descending(b, ids) && forall i :: 0 <= i < |ids| ==>
        IsListed(b, committee, ids[i]) && KeyOf(b, ids[i]) == KeyOf(a, ids[i])
  {
  }

  // The next page continues the walk.
  lemma PageCovers(first: Table, before: Table, now: Table, committee: string, ids: seq<Uuid>, from: Option<Cursor>,
                   p: Page)
    requires CoveredSoFar(first, before, committee, ids, from) && from.Some?
    requires Evolves(first, now) && Evolves(before, now) && IsPage(now, committee, from, p)
    ensures CoveredSoFar(first, now, committee, ids + p.ids, p.next)
  {
    OlderPages(before, now, committee, ids);
    var all := ids + p.ids;
    forall i | 0 <= i < |p.ids| ensures After(now, committee, from, p.ids[i]) {
      assert p.ids[i] in Matches(now, committee, from);
    }
    forall i, j | 0 <= i < j < |all| ensures Below(KeyOf(now, all[j]), KeyOf(now, all[i])) {
      if i < |ids| <= j {
        assert After(now, committee, from, p.ids[j - |ids|]);
      }
    }
    forall id | IsListed(first, committee, id) ensures id in all || (p.next.Some? && Below(KeyOf(first, id), p.next.value)) {
      StaysListed(first, now, committee, id);
      if id !in ids {
        assert id in Matches(now, committee, from);
      }
    }
    if p.next.Some? {
      LastIsLowest(now, p.ids);
    }
  }

  lemma LastIsLowest(t: Table, ids: seq<Uuid>)
    requires Descending(t, ids) && ids != []
    ensures forall i :: 0 <= i < |ids| ==> !Below(KeyOf(t, ids[i]), KeyOf(t, ids[|ids| - 1]))
  {
  }

  lemma FirstPageCovers(first: Table, committee: string, p: Page)
    requires IsPage(first, committee, None, p)
    ensures CoveredSoFar(first, first, committee, p.ids, p.next)
  {
  }

  lemma ShorterWalk(ts: seq<Table>, committee: string, pages: seq<Page>)
    requires |pages| > 1 && IsWalk(ts, committee, pages)
    ensures IsWalk(ts[..|ts| - 1], committee, pages[..|pages| - 1])
    ensures History(ts) ==> History(ts[..|ts| - 1])
  {
  }

  lemma {:induction false} WalkCovers(ts: seq<Table>, committee: string, pages: seq<Page>)
    requires pages != [] && History(ts) && IsWalk(ts, committee, pages)
    ensures CoveredSoFar(ts[0], ts[|ts| - 1], committee, Returned(pages), pages[|pages| - 1].next)
  {
    var n := |pages| - 1;
    if n == 0 {
      assert pages[..0] == [] && Returned(pages) == [] + pages[0].ids;
      assert PageAt(ts[0], committee, pages, 0);
      FirstPageCovers(ts[0], committee, pages[0]);
    } else {
      ShorterWalk(ts, committee, pages);
      WalkCovers(ts[..n], committee, pages[..n]);
      assert PageAt(ts[n], committee, pages, n);
      PageCovers(ts[0], ts[n - 1], ts[n], committee, Returned(pages[..n]), FromOf(pages, n), pages[n]);
    }
  }

  /** A newsletter sent to the committee. */
  predicate SentTo(t: Table, committee: string, id: Uuid) {
    id in t && t[id].status == Sent && t[id].sentAt.Some? && committee in t[id].content.committeeUids
  }

  /** The first was sent after the second, or at the same instant with the larger id. */
  predicate LaterOf(t: Table, a: Uuid, b: Uuid) {
    && a in t && b in t && t[a].sentAt.Some? && t[b].sentAt.Some? && a != b
    && (t[a].sentAt.value > t[b].sentAt.value || (t[a].sentAt.value == t[b].sentAt.value && a > b))
  }

  lemma PagesHoldTwenty(ts: seq<Table>, committee: string, pages: seq<Page>, i: nat)
    requires IsWalk(ts, committee, pages) && i < |pages|
    ensures |pages[i].ids| <= 20
  {
    assert PageAt(ts[i], committee, pages, i);
  }

  /** A finished walk returned every newsletter that was already sent when it began,
      exactly once, in (sent_at, id) descending order, whatever became sent meanwhile. */
  lemma WalkIsStable(ts: seq<Table>, committee: string, pages: seq<Page>)
    requires pages != [] && History(ts) && IsWalk(ts, committee, pages)
    requires pages[|pages| - 1].next.None?
    ensures var ids, last := Returned(pages), ts[|ts| - 1];
            && (forall i :: 0 <= i < |ids| ==> SentTo(last, committee, ids[i]))
            && (forall i, j :: 0 <= i < j < |ids| ==> LaterOf(last, ids[i], ids[j]))
            && (forall id :: SentTo(ts[0], committee, id) ==> id in ids)
            && (forall i :: 0 <= i < |pages| ==> |pages[i].ids| <= 20)
  {
    WalkCovers(ts, committee, pages);
    forall i | 0 <= i < |pages| ensures |pages[i].ids| <= 20 {
      PagesHoldTwenty(ts, committee, pages, i);
    }
  }

  /** On a table that does not change, every page but the last takes twenty rows off
      what is left, so the walk ends. */
  lemma PagesShrink(t: Table, committee: string, from: Option<Cursor>, p: Page)
    requires IsPage(t, committee, from, p) && p.next.Some?
    ensures |Matches(t, committee, p.next)| + 20 == |Matches(t, committee, from)|
  {
    var left, here := Matches(t, committee, p.next), set i | 0 <= i < |p.ids| :: p.ids[i];
    LastIsLowest(t, p.ids);
    forall id | id in here ensures id in Matches(t, committee, from) && id !in left {
    }
    forall id | id in Matches(t, committee, from) && id !in here ensures id in left {
    }
    forall id | id in left ensures id in Matches(t, committee, from) {
      var last := p.ids[LIST_LIMIT - 1];
      assert last in Matches(t, committee, from);
    }
    assert Matches(t, committee, from) == here + left;
    DistinctCount(t, p.ids);
  }

  lemma {:induction false} DistinctCount(t: Table, ids: seq<Uuid>)
    requires Descending(t, ids)
    ensures |set i | 0 <= i < |ids| :: ids[i]| == |ids|
  {
    var all := set i | 0 <= i < |ids| :: ids[i];
    if ids == [] {
      assert all == {};
    } else {
      var n := |ids| - 1;
      DistinctCount(t, ids[..n]);
      assert all == (set i | 0 <= i < |ids[..n]| :: ids[..n][i]) + {ids[n]};
    }
  }

  // A walk whose table never changes.
  predicate IsFixedWalk(t: Table, committee: string, pages: seq<Page>) {
    && (forall i :: 0 <= i < |pages| ==> PageAt(t, committee, pages, i))
    && (forall i :: 0 <= i < |pages| - 1 ==> pages[i].next.Some?)
  }

  lemma {:induction false} LeftAfter(t: Table, committee: string, pages: seq<Page>, k: nat)
    requires IsFixedWalk(t, committee, pages) && k < |pages|
    ensures 20 * k + |Matches(t, committee, FromOf(pages, k))| == |Matches(t, committee, None)|
  {
    if k > 0 {
      LeftAfter(t, committee, pages, k - 1);
      assert PageAt(t, committee, pages, k - 1);
      PagesShrink(t, committee, FromOf(pages, k - 1), pages[k - 1]);
    }
  }

  /** A walk over a fixed table of m listed rows takes at most m / 20 + 1 pages. */
  lemma WalkEnds(t: Table, committee: string, pages: seq<Page>)
    requires pages != [] && IsFixedWalk(t, committee, pages)
    ensures |pages| <= |Matches(t, committee, None)| / 20 + 1
  {
    LeftAfter(t, committee, pages, |pages| - 1);
  }

  /* ---- the lifecycle keeps sent rows as they are ---- */

  function TableAfter(cfg: Lifecycle.Config, es: seq<Lifecycle.Event>, k: nat): Table
    requires k <= |es| && Lifecycle.IsRun(Lifecycle.Init(cfg), es[..k])
  {
    Lifecycle.Run(Lifecycle.Init(cfg), es[..k]).rows
  }

  // The tables met at some moments of a run, in the order of the run.
  ghost predicate Sampled(cfg: Lifecycle.Config, es: seq<Lifecycle.Event>, ks: seq<nat>, ts: seq<Table>) {
    && |ts| == |ks|
    && (forall i :: 0 <= i < |ks| ==> ks[i] <= |es|)
    && (forall i, j :: 0 <= i <= j < |ks| ==> ks[i] <= ks[j])
    && (forall i :: 0 <= i < |ks| ==> Lifecycle.IsRun(Lifecycle.Init(cfg), es[..ks[i]]) && ts[i] == TableAfter(cfg, es, ks[i]))
  }

  /** Between any two moments of a run with honest edits, overlapping runs included,
      what is sent stays as it is. */
  lemma RunsEvolve(cfg: Lifecycle.Config, es: seq<Lifecycle.Event>, j: nat, k: nat)
    requires Lifecycle.IsRun(Lifecycle.Init(cfg), es) && LifecycleRows.HonestRun(Lifecycle.Init(cfg), es)
    requires j <= k <= |es|
    ensures Lifecycle.IsRun(Lifecycle.Init(cfg), es[..j]) && Lifecycle.IsRun(Lifecycle.Init(cfg), es[..k])
    ensures Evolves(TableAfter(cfg, es, j), TableAfter(cfg, es, k))
  {
    var start := Lifecycle.Init(cfg);
    LifecycleRows.CutHonestRun(start, es, k);
    LifecycleRows.CutHonestRun(start, es[..k], j);
    assert es[..k][..j] == es[..j];
    forall id | id in TableAfter(cfg, es, j) && TableAfter(cfg, es, j)[id].status == Sent
      ensures id in TableAfter(cfg, es, k) && TableAfter(cfg, es, k)[id] == TableAfter(cfg, es, j)[id]
    {
      LifecycleRows.SentRowsAreFrozen(cfg, es[..k], j, id);
    }
  }

  lemma SampledHistory(cfg: Lifecycle.Config, es: seq<Lifecycle.Event>, ks: seq<nat>, ts: seq<Table>)
    requires Lifecycle.IsRun(Lifecycle.Init(cfg), es) && LifecycleRows.HonestRun(Lifecycle.Init(cfg), es)
    requires Sampled(cfg, es, ks, ts)
    ensures History(ts)
  {
    forall i | 0 <= i < |ts| ensures forall id :: id in ts[i] && ts[i][id].status == Sent ==> ts[i][id].sentAt.Some? {
      forall id | id in ts[i] && ts[i][id].status == Sent ensures ts[i][id].sentAt.Some? {
        LifecycleRows.RowInvariant(cfg, es[..ks[i]], id);
      }
    }
    forall i, j | 0 <= i <= j < |ts| ensures Evolves(ts[i], ts[j]) {
      RunsEvolve(cfg, es, ks[i], ks[j]);
    }
  }

  /** A finished walk whose pages were read at any moments of any run with honest
      edits, overlapping runs included, returned every newsletter that was already sent
      at the first of them, exactly once and in descending order. */
  lemma WalkOverRunIsStable(cfg: Lifecycle.Config, es: seq<Lifecycle.Event>, ks: seq<nat>, ts: seq<Table>,
                            committee: string, pages: seq<Page>)
    requires Lifecycle.IsRun(Lifecycle.Init(cfg), es) && LifecycleRows.HonestRun(Lifecycle.Init(cfg), es)
    requires Sampled(cfg, es, ks, ts)
    requires pages != [] && IsWalk(ts, committee, pages) && pages[|pages| - 1].next.None?
    ensures var ids, last := Returned(pages), ts[|ts| - 1];
            && (forall i :: 0 <= i < |ids| ==> SentTo(last, committee, ids[i]))
            && (forall i, j :: 0 <= i < j < |ids| ==> LaterOf(last, ids[i], ids[j]))
            && (forall id :: SentTo(ts[0], committee, id) ==> id in ids)
            && (forall i :: 0 <= i < |pages| ==> |pages[i].ids| <= 20)
  {
    SampledHistory(cfg, es, ks, ts);
    WalkIsStable(ts, committee, pages);
  }
}
