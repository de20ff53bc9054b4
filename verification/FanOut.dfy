/** The per-recipient dispatch loop of one send. The main loop hands recipients
    to goroutines through a counting semaphore; goroutines report under a mutex in
    any order; the job context may expire at any point. One FanEvent is one
    atomic section, so a run is any interleaving of them. */
module FanOut {

  type Email = string

  // What the dispatcher reported: accepted, definitively rejected, or unknown.
  datatype Outcome = Accepted | Rejected | Ambiguous

  datatype Fan = Fan(
    recipients: seq<Email>,
    concurrency: nat,
    next: nat,
    inFlight: set<nat>,
    expired: bool,
    sent: nat,
    failed: nat,
    unknown: nat,
    failures: seq<Email>)

  datatype FanEvent =
    | Expire
    | Dispatch
    | Skip
    | Finish(slot: nat, outcome: Outcome)

  const DEFAULT_SEND_CONCURRENCY := 5

  // A configured concurrency that is not positive falls back to the default.
  function Workers(configured: int): (workers: nat)
    ensures workers >= 1 && (configured > 0 ==> workers == configured) && (configured <= 0 ==> workers == 5)
  {
    if configured <= 0 then DEFAULT_SEND_CONCURRENCY else configured
  }

  function Start(recipients: seq<Email>, concurrency: nat): Fan {
    Fan(recipients, concurrency, 0, {}, false, 0, 0, 0, [])
  }

  // With the fan-out toggle off nothing is dispatched and all count as sent.
  function Disabled(recipients: seq<Email>, concurrency: nat): (f: Fan)
    ensures Done(f) && f.recipients == recipients
    ensures f.sent == |recipients| && f.failed == f.unknown == 0 && f.failures == []
  {
    Fan(recipients, concurrency, |recipients|, {}, false, |recipients|, 0, 0, [])
  }

  predicate Done(f: Fan) {
    f.next == |f.recipients| && f.inFlight == {}
  }

  predicate Enabled(f: Fan, e: FanEvent) {
    match e
    case Expire => true
    case Dispatch => f.next < |f.recipients| && |f.inFlight| < f.concurrency
    case Skip => f.next < |f.recipients| && f.expired
    case Finish(slot, _) => slot in f.inFlight && slot < |f.recipients|
  }

  function Next(f: Fan, e: FanEvent): Fan
    requires Enabled(f, e)
  {
    match e
    case Expire => f.(expired := true)
    case Dispatch => f.(next := f.next + 1, inFlight := f.inFlight + {f.next})
    case Skip => f.(next := f.next + 1, failed := f.failed + 1, failures := f.failures + [f.recipients[f.next]])
    case Finish(slot, outcome) =>
      var g := f.(inFlight := f.inFlight - {slot});
      match outcome
      case Accepted => g.(sent := g.sent + 1)
      case Rejected => g.(failed := g.failed + 1, failures := g.failures + [f.recipients[slot]])
      case Ambiguous => g.(unknown := g.unknown + 1, failures := g.failures + [f.recipients[slot]])
  }

  predicate Valid(f: Fan) {
    f.next <= |f.recipients| && forall k :: k in f.inFlight ==> k < f.next
  }

  /* ---- runs ---- */

  predicate IsRun(f: Fan, es: seq<FanEvent>)
    decreases |es|
  {
    es == [] || (Enabled(f, es[0]) && IsRun(Next(f, es[0]), es[1..]))
  }

  function Run(f: Fan, es: seq<FanEvent>): Fan
    requires IsRun(f, es)
    decreases |es|
  {
    if es == [] then f else Run(Next(f, es[0]), es[1..])
  }

  datatype Verdict = Verdict(slot: nat, outcome: Outcome)

  // The settlements of a run, oldest first: one per skipped or finished slot.
  function Verdicts(f: Fan, es: seq<FanEvent>): seq<Verdict>
    requires IsRun(f, es)
    decreases |es|
  {
    if es == [] then [] else
    (match es[0]
     case Skip => [Verdict(f.next, Rejected)]
     case Finish(slot, outcome) => [Verdict(slot, outcome)]
     case Expire => []
     case Dispatch => []) + Verdicts(Next(f, es[0]), es[1..])
  }

  // The slots handed to the dispatcher, oldest first.
  function Dispatches(f: Fan, es: seq<FanEvent>): seq<nat>
    requires IsRun(f, es)
    decreases |es|
  {
    if es == [] then []
    else if es[0].Dispatch? then [f.next] + Dispatches(Next(f, es[0]), es[1..])
    else Dispatches(Next(f, es[0]), es[1..])
  }

  function Count(vs: seq<Verdict>, o: Outcome): nat {
    if vs == [] then 0 else (if vs[0].outcome == o then 1 else 0) + Count(vs[1..], o)
  }

  function Failures(recipients: seq<Email>, vs: seq<Verdict>): seq<Email> {
    if vs == [] then [] else
    (if vs[0].outcome != Accepted && vs[0].slot < |recipients| then [recipients[vs[0].slot]] else []) +
    Failures(recipients, vs[1..])
  }

  predicate DistinctSlots(vs: seq<Verdict>) {
    forall i, j :: 0 <= i < j < |vs| ==> vs[i].slot != vs[j].slot
  }

  predicate Ascending(ks: seq<nat>) {
    forall i, j :: 0 <= i < j < |ks| ==> ks[i] < ks[j]
  }

  // A slot with a verdict in this stretch of the run.
  predicate HasVerdict(vs: seq<Verdict>, k: nat) {
    exists i :: 0 <= i < |vs| && vs[i].slot == k
  }

  /** What a stretch of a run does to the slots: those with a verdict are exactly
      the ones that stopped being pending or in flight, each once. */
  ghost predicate SlotsMoved(f: Fan, g: Fan, vs: seq<Verdict>) {
    && Valid(g) && g.recipients == f.recipients && g.concurrency == f.concurrency
    && f.next <= g.next
    && (forall k :: k in g.inFlight ==> k in f.inFlight || f.next <= k)
    && (forall k: nat :: HasVerdict(vs, k) <==> (k in f.inFlight || f.next <= k < g.next) && k !in g.inFlight)
    && DistinctSlots(vs)
    && (|f.inFlight| <= f.concurrency ==> |g.inFlight| <= g.concurrency)
    && f.next + |vs| + |g.inFlight| == g.next + |f.inFlight|
  }

  /** What it does to the counters: they move by exactly the verdicts. */
  ghost predicate Tallied(f: Fan, g: Fan, vs: seq<Verdict>) {
    && g.sent == f.sent + Count(vs, Accepted)
    && g.failed == f.failed + Count(vs, Rejected)
    && g.unknown == f.unknown + Count(vs, Ambiguous)
    && g.failures == f.failures + Failures(f.recipients, vs)
  }

  // One event, then a stretch that is already accounted for.
  lemma DispatchMoves(f: Fan, g: Fan, rest: seq<Verdict>)
    requires Valid(f) && Enabled(f, Dispatch) && SlotsMoved(Next(f, Dispatch), g, rest)
    ensures SlotsMoved(f, g, rest)
  {
  }

  lemma SkipMoves(f: Fan, g: Fan, rest: seq<Verdict>)
    requires Valid(f) && Enabled(f, Skip) && SlotsMoved(Next(f, Skip), g, rest)
    ensures SlotsMoved(f, g, [Verdict(f.next, Rejected)] + rest)
  {
    assert HasVerdict(rest, f.next) <==> (f.next in f.inFlight || f.next + 1 <= f.next < g.next) && f.next !in g.inFlight;
    PrependSlot(Verdict(f.next, Rejected), rest);
  }

  lemma FinishMoves(f: Fan, g: Fan, slot: nat, outcome: Outcome, rest: seq<Verdict>)
    requires Valid(f) && Enabled(f, Finish(slot, outcome)) && SlotsMoved(Next(f, Finish(slot, outcome)), g, rest)
    ensures SlotsMoved(f, g, [Verdict(slot, outcome)] + rest)
  {
    var h := Next(f, Finish(slot, outcome));
    assert HasVerdict(rest, slot) <==> (slot in h.inFlight || h.next <= slot < g.next) && slot !in g.inFlight;
    PrependSlot(Verdict(slot, outcome), rest);
  }

  lemma {:induction false} SlotsMove(f: Fan, es: seq<FanEvent>)
    requires Valid(f) && IsRun(f, es)
    ensures SlotsMoved(f, Run(f, es), Verdicts(f, es))
    decreases |es|
  {
    if es != [] {
      var h := Next(f, es[0]);
      SlotsMove(h, es[1..]);
      var g, rest := Run(h, es[1..]), Verdicts(h, es[1..]);
      match es[0] {
        case Expire => assert [] + rest == rest;
        case Dispatch =>
          assert [] + rest == rest;
          DispatchMoves(f, g, rest);
        case Skip => SkipMoves(f, g, rest);
        case Finish(slot, outcome) => FinishMoves(f, g, slot, outcome, rest);
      }
    }
  }

  lemma PrependSlot(v: Verdict, rest: seq<Verdict>)
    requires !HasVerdict(rest, v.slot) && DistinctSlots(rest)
    ensures DistinctSlots([v] + rest)
    ensures forall k: nat :: HasVerdict([v] + rest, k) <==> k == v.slot || HasVerdict(rest, k)
  {
    var vs := [v] + rest;
    assert vs[0] == v && vs[1..] == rest;
    forall k: nat ensures HasVerdict(vs, k) <==> k == v.slot || HasVerdict(rest, k) {
      if HasVerdict(rest, k) {
        var i :| 0 <= i < |rest| && rest[i].slot == k;
        assert vs[i + 1].slot == k;
      }
    }
    forall i, j | 0 <= i < j < |vs| ensures vs[i].slot != vs[j].slot {
      assert vs[j] == rest[j - 1];
    }
  }

  lemma PrependTally(f: Fan, h: Fan, g: Fan, v: Verdict, rest: seq<Verdict>)
    requires v.slot < |f.recipients| && h.recipients == f.recipients && Tallied(h, g, rest)
    requires h.sent == f.sent + (if v.outcome == Accepted then 1 else 0)
    requires h.failed == f.failed + (if v.outcome == Rejected then 1 else 0)
    requires h.unknown == f.unknown + (if v.outcome == Ambiguous then 1 else 0)
    requires h.failures == f.failures + (if v.outcome != Accepted then [f.recipients[v.slot]] else [])
    ensures Tallied(f, g, [v] + rest)
  {
    assert ([v] + rest)[1..] == rest;
    assert f.failures + (Failures(f.recipients, [v] + rest)) == h.failures + Failures(f.recipients, rest);
  }

  lemma {:induction false} CountersMove(f: Fan, es: seq<FanEvent>)
    requires Valid(f) && IsRun(f, es)
    ensures Tallied(f, Run(f, es), Verdicts(f, es))
    decreases |es|
  {
    if es == [] {
      assert f.failures + [] == f.failures;
    } else {
      var h := Next(f, es[0]);
      CountersMove(h, es[1..]);
      var g, rest := Run(h, es[1..]), Verdicts(h, es[1..]);
      match es[0] {
        case Expire => assert [] + rest == rest;
        case Dispatch => assert [] + rest == rest;
        case Skip => PrependTally(f, h, g, Verdict(f.next, Rejected), rest);
        case Finish(slot, outcome) => PrependTally(f, h, g, Verdict(slot, outcome), rest);
      }
    }
  }

  lemma {:induction false} CountsAddUp(vs: seq<Verdict>)
    ensures Count(vs, Accepted) + Count(vs, Rejected) + Count(vs, Ambiguous) == |vs|
  {
    if vs != [] {
      CountsAddUp(vs[1..]);
    }
  }

  lemma {:induction false} FailuresCounted(recipients: seq<Email>, vs: seq<Verdict>)
    requires forall i :: 0 <= i < |vs| ==> vs[i].slot < |recipients|
    ensures |Failures(recipients, vs)| == Count(vs, Rejected) + Count(vs, Ambiguous)
  {
    if vs != [] {
      FailuresCounted(recipients, vs[1..]);
    }
  }

  predicate AllBetween(ks: seq<nat>, low: nat, high: nat) {
    forall i :: 0 <= i < |ks| ==> low <= ks[i] < high
  }

  lemma PrependAscending(k: nat, rest: seq<nat>, high: nat)
    requires Ascending(rest) && AllBetween(rest, k + 1, high) && k < high
    ensures Ascending([k] + rest) && AllBetween([k] + rest, k, high)
  {
    var ks := [k] + rest;
    forall i, j | 0 <= i < j < |ks| ensures ks[i] < ks[j] {
      assert ks[j] == rest[j - 1];
    }
  }

  lemma NextAdvances(f: Fan, e: FanEvent)
    requires Valid(f) && Enabled(f, e)
    ensures Valid(Next(f, e)) && f.next <= Next(f, e).next && (e.Dispatch? ==> Next(f, e).next == f.next + 1)
  {
  }

  lemma {:induction false} DispatchesAscend(f: Fan, es: seq<FanEvent>)
    requires Valid(f) && IsRun(f, es)
    ensures Ascending(Dispatches(f, es)) && f.next <= Run(f, es).next
    ensures AllBetween(Dispatches(f, es), f.next, Run(f, es).next)
    decreases |es|
  {
    hide Next, Enabled, Valid;
    if es != [] {
      var e, later := es[0], es[1..];
      var h := Next(f, e);
      NextAdvances(f, e);
      DispatchesAscend(h, later);
      if e.Dispatch? {
        PrependAscending(f.next, Dispatches(h, later), Run(h, later).next);
      }
    }
  }

  /** Conservation, for every interleaving and every expiry point. */
  lemma {:induction false} FanOutConserves(recipients: seq<Email>, concurrency: nat, es: seq<FanEvent>)
    requires IsRun(Start(recipients, concurrency), es)
    ensures var f := Start(recipients, concurrency);
            var g, vs := Run(f, es), Verdicts(f, es);
            && Ascending(Dispatches(f, es))
            && |g.inFlight| <= concurrency
            && |g.failures| == g.failed + g.unknown
            && g.failures == Failures(recipients, vs)
            && g.sent + g.failed + g.unknown + |g.inFlight| == g.next
            && (Done(g) ==> g.sent + g.failed + g.unknown == |recipients|
                            && DistinctSlots(vs) && forall k: nat :: HasVerdict(vs, k) <==> k < |recipients|)
  {
    var f := Start(recipients, concurrency);
    SlotsMove(f, es);
    CountersMove(f, es);
    DispatchesAscend(f, es);
    var vs := Verdicts(f, es);
    CountsAddUp(vs);
    forall i | 0 <= i < |vs| ensures vs[i].slot < |recipients| {
      assert HasVerdict(vs, vs[i].slot);
    }
    FailuresCounted(recipients, vs);
  }

  /* ---- told from the events alone ---- */

  function Tally(es: seq<FanEvent>, p: FanEvent -> bool): nat {
    if es == [] then 0 else (if p(es[0]) then 1 else 0) + Tally(es[1..], p)
  }

  predicate IsLaunch(e: FanEvent) {
    e.Dispatch? || e.Skip?
  }

  predicate IsAcceptance(e: FanEvent) {
    e.Finish? && e.outcome.Accepted?
  }

  predicate IsRejection(e: FanEvent) {
    e.Skip? || (e.Finish? && e.outcome.Rejected?)
  }

  predicate IsUnknown(e: FanEvent) {
    e.Finish? && e.outcome.Ambiguous?
  }

  // Whose mail failed or may have, oldest first; `next` recipients were launched before.
  function Unsent(recipients: seq<Email>, next: nat, es: seq<FanEvent>): seq<Email>
    decreases |es|
  {
    if es == [] then [] else
    UnsentBy(recipients, next, es[0]) + Unsent(recipients, if IsLaunch(es[0]) then next + 1 else next, es[1..])
  }

  function UnsentBy(recipients: seq<Email>, next: nat, e: FanEvent): seq<Email> {
    if e.Skip? && next < |recipients| then [recipients[next]]
    else if e.Finish? && !e.outcome.Accepted? && e.slot < |recipients| then [recipients[e.slot]]
    else []
  }

  function One(p: bool): nat {
    if p then 1 else 0
  }

  lemma EventCounted(f: Fan, e: FanEvent)
    requires Enabled(f, e)
    ensures var g := Next(f, e);
            && g.recipients == f.recipients && g.next == f.next + One(IsLaunch(e))
            && g.sent == f.sent + One(IsAcceptance(e)) && g.failed == f.failed + One(IsRejection(e))
            && g.unknown == f.unknown + One(IsUnknown(e))
            && g.failures == f.failures + UnsentBy(f.recipients, f.next, e)
            && (g.expired <==> f.expired || e.Expire?)
    ensures e.Skip? ==> f.expired
  {
  }

  /** Accepted answers count as sent, rejections and recipients never dispatched as
      failed, the rest as unknown. */
  lemma {:induction false} EventsCounted(f: Fan, es: seq<FanEvent>)
    requires IsRun(f, es)
    ensures var g := Run(f, es);
            && g.next == f.next + Tally(es, IsLaunch)
            && g.sent == f.sent + Tally(es, IsAcceptance)
            && g.failed == f.failed + Tally(es, IsRejection)
            && g.unknown == f.unknown + Tally(es, IsUnknown)
    decreases |es|
  {
    hide Next, Enabled, IsLaunch, IsAcceptance, IsRejection, IsUnknown, UnsentBy;
    if es != [] {
      EventCounted(f, es[0]);
      EventsCounted(Next(f, es[0]), es[1..]);
    }
  }

  /** Everyone not sent is listed, in the order it became known. */
  lemma {:induction false} FailuresListed(f: Fan, es: seq<FanEvent>)
    requires IsRun(f, es)
    ensures Run(f, es).failures == f.failures + Unsent(f.recipients, f.next, es)
    decreases |es|
  {
    hide Next, Enabled, IsAcceptance, IsRejection, IsUnknown, UnsentBy;
    if es == [] {
      assert f.failures + [] == f.failures;
    } else {
      var h := Next(f, es[0]);
      EventCounted(f, es[0]);
      FailuresListed(h, es[1..]);
      var here, later := UnsentBy(f.recipients, f.next, es[0]), Unsent(h.recipients, h.next, es[1..]);
      assert f.failures + (here + later) == f.failures + here + later;
    }
  }

  /** Nobody is passed over before the job's context expires. */
  lemma {:induction false} SkipsFollowExpiry(f: Fan, es: seq<FanEvent>)
    requires IsRun(f, es)
    ensures forall i :: 0 <= i < |es| && es[i].Skip? ==> f.expired || exists j :: 0 <= j < i && es[j].Expire?
    decreases |es|
  {
    if es != [] {
      var h, rest := Next(f, es[0]), es[1..];
      EventCounted(f, es[0]);
      SkipsFollowExpiry(h, rest);
      forall i | 0 <= i < |es| && es[i].Skip? ensures f.expired || exists j :: 0 <= j < i && es[j].Expire? {
        if i > 0 && !f.expired && !es[0].Expire? {
          assert rest[i - 1] == es[i];
          var j :| 0 <= j < i - 1 && rest[j].Expire?;
          assert es[j + 1] == rest[j];
        }
      }
    }
  }

  /** The job never re-creates a sendable draft while a dispatch may have been
      accepted: with no acceptance and no ambiguity counted, every verdict was a
      definitive rejection or a recipient that was never dispatched. */
  lemma {:induction false} AllRejectedMeansNoneAccepted(recipients: seq<Email>, concurrency: nat, es: seq<FanEvent>)
    requires IsRun(Start(recipients, concurrency), es)
    requires Done(Run(Start(recipients, concurrency), es))
    ensures var g := Run(Start(recipients, concurrency), es);
            g.sent == 0 && g.unknown == 0 <==> AllRejected(Verdicts(Start(recipients, concurrency), es))
  {
    var f := Start(recipients, concurrency);
    CountersMove(f, es);
    OnlyRejected(Verdicts(f, es));
  }

  predicate AllRejected(vs: seq<Verdict>) {
    forall i :: 0 <= i < |vs| ==> vs[i].outcome == Rejected
  }

  lemma {:induction false} OnlyRejected(vs: seq<Verdict>)
    ensures Count(vs, Accepted) == 0 && Count(vs, Ambiguous) == 0 <==> AllRejected(vs)
  {
    if vs != [] {
      var v, rest := vs[0], vs[1..];
      OnlyRejected(rest);
      assert vs == [v] + rest;
      assert AllRejected(vs) <==> v.outcome == Rejected && AllRejected(rest);
    }
  }

  /** The counters as the goroutines update them in place, one method per
      mutex-protected section. */
  class FanOutJob {
    const recipients: seq<Email>
    const concurrency: nat
    var next: nat
    var inFlight: set<nat>
    var expired: bool
    var sent: nat
    var failed: nat
    var unknown: nat
    var failures: seq<Email>

    function Snapshot(): Fan
      reads this
    {
      Fan(recipients, concurrency, next, inFlight, expired, sent, failed, unknown, failures)
    }

    constructor (recipients: seq<Email>, concurrency: nat)
      ensures Snapshot() == Start(recipients, concurrency)
    {
      this.recipients, this.concurrency := recipients, concurrency;
      next, inFlight, expired := 0, {}, false;
      sent, failed, unknown, failures := 0, 0, 0, [];
    }

    // The select in the main loop: take a worker slot, or record a failure when
    // the context is already done.
    method Launch(slotFree: bool) returns (e: FanEvent)
      requires next < |recipients|
      requires if slotFree then |inFlight| < concurrency else expired
      modifies this
      ensures e == (if slotFree then Dispatch else Skip)
      ensures Enabled(old(Snapshot()), e) && Snapshot() == Next(old(Snapshot()), e)
    {
      if slotFree {
        inFlight := inFlight + {next};
        e := Dispatch;
      } else {
        failed := failed + 1;
        failures := failures + [recipients[next]];
        e := Skip;
      }
      next := next + 1;
    }

    method Report(slot: nat, outcome: Outcome)
      requires slot in inFlight && slot < |recipients|
      modifies this
      ensures Snapshot() == Next(old(Snapshot()), Finish(slot, outcome))
    {
      inFlight := inFlight - {slot};
      if outcome == Accepted {
        sent := sent + 1;
        return;
      }
      if outcome == Ambiguous {
        unknown := unknown + 1;
      } else {
        failed := failed + 1;
      }
      failures := failures + [recipients[slot]];
    }
  }
}
