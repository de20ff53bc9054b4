/** At most one delivery: in every non-overlapping run, and in every run once the
    revert is gated on the claimed version. */
module LifecycleSafety {
  import opened Wrappers
  import opened Repository
  import opened Lifecycle
  import opened LifecycleInvariant
  import opened LifecycleHolders
  import opened LifecycleMoves

  /* ---- at most one delivery ---- */

  // The newsletter and address a message was for.
  predicate SameMail(s: State, m: MessageId, n: MessageId) {
    && m in s.messages && n in s.messages
    && var a, b := s.messages[m], s.messages[n];
       && a.group in s.claims && b.group in s.claims
       && s.claims[a.group].id == s.claims[b.group].id
       && a.slot < |s.claims[a.group].recipients| && b.slot < |s.claims[b.group].recipients|
       && s.claims[a.group].recipients[a.slot] == s.claims[b.group].recipients[b.slot]
  }

  ghost predicate AtMostOnce(s: State) {
    forall m, n :: m in s.delivered && n in s.delivered && SameMail(s, m, n) ==> m == n
  }

  lemma DeliveredIsCurrent(s: State, m: MessageId)
    requires Inv(s) && m in s.delivered
    ensures m in s.messages && IsCurrent(s, s.messages[m].group)
  {
    assert DeliveryAt(s.delivered, s.messages, s.claims, s.cancelled, s.now, m);
    var g := s.messages[m].group;
    assert CurrentOrDead(s, g) && !RefusedIn(s, g, m);
  }

  lemma InvIsSafe(s: State)
    requires Inv(s)
    ensures AtMostOnce(s)
  {
    forall m, n | m in s.delivered && n in s.delivered && SameMail(s, m, n) ensures m == n {
      DeliveredIsCurrent(s, m);
      DeliveredIsCurrent(s, n);
      assert SlotsDiffer(s.messages, m, n);
      assert ClaimAt(s.rows, s.used, s.minted, s.claims, s.messages[m].group);
    }
  }

  /** In every non-overlapping run of the shipped code, with any number of replicas,
      crashes, cancels and sweeps, an address gets a newsletter at most once. */
  lemma AtMostOnceDelivery(cfg: Config, es: seq<Event>)
    requires IsRun(Init(cfg), es) && NonOverlapping(Init(cfg), es)
    ensures AtMostOnce(Run(Init(cfg), es))
  {
    HeldOrDead(cfg, es);
    InvIsSafe(Run(Init(cfg), es));
  }

  // With the version gate a job can only revert the claim it made.
  lemma GateExcludesStaleRevert(s: State, e: Event)
    requires Core(s) && s.cfg.revertGated
    ensures !StaleRevert(s, e)
  {
    if e.Settling? && e.te.Settle? {
      assert ClaimAt(s.rows, s.used, s.minted, s.claims, e.te.group);
    }
  }

  lemma {:induction false} GatedNeverOverlaps(s: State, es: seq<Event>)
    requires Core(s) && s.cfg.revertGated && IsRun(s, es)
    ensures NonOverlapping(s, es)
    decreases |es|
  {
    if es != [] {
      GateExcludesStaleRevert(s, es[0]);
      StepKeeps(s, es[0]);
      GatedNeverOverlaps(Next(s, es[0]), es[1..]);
    }
  }

  /** Gating RevertSending on the claimed version gives the guarantee to every run. */
  lemma GatedAtMostOnceDelivery(cfg: Config, es: seq<Event>)
    requires cfg.revertGated && IsRun(Init(cfg), es)
    ensures AtMostOnce(Run(Init(cfg), es))
  {
    InitCore(cfg);
    GatedNeverOverlaps(Init(cfg), es);
    AtMostOnceDelivery(cfg, es);
  }

  /** Behind a draft, or an id whose row is gone, no earlier send can still deliver:
      each was wholly rejected or had its batch cancelled first. */
  lemma OnlyDeadSendsBehindADraft(cfg: Config, es: seq<Event>, g: GroupId)
    requires IsRun(Init(cfg), es) && NonOverlapping(Init(cfg), es)
    requires var s := Run(Init(cfg), es);
             g in s.claims && (s.claims[g].id in s.rows ==> s.rows[s.claims[g].id].status == Draft)
    ensures Dead(Run(Init(cfg), es), g)
  {
    HeldOrDead(cfg, es);
    var s := Run(Init(cfg), es);
    assert CurrentOrDead(s, g) && RowAt(s.rows, s.used, s.claims, s.claims[g].id);
  }

  /* ---- a sufficient discipline: never claim while an older job runs ---- */

  predicate ClaimsBesideAJob(s: State, e: Event) {
    && e.Sender? && e.se.SendClaim? && e.se.call in s.calls && s.calls[e.se.call].Preparing?
    && exists g :: g in s.jobs && g in s.claims && s.claims[g].id == s.calls[e.se.call].id
  }

  predicate SerialClaims(s: State, es: seq<Event>)
    requires IsRun(s, es)
    decreases |es|
  {
    es == [] || (!ClaimsBesideAJob(s, es[0]) && SerialClaims(Next(s, es[0]), es[1..]))
  }

  // While a job lives, no other claim holds its row.
  predicate JobOwnsRow(s: State, g: GroupId) {
    g in s.jobs && g in s.claims && s.claims[g].id in s.rows ==> s.rows[s.claims[g].id].groupId in {None, Some(g)}
  }

  ghost predicate JobsOwnRows(s: State) {
    forall g :: JobOwnsRow(s, g)
  }

  // Only a claim gives a row a new holder.
  predicate HolderKept(rows: Table, after: Table, used: set<Uuid>, id: Uuid) {
    id in used && id in after ==> id in rows && after[id].groupId in {None, rows[id].groupId}
  }

  lemma WritesKeepHolders(s: State, e: Event, id: Uuid)
    requires Core(s) && Enabled(s, e) && !e.Sender?
    ensures HolderKept(s.rows, Next(s, e).rows, s.used, id)
  {
    hide Enabled, Next;
    if id in s.rows {
      RowBefore(s, e, id);
    } else if id in Next(s, e).rows {
      RowCreated(s, e, id);
    }
  }

  // A claim takes a row no live job of its newsletter owns.
  lemma ClaimKeepsOwners(s: State, e: SenderEvent, g: GroupId)
    requires Core(s) && SenderEnabled(s, e) && JobOwnsRow(s, g) && !ClaimsBesideAJob(s, Sender(e))
    ensures JobOwnsRow(SenderNext(s, e), g)
  {
    assert JobAt(s.jobs, s.claims, g);
  }

  lemma OthersKeepOwners(s: State, e: Event, g: GroupId)
    requires Core(s) && Enabled(s, e) && !e.Sender? && JobOwnsRow(s, g)
    ensures JobOwnsRow(Next(s, e), g)
  {
    assert JobAt(s.jobs, s.claims, g) && ClaimAt(s.rows, s.used, s.minted, s.claims, g);
    if g in s.claims {
      WritesKeepHolders(s, e, s.claims[g].id);
    }
  }

  lemma OwnersRevertOnlyTheirRow(s: State, e: Event)
    requires Core(s) && Enabled(s, e) && JobsOwnRows(s)
    ensures !StaleRevert(s, e)
  {
    if e.Settling? && e.te.Settle? {
      assert JobOwnsRow(s, e.te.group) && JobAt(s.jobs, s.claims, e.te.group);
      assert RowAt(s.rows, s.used, s.claims, s.claims[e.te.group].id);
    }
  }

  lemma SerialStep(s: State, e: Event)
    requires Core(s) && Enabled(s, e) && JobsOwnRows(s) && !ClaimsBesideAJob(s, e)
    ensures JobsOwnRows(Next(s, e)) && !StaleRevert(s, e)
  {
    OwnersRevertOnlyTheirRow(s, e);
    forall g ensures JobOwnsRow(Next(s, e), g) {
      assert JobOwnsRow(s, g);
      if e.Sender? {
        ClaimKeepsOwners(s, e.se, g);
      } else {
        OthersKeepOwners(s, e, g);
      }
    }
  }

  lemma {:induction false} SerialClaimsNeverOverlap(s: State, es: seq<Event>)
    requires Core(s) && JobsOwnRows(s) && IsRun(s, es) && SerialClaims(s, es)
    ensures NonOverlapping(s, es)
    decreases |es|
  {
    if es != [] {
      SerialStep(s, es[0]);
      StepKeeps(s, es[0]);
      SerialClaimsNeverOverlap(Next(s, es[0]), es[1..]);
    }
  }

  /** No claim beside a live job of the same newsletter: at most one delivery. */
  lemma SerialAtMostOnceDelivery(cfg: Config, es: seq<Event>)
    requires IsRun(Init(cfg), es) && SerialClaims(Init(cfg), es)
    ensures AtMostOnce(Run(Init(cfg), es))
  {
    InitCore(cfg);
    SerialClaimsNeverOverlap(Init(cfg), es);
    AtMostOnceDelivery(cfg, es);
  }
}
