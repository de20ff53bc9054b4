/** What every run guarantees about the rows, overlapping runs included: claims and
    their terminal writes, cancels, editors, the recovery sweep, and sent rows. */
module LifecycleRows {
  import opened Wrappers
  import opened Repository
  import opened Lifecycle
  import opened LifecycleInvariant
  import opened LifecycleHolders
  import opened LifecycleMoves
  import opened LifecycleRuns
  import opened LifecycleSafety

  /** Every row after every run. */
  lemma RowInvariant(cfg: Config, es: seq<Event>, id: Uuid)
    requires IsRun(Init(cfg), es) && id in Run(Init(cfg), es).rows
    ensures var s := Run(Init(cfg), es);
            var r := s.rows[id];
            && (r.status == Draft ==> r.groupId.None? && r.batchId.None? && r.totalRecipients == 0)
            && (r.status == Draft && NonOverlapping(Init(cfg), es) ==>
                  forall g :: g in s.claims && s.claims[g].id == id ==> Dead(s, g))
            && (r.status == Scheduled ==> r.groupId.Some? && r.batchId.Some? && r.scheduledAt.Some?)
            && (r.status == Sent <==> r.sentAt.Some?)
            && (r.status in {Sending, Sent} ==> r.groupId.Some?)
            && (r.batchId.Some? ==> r.sendProvider == SendGrid)
            && (r.status == Sent && r.batchId.Some? && r.totalRecipients > 0 ==>
                r.scheduledAt.Some? && r.scheduledAt.value <= s.now)
  {
    Always(cfg, es);
    var s := Run(Init(cfg), es);
    assert RowAt(s.rows, s.used, s.claims, id) && OnTime(s.rows, s.now, id);
    if s.rows[id].status == Draft && NonOverlapping(Init(cfg), es) {
      forall g | g in s.claims && s.claims[g].id == id ensures Dead(s, g) {
        OnlyDeadSendsBehindADraft(cfg, es, g);
      }
    }
  }

  // The moves of the lifecycle, and of an editor, between statuses.
  predicate StatusMove(before: Status, after: Status) {
    match before
    case Draft => after in {Draft, Sending}
    case Sending => true
    case Scheduled => after in {Scheduled, Sent, Draft}
    case Sent => after == Sent
  }

  /** Every committed write raises the version of the row it changes, stamps it, and
      moves its status along the lifecycle. */
  lemma WritesRaiseTheVersion(cfg: Config, es: seq<Event>, e: Event, id: Uuid)
    requires IsRun(Init(cfg), es) && Enabled(Run(Init(cfg), es), e)
    requires id in Run(Init(cfg), es).rows && id in Next(Run(Init(cfg), es), e).rows
    ensures var s := Run(Init(cfg), es);
            var r, q := s.rows[id], Next(s, e).rows[id];
            && (q == r || (q.version == r.version + 1 && q.updatedAt == s.now))
            && StatusMove(r.status, q.status)
  {
    Always(cfg, es);
    RowBefore(Run(Init(cfg), es), e, id);
  }

  /** Only a draft is ever deleted, and a deleted id never returns. */
  lemma OnlyDraftsDisappear(cfg: Config, es: seq<Event>, e: Event, id: Uuid)
    requires IsRun(Init(cfg), es) && Enabled(Run(Init(cfg), es), e)
    ensures var s := Run(Init(cfg), es);
            && (id in s.rows && id !in Next(s, e).rows ==> s.rows[id].status == Draft)
            && (id !in s.rows && id in Next(s, e).rows ==> id !in s.used && id in Next(s, e).used)
            && s.used <= Next(s, e).used
            && (id in s.rows ==> id in s.used)
  {
    Always(cfg, es);
    var s := Run(Init(cfg), es);
    if id in s.rows {
      RowBefore(s, e, id);
      assert RowAt(s.rows, s.used, s.claims, id);
    } else if id in Next(s, e).rows {
      RowCreated(s, e, id);
    }
  }

  /* ---- claims ---- */

  /** Of all sends that read one version of a draft, at most one claims it. */
  lemma ClaimIsExclusive(cfg: Config, es: seq<Event>, g: GroupId, h: GroupId)
    requires IsRun(Init(cfg), es)
    requires var claims := Run(Init(cfg), es).claims;
             g in claims && h in claims && claims[g].id == claims[h].id && claims[g].version == claims[h].version
    ensures g == h
  {
    Always(cfg, es);
    assert ClaimsDiffer(Run(Init(cfg), es).claims, g, h);
  }

  // The job settles its row instead of reverting it.
  predicate Settles(s: State, g: GroupId) {
    SettleEnabled(s, Settle(g)) && (s.claims[g].recipients == [] || !WhollyRejected(s.jobs[g].fan))
  }

  // How a send that is not reverted settles.
  function SettledStatus(c: Claim): Status {
    if c.arming.Some? && c.recipients != [] then Scheduled else Sent
  }

  /** A job's settled-status write changes a row only while its own claim holds it at
      the version it claimed, and then only that row, to the status its claim calls for. */
  lemma TerminalWriteIsOwn(cfg: Config, es: seq<Event>, g: GroupId, id: Uuid)
    requires IsRun(Init(cfg), es) && Settles(Run(Init(cfg), es), g)
    requires var s := Run(Init(cfg), es);
             id in s.rows && SettledRows(s, g)[id] != s.rows[id]
    ensures var s := Run(Init(cfg), es);
            && id == s.claims[g].id && s.rows[id].groupId == Some(g) && s.rows[id].status == Sending
            && s.rows[id].version == s.claims[g].version
            && SettledRows(s, g)[id].status == SettledStatus(s.claims[g])
  {
    Always(cfg, es);
    var s := Run(Init(cfg), es);
    assert ClaimAt(s.rows, s.used, s.minted, s.claims, g);
  }

  /* ---- cancels ---- */

  /** A cancel carrying the batch of an old send never touches a newer one. */
  lemma CancelTouchesOnlyItsSend(cfg: Config, es: seq<Event>, call: CallId)
    requires IsRun(Init(cfg), es) && CancelEnabled(Run(Init(cfg), es), CancelCommit(call))
    requires var s := Run(Init(cfg), es);
             CanRevertScheduled(s.rows, s.calls[call].id, Some(s.calls[call].batch))
    ensures var s := Run(Init(cfg), es);
            s.rows[s.calls[call].id].groupId == Some(s.calls[call].group)
  {
    Always(cfg, es);
    var s := Run(Init(cfg), es);
    var c := s.calls[call];
    assert CancelAt(s.calls, s.claims, s.cancelled, call) && RowAt(s.rows, s.used, s.claims, c.id);
    assert ClaimsDiffer(s.claims, c.group, s.rows[c.id].groupId.value);
  }

  /** A batch_id is only ever minted by the provider that can cancel it, so the
      cancel path never meets an armed row of the other provider. */
  lemma ArmedRowsAreCancellable(cfg: Config, es: seq<Event>, call: CallId)
    requires IsRun(Init(cfg), es)
    requires call in Run(Init(cfg), es).calls && Run(Init(cfg), es).calls[call].Cancelling?
    ensures Run(Init(cfg), es).calls[call].provider == SendGrid
  {
    Always(cfg, es);
    var s := Run(Init(cfg), es);
    assert CancelAt(s.calls, s.claims, s.cancelled, call);
  }

  /* ---- editors ---- */

  /** An update that commits rewrites exactly the draft it read if and only if its
      If-Match is no larger than the version it read. */
  lemma EditRewritesTheDraftItRead(cfg: Config, es: seq<Event>, call: CallId)
    requires IsRun(Init(cfg), es) && EditorEnabled(Run(Init(cfg), es), EditCommit(call))
    requires var s := Run(Init(cfg), es);
             CanUpdate(s.rows, s.calls[call].id, s.calls[call].ifMatch)
    ensures var s := Run(Init(cfg), es);
            var c := s.calls[call];
            && (s.rows[c.id] == c.snapshot <==> c.ifMatch <= c.snapshot.version)
            && c.snapshot.status == Draft
  {
    Always(cfg, es);
    var s := Run(Init(cfg), es);
    assert ReadAt(s.calls, s.rows, s.used, call);
  }

  /* ---- crash recovery ---- */

  /** Whatever became of the job: a row in 'sending' has a batch_id exactly when the
      claim that holds it armed a schedule, so a sweep leaves a stuck row scheduled if
      that claim armed and sent if it did not. That is the status the job itself would
      leave, except for an armed send without recipients. */
  lemma RecoveryAgreesWithTheJob(cfg: Config, es: seq<Event>, id: Uuid, cutoff: Time)
    requires IsRun(Init(cfg), es)
    requires id in Run(Init(cfg), es).rows && Run(Init(cfg), es).rows[id].status == Sending
    ensures var s := Run(Init(cfg), es);
            var r := s.rows[id];
            && r.groupId.Some? && r.groupId.value in s.claims
            && var c := s.claims[r.groupId.value];
               var swept := RecoverStuckArmed(RecoverStuckUnarmed(s.rows, cutoff, s.now), cutoff, s.now)[id];
               && c.id == id && (r.batchId.Some? <==> c.arming.Some?)
               && (!IsStuck(r, cutoff) ==> swept == r)
               && (IsStuck(r, cutoff) ==>
                     && swept.status == (if c.arming.Some? then Scheduled else Sent)
                     && (swept.status == SettledStatus(c) <==> c.recipients != [] || c.arming.None?))
  {
    Always(cfg, es);
    var s := Run(Init(cfg), es);
    assert RowAt(s.rows, s.used, s.claims, id);
  }

  /* ---- settled rows ---- */

  predicate SentColumnsKept(r: Row, q: Row) {
    q.status == Sent && q.sentAt == r.sentAt && q.groupId == r.groupId && q.totalRecipients == r.totalRecipients
  }

  lemma SentStays(s: State, e: Event, id: Uuid)
    requires Core(s) && Enabled(s, e) && id in s.rows && s.rows[id].status == Sent
    ensures id in Next(s, e).rows && SentColumnsKept(s.rows[id], Next(s, e).rows[id])
  {
    hide Enabled, Next;
    RowBefore(s, e, id);
  }

  lemma {:induction false} SentStaysAlong(s: State, es: seq<Event>, id: Uuid)
    requires Core(s) && IsRun(s, es) && id in s.rows && s.rows[id].status == Sent
    ensures id in Run(s, es).rows && SentColumnsKept(s.rows[id], Run(s, es).rows[id])
    decreases |es|
  {
    if es != [] {
      SentStays(s, es[0], id);
      StepKeeps(s, es[0]);
      SentStaysAlong(Next(s, es[0]), es[1..], id);
    }
  }

  /** A row that is sent at some point of a run is sent ever after, and since then. */
  lemma SentIsAbsorbing(cfg: Config, es: seq<Event>, k: nat, id: Uuid)
    requires IsRun(Init(cfg), es) && k <= |es| && IsRun(Init(cfg), es[..k])
    requires id in Run(Init(cfg), es[..k]).rows && Run(Init(cfg), es[..k]).rows[id].status == Sent
    ensures id in Run(Init(cfg), es).rows && SentColumnsKept(Run(Init(cfg), es[..k]).rows[id], Run(Init(cfg), es).rows[id])
  {
    CutRun(Init(cfg), es, k);
    Always(cfg, es[..k]);
    SentStaysAlong(Run(Init(cfg), es[..k]), es[k..], id);
  }

  predicate HonestEdit(s: State, e: Event) {
    e.Editor? && e.ed.EditCommit? && e.ed.call in s.calls && s.calls[e.ed.call].Editing? ==>
      s.calls[e.ed.call].ifMatch <= s.calls[e.ed.call].snapshot.version
  }

  predicate HonestRun(s: State, es: seq<Event>)
    requires IsRun(s, es)
    decreases |es|
  {
    es == [] || (HonestEdit(s, es[0]) && HonestRun(Next(s, es[0]), es[1..]))
  }

  lemma HonestEditorFreezes(s: State, e: EditorEvent, id: Uuid)
    requires Core(s) && EditorEnabled(s, e) && HonestEdit(s, Editor(e)) && id in s.rows && s.rows[id].status == Sent
    ensures id in EditorNext(s, e).rows && EditorNext(s, e).rows[id] == s.rows[id]
  {
    assert RowAt(s.rows, s.used, s.claims, id);
    if e.EditCommit? {
      assert ReadAt(s.calls, s.rows, s.used, e.call);
    }
  }

  lemma HonestStepFreezes(s: State, e: Event, id: Uuid)
    requires Core(s) && Enabled(s, e) && HonestEdit(s, e) && id in s.rows && s.rows[id].status == Sent
    ensures id in Next(s, e).rows && Next(s, e).rows[id] == s.rows[id]
  {
    if e.Editor? {
      HonestEditorFreezes(s, e.ed, id);
    } else {
      hide Enabled, Next;
      RowBefore(s, e, id);
    }
  }

  lemma {:induction false} HonestRunFreezes(s: State, es: seq<Event>, id: Uuid)
    requires Core(s) && IsRun(s, es) && HonestRun(s, es) && id in s.rows && s.rows[id].status == Sent
    ensures id in Run(s, es).rows && Run(s, es).rows[id] == s.rows[id]
    decreases |es|
  {
    if es != [] {
      HonestStepFreezes(s, es[0], id);
      StepKeeps(s, es[0]);
      HonestRunFreezes(Next(s, es[0]), es[1..], id);
    }
  }

  lemma {:induction false} CutHonestRun(s: State, es: seq<Event>, k: nat)
    requires IsRun(s, es) && HonestRun(s, es) && k <= |es|
    ensures IsRun(s, es[..k]) && HonestRun(s, es[..k])
    ensures IsRun(Run(s, es[..k]), es[k..]) && HonestRun(Run(s, es[..k]), es[k..])
    decreases |es|
  {
    CutRun(s, es, k);
    if k == 0 {
      assert es[0..] == es;
    } else {
      CutHonestRun(Next(s, es[0]), es[1..], k - 1);
      assert es[..k][1..] == es[1..][..k - 1] && es[1..][k - 1..] == es[k..];
    }
  }

  /** With honest editors a sent row never changes at all. */
  lemma SentRowsAreFrozen(cfg: Config, es: seq<Event>, k: nat, id: Uuid)
    requires IsRun(Init(cfg), es) && HonestRun(Init(cfg), es) && k <= |es| && IsRun(Init(cfg), es[..k])
    requires id in Run(Init(cfg), es[..k]).rows && Run(Init(cfg), es[..k]).rows[id].status == Sent
    ensures id in Run(Init(cfg), es).rows && Run(Init(cfg), es).rows[id] == Run(Init(cfg), es[..k]).rows[id]
  {
    CutRun(Init(cfg), es, k);
    CutHonestRun(Init(cfg), es, k);
    Always(cfg, es[..k]);
    HonestRunFreezes(Run(Init(cfg), es[..k]), es[k..], id);
  }
}
