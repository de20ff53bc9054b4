/** What each actor's last write leaves behind: a new draft, a deleted one, a cancelled
    send, a settled or reverted one, a swept row, column by column. */
module LifecycleOutcomes {
  import opened Wrappers
  import opened Repository
  import opened Lifecycle
  import opened LifecycleInvariant
  import opened LifecycleRuns
  import opened LifecycleRequests

  /* ---- editors ---- */

  /** A newsletter starts as a draft at version 1 with the content and the release time
      its author sent, under an id that no row had. */
  lemma CreateStoresWhatWasSent(cfg: Config, es: seq<Event>, id: Uuid, content: Content, scheduledAt: Option<Time>)
    requires IsRun(Init(cfg), es) && EditorEnabled(Run(Init(cfg), es), Create(id, content, scheduledAt))
    ensures var s := Run(Init(cfg), es);
            var t := EditorNext(s, Create(id, content, scheduledAt));
            && id !in s.rows && id in t.rows && OthersKept(s.rows, t.rows, id)
            && t.rows[id].content == content && t.rows[id].scheduledAt == scheduledAt
            && t.rows[id].status == Draft && t.rows[id].version == 1 && t.rows[id].updatedAt == s.now
            && t.rows[id].groupId.None? && t.rows[id].batchId.None? && t.rows[id].sentAt.None?
            && t.rows[id].totalRecipients == 0
  {
    Always(cfg, es);
    var s := Run(Init(cfg), es);
    assert id in s.rows ==> RowAt(s.rows, s.used, s.claims, id);
  }

  predicate LeavesAlone(es: seq<Event>, call: CallId) {
    forall k :: 0 <= k < |es| ==> !Touches(es[k], call)
  }

  lemma {:induction false} CallComesThrough(s: State, es: seq<Event>, call: CallId)
    requires IsRun(s, es) && call in s.calls && LeavesAlone(es, call)
    ensures call in Run(s, es).calls && Run(s, es).calls[call] == s.calls[call]
    decreases |es|
  {
    hide Next, Enabled, Touches;
    if es != [] {
      CallKept(s, es[0], call);
      CallComesThrough(Next(s, es[0]), es[1..], call);
    }
  }

  /** Deleting removes the row it read if that is still a draft, and nothing else. */
  lemma DeleteRemovesTheDraft(cfg: Config, es: seq<Event>, i: nat, j: nat, call: CallId, id: Uuid)
    requires IsRun(Init(cfg), es) && i < j < |es| && LeavesAlone(es[i + 1..j], call)
    requires es[i] == Editor(DeleteRead(call, id)) && es[j] == Editor(DeleteCommit(call))
    ensures IsRun(Init(cfg), es[..j]) && IsRun(Init(cfg), es[..j + 1])
    ensures var before, after := Run(Init(cfg), es[..j]), Run(Init(cfg), es[..j + 1]);
            && (id in before.rows && before.rows[id].status == Draft ==>
                  id !in after.rows && OthersKept(before.rows, after.rows, id))
            && (!(id in before.rows && before.rows[id].status == Draft) ==> after.rows == before.rows)
  {
    var start := Init(cfg);
    var read := CutAt(start, es, i);
    var before := CutAt(start, es, j);
    Stretch(start, es, i, j);
    CallComesThrough(Next(read, es[i]), es[i + 1..j], call);
  }

  /* ---- cancelling ---- */

  // The row still belongs to the send with this batch.
  predicate StillArmed(s: State, id: Uuid, batch: BatchId) {
    id in s.rows && s.rows[id].status in {Scheduled, Sending} && s.rows[id].batchId == Some(batch)
  }

  lemma CommitUndoes(s: State, call: CallId)
    requires CancelEnabled(s, CancelCommit(call))
    ensures var c, t := s.calls[call], Next(s, Canceller(CancelCommit(call)));
            && t.cancelled == s.cancelled
            && (StillArmed(s, c.id, c.batch) ==>
                  c.id in t.rows && IsDraftAgain(s.rows[c.id], t.rows[c.id], s.now) && OthersKept(s.rows, t.rows, c.id))
            && (!StillArmed(s, c.id, c.batch) ==> t.rows == s.rows)
  {
  }

  lemma CommitEnabled(s: State, call: CallId)
    requires Enabled(s, Canceller(CancelCommit(call)))
    ensures CancelEnabled(s, CancelCommit(call))
  {
  }

  lemma {:induction false} CancelledStays(s: State, es: seq<Event>)
    requires IsRun(s, es)
    ensures s.cancelled <= Run(s, es).cancelled
    decreases |es|
  {
    hide Next, Enabled;
    if es != [] {
      CancellationsStand(s, es[0]);
      CancelledStays(Next(s, es[0]), es[1..]);
    }
  }

  // The first two steps of a cancel.
  lemma CancelStarts(s: State, call: CallId, id: Uuid, ifMatch: int)
    requires Enabled(s, Canceller(CancelRead(call, id, ifMatch)))
    ensures id in s.rows && s.rows[id].batchId.Some?
    ensures var t := Next(s, Canceller(CancelRead(call, id, ifMatch)));
            && call in t.calls && t.calls[call].Cancelling?
            && t.calls[call].id == id && t.calls[call].batch == s.rows[id].batchId.value
  {
  }

  lemma BatchGoesFirst(s: State, call: CallId)
    requires Enabled(s, Canceller(CancelBatch(call)))
    ensures var c, t := s.calls[call], Next(s, Canceller(CancelBatch(call)));
            && call in t.calls && t.calls[call] == Reverting(c.id, c.group, c.batch) && c.batch in t.cancelled
  {
  }

  /** A cancel that goes through has its batch cancelled at the provider first and then
      makes the row a draft again, keeping its saved release time, if it still belongs to
      that send; otherwise the row stands. */
  lemma CancelUndoesTheSend(cfg: Config, es: seq<Event>, i: nat, b: nat, j: nat, call: CallId, id: Uuid, ifMatch: int)
    requires IsRun(Init(cfg), es) && i < b < j < |es|
    requires LeavesAlone(es[i + 1..b], call) && LeavesAlone(es[b + 1..j], call)
    requires es[i] == Canceller(CancelRead(call, id, ifMatch))
    requires es[b] == Canceller(CancelBatch(call)) && es[j] == Canceller(CancelCommit(call))
    ensures IsRun(Init(cfg), es[..i]) && IsRun(Init(cfg), es[..j]) && IsRun(Init(cfg), es[..j + 1])
    ensures var read, before, after := Run(Init(cfg), es[..i]), Run(Init(cfg), es[..j]), Run(Init(cfg), es[..j + 1]);
            && id in read.rows && read.rows[id].batchId.Some?
            && var batch := read.rows[id].batchId.value;
               && batch in after.cancelled
               && (StillArmed(before, id, batch) ==>
                     && id in after.rows && IsDraftAgain(before.rows[id], after.rows[id], before.now)
                     && OthersKept(before.rows, after.rows, id))
               && (!StillArmed(before, id, batch) ==> after.rows == before.rows)
  {
    hide Next, Enabled, StillArmed, Touches;
    var start := Init(cfg);
    var read := CutAt(start, es, i);
    var atBatch := CutAt(start, es, b);
    var before := CutAt(start, es, j);
    CancelStarts(read, call, id, ifMatch);
    BatchGoesFirst(atBatch, call);
    Stretch(start, es, i, b);
    CallComesThrough(Next(read, es[i]), es[i + 1..b], call);
    Stretch(start, es, b, j);
    CallComesThrough(Next(atBatch, es[b]), es[b + 1..j], call);
    CancelledStays(Next(atBatch, es[b]), es[b + 1..j]);
    CommitEnabled(before, call);
    CommitUndoes(before, call);
  }

  /* ---- the job's last write ---- */

  // The row is the claim's to settle.
  predicate Holds(s: State, c: Claim) {
    c.id in s.rows && s.rows[c.id].status == Sending && s.rows[c.id].version == c.version
  }

  /** A job whose every recipient was rejected makes its row a draft again and, if it was
      armed, goes on to cancel its batch; any other job leaves its row scheduled if it
      was armed for somebody, and sent now if not. */
  lemma JobSettlesItsRow(s: State, g: GroupId)
    requires SettleEnabled(s, Settle(g)) && Holds(s, s.claims[g])
    ensures var c, f, t := s.claims[g], s.jobs[g].fan, SettleNext(s, Settle(g));
            var r := s.rows[c.id];
            && OthersKept(s.rows, t.rows, c.id) && c.id in t.rows
            && (c.recipients != [] && f.sent == 0 && f.unknown == 0 ==>
                  && IsDraftAgain(r, t.rows[c.id], s.now)
                  && (c.arming.Some? ==> g in t.jobs && t.jobs[g].phase == CleaningUp)
                  && (c.arming.None? ==> g !in t.jobs))
            && (c.recipients == [] || f.sent > 0 || f.unknown > 0 ==>
                  && g !in t.jobs
                  && var written := r.(version := r.version + 1, updatedAt := s.now);
                     t.rows[c.id] == if c.arming.Some? && c.recipients != [] then written.(status := Scheduled)
                                     else written.(status := Sent, sentAt := Some(s.now)))
  {
  }

  /** A job that no longer holds its row changes nothing, unless all its recipients were
      rejected and the row is being sent again: the shipped revert takes it back to
      draft, the gated one does not. */
  lemma LateJobChangesNothing(s: State, g: GroupId)
    requires SettleEnabled(s, Settle(g)) && !Holds(s, s.claims[g])
    ensures var c, f, t := s.claims[g], s.jobs[g].fan, SettleNext(s, Settle(g));
            if c.recipients != [] && f.sent == 0 && f.unknown == 0 && !s.cfg.revertGated
               && c.id in s.rows && s.rows[c.id].status == Sending
            then c.id in t.rows && IsDraftAgain(s.rows[c.id], t.rows[c.id], s.now) && OthersKept(s.rows, t.rows, c.id)
            else t.rows == s.rows
  {
  }

  /* ---- sweeps ---- */

  /** Rows sending since before the cutoff become sent if they have no batch and scheduled
      if they have one; scheduled rows become sent at their release time once it has
      come; every other row stands. */
  lemma SweepsSettle(s: State, e: SweepEvent, id: Uuid)
    requires SweepEnabled(s, e)
    ensures SweptRows(s, e).Keys == s.rows.Keys
    ensures id in s.rows ==>
              var r, q := s.rows[id], SweptRows(s, e)[id];
              var settled := r.(status := Sent, version := r.version + 1, updatedAt := s.now);
              match e
              case SweepUnarmed(cutoff) =>
                q == if r.status == Sending && r.updatedAt < cutoff && r.batchId.None?
                     then settled.(sentAt := Some(s.now)) else r
              case SweepArmed(cutoff) =>
                q == if r.status == Sending && r.updatedAt < cutoff && r.batchId.Some?
                     then settled.(status := Scheduled) else r
              case SweepDue(at) =>
                q == if r.status == Scheduled && r.scheduledAt.Some? && r.scheduledAt.value <= at
                     then settled.(sentAt := r.scheduledAt) else r
  {
  }
}
