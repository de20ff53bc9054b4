/** What one event can do to one row: the moves of the lifecycle, an edit, the deletion
    of a draft, and nothing else. */
module LifecycleMoves {
  import opened Wrappers
  import opened Repository
  import opened Lifecycle
  import opened LifecycleInvariant

  // Only what an editor sets, on a row that is not armed.
  predicate IsEdit(r: Row, q: Row, now: Time) {
    r.batchId.None? && q == Edited(r, q.content, q.scheduledAt, now)
  }

  // A draft becomes sending under a claim.
  predicate IsClaim(r: Row, q: Row, now: Time) {
    && r.status == Draft && q.groupId.Some?
    && q == Stamp(r.(status := Sending, groupId := q.groupId, sendProvider := q.sendProvider,
                     totalRecipients := q.totalRecipients,
                     scheduledAt := q.scheduledAt, batchId := q.batchId), now)
  }

  // A sending or scheduled row becomes sent, or a sending one scheduled.
  predicate IsSettling(r: Row, q: Row, now: Time) {
    || (r.status in {Sending, Scheduled} && q.sentAt.Some? && q == MarkedSent(r, q.sentAt.value, now))
    || (r.status == Sending && q == MarkedScheduled(r, now))
  }

  // A sending or scheduled row becomes a draft again.
  predicate IsRevert(r: Row, q: Row, now: Time) {
    r.status in {Sending, Scheduled} && q == Reverted(r, now)
  }

  // What a sender's write, and what any other write but an editor's, does to the row
  // at id.
  predicate ClaimsAt(before: Table, after: Table, now: Time, id: Uuid) {
    (id in before <==> id in after) && (id in before ==> after[id] == before[id] || IsClaim(before[id], after[id], now))
  }

  predicate MovesAt(before: Table, after: Table, now: Time, id: Uuid) {
    && (id in before <==> id in after)
    && (id in before ==>
        after[id] == before[id] || IsSettling(before[id], after[id], now) || IsRevert(before[id], after[id], now))
  }

  // An editor's also creates ids never used before and deletes drafts.
  predicate EditsAt(before: Table, after: Table, used: set<Uuid>, now: Time, id: Uuid) {
    && (id in before && id in after && id in used ==> after[id] == before[id] || IsEdit(before[id], after[id], now))
    && (id in before && id !in after ==> before[id].status == Draft)
    && (id !in before && id in after ==> id !in used && after[id] == NewRow(after[id].content, after[id].scheduledAt, now))
  }

  lemma EditorEdits(s: State, e: EditorEvent, id: Uuid)
    requires EditorEnabled(s, e)
    ensures EditsAt(s.rows, EditorNext(s, e).rows, s.used, s.now, id)
  {
  }

  lemma SenderMoves(s: State, e: SenderEvent, id: Uuid)
    requires SenderEnabled(s, e)
    ensures ClaimsAt(s.rows, SenderNext(s, e).rows, s.now, id)
  {
  }

  lemma SettleMoves(s: State, e: SettleEvent, id: Uuid)
    requires SettleEnabled(s, e)
    ensures MovesAt(s.rows, SettleNext(s, e).rows, s.now, id)
  {
  }

  lemma CancelMoves(s: State, e: CancelEvent, id: Uuid)
    requires CancelEnabled(s, e)
    ensures MovesAt(s.rows, CancelNext(s, e).rows, s.now, id)
  {
  }

  lemma SweepMoves(s: State, e: SweepEvent, id: Uuid)
    requires SweepEnabled(s, e)
    ensures MovesAt(s.rows, SweptRows(s, e), s.now, id)
  {
  }

  /** Every event of every actor moves each row along the lifecycle or is an editor's. */
  lemma RowMoves(s: State, e: Event, id: Uuid)
    requires Enabled(s, e)
    ensures if e.Editor? then EditsAt(s.rows, Next(s, e).rows, s.used, s.now, id)
            else if e.Sender? then ClaimsAt(s.rows, Next(s, e).rows, s.now, id)
            else MovesAt(s.rows, Next(s, e).rows, s.now, id)
  {
    hide EditsAt, ClaimsAt, MovesAt, EditorNext, SenderNext, SettleNext, CancelNext, SweptRows;
    match e {
      case Editor(ed) => EditorEdits(s, ed, id);
      case Sender(se) => SenderMoves(s, se, id);
      case Settling(te) => SettleMoves(s, te, id);
      case Canceller(ce) => CancelMoves(s, ce, id);
      case Sweeper(sw) => SweepMoves(s, sw, id);
      case _ => Unmoved(s.rows, s.now, id);
    }
  }

  lemma Unmoved(rows: Table, now: Time, id: Uuid)
    ensures MovesAt(rows, rows, now, id)
  {
  }

  /* ---- what becomes of a claim and its job ---- */

  lemma SenderLeaves(s: State, e: SenderEvent, g: GroupId)
    requires SenderEnabled(s, e) && g in s.claims
    ensures var t := SenderNext(s, e);
            g in t.claims && t.claims[g] == s.claims[g] && (g in t.jobs ==> g in s.jobs && t.jobs[g] == s.jobs[g])
  {
  }

  lemma SettleLeaves(s: State, e: SettleEvent, g: GroupId)
    requires SettleEnabled(s, e)
    ensures var t := SettleNext(s, e);
            g in t.jobs ==> g in s.jobs && t.jobs[g].fan == s.jobs[g].fan && t.jobs[g].milestone == s.jobs[g].milestone
  {
  }

  /** Only the fan-out and the provider move a job's fan-out or a message; a claim made
      stays as it is, and a cancellation stands. */
  lemma OthersLeave(s: State, e: Event, g: GroupId)
    requires Enabled(s, e) && !e.FanningOut? && g in s.claims
    ensures var t := Next(s, e);
            && g in t.claims && t.claims[g] == s.claims[g]
            && t.messages == s.messages && s.cancelled <= t.cancelled
            && (g in t.jobs ==> g in s.jobs && t.jobs[g].fan == s.jobs[g].fan && t.jobs[g].milestone == s.jobs[g].milestone)
  {
    hide EditorNext, SenderNext, SettleNext, CancelNext, SweptRows;
    match e {
      case Sender(se) => SenderLeaves(s, se, g);
      case Settling(te) => SettleLeaves(s, te, g);
      case _ =>
    }
  }

  /* ---- the row before and after a step of a run ---- */

  // The row was there before, and moved or was edited.
  lemma RowBefore(s: State, e: Event, id: Uuid)
    requires Core(s) && Enabled(s, e) && id in s.rows
    ensures id !in Next(s, e).rows ==> e.Editor? && s.rows[id].status == Draft
    ensures id in Next(s, e).rows ==>
              var r, q := s.rows[id], Next(s, e).rows[id];
              || q == r || (e.Editor? && IsEdit(r, q, s.now)) || (e.Sender? && IsClaim(r, q, s.now))
              || (!e.Editor? && !e.Sender? && (IsSettling(r, q, s.now) || IsRevert(r, q, s.now)))
  {
    hide Enabled, Next;
    RowMoves(s, e, id);
    assert RowAt(s.rows, s.used, s.claims, id);
  }

  // It was not: only an editor creates one, on an id never used.
  lemma RowCreated(s: State, e: Event, id: Uuid)
    requires Enabled(s, e) && id !in s.rows && id in Next(s, e).rows
    ensures var q := Next(s, e).rows[id];
            e.Editor? && id !in s.used && q == NewRow(q.content, q.scheduledAt, s.now)
  {
    hide Enabled, Next;
    RowMoves(s, e, id);
  }
}
