/** The instants that the first operation decides: when a recipient's message was sent,
    delivered and failed. Unlike everything else in the store they depend on the order,
    and later operations leave them alone. */
module EngagementInstants {
  import opened Wrappers
  import opened Engagement

  datatype Kind = AnyWrite | ADelivered | AFailed

  predicate IsKind(o: Op, k: Kind, e: EmailId) {
    && !o.Revert? && o.email == e
    && match k
       case AnyWrite => true
       case ADelivered => o.Delivered?
       case AFailed => o.Failed?
  }

  predicate AppliedAt(run: seq<Attempt>, i: nat, k: Kind, e: EmailId)
    requires i < |run|
  {
    run[i].outcome != Lost && IsKind(run[i].op, k, e)
  }

  /** The first applied operation of a kind for a recipient. */
  predicate IsFirst(run: seq<Attempt>, i: nat, k: Kind, e: EmailId) {
    i < |run| && AppliedAt(run, i, k, e) && forall j :: 0 <= j < i ==> !AppliedAt(run, j, k, e)
  }

  predicate NeverApplied(run: seq<Attempt>, k: Kind, e: EmailId) {
    forall i :: 0 <= i < |run| ==> !AppliedAt(run, i, k, e)
  }

  // The same, computed: none if there is none.
  function First(run: seq<Attempt>, k: Kind, e: EmailId): Option<Op> {
    if run == [] then None else
    var n := |run| - 1;
    var before := First(run[..n], k, e);
    if before.Some? then before
    else if AppliedAt(run, n, k, e) then Some(run[n].op)
    else None
  }

  lemma {:induction false} FirstIs(run: seq<Attempt>, k: Kind, e: EmailId)
    ensures First(run, k, e).Some? ==> exists i: nat :: IsFirst(run, i, k, e) && run[i].op == First(run, k, e).value
    ensures First(run, k, e).None? ==> NeverApplied(run, k, e)
  {
    if run != [] {
      var n := |run| - 1;
      FirstIs(run[..n], k, e);
      assert forall j :: 0 <= j < n ==> AppliedAt(run[..n], j, k, e) == AppliedAt(run, j, k, e);
      if First(run[..n], k, e).Some? {
        var i: nat :| IsFirst(run[..n], i, k, e) && run[..n][i].op == First(run[..n], k, e).value;
        assert IsFirst(run, i, k, e) && run[i].op == First(run, k, e).value;
      } else if AppliedAt(run, n, k, e) {
        assert IsFirst(run, n, k, e) && run[n].op == First(run, k, e).value;
      }
    }
  }

  lemma FirstIsApplied(run: seq<Attempt>, k: Kind, e: EmailId)
    requires First(run, k, e).Some?
    ensures First(run, k, e).value in Applied(run) && IsKind(First(run, k, e).value, k, e)
  {
    FirstIs(run, k, e);
  }

  lemma FirstOfMore(run: seq<Attempt>, a: Attempt, k: Kind, e: EmailId)
    ensures First(run + [a], k, e) == if First(run, k, e).Some? then First(run, k, e)
                                      else if a.outcome != Lost && IsKind(a.op, k, e) then Some(a.op) else None
  {
    assert (run + [a])[..|run|] == run;
  }

  function InstantOf(o: Option<Op>): Option<Time> {
    if o.Some? && !o.value.Revert? then Some(o.value.at) else None
  }

  /** A row's instants are those of the first operations: of the first delivery, of the
      first failure, and of the send if the send was the first to write the row. */
  predicate FirstWins(r: Rollup, written: Option<Op>, delivered: Option<Op>, failed: Option<Op>) {
    && written.Some?
    && (r.delivered <==> delivered.Some?) && r.deliveredAt == InstantOf(delivered)
    && (r.failed <==> failed.Some?) && r.failedAt == InstantOf(failed)
    && r.sentAt == if written.value.RecordSent? then Some(written.value.at) else None
  }

  predicate RowFirstWins(s: Store, run: seq<Attempt>, e: EmailId) {
    e in s.rows ==> FirstWins(s.rows[e], First(run, AnyWrite, e), First(run, ADelivered, e), First(run, AFailed, e))
  }

  // What one applied operation does to the instants of a row that is there already.
  lemma WritesKeepFirst(s: Store, op: Op, e: EmailId, written: Option<Op>, delivered: Option<Op>, failed: Option<Op>)
    requires e in s.rows && FirstWins(s.rows[e], written, delivered, failed)
    requires !op.Revert? && op.email == e ==> op.group !in s.reverted
    ensures var t := Apply(s, op);
            e in t.rows ==>
              FirstWins(t.rows[e], written,
                        if delivered.Some? then delivered else if IsKind(op, ADelivered, e) then Some(op) else None,
                        if failed.Some? then failed else if IsKind(op, AFailed, e) then Some(op) else None)
  {
  }

  // What it writes into a new row.
  lemma FirstWrite(s: Store, op: Op, e: EmailId)
    requires e !in s.rows && e in Apply(s, op).rows
    requires (op.Opened? ==> op.event !in s.opens) && (op.Clicked? ==> op.event !in s.clicks)
    ensures IsKind(op, AnyWrite, e)
    ensures FirstWins(Apply(s, op).rows[e], Some(op), if op.Delivered? then Some(op) else None,
                      if op.Failed? then Some(op) else None)
  {
  }

  // What was applied for a recipient whose group stands has left its row.
  lemma AppliedHasRow(run: seq<Attempt>, op: Op, k: Kind)
    requires WellKeyed(Applied(run) + {op}) && !op.Revert?
    requires op.group !in Run(EMPTY, run).reverted && First(run, k, op.email).Some?
    ensures op.email in Run(EMPTY, run).rows
  {
    RunReflects(run);
    FirstIsApplied(run, k, op.email);
    var o := First(run, k, op.email).value;
    assert SameRecipient(o, op);
    assert Live(Applied(run), o) && RowShows(Run(EMPTY, run).rows, o);
  }

  // A recipient without a row has had nothing written that was not dropped.
  lemma NothingBefore(run: seq<Attempt>, op: Op, k: Kind)
    requires WellKeyed(Applied(run) + {op}) && !op.Revert?
    requires op.email !in Run(EMPTY, run).rows && op.group !in Run(EMPTY, run).reverted
    ensures First(run, k, op.email).None?
  {
    if First(run, k, op.email).Some? {
      AppliedHasRow(run, op, k);
    }
  }

  // A row still there belongs to a group that is not tombstoned, and so do the
  // operations of its recipient.
  lemma HeldIsLive(run: seq<Attempt>, op: Op)
    requires WellKeyed(Applied(run) + {op}) && !op.Revert? && op.email in Run(EMPTY, run).rows
    ensures op.group !in Run(EMPTY, run).reverted
  {
    var s, ops := Run(EMPTY, run), Applied(run);
    RunReflects(run);
    RollupAgreesWithEvents(run);
    assert HasTrace(s, ARow(op.email));
    var o :| Live(ops, o) && Leaves(o, ARow(op.email));
    assert SameRecipient(o, op) && RowShows(s.rows, o);
    assert RowAgrees(s.opens, s.clicks, s.reverted, op.email, s.rows[op.email]);
  }

  lemma NewEvent(run: seq<Attempt>, op: Op)
    requires WellKeyed(Applied(run) + {op}) && !op.Revert?
    requires op.email !in Run(EMPTY, run).rows && op.group !in Run(EMPTY, run).reverted
    ensures op.Opened? ==> op.event !in Run(EMPTY, run).opens
    ensures op.Clicked? ==> op.event !in Run(EMPTY, run).clicks
  {
    RunReflects(run);
    SeenEventMatches(Run(EMPTY, run), Applied(run), op);
  }

  // One more attempt.
  lemma StepFirstWins(run: seq<Attempt>, a: Attempt, e: EmailId)
    requires WellKeyed(Applied(run + [a])) && RowFirstWins(Run(EMPTY, run), run, e)
    ensures RowFirstWins(Step(Run(EMPTY, run), a), run + [a], e)
  {
    var s, op := Run(EMPTY, run), a.op;
    FirstOfMore(run, a, AnyWrite, e);
    FirstOfMore(run, a, ADelivered, e);
    FirstOfMore(run, a, AFailed, e);
    if a.outcome != Lost && e in Apply(s, op).rows {
      AppliedMore(run, a);
      if e in s.rows {
        if IsKind(op, AnyWrite, e) {
          HeldIsLive(run, op);
        }
        WritesKeepFirst(s, op, e, First(run, AnyWrite, e), First(run, ADelivered, e), First(run, AFailed, e));
      } else if !op.Revert? && op.email == e && op.group !in s.reverted {
        NothingBefore(run, op, AnyWrite);
        NothingBefore(run, op, ADelivered);
        NothingBefore(run, op, AFailed);
        NewEvent(run, op);
        FirstWrite(s, op, e);
      }
    }
  }

  lemma AppliedMore(run: seq<Attempt>, a: Attempt)
    requires a.outcome != Lost
    ensures Applied(run + [a]) == Applied(run) + {a.op}
  {
    var more := run + [a];
    assert more[|run|] == a;
    assert forall i :: 0 <= i < |run| ==> more[i] == run[i];
  }

  lemma AppliedOnlyGrows(run: seq<Attempt>, a: Attempt)
    ensures Applied(run) <= Applied(run + [a])
  {
    var more := run + [a];
    assert forall i :: 0 <= i < |run| ==> more[i] == run[i];
  }

  lemma {:induction false} AlwaysFirstWins(run: seq<Attempt>, e: EmailId)
    requires WellKeyed(Applied(run))
    ensures RowFirstWins(Run(EMPTY, run), run, e)
  {
    if run != [] {
      var n := |run| - 1;
      assert run == run[..n] + [run[n]];
      AppliedOnlyGrows(run[..n], run[n]);
      AlwaysFirstWins(run[..n], e);
      StepFirstWins(run[..n], run[n], e);
    }
  }

  // The instant of the first operation of its kind, null if there was none.
  ghost predicate DecidedBy(run: seq<Attempt>, k: Kind, e: EmailId, instant: Option<Time>) {
    || (instant.Some? && exists i: nat :: IsFirst(run, i, k, e) && run[i].op.at == instant.value)
    || (instant.None? && NeverApplied(run, k, e))
  }

  lemma FirstDecidesKind(run: seq<Attempt>, k: Kind, e: EmailId)
    ensures DecidedBy(run, k, e, InstantOf(First(run, k, e)))
  {
    FirstIs(run, k, e);
    if First(run, k, e).Some? {
      var i: nat :| IsFirst(run, i, k, e) && run[i].op == First(run, k, e).value;
      assert InstantOf(First(run, k, e)) == Some(run[i].op.at);
    }
  }

  // The instant of the send record, if it was the first to write the row.
  ghost predicate SentFirst(run: seq<Attempt>, e: EmailId, sentAt: Option<Time>) {
    exists i: nat :: IsFirst(run, i, AnyWrite, e) && sentAt == if run[i].op.RecordSent? then Some(run[i].op.at) else None
  }

  lemma SentFirstDecides(run: seq<Attempt>, e: EmailId)
    requires First(run, AnyWrite, e).Some?
    ensures var o := First(run, AnyWrite, e).value;
            !o.Revert? && SentFirst(run, e, if o.RecordSent? then Some(o.at) else None)
  {
    FirstIs(run, AnyWrite, e);
    var i: nat :| IsFirst(run, i, AnyWrite, e) && run[i].op == First(run, AnyWrite, e).value;
  }

  /** In every run, a stored row's delivered_at is the instant of the first delivery
      applied for the recipient and null without one; failed_at likewise; sent_at is the
      instant of the send record if that was the first operation applied, else null. */
  lemma FirstDecides(run: seq<Attempt>, e: EmailId)
    requires WellKeyed(Applied(run)) && e in Run(EMPTY, run).rows
    ensures var r := Run(EMPTY, run).rows[e];
            && DecidedBy(run, ADelivered, e, r.deliveredAt) && (r.delivered <==> r.deliveredAt.Some?)
            && DecidedBy(run, AFailed, e, r.failedAt) && (r.failed <==> r.failedAt.Some?)
            && SentFirst(run, e, r.sentAt)
  {
    hide DecidedBy, SentFirst, First, Run, WellKeyed, Applied;
    AlwaysFirstWins(run, e);
    FirstDecidesKind(run, ADelivered, e);
    FirstDecidesKind(run, AFailed, e);
    SentFirstDecides(run, e);
    FirstIsKind(run, ADelivered, e);
    FirstIsKind(run, AFailed, e);
  }

  lemma FirstIsKind(run: seq<Attempt>, k: Kind, e: EmailId)
    ensures First(run, k, e).Some? ==> InstantOf(First(run, k, e)).Some?
  {
    FirstIs(run, k, e);
  }

  lemma {:induction false} FirstStays(run: seq<Attempt>, n: nat, k: Kind, e: EmailId)
    requires n <= |run| && First(run[..n], k, e).Some?
    ensures First(run, k, e) == First(run[..n], k, e)
  {
    if n == |run| {
      assert run[..n] == run;
    } else {
      var m := |run| - 1;
      assert run[..m][..n] == run[..n];
      FirstStays(run[..m], n, k, e);
    }
  }

  /** Once set, delivered_at and failed_at never change, and sent_at never changes at
      all, in any later state that still holds the row. */
  lemma InstantsStay(run: seq<Attempt>, n: nat, e: EmailId)
    requires WellKeyed(Applied(run)) && n <= |run|
    requires e in Run(EMPTY, run[..n]).rows && e in Run(EMPTY, run).rows
    ensures var was, r := Run(EMPTY, run[..n]).rows[e], Run(EMPTY, run).rows[e];
            && (was.deliveredAt.Some? ==> r.deliveredAt == was.deliveredAt)
            && (was.failedAt.Some? ==> r.failedAt == was.failedAt)
            && r.sentAt == was.sentAt
  {
    assert Applied(run[..n]) <= Applied(run) by {
      assert forall i :: 0 <= i < n ==> run[..n][i] == run[i];
    }
    AlwaysFirstWins(run[..n], e);
    AlwaysFirstWins(run, e);
    FirstStays(run, n, AnyWrite, e);
    if First(run[..n], ADelivered, e).Some? {
      FirstStays(run, n, ADelivered, e);
    }
    if First(run[..n], AFailed, e).Some? {
      FirstStays(run, n, AFailed, e);
    }
  }
}
