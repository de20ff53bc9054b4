/** Who may still deliver. A claim that lost its row can never deliver again: that
    is what a run keeps as long as no job reverts a row another claim holds. */
module LifecycleHolders {
  import opened Wrappers
  import opened Repository
  import opened Lifecycle
  import opened LifecycleInvariant
  import opened LifecycleMoves
  import FanOut

  predicate IsCurrent(s: State, g: GroupId) {
    g in s.claims && s.claims[g].id in s.rows && s.rows[s.claims[g].id].groupId == Some(g)
  }

  predicate IsCancelled(s: State, g: GroupId)
    requires g in s.claims
  {
    s.claims[g].arming.Some? && s.claims[g].arming.value.batch in s.cancelled
  }

  predicate RefusedIn(s: State, g: GroupId, m: MessageId) {
    m in s.messages && s.messages[m].group == g ==> s.messages[m].fate == Refused
  }

  /** Nothing of this claim was or will be delivered: its batch was cancelled, or
      every recipient was definitively rejected and none is left to dispatch. */
  ghost predicate Dead(s: State, g: GroupId)
    requires g in s.claims
  {
    IsCancelled(s, g) || ((g in s.jobs ==> FanOut.Done(s.jobs[g].fan)) && forall m :: RefusedIn(s, g, m))
  }

  ghost predicate CurrentOrDead(s: State, g: GroupId) {
    g in s.claims ==> IsCurrent(s, g) || Dead(s, g)
  }

  ghost predicate Inv(s: State) {
    Core(s) && forall g :: CurrentOrDead(s, g)
  }

  /* ---- the dead stay dead, in every run ---- */

  lemma DoneFanStays(s: State, e: FanOutEvent, g: GroupId)
    requires Core(s) && FanOutEnabled(s, e) && g in s.jobs && FanOut.Done(s.jobs[g].fan)
    ensures FanOut.Done(FanOutNext(s, e).jobs[g].fan)
  {
    assert JobAt(s.jobs, s.claims, g);
  }

  lemma RefusedStay(s: State, e: FanOutEvent, g: GroupId, m: MessageId)
    requires FanOutEnabled(s, e) && RefusedIn(s, g, m)
    requires g in s.jobs ==> FanOut.Done(s.jobs[g].fan)
    requires e.ProviderAccept? ==> RefusedIn(s, g, e.message)
    ensures RefusedIn(FanOutNext(s, e), g, m)
  {
  }

  lemma DeadStaysInFanOut(s: State, e: FanOutEvent, g: GroupId)
    requires Core(s) && FanOutEnabled(s, e) && g in s.claims && Dead(s, g)
    ensures Dead(FanOutNext(s, e), g)
  {
    if !IsCancelled(s, g) {
      if g in s.jobs {
        DoneFanStays(s, e, g);
      }
      forall m ensures RefusedIn(FanOutNext(s, e), g, m) {
        assert RefusedIn(s, g, m);
        assert e.ProviderAccept? ==> RefusedIn(s, g, e.message);
        RefusedStay(s, e, g, m);
      }
    }
  }

  /** No event of any actor, a stale revert included, revives a dead claim. */
  lemma DeadStays(s: State, e: Event, g: GroupId)
    requires Core(s) && Enabled(s, e) && g in s.claims && Dead(s, g)
    ensures g in Next(s, e).claims && Dead(Next(s, e), g)
  {
    if e.FanningOut? {
      DeadStaysInFanOut(s, e.fe, g);
    } else {
      hide Next;
      OthersLeave(s, e, g);
      assert forall m :: RefusedIn(s, g, m) ==> RefusedIn(Next(s, e), g, m);
    }
  }

  /* ---- only the dead lose their row ---- */

  // A finished job that counted only rejections left nothing behind it.
  lemma WhollyRejectedIsDead(s: State, g: GroupId)
    requires Core(s) && g in s.jobs && FanOut.Done(s.jobs[g].fan) && WhollyRejected(s.jobs[g].fan)
    ensures g in s.claims && Dead(s, g)
  {
    assert JobAt(s.jobs, s.claims, g);
    forall m ensures RefusedIn(s, g, m) {
      assert MessageAt(s.messages, s.claims, s.jobs, m);
    }
  }

  lemma SettleTakesOnlyDeadRows(s: State, e: SettleEvent, g: GroupId)
    requires Core(s) && SettleEnabled(s, e) && !StaleRevert(s, Settling(e)) && IsCurrent(s, g)
    ensures IsCurrent(SettleNext(s, e), g) || Dead(s, g)
  {
    if e.Settle? && RevertsRow(s, e.group) && s.claims[e.group].id == s.claims[g].id {
      WhollyRejectedIsDead(s, g);
    }
  }

  lemma CancelTakesOnlyDeadRows(s: State, e: CancelEvent, g: GroupId)
    requires Core(s) && CancelEnabled(s, e) && IsCurrent(s, g)
    ensures IsCurrent(CancelNext(s, e), g) || Dead(s, g)
  {
    if e.CancelCommit? {
      assert CancelAt(s.calls, s.claims, s.cancelled, e.call) && RowAt(s.rows, s.used, s.claims, s.claims[g].id);
    }
  }

  lemma OnlyDeadLoseTheirRow(s: State, e: Event, g: GroupId)
    requires Core(s) && Enabled(s, e) && !StaleRevert(s, e) && IsCurrent(s, g)
    ensures IsCurrent(Next(s, e), g) || Dead(s, g)
  {
    assert RowAt(s.rows, s.used, s.claims, s.claims[g].id);
    match e {
      case Tick(_) =>
      case Editor(ed) => assert ed.Create? ==> RowAt(s.rows, s.used, s.claims, ed.id);
      case Sender(_) =>
      case FanningOut(_) =>
      case Settling(te) => SettleTakesOnlyDeadRows(s, te, g);
      case Canceller(ce) => CancelTakesOnlyDeadRows(s, ce, g);
      case Sweeper(_) =>
      case Deliver(_) =>
    }
  }

  lemma NewClaimHoldsItsRow(s: State, e: Event, g: GroupId)
    requires Enabled(s, e) && g !in s.claims && g in Next(s, e).claims
    ensures IsCurrent(Next(s, e), g)
  {
    hide EditorNext, FanOutNext, SettleNext, CancelNext, SweptRows;
  }

  /** Every event but a stale revert keeps "a claim holds its row or is dead". */
  lemma QuietStepKeeps(s: State, e: Event)
    requires Inv(s) && Enabled(s, e) && !StaleRevert(s, e)
    ensures Inv(Next(s, e))
  {
    var t := Next(s, e);
    StepKeeps(s, e);
    forall g ensures CurrentOrDead(t, g) {
      assert CurrentOrDead(s, g);
      if g in s.claims {
        if IsCurrent(s, g) {
          OnlyDeadLoseTheirRow(s, e, g);
        }
        if Dead(s, g) {
          DeadStays(s, e, g);
        }
      } else if g in t.claims {
        NewClaimHoldsItsRow(s, e, g);
      }
    }
  }

  lemma {:induction false} QuietRunKeeps(s: State, es: seq<Event>)
    requires Inv(s) && IsRun(s, es) && NonOverlapping(s, es)
    ensures Inv(Run(s, es))
    decreases |es|
  {
    if es != [] {
      QuietStepKeeps(s, es[0]);
      QuietRunKeeps(Next(s, es[0]), es[1..]);
    }
  }

  /** After every non-overlapping run each claim holds its row or is dead. */
  lemma HeldOrDead(cfg: Config, es: seq<Event>)
    requires IsRun(Init(cfg), es) && NonOverlapping(Init(cfg), es)
    ensures Inv(Run(Init(cfg), es))
  {
    InitCore(cfg);
    QuietRunKeeps(Init(cfg), es);
  }
}
