/** Exactly when the revert of a wholly rejected send is safe. The statement is gated
    on the status alone, so the claim that holds the row may be another one: then a
    second delivery is possible if and only if that claim can still deliver. */
module LifecycleRevert {
  import opened Wrappers
  import opened Repository
  import opened Lifecycle
  import opened LifecycleInvariant
  import opened LifecycleHolders
  import opened LifecycleMoves
  import opened LifecycleRuns
  import opened LifecycleSafety
  import FanOut

  /* ---- requests in flight ---- */

  predicate Outstanding(s: State, g: GroupId, slot: nat, m: MessageId) {
    m in s.messages && s.messages[m].group == g && s.messages[m].slot == slot && s.messages[m].fate != Refused
  }

  ghost predicate InFlightAt(s: State, g: GroupId, slot: nat) {
    g in s.jobs && slot in s.jobs[g].fan.inFlight ==> exists m :: Outstanding(s, g, slot, m)
  }

  predicate HasWorkers(s: State, g: GroupId) {
    g in s.jobs ==> s.jobs[g].fan.concurrency > 0
  }

  /** Every request a job waits for is one the provider may still accept, and every
      job can have one. */
  ghost predicate Working(s: State) {
    (forall g, slot :: InFlightAt(s, g, slot)) && forall g :: HasWorkers(s, g)
  }

  // A request in flight after a fan-out event was so before, or is the one just made.
  lemma FlightMoves(s: State, e: FanOutEvent, g: GroupId, slot: nat)
    requires Core(s) && FanOutEnabled(s, e) && InFlightAt(s, g, slot)
    ensures InFlightAt(FanOutNext(s, e), g, slot)
  {
    var t := FanOutNext(s, e);
    if g in s.jobs && slot in t.jobs[g].fan.inFlight {
      if slot in s.jobs[g].fan.inFlight {
        var m :| Outstanding(s, g, slot, m);
        assert e.Report? ==> SlotsDiffer(s.messages, m, e.message);
        assert Outstanding(t, g, slot, m);
      } else {
        assert Outstanding(t, g, slot, e.message);
      }
    }
  }

  // A claim starts a job with workers and nothing in flight.
  lemma FlightStarts(s: State, e: SenderEvent, g: GroupId)
    requires SenderEnabled(s, e)
    ensures var t := SenderNext(s, e);
            && t.messages == s.messages
            && (g in t.jobs ==> || (g in s.jobs && t.jobs[g] == s.jobs[g])
                                || (t.jobs[g].fan.concurrency > 0 && t.jobs[g].fan.inFlight == {}))
  {
  }

  // No other event puts a request in flight or touches a message.
  lemma FlightRests(s: State, e: Event, g: GroupId)
    requires Enabled(s, e) && !e.FanningOut? && !e.Sender?
    ensures Next(s, e).messages == s.messages
    ensures g in Next(s, e).jobs ==> g in s.jobs && Next(s, e).jobs[g].fan == s.jobs[g].fan
  {
    hide EditorNext, SettleNext, CancelNext, SweptRows;
    if e.Settling? {
      SettleLeaves(s, e.te, g);
    }
  }

  lemma WorkingFanOut(s: State, e: FanOutEvent)
    requires Core(s) && Working(s) && FanOutEnabled(s, e)
    ensures Working(FanOutNext(s, e))
  {
    var t := FanOutNext(s, e);
    forall g ensures HasWorkers(t, g) {
      assert HasWorkers(s, g);
    }
    forall g, slot ensures InFlightAt(t, g, slot) {
      assert InFlightAt(s, g, slot);
      FlightMoves(s, e, g, slot);
    }
  }

  // The messages stand; so do the jobs, but for a new one without work in flight.
  lemma WorkingKept(s: State, t: State)
    requires Working(s) && t.messages == s.messages
    requires forall g :: g in t.jobs ==>
               || (g in s.jobs && t.jobs[g].fan == s.jobs[g].fan)
               || (t.jobs[g].fan.concurrency > 0 && t.jobs[g].fan.inFlight == {})
    ensures Working(t)
  {
    forall g ensures HasWorkers(t, g) {
      assert HasWorkers(s, g);
    }
    forall g, slot ensures InFlightAt(t, g, slot) {
      assert InFlightAt(s, g, slot);
      assert forall m :: Outstanding(s, g, slot, m) ==> Outstanding(t, g, slot, m);
    }
  }

  lemma WorkingStep(s: State, e: Event)
    requires Core(s) && Working(s) && Enabled(s, e)
    ensures Working(Next(s, e))
  {
    hide Working, FanOutNext, SenderNext, EditorNext, SettleNext, CancelNext;
    var t := Next(s, e);
    if e.FanningOut? {
      WorkingFanOut(s, e.fe);
    } else {
      if e.Sender? {
        forall g { FlightStarts(s, e.se, g); }
      } else {
        forall g { FlightRests(s, e, g); }
      }
      WorkingKept(s, t);
    }
  }

  lemma {:induction false} WorkingRun(s: State, es: seq<Event>)
    requires Core(s) && Working(s) && IsRun(s, es)
    ensures Working(Run(s, es))
    decreases |es|
  {
    if es != [] {
      StepKeeps(s, es[0]);
      WorkingStep(s, es[0]);
      WorkingRun(Next(s, es[0]), es[1..]);
    }
  }

  /* ---- a claim that is not dead delivers ---- */

  // One of its messages is out, or can be sent out without touching any row.
  lemma GetsOut(from: State, es: seq<Event>, s: State, g: GroupId) returns (more: seq<Event>, t: State, m: MessageId)
    requires RunsTo(from, es, s) && NonOverlapping(from, es)
    requires Core(s) && Working(s) && g in s.claims && !Dead(s, g)
    ensures RunsTo(from, more, t) && NonOverlapping(from, more)
    ensures t.rows == s.rows && t.claims == s.claims
    ensures m in t.delivered && m in t.messages && t.messages[m].group == g && t.messages[m].slot < |t.claims[g].recipients|
  {
    more, t := es, s;
    assert JobAt(s.jobs, s.claims, g) && HasWorkers(s, g);
    if g in s.jobs && s.jobs[g].fan.inFlight != {} {
      var slot :| slot in s.jobs[g].fan.inFlight;
      assert InFlightAt(s, g, slot);
      m :| Outstanding(s, g, slot, m);
    } else if n :| !RefusedIn(s, g, n) {
      m := n;
    } else {
      m := Unused(s.messages.Keys + s.delivered);
      more, t := DispatchNext(from, more, t, g, m);
    }
    assert MessageAt(s.messages, s.claims, s.jobs, m);
    if m !in t.delivered {
      more, t := AcceptAndDeliver(from, more, t, m);
    }
  }

  /** A draft behind which some claim can still deliver is delivered twice. */
  lemma LiveSendBehindADraft(s: State, g: GroupId) returns (es: seq<Event>)
    requires Core(s) && Working(s) && g in s.claims && !Dead(s, g)
    requires s.claims[g].id in s.rows && s.rows[s.claims[g].id].status == Draft
    ensures IsRun(s, es) && NonOverlapping(s, es) && !AtMostOnce(Run(s, es))
  {
    var t, m;
    es, t, m := GetsOut(s, [], s, g);
    var to := t.claims[g].recipients[t.messages[m].slot];
    var call := Unused(t.calls.Keys);
    var group := Unused(t.claims.Keys);
    var n := Unused(t.messages.Keys + t.delivered);
    es, t := SendNow(s, es, t, s.claims[g].id, call, group, to, n);
    assert SameMail(t, m, n);
  }

  /* ---- the revert ---- */

  /** No non-overlapping continuation delivers anything twice. */
  ghost predicate StaysSafe(s: State) {
    forall es :: IsRun(s, es) && NonOverlapping(s, es) ==> AtMostOnce(Run(s, es))
  }

  lemma InvStaysSafe(s: State)
    requires Inv(s)
    ensures StaysSafe(s)
  {
    forall es | IsRun(s, es) && NonOverlapping(s, es) ensures AtMostOnce(Run(s, es)) {
      QuietRunKeeps(s, es);
      InvIsSafe(Run(s, es));
    }
  }

  lemma RevertOverTheDead(s: State, g: GroupId, h: GroupId)
    requires Inv(s) && SettleEnabled(s, Settle(g)) && RevertsRow(s, g) && h in s.claims
    requires s.rows[s.claims[g].id].groupId == Some(h) && Dead(s, h)
    ensures Inv(Next(s, Settling(Settle(g))))
  {
    var e := Settling(Settle(g));
    var t := Next(s, e);
    StepKeeps(s, e);
    forall k ensures CurrentOrDead(t, k) {
      assert CurrentOrDead(s, k);
      if k in s.claims && Dead(s, k) {
        DeadStays(s, e, k);
      }
    }
  }

  lemma RevertOverTheLiving(s: State, g: GroupId, h: GroupId)
    requires Core(s) && Working(s) && SettleEnabled(s, Settle(g)) && RevertsRow(s, g) && h in s.claims
    requires s.rows[s.claims[g].id].groupId == Some(h) && !Dead(s, h)
    ensures !StaysSafe(Next(s, Settling(Settle(g))))
  {
    var e := Settling(Settle(g));
    var t := Next(s, e);
    StepKeeps(s, e);
    WorkingStep(s, e);
    WhollyRejectedIsDead(s, g);
    assert RowAt(s.rows, s.used, s.claims, s.claims[g].id);
    if Dead(t, h) {
      forall m ensures IsCancelled(t, h) || RefusedIn(s, h, m) {
        assert IsCancelled(t, h) || RefusedIn(t, h, m);
      }
    }
    var es := LiveSendBehindADraft(t, h);
  }

  /** After any non-overlapping run, a wholly rejected job's revert leaves a state no
      continuation of which delivers twice if and only if the claim that holds the
      row is dead. The job's own claim always is. */
  lemma RevertSafeIff(cfg: Config, es: seq<Event>, g: GroupId)
    requires IsRun(Init(cfg), es) && NonOverlapping(Init(cfg), es)
    requires var s := Run(Init(cfg), es);
             SettleEnabled(s, Settle(g)) && RevertsRow(s, g)
    ensures var s := Run(Init(cfg), es);
            var holder := s.rows[s.claims[g].id].groupId;
            && holder.Some? && holder.value in s.claims
            && (StaysSafe(Next(s, Settling(Settle(g)))) <==> Dead(s, holder.value))
            && (holder == Some(g) ==> Dead(s, g))
  {
    HeldOrDead(cfg, es);
    InitCore(cfg);
    WorkingRun(Init(cfg), es);
    var s := Run(Init(cfg), es);
    assert RowAt(s.rows, s.used, s.claims, s.claims[g].id);
    var h := s.rows[s.claims[g].id].groupId.value;
    WhollyRejectedIsDead(s, g);
    if Dead(s, h) {
      RevertOverTheDead(s, g, h);
      InvStaysSafe(Next(s, Settling(Settle(g))));
    } else {
      RevertOverTheLiving(s, g, h);
    }
  }
}
