/** Building runs event by event, and cutting them up again. */
module LifecycleRuns {
  import opened Wrappers
  import opened Repository
  import opened Lifecycle
  import FanOut

  ghost predicate RunsTo(from: State, es: seq<Event>, s: State) {
    IsRun(from, es) && s == Run(from, es)
  }

  lemma {:induction false} Extend(from: State, es: seq<Event>, e: Event)
    requires IsRun(from, es) && Enabled(Run(from, es), e)
    ensures IsRun(from, es + [e]) && Run(from, es + [e]) == Next(Run(from, es), e)
    ensures NonOverlapping(from, es + [e]) <==> NonOverlapping(from, es) && !StaleRevert(Run(from, es), e)
    decreases |es|
  {
    if es == [] {
      assert [e][1..] == [];
      assert IsRun(Next(from, e), []);
    } else {
      Extend(Next(from, es[0]), es[1..], e);
      assert (es + [e])[1..] == es[1..] + [e];
    }
  }

  lemma {:induction false} CutRun(from: State, es: seq<Event>, k: nat)
    requires IsRun(from, es) && k <= |es|
    ensures IsRun(from, es[..k]) && IsRun(Run(from, es[..k]), es[k..])
    ensures Run(from, es) == Run(Run(from, es[..k]), es[k..])
    decreases |es|
  {
    if k == 0 {
      assert es[..0] == [] && es[0..] == es;
    } else {
      CutRun(Next(from, es[0]), es[1..], k - 1);
      assert es[..k][1..] == es[1..][..k - 1] && es[1..][k - 1..] == es[k..];
    }
  }

  lemma Then(from: State, es: seq<Event>, s: State, e: Event) returns (more: seq<Event>, t: State)
    requires RunsTo(from, es, s) && Enabled(s, e)
    ensures more == es + [e] && t == Next(s, e) && RunsTo(from, more, t)
    ensures NonOverlapping(from, es) && !e.Settling? ==> NonOverlapping(from, more)
  {
    Extend(from, es, e);
    more, t := es + [e], Next(s, e);
  }

  /* ---- the provider's moves ---- */

  // A running job hands its next recipient to the dispatcher.
  lemma DispatchNext(from: State, es: seq<Event>, s: State, g: GroupId, m: MessageId) returns (more: seq<Event>,
                     t: State)
    requires RunsTo(from, es, s) && FanOutEnabled(s, Dispatch(g, m))
    ensures RunsTo(from, more, t) && (NonOverlapping(from, es) ==> NonOverlapping(from, more))
    ensures t.rows == s.rows && t.claims == s.claims && t.calls == s.calls && t.cfg == s.cfg && t.now == s.now
    ensures t.delivered == s.delivered && t.cancelled == s.cancelled
    ensures t.messages == s.messages[m := Message(g, s.jobs[g].fan.next, InNetwork)]
    ensures t.jobs == WithFan(s.jobs, g, FanOut.Next(s.jobs[g].fan, FanOut.Dispatch), s.now)
  {
    more, t := Then(from, es, s, FanningOut(Dispatch(g, m)));
  }

  // A message that was not refused is accepted, its release awaited, and it goes out.
  lemma AcceptAndDeliver(from: State, es: seq<Event>, s: State, m: MessageId) returns (more: seq<Event>, t: State)
    requires RunsTo(from, es, s) && m in s.messages && s.messages[m].fate != Refused && m !in s.delivered
    requires s.messages[m].group in s.claims
    requires var a := s.claims[s.messages[m].group].arming;
             a.Some? ==> a.value.batch !in s.cancelled
    ensures RunsTo(from, more, t) && (NonOverlapping(from, es) ==> NonOverlapping(from, more))
    ensures t.rows == s.rows && t.claims == s.claims && t.calls == s.calls && t.cfg == s.cfg && t.jobs == s.jobs
    ensures t.messages == s.messages[m := s.messages[m].(fate := Taken)] && t.delivered == s.delivered + {m}
  {
    more, t := es, s;
    if s.messages[m].fate == InNetwork {
      more, t := Then(from, more, t, FanningOut(ProviderAccept(m)));
    }
    var a := s.claims[s.messages[m].group].arming;
    if a.Some? && t.now < a.value.at {
      more, t := Then(from, more, t, Tick(a.value.at - t.now));
    }
    more, t := Then(from, more, t, Deliver(m));
    assert t.messages == s.messages[m := s.messages[m].(fate := Taken)];
  }

  /* ---- an immediate send ---- */

  lemma ClaimNow(from: State, es: seq<Event>, s: State, id: Uuid, call: CallId, g: GroupId, recipients: seq<Email>)
    returns (more: seq<Event>, t: State)
    requires RunsTo(from, es, s) && id in s.rows && s.rows[id].status == Draft
    requires call !in s.calls && g !in s.claims && Distinct(recipients)
    ensures RunsTo(from, more, t) && (NonOverlapping(from, es) ==> NonOverlapping(from, more))
    ensures t.calls == s.calls && t.cfg == s.cfg && t.now == s.now && t.messages == s.messages && t.delivered == s.delivered
    ensures id in t.rows && t.rows[id].status == Sending && t.rows[id].groupId == Some(g)
    ensures t.rows[id].version == s.rows[id].version + 1 && t.rows[id].batchId == s.rows[id].batchId
    ensures t.claims == s.claims[g := Claim(id, s.rows[id].version + 1, recipients, None, s.now)]
    ensures t.jobs == s.jobs[g := Job(FanOut.Start(recipients, FanOut.DEFAULT_SEND_CONCURRENCY), Running, s.now)]
  {
    more, t := Then(from, es, s, Sender(SendRead(call, id, 0, EmailService, false, None)));
    more, t := Then(from, more, t, Sender(SendClaim(call, g, recipients, 0)));
    assert t.calls == s.calls;
  }

  // The first message of a job just started goes out.
  lemma DeliverFirst(from: State, es: seq<Event>, s: State, g: GroupId, m: MessageId) returns (more: seq<Event>,
                     t: State)
    requires RunsTo(from, es, s) && m !in s.messages && m !in s.delivered
    requires g in s.claims && s.claims[g].arming.None? && RunningJob(s, g)
    requires s.jobs[g].fan == FanOut.Start(s.claims[g].recipients, FanOut.DEFAULT_SEND_CONCURRENCY)
        && s.claims[g].recipients != []
    ensures RunsTo(from, more, t) && (NonOverlapping(from, es) ==> NonOverlapping(from, more))
    ensures t.rows == s.rows && t.claims == s.claims && t.calls == s.calls && t.cfg == s.cfg
    ensures t.messages == s.messages[m := Message(g, 0, Taken)] && t.delivered == s.delivered + {m}
    ensures forall h :: h != g && h in s.jobs ==> h in t.jobs && t.jobs[h] == s.jobs[h]
  {
    more, t := DispatchNext(from, es, s, g, m);
    more, t := AcceptAndDeliver(from, more, t, m);
    assert t.messages == s.messages[m := Message(g, 0, Taken)];
  }

  // One address gets its message at once.
  lemma SendNow(from: State, es: seq<Event>, s: State, id: Uuid, call: CallId, g: GroupId, to: Email, m: MessageId)
    returns (more: seq<Event>, t: State)
    requires RunsTo(from, es, s) && id in s.rows && s.rows[id].status == Draft
    requires call !in s.calls && g !in s.claims && m !in s.messages && m !in s.delivered
    ensures RunsTo(from, more, t) && (NonOverlapping(from, es) ==> NonOverlapping(from, more))
    ensures t.calls == s.calls && t.cfg == s.cfg && t.delivered == s.delivered + {m}
    ensures t.messages == s.messages[m := Message(g, 0, Taken)]
    ensures t.claims == s.claims[g := Claim(id, s.rows[id].version + 1, [to], None, s.now)]
    ensures id in t.rows && t.rows[id].status == Sending && t.rows[id].groupId == Some(g)
    ensures forall h :: h != g && h in s.jobs ==> h in t.jobs && t.jobs[h] == s.jobs[h]
  {
    more, t := ClaimNow(from, es, s, id, call, g, [to]);
    more, t := DeliverFirst(from, more, t, g, m);
  }

  // Ids are never exhausted.
  lemma {:induction false} Unused(xs: set<nat>) returns (n: nat)
    ensures forall x :: x in xs ==> x < n
  {
    n := 0;
    if xs != {} {
      var x :| x in xs;
      n := Unused(xs - {x});
      forall y | y in xs && y != x ensures y < n {
        assert y in xs - {x};
      }
      if n <= x {
        n := x + 1;
      }
    }
  }
}
