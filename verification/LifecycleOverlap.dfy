/** The overlapping run of the shipped code that delivers a newsletter twice to one
    address: a scheduled send is cancelled while its fan-out still runs, the draft is
    claimed again, the old job ends wholly rejected and reverts the new claim, and
    the reverted draft is sent a third time. */
module LifecycleOverlap {
  import opened Wrappers
  import opened Repository
  import opened Lifecycle
  import opened LifecycleRuns
  import opened LifecycleSafety
  import FanOut

  const ADDRESS := "a@x.org"

  const FRESH_JOB := Job(FanOut.Start([ADDRESS], FanOut.DEFAULT_SEND_CONCURRENCY), Running, 0)

  function ReleaseAt(cfg: Config): Time {
    cfg.minLead + cfg.cancelBuffer
  }

  function ArmedClaim(cfg: Config): Claim {
    Claim(1, 2, [ADDRESS], Some(Arming(ReleaseAt(cfg), 1)), 0)
  }

  // A scheduled send is armed and claimed.
  lemma Armed(cfg: Config, content: Content) returns (es: seq<Event>, s: State)
    requires ReleaseAt(cfg) <= cfg.maxHorizon
    ensures RunsTo(Init(cfg), es, s)
    ensures 1 in s.rows && s.rows[1].status == Sending && s.rows[1].groupId == Some(1) && s.rows[1].version == 2
    ensures s.rows[1].batchId == Some(1) && s.rows[1].scheduledAt == Some(ReleaseAt(cfg)) && s.rows[1].sendProvider == SendGrid
    ensures s.now == 0 && s.calls == map[] && s.messages == map[] && s.delivered == {} && s.cfg == cfg
    ensures s.claims == map[1 := ArmedClaim(cfg)] && s.jobs == map[1 := FRESH_JOB]
  {
    var start := Init(cfg);
    es, s := [], start;
    es, s := Then(start, es, s, Editor(Create(1, content, None)));
    es, s := Then(start, es, s, Sender(SendRead(1, 1, 0, SendGrid, true, Some(ReleaseAt(cfg)))));
    es, s := Then(start, es, s, Sender(SendArm(1, 1)));
    es, s := Then(start, es, s, Sender(SendClaim(1, 1, [ADDRESS], 0)));
    assert s.calls == map[];
  }

  // It is cancelled while its job runs.
  lemma CancelledBesideItsJob(cfg: Config, content: Content) returns (es: seq<Event>, s: State)
    requires ReleaseAt(cfg) <= cfg.maxHorizon
    ensures RunsTo(Init(cfg), es, s)
    ensures 1 in s.rows && s.rows[1].status == Draft
    ensures s.calls == map[] && s.messages == map[] && s.delivered == {} && s.cfg == cfg
    ensures s.claims == map[1 := ArmedClaim(cfg)] && s.jobs == map[1 := FRESH_JOB]
  {
    es, s := Armed(cfg, content);
    es, s := Then(Init(cfg), es, s, Canceller(CancelRead(2, 1, 0)));
    es, s := Then(Init(cfg), es, s, Canceller(CancelBatch(2)));
    es, s := Then(Init(cfg), es, s, Canceller(CancelCommit(2)));
    assert s.calls == map[];
  }

  // The old job's only request is rejected.
  lemma OldJobRejected(cfg: Config, es: seq<Event>, s: State) returns (more: seq<Event>, t: State)
    requires RunsTo(Init(cfg), es, s)
    requires 1 in s.jobs && s.jobs[1] == FRESH_JOB && 100 !in s.messages
    ensures RunsTo(Init(cfg), more, t)
    ensures t.cfg == s.cfg && t.rows == s.rows && t.calls == s.calls && t.claims == s.claims && t.delivered == s.delivered
    ensures t.messages == s.messages[100 := Message(1, 0, Refused)]
    ensures RunningJob(t, 1) && FanOut.Done(t.jobs[1].fan) && WhollyRejected(t.jobs[1].fan)
  {
    more, t := DispatchNext(Init(cfg), es, s, 1, 100);
    more, t := Then(Init(cfg), more, t, FanningOut(Report(100, FanOut.Rejected)));
    assert t.messages == s.messages[100 := Message(1, 0, Refused)];
  }

  // Its revert hits the newer claim.
  lemma OldJobRevertsNewClaim(cfg: Config, es: seq<Event>, s: State) returns (more: seq<Event>, t: State)
    requires RunsTo(Init(cfg), es, s) && !s.cfg.revertGated
    requires 1 in s.rows && s.rows[1].status == Sending && s.rows[1].groupId == Some(2)
    requires 1 in s.claims && s.claims[1].id == 1 && s.claims[1].recipients == [ADDRESS]
    requires RunningJob(s, 1) && FanOut.Done(s.jobs[1].fan) && WhollyRejected(s.jobs[1].fan)
    ensures RunsTo(Init(cfg), more, t)
    ensures 1 in t.rows && t.rows[1].status == Draft
    ensures t.calls == s.calls && t.claims == s.claims && t.delivered == s.delivered && t.messages == s.messages
  {
    more, t := Then(Init(cfg), es, s, Settling(Settle(1)));
  }

  /** The shipped code does not deliver at most once in every run. */
  lemma OverlapDeliversTwice(cfg: Config, content: Content) returns (es: seq<Event>)
    requires !cfg.revertGated && ReleaseAt(cfg) <= cfg.maxHorizon
    ensures IsRun(Init(cfg), es) && !AtMostOnce(Run(Init(cfg), es)) && !NonOverlapping(Init(cfg), es)
  {
    var s: State;
    es, s := CancelledBesideItsJob(cfg, content);
    es, s := SendNow(Init(cfg), es, s, 1, 3, 2, ADDRESS, 200);
    es, s := OldJobRejected(cfg, es, s);
    es, s := OldJobRevertsNewClaim(cfg, es, s);
    es, s := SendNow(Init(cfg), es, s, 1, 4, 3, ADDRESS, 300);
    assert 200 in s.delivered && 300 in s.delivered && SameMail(s, 200, 300);
    if NonOverlapping(Init(cfg), es) {
      AtMostOnceDelivery(cfg, es);
    }
  }

  /** A client that guesses the next version rewrites a row being sent: the row is
      claimed between the editor's read and its write, and the update is gated on the
      version and not on the status. */
  lemma GuessedIfMatchRewritesASendingRow(cfg: Config, before: Content, edit: Content) returns (es: seq<Event>)
    ensures IsRun(Init(cfg), es)
    ensures var s := Run(Init(cfg), es);
            1 in s.rows && s.rows[1].status == Sending && s.rows[1].content == edit
  {
    var start, s := Init(cfg), Init(cfg);
    es := [];
    es, s := Then(start, es, s, Editor(Create(1, before, None)));
    es, s := Then(start, es, s, Editor(EditRead(1, 1, 2, edit, None)));
    es, s := ClaimNow(start, es, s, 1, 2, 1, [ADDRESS]);
    es, s := Then(start, es, s, Editor(EditCommit(1)));
  }
}
