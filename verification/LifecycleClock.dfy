/** What the timing clamps buy, over whole runs: the recovery sweep never touches the
    row of a live job, and no message is armed after its release. */
module LifecycleClock {
  import opened Wrappers
  import opened Repository
  import opened Lifecycle
  import opened LifecycleInvariant
  import opened LifecycleMoves
  import opened Timing
  import FanOut

  /** `handoff` bounds the time from one stage of a send to the next, `grace` the time
      dispatches and skips take once the job's context has expired. */
  datatype Limits = Limits(jobTimeout: nat, handoff: nat, grace: nat)

  // A job starts a hand-off after its claim, and its context expires in time.
  predicate ExpiresInTime(s: State, l: Limits, g: GroupId) {
    RunningJob(s, g) && !FanOut.Done(s.jobs[g].fan) && !s.jobs[g].fan.expired ==>
      s.now <= s.jobs[g].milestone + l.handoff + l.jobTimeout
  }

  // Once it has, every recipient gets a verdict soon.
  predicate EndsInTime(s: State, l: Limits, g: GroupId) {
    RunningJob(s, g) && !FanOut.Done(s.jobs[g].fan) && s.jobs[g].fan.expired ==> s.now <= s.jobs[g].milestone + l.grace
  }

  // After the last verdict comes the last write, which has a timeout of its own.
  predicate WritesInTime(s: State, g: GroupId) {
    RunningJob(s, g) && FanOut.Done(s.jobs[g].fan) ==> s.now <= s.jobs[g].milestone + PERSIST_TIMEOUT
  }

  // A call claims its row soon after it armed a schedule.
  predicate CallInTime(s: State, l: Limits, k: CallId) {
    ArmedCall(s.calls, k) ==> s.now <= s.calls[k].since + l.handoff
  }

  ghost predicate InTime(s: State, l: Limits) {
    && (forall g :: ExpiresInTime(s, l, g) && EndsInTime(s, l, g) && WritesInTime(s, g))
    && (forall k :: CallInTime(s, l, k))
  }

  /** A run in which no stage takes longer than its own limit. */
  ghost predicate Timely(s: State, es: seq<Event>, l: Limits)
    requires IsRun(s, es)
    decreases |es|
  {
    InTime(s, l) && (es == [] || Timely(Next(s, es[0]), es[1..], l))
  }

  /* ---- what runs keep ---- */

  // A held row was written no earlier than it was claimed.
  predicate StampedAt(s: State, id: Uuid) {
    id in s.rows && s.rows[id].groupId.Some? && s.rows[id].groupId.value in s.claims ==>
      s.claims[s.rows[id].groupId.value].madeAt <= s.rows[id].updatedAt
  }

  predicate ClaimPast(s: State, g: GroupId) {
    g in s.claims ==> s.claims[g].madeAt <= s.now
  }

  ghost predicate Stamped(s: State) {
    (forall id :: StampedAt(s, id)) && forall g :: ClaimPast(s, g)
  }

  // A row keeps its stamp and its holder, or is stamped now.
  predicate Restamped(s: State, e: Event, id: Uuid)
    requires Enabled(s, e)
  {
    id in Next(s, e).rows ==>
      var q := Next(s, e).rows[id];
      || (id in s.rows && q.updatedAt == s.rows[id].updatedAt && q.groupId == s.rows[id].groupId)
      || q.updatedAt == s.now
  }

  lemma WritesRestamp(s: State, e: Event, id: Uuid)
    requires Core(s) && Enabled(s, e)
    ensures Restamped(s, e, id)
  {
    hide Enabled, Next;
    if id in s.rows {
      RowBefore(s, e, id);
    } else if id in Next(s, e).rows {
      RowCreated(s, e, id);
    }
  }

  lemma ClaimsPersist(s: State, e: Event, g: GroupId)
    requires Enabled(s, e)
    ensures g in s.claims ==> g in Next(s, e).claims && Next(s, e).claims[g] == s.claims[g]
    ensures g in Next(s, e).claims && g !in s.claims ==> Next(s, e).claims[g].madeAt == s.now
    ensures s.now <= Next(s, e).now
  {
  }

  lemma StampedStep(s: State, e: Event)
    requires Core(s) && Stamped(s) && Enabled(s, e)
    ensures Stamped(Next(s, e))
  {
    var t := Next(s, e);
    forall g ensures ClaimPast(t, g) {
      assert ClaimPast(s, g);
      ClaimsPersist(s, e, g);
    }
    forall id ensures StampedAt(t, id) {
      WritesRestamp(s, e, id);
      assert StampedAt(s, id) && RowAt(s.rows, s.used, s.claims, id);
      if id in t.rows && t.rows[id].groupId.Some? {
        ClaimsPersist(s, e, t.rows[id].groupId.value);
        assert ClaimPast(s, t.rows[id].groupId.value);
      }
    }
  }

  // A schedule is armed at least minLead before its release, and claimed a hand-off later.
  predicate CallLeads(s: State, k: CallId) {
    ArmedCall(s.calls, k) ==> s.calls[k].since + s.cfg.minLead <= s.calls[k].arming.value.at
  }

  predicate ClaimLeads(s: State, l: Limits, g: GroupId) {
    g in s.claims && s.claims[g].arming.Some? ==> s.claims[g].madeAt + s.cfg.minLead <= s.claims[g].arming.value.at + l.handoff
  }

  ghost predicate Leads(s: State, l: Limits) {
    (forall k :: CallLeads(s, k)) && forall g :: ClaimLeads(s, l, g)
  }

  lemma ArmLeads(s: State, e: SenderEvent, k: CallId)
    requires SenderEnabled(s, e) && CallLeads(s, k)
    ensures CallLeads(SenderNext(s, e), k)
  {
  }

  lemma ClaimLeadsStep(s: State, e: SenderEvent, l: Limits, g: GroupId)
    requires SenderEnabled(s, e) && ClaimLeads(s, l, g)
    requires forall k :: CallLeads(s, k) && CallInTime(s, l, k)
    ensures ClaimLeads(SenderNext(s, e), l, g)
  {
    if e.SendClaim? {
      assert CallLeads(s, e.call) && CallInTime(s, l, e.call);
    }
  }

  // Only senders arm and claim.
  lemma OthersKeepArmed(s: State, e: Event, k: CallId)
    requires Enabled(s, e) && !e.Sender? && ArmedCall(Next(s, e).calls, k)
    ensures ArmedCall(s.calls, k) && Next(s, e).calls[k] == s.calls[k]
  {
  }

  lemma OthersKeepClaims(s: State, e: Event)
    requires Enabled(s, e) && !e.Sender?
    ensures Next(s, e).claims == s.claims
  {
    hide EditorNext, FanOutNext, SettleNext, CancelNext, SweptRows;
  }

  lemma LeadsStep(s: State, e: Event, l: Limits)
    requires Leads(s, l) && Enabled(s, e) && forall k :: CallInTime(s, l, k)
    ensures Leads(Next(s, e), l)
  {
    var t := Next(s, e);
    if e.Sender? {
      forall k ensures CallLeads(t, k) {
        ArmLeads(s, e.se, k);
      }
      forall g ensures ClaimLeads(t, l, g) {
        ClaimLeadsStep(s, e.se, l, g);
      }
    } else {
      hide Next;
      OthersKeepClaims(s, e);
      forall k ensures CallLeads(t, k) {
        assert CallLeads(s, k);
        if ArmedCall(t.calls, k) {
          OthersKeepArmed(s, e, k);
        }
      }
      forall g ensures ClaimLeads(t, l, g) {
        assert ClaimLeads(s, l, g);
      }
    }
  }

  /* ---- how long a job can take ---- */

  // From its claim to its last write.
  function Life(l: Limits): int {
    l.handoff + l.jobTimeout + l.grace + PERSIST_TIMEOUT
  }

  // No milestone of a job is later than the stages before it allow.
  predicate OnSchedule(s: State, l: Limits, g: GroupId) {
    g in s.jobs && g in s.claims ==>
      var j, made := s.jobs[g], s.claims[g].madeAt;
      if FanOut.Done(j.fan) then j.milestone <= made + l.handoff + l.jobTimeout + l.grace
      else if j.fan.expired then j.milestone <= made + l.handoff + l.jobTimeout
      else j.milestone <= made
  }

  ghost predicate AllOnSchedule(s: State, l: Limits) {
    forall g :: OnSchedule(s, l, g)
  }

  lemma FanOutOnSchedule(s: State, e: FanOutEvent, l: Limits, g: GroupId)
    requires Core(s) && FanOutEnabled(s, e) && OnSchedule(s, l, g)
    requires ExpiresInTime(s, l, g) && EndsInTime(s, l, g)
    ensures OnSchedule(FanOutNext(s, e), l, g)
  {
    assert JobAt(s.jobs, s.claims, g);
  }

  lemma SenderOnSchedule(s: State, e: SenderEvent, l: Limits, g: GroupId)
    requires Core(s) && SenderEnabled(s, e) && OnSchedule(s, l, g)
    ensures OnSchedule(SenderNext(s, e), l, g)
  {
    assert JobAt(s.jobs, s.claims, g);
  }

  // No other event touches a job's fan-out or its milestone.
  lemma OthersKeepJobs(s: State, e: Event, g: GroupId)
    requires Core(s) && Enabled(s, e) && !e.Sender? && !e.FanningOut? && g in Next(s, e).jobs
    ensures g in s.jobs && Next(s, e).jobs[g].fan == s.jobs[g].fan && Next(s, e).jobs[g].milestone == s.jobs[g].milestone
  {
    hide EditorNext, SettleNext, CancelNext, SweptRows;
    if e.Settling? {
      SettleLeaves(s, e.te, g);
    }
  }

  lemma ScheduleStep(s: State, e: Event, l: Limits)
    requires Core(s) && AllOnSchedule(s, l) && Enabled(s, e) && InTime(s, l)
    ensures AllOnSchedule(Next(s, e), l)
  {
    var t := Next(s, e);
    forall g ensures OnSchedule(t, l, g) {
      assert OnSchedule(s, l, g) && ExpiresInTime(s, l, g);
      if e.FanningOut? {
        FanOutOnSchedule(s, e.fe, l, g);
      } else if e.Sender? {
        SenderOnSchedule(s, e.se, l, g);
      } else if g in t.jobs {
        OthersKeepJobs(s, e, g);
        OthersKeepClaims(s, e);
      }
    }
  }

  lemma {:induction false} TimelyRun(s: State, es: seq<Event>, l: Limits)
    requires Core(s) && Stamped(s) && Leads(s, l) && AllOnSchedule(s, l) && IsRun(s, es) && Timely(s, es, l)
    ensures var t := Run(s, es);
            t.cfg == s.cfg && Core(t) && Stamped(t) && Leads(t, l) && AllOnSchedule(t, l) && InTime(t, l)
    decreases |es|
  {
    if es != [] {
      StepKeeps(s, es[0]);
      StampedStep(s, es[0]);
      LeadsStep(s, es[0], l);
      ScheduleStep(s, es[0], l);
      TimelyRun(Next(s, es[0]), es[1..], l);
    }
  }

  /** In every timely run a job makes its last write within the life its stages add up
      to: while it runs, that much time has not passed since its claim. */
  lemma JobLife(cfg: Config, es: seq<Event>, l: Limits, g: GroupId)
    requires IsRun(Init(cfg), es) && Timely(Init(cfg), es, l) && RunningJob(Run(Init(cfg), es), g)
    ensures var s := Run(Init(cfg), es);
            g in s.claims && s.now <= s.claims[g].madeAt + Life(l)
  {
    InitCore(cfg);
    TimelyRun(Init(cfg), es, l);
    var s := Run(Init(cfg), es);
    assert JobAt(s.jobs, s.claims, g) && OnSchedule(s, l, g);
    assert ExpiresInTime(s, l, g) && EndsInTime(s, l, g) && WritesInTime(s, g);
  }

  /** When the sweep stays five minutes behind the job, no sweep of any timely run
      touches the row a live job holds. */
  lemma SweepSparesLiveJob(cfg: Config, es: seq<Event>, l: Limits, ttl: int, cutoff: Time, g: GroupId)
    requires IsRun(Init(cfg), es) && Timely(Init(cfg), es, l)
    requires ttl >= l.jobTimeout + MIN_STUCK_SEND_SLACK
    requires l.handoff + l.grace + PERSIST_TIMEOUT <= MIN_STUCK_SEND_SLACK
    requires var s := Run(Init(cfg), es);
             && cutoff <= s.now - ttl
             && RunningJob(s, g) && g in s.claims
             && s.claims[g].id in s.rows && s.rows[s.claims[g].id].groupId == Some(g)
    ensures var s := Run(Init(cfg), es);
            var id := s.claims[g].id;
            SweptRows(s, SweepUnarmed(cutoff))[id] == s.rows[id] && SweptRows(s, SweepArmed(cutoff))[id] == s.rows[id]
  {
    JobLife(cfg, es, l, g);
    InitCore(cfg);
    TimelyRun(Init(cfg), es, l);
    var s := Run(Init(cfg), es);
    assert StampedAt(s, s.claims[g].id);
  }

  /** Whenever an arming call of a scheduled send ends in a timely run, its release is
      still to come. */
  lemma ArmedBeforeRelease(cfg: Config, es: seq<Event>, l: Limits, m: MessageId, outcome: FanOut.Outcome)
    requires IsRun(Init(cfg), es) && Timely(Init(cfg), es, l)
    requires cfg.minLead >= l.jobTimeout + MIN_LEAD_SAFETY_MARGIN
    requires 2 * l.handoff + l.grace <= MIN_LEAD_SAFETY_MARGIN
    requires FanOutEnabled(Run(Init(cfg), es), Report(m, outcome))
    ensures var s := Run(Init(cfg), es);
            var g := s.messages[m].group;
            g in s.claims && (s.claims[g].arming.Some? ==> s.now <= s.claims[g].arming.value.at)
  {
    InitCore(cfg);
    TimelyRun(Init(cfg), es, l);
    var s := Run(Init(cfg), es);
    var g := s.messages[m].group;
    assert JobAt(s.jobs, s.claims, g) && OnSchedule(s, l, g) && ClaimLeads(s, l, g);
    assert ExpiresInTime(s, l, g) && EndsInTime(s, l, g);
  }
}
