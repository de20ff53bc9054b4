/** The send lifecycle as a state machine: the newsletters table, the service calls
    in flight on any number of replicas, the detached send jobs, and the mail
    provider. Each repository statement is one atomic event; everything else a
    call does happens between events, so a run is any interleaving of calls, jobs,
    sweeps, crashes and provider actions. */
module Lifecycle {
  import opened Wrappers
  import opened Repository
  import FanOut

  type Email = FanOut.Email
  type MessageId = nat
  type CallId = nat

  datatype Config = Config(
    revertGated: bool,     // false is the shipped code; true also gates RevertSending on the claimed version
    minLead: nat,
    maxHorizon: nat,
    cancelBuffer: nat)

  /** One successful MarkSending, keyed by the group id it minted, and when it was made. */
  datatype Claim = Claim(id: Uuid, version: int, recipients: seq<Email>, arming: Option<Arming>, madeAt: Time)

  datatype Phase = Running | CleaningUp

  /** `milestone` is when the job was made, then when its context expired, then when its
      last recipient got a verdict. */
  datatype Job = Job(fan: FanOut.Fan, phase: Phase, milestone: Time)

  // InNetwork: the provider may still accept it. Refused: it never will.
  datatype Fate = InNetwork | Taken | Refused

  datatype Message = Message(group: GroupId, slot: nat, fate: Fate)

  /** A service call between two of its database or provider steps. A send in
      preparation remembers when it took its last step. */
  datatype Call =
    | Editing(id: Uuid, snapshot: Row, ifMatch: int, content: Content, scheduledAt: Option<Time>)
    | Deleting(id: Uuid)
    | Preparing(id: Uuid, version: int, provider: Provider, release: Option<Time>, arming: Option<Arming>, since: Time)
    | Cancelling(id: Uuid, group: GroupId, batch: BatchId, provider: Provider)
    | Reverting(id: Uuid, group: GroupId, batch: BatchId)

  datatype State = State(
    cfg: Config,
    now: Time,
    rows: Table,
    used: set<Uuid>,
    minted: set<BatchId>,
    cancelled: set<BatchId>,
    claims: map<GroupId, Claim>,
    jobs: map<GroupId, Job>,
    calls: map<CallId, Call>,
    messages: map<MessageId, Message>,
    delivered: set<MessageId>)

  /** Create, UpdateDraft and DeleteDraft: read the row, then one guarded write. An
      update that gives up because it saw the row armed is a CallCrash. */
  datatype EditorEvent =
    | Create(id: Uuid, content: Content, scheduledAt: Option<Time>)
    | EditRead(call: CallId, id: Uuid, ifMatch: int, content: Content, scheduledAt: Option<Time>)
    | EditCommit(call: CallId)
    | DeleteRead(call: CallId, id: Uuid)
    | DeleteCommit(call: CallId)

  /** SendNewsletter: read the draft, mint a batch when scheduling, claim the row. */
  datatype SenderEvent =
    | SendRead(call: CallId, id: Uuid, ifMatch: int, provider: Provider, schedule: bool, releaseAt: Option<Time>)
    | SendArm(call: CallId, batch: BatchId)
    | SendClaim(call: CallId, group: GroupId, recipients: seq<Email>, concurrency: int)

  /** runSendJob while it fans out, and the provider's side of each request. */
  datatype FanOutEvent =
    | FanOutOff(group: GroupId)
    | Expire(group: GroupId)
    | Skip(group: GroupId)
    | Dispatch(group: GroupId, message: MessageId)
    | ProviderAccept(message: MessageId)
    | Report(message: MessageId, outcome: FanOut.Outcome)

  /** runSendJob's terminal write, its clean-up, and its death. */
  datatype SettleEvent =
    | Settle(group: GroupId)
    | CleanUp(group: GroupId)
    | JobCrash(group: GroupId)

  /** CancelScheduled: read, cancel at the provider, then revert the row. */
  datatype CancelEvent =
    | CancelRead(call: CallId, id: Uuid, ifMatch: int)
    | CancelBatch(call: CallId)
    | CancelCommit(call: CallId)
    | CallCrash(call: CallId)

  datatype SweepEvent =
    | SweepUnarmed(cutoff: Time)
    | SweepArmed(cutoff: Time)
    | SweepDue(at: Time)

  datatype Event =
    | Tick(elapsed: nat)
    | Editor(ed: EditorEvent)
    | Sender(se: SenderEvent)
    | FanningOut(fe: FanOutEvent)
    | Settling(te: SettleEvent)
    | Canceller(ce: CancelEvent)
    | Sweeper(sw: SweepEvent)
    | Deliver(message: MessageId)

  function Init(cfg: Config): State {
    State(cfg, 0, map[], {}, {}, {}, map[], map[], map[], map[], {})
  }

  predicate Distinct(recipients: seq<Email>) {
    forall i, j :: 0 <= i < j < |recipients| ==> recipients[i] != recipients[j]
  }

  function BatchOf(c: Claim): Option<BatchId> {
    if c.arming.Some? then Some(c.arming.value.batch) else None
  }

  predicate VersionAsked(r: Row, ifMatch: int) {
    ifMatch == 0 || r.version == ifMatch
  }

  // The provider confirms a cancellation only while it still holds the batch.
  predicate StillHeld(s: State, batch: BatchId) {
    forall m :: m in s.delivered && m in s.messages && s.messages[m].group in s.claims ==>
                  BatchOf(s.claims[s.messages[m].group]) != Some(batch)
  }

  function Gate(s: State, c: Claim): Option<int> {
    if s.cfg.revertGated then Some(c.version) else None
  }

  // runSendJob's first branch: nothing accepted and nothing ambiguous.
  predicate WhollyRejected(f: FanOut.Fan) {
    f.sent == 0 && f.unknown == 0
  }

  predicate EditorEnabled(s: State, e: EditorEvent) {
    match e
    case Create(id, _, _) => id !in s.used
    case EditRead(call, id, _, _, _) => call !in s.calls && id in s.rows && s.rows[id].status == Draft
    case EditCommit(call) => call in s.calls && s.calls[call].Editing?
    case DeleteRead(call, id) => call !in s.calls && id in s.rows && s.rows[id].status == Draft
    case DeleteCommit(call) => call in s.calls && s.calls[call].Deleting?
  }

  function EditorNext(s: State, e: EditorEvent): (t: State)
    requires EditorEnabled(s, e)
    ensures t.cfg == s.cfg && t.claims == s.claims && t.jobs == s.jobs
    ensures t.messages == s.messages && t.cancelled == s.cancelled
  {
    match e
    case Create(id, content, scheduledAt) =>
      s.(rows := s.rows[id := NewRow(content, scheduledAt, s.now)], used := s.used + {id})
    case EditRead(call, id, ifMatch, content, scheduledAt) =>
      s.(calls := s.calls[call := Editing(id, s.rows[id], ifMatch, content, scheduledAt)])
    case EditCommit(call) =>
      var c := s.calls[call];
      s.(calls := s.calls - {call}, rows := Update(s.rows, c.id, c.ifMatch, c.content, c.scheduledAt, s.now))
    case DeleteRead(call, id) => s.(calls := s.calls[call := Deleting(id)])
    case DeleteCommit(call) => s.(calls := s.calls - {call}, rows := Delete(s.rows, s.calls[call].id))
  }

  predicate SenderEnabled(s: State, e: SenderEvent) {
    match e
    case SendRead(call, id, ifMatch, provider, schedule, releaseAt) =>
      && call !in s.calls && id in s.rows && s.rows[id].status == Draft && VersionAsked(s.rows[id], ifMatch)
      && (schedule ==> provider == SendGrid && (releaseAt.Some? || s.rows[id].scheduledAt.Some?))
    case SendArm(call, batch) =>
      && call in s.calls && s.calls[call].Preparing? && s.calls[call].release.Some? && s.calls[call].arming.None?
      && s.now + s.cfg.minLead <= s.calls[call].release.value <= s.now + s.cfg.maxHorizon
      && batch !in s.minted
    case SendClaim(call, group, recipients, _) =>
      && call in s.calls && s.calls[call].Preparing? && (s.calls[call].release.Some? ==> s.calls[call].arming.Some?)
      && group !in s.claims && Distinct(recipients)
  }

  function SenderNext(s: State, e: SenderEvent): (t: State)
    requires SenderEnabled(s, e)
    ensures t.cfg == s.cfg && s.claims.Keys <= t.claims.Keys
    ensures t.messages == s.messages && t.cancelled == s.cancelled
  {
    match e
    case SendRead(call, id, _, provider, schedule, releaseAt) =>
      var release := if !schedule then None else if releaseAt.Some? then releaseAt else s.rows[id].scheduledAt;
      s.(calls := s.calls[call := Preparing(id, s.rows[id].version, provider, release, None, s.now)])
    case SendArm(call, batch) =>
      s.(calls := s.calls[call := s.calls[call].(arming := Some(Arming(s.calls[call].release.value, batch)), since := s.now)],
         minted := s.minted + {batch})
    case SendClaim(call, group, recipients, concurrency) =>
      var c := s.calls[call];
      var ended := s.(calls := s.calls - {call});
      if CanClaim(s.rows, c.id, c.version) then
        ended.(
          rows := MarkSending(s.rows, c.id, group, c.provider, |recipients|, c.version, c.arming, s.now),
          claims := s.claims[group := Claim(c.id, c.version + 1, recipients, c.arming, s.now)],
          jobs := s.jobs[group := Job(FanOut.Start(recipients, FanOut.Workers(concurrency)), Running, s.now)])
      else
        ended
  }

  predicate RunningJob(s: State, g: GroupId) {
    g in s.jobs && s.jobs[g].phase == Running
  }

  predicate FanOutEnabled(s: State, e: FanOutEvent) {
    match e
    case FanOutOff(g) => RunningJob(s, g) && s.jobs[g].fan == FanOut.Start(s.jobs[g].fan.recipients, s.jobs[g].fan.concurrency)
    case Expire(g) => RunningJob(s, g)
    case Skip(g) => RunningJob(s, g) && FanOut.Enabled(s.jobs[g].fan, FanOut.Skip)
    case Dispatch(g, m) => RunningJob(s, g) && FanOut.Enabled(s.jobs[g].fan, FanOut.Dispatch) && m !in s.messages
    case ProviderAccept(m) => m in s.messages && s.messages[m].fate == InNetwork
    case Report(m, outcome) =>
      && m in s.messages && RunningJob(s, s.messages[m].group)
      && FanOut.Enabled(s.jobs[s.messages[m].group].fan, FanOut.Finish(s.messages[m].slot, outcome))
      && (outcome == FanOut.Accepted ==> s.messages[m].fate == Taken)
      && (outcome == FanOut.Rejected ==> s.messages[m].fate == InNetwork)
  }

  // The fan-out has just expired, or ended.
  predicate IsMilestone(before: FanOut.Fan, after: FanOut.Fan) {
    !FanOut.Done(before) && (FanOut.Done(after) || (after.expired && !before.expired))
  }

  function WithFan(jobs: map<GroupId, Job>, g: GroupId, f: FanOut.Fan, now: Time): map<GroupId, Job>
    requires g in jobs
  {
    jobs[g := Job(f, jobs[g].phase, if IsMilestone(jobs[g].fan, f) then now else jobs[g].milestone)]
  }

  function FanOutNext(s: State, e: FanOutEvent): (t: State)
    requires FanOutEnabled(s, e)
    ensures t.cfg == s.cfg && t.rows == s.rows && t.claims == s.claims && t.jobs.Keys == s.jobs.Keys
  {
    match e
    case FanOutOff(g) =>
      s.(jobs := WithFan(s.jobs, g, FanOut.Disabled(s.jobs[g].fan.recipients, s.jobs[g].fan.concurrency), s.now))
    case Expire(g) => s.(jobs := WithFan(s.jobs, g, FanOut.Next(s.jobs[g].fan, FanOut.Expire), s.now))
    case Skip(g) => s.(jobs := WithFan(s.jobs, g, FanOut.Next(s.jobs[g].fan, FanOut.Skip), s.now))
    case Dispatch(g, m) =>
      s.(jobs := WithFan(s.jobs, g, FanOut.Next(s.jobs[g].fan, FanOut.Dispatch), s.now),
         messages := s.messages[m := Message(g, s.jobs[g].fan.next, InNetwork)])
    case ProviderAccept(m) => s.(messages := s.messages[m := s.messages[m].(fate := Taken)])
    case Report(m, outcome) =>
      var msg := s.messages[m];
      s.(jobs := WithFan(s.jobs, msg.group, FanOut.Next(s.jobs[msg.group].fan, FanOut.Finish(msg.slot, outcome)), s.now),
         messages := if outcome == FanOut.Rejected then s.messages[m := msg.(fate := Refused)] else s.messages)
  }

  predicate SettleEnabled(s: State, e: SettleEvent) {
    match e
    case Settle(g) => RunningJob(s, g) && g in s.claims && FanOut.Done(s.jobs[g].fan)
    case CleanUp(g) =>
      && g in s.jobs && g in s.claims && s.jobs[g].phase == CleaningUp && s.claims[g].arming.Some?
      && StillHeld(s, s.claims[g].arming.value.batch)
    case JobCrash(g) => g in s.jobs
  }

  predicate RevertsRow(s: State, g: GroupId)
    requires RunningJob(s, g) && g in s.claims
  {
    && s.claims[g].recipients != [] && WhollyRejected(s.jobs[g].fan)
    && CanRevertSending(s.rows, s.claims[g].id, Gate(s, s.claims[g]))
  }

  // The terminal write of a send: a zero-recipient send is settled sent, a wholly
  // rejected one is reverted, and an armed one becomes scheduled.
  function SettledRows(s: State, g: GroupId): Table
    requires RunningJob(s, g) && g in s.claims
  {
    var c := s.claims[g];
    if c.recipients == [] then MarkSent(s.rows, c.id, s.now, c.version, s.now)
    else if WhollyRejected(s.jobs[g].fan) then RevertSending(s.rows, c.id, Gate(s, c), s.now)
    else if c.arming.Some? then MarkScheduled(s.rows, c.id, c.version, s.now)
    else MarkSent(s.rows, c.id, s.now, c.version, s.now)
  }

  function SettleNext(s: State, e: SettleEvent): (t: State)
    requires SettleEnabled(s, e)
    ensures t.cfg == s.cfg && t.claims == s.claims && t.jobs.Keys <= s.jobs.Keys
    ensures t.messages == s.messages && s.cancelled <= t.cancelled
  {
    match e
    case Settle(g) =>
      s.(rows := SettledRows(s, g),
         jobs := if RevertsRow(s, g) && s.claims[g].arming.Some?
                 then s.jobs[g := s.jobs[g].(phase := CleaningUp)] else s.jobs - {g})
    case CleanUp(g) => s.(jobs := s.jobs - {g}, cancelled := s.cancelled + {s.claims[g].arming.value.batch})
    case JobCrash(g) => s.(jobs := s.jobs - {g})
  }

  predicate CancelEnabled(s: State, e: CancelEvent) {
    match e
    case CancelRead(call, id, ifMatch) =>
      && call !in s.calls && id in s.rows && s.rows[id].status in {Scheduled, Sending}
      && s.rows[id].batchId.Some? && s.rows[id].groupId.Some? && VersionAsked(s.rows[id], ifMatch)
      && (s.rows[id].scheduledAt.Some? ==> s.now <= s.rows[id].scheduledAt.value - s.cfg.cancelBuffer)
    case CancelBatch(call) =>
      && call in s.calls && s.calls[call].Cancelling? && s.calls[call].provider == SendGrid
      && StillHeld(s, s.calls[call].batch)
    case CancelCommit(call) => call in s.calls && s.calls[call].Reverting?
    case CallCrash(call) => call in s.calls
  }

  function CancelNext(s: State, e: CancelEvent): (t: State)
    requires CancelEnabled(s, e)
    ensures t.cfg == s.cfg && t.claims == s.claims && t.jobs == s.jobs
    ensures t.messages == s.messages && s.cancelled <= t.cancelled
  {
    match e
    case CancelRead(call, id, _) =>
      var r := s.rows[id];
      s.(calls := s.calls[call := Cancelling(id, r.groupId.value, r.batchId.value, r.sendProvider)])
    case CancelBatch(call) =>
      var c := s.calls[call];
      s.(calls := s.calls[call := Reverting(c.id, c.group, c.batch)], cancelled := s.cancelled + {c.batch})
    case CancelCommit(call) =>
      var c := s.calls[call];
      s.(calls := s.calls - {call}, rows := RevertScheduled(s.rows, c.id, Some(c.batch), s.now))
    case CallCrash(call) => s.(calls := s.calls - {call})
  }

  predicate SweepEnabled(s: State, e: SweepEvent) {
    match e
    case SweepUnarmed(cutoff) => cutoff <= s.now
    case SweepArmed(cutoff) => cutoff <= s.now
    case SweepDue(at) => at <= s.now
  }

  function SweptRows(s: State, e: SweepEvent): Table {
    match e
    case SweepUnarmed(cutoff) => RecoverStuckUnarmed(s.rows, cutoff, s.now)
    case SweepArmed(cutoff) => RecoverStuckArmed(s.rows, cutoff, s.now)
    case SweepDue(at) => SettleDue(s.rows, at, s.now)
  }

  // An accepted message goes out once: at once, or when its batch is released.
  predicate Deliverable(s: State, m: MessageId) {
    && m in s.messages && s.messages[m].fate == Taken && m !in s.delivered && s.messages[m].group in s.claims
    && var a := s.claims[s.messages[m].group].arming;
       (a.Some? ==> a.value.batch !in s.cancelled && a.value.at <= s.now)
  }

  predicate Enabled(s: State, e: Event) {
    match e
    case Tick(_) => true
    case Editor(ed) => EditorEnabled(s, ed)
    case Sender(se) => SenderEnabled(s, se)
    case FanningOut(fe) => FanOutEnabled(s, fe)
    case Settling(te) => SettleEnabled(s, te)
    case Canceller(ce) => CancelEnabled(s, ce)
    case Sweeper(sw) => SweepEnabled(s, sw)
    case Deliver(m) => Deliverable(s, m)
  }

  function Next(s: State, e: Event): (t: State)
    requires Enabled(s, e)
    ensures t.cfg == s.cfg
  {
    match e
    case Tick(elapsed) => s.(now := s.now + elapsed)
    case Editor(ed) => EditorNext(s, ed)
    case Sender(se) => SenderNext(s, se)
    case FanningOut(fe) => FanOutNext(s, fe)
    case Settling(te) => SettleNext(s, te)
    case Canceller(ce) => CancelNext(s, ce)
    case Sweeper(sw) => s.(rows := SweptRows(s, sw))
    case Deliver(m) => s.(delivered := s.delivered + {m})
  }

  /* ---- runs ---- */

  predicate IsRun(s: State, es: seq<Event>)
    decreases |es|
  {
    es == [] || (Enabled(s, es[0]) && IsRun(Next(s, es[0]), es[1..]))
  }

  function Run(s: State, es: seq<Event>): State
    requires IsRun(s, es)
    decreases |es|
  {
    if es == [] then s else Run(Next(s, es[0]), es[1..])
  }

  /* ---- the overlap the shipped code does not exclude ---- */

  /** A job whose every recipient was rejected reverts a row that some other claim
      holds in 'sending': the statement is gated on the status alone. */
  predicate StaleRevert(s: State, e: Event) {
    && e.Settling? && e.te.Settle? && RunningJob(s, e.te.group) && e.te.group in s.claims
    && RevertsRow(s, e.te.group)
    && s.rows[s.claims[e.te.group].id].groupId != Some(e.te.group)
  }

  predicate NonOverlapping(s: State, es: seq<Event>)
    requires IsRun(s, es)
    decreases |es|
  {
    es == [] || (!StaleRevert(s, es[0]) && NonOverlapping(Next(s, es[0]), es[1..]))
  }
}
