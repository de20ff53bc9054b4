/** What became of what callers asked for: the release time, the provider and the
    recipients of a send, the content of an edit, the batch of a cancel. A run is read
    as a sequence of events; a call is followed from the event that began it to the one
    that committed it. */
module LifecycleRequests {
  import opened Wrappers
  import opened Repository
  import opened Lifecycle
  import opened LifecycleInvariant
  import opened LifecycleMoves
  import opened LifecycleRuns
  import FanOut

  /* ---- following a call ---- */

  // The events that advance or end a call.
  predicate Touches(e: Event, call: CallId) {
    || e == Editor(EditCommit(call)) || e == Editor(DeleteCommit(call))
    || (e.Sender? && e.se.SendArm? && e.se.call == call) || (e.Sender? && e.se.SendClaim? && e.se.call == call)
    || e == Canceller(CancelBatch(call)) || e == Canceller(CancelCommit(call)) || e == Canceller(CallCrash(call))
  }

  lemma EditorLeavesCall(s: State, e: EditorEvent, call: CallId)
    requires EditorEnabled(s, e) && call in s.calls && !Touches(Editor(e), call)
    ensures call in EditorNext(s, e).calls && EditorNext(s, e).calls[call] == s.calls[call]
  {
  }

  lemma SenderLeavesCall(s: State, e: SenderEvent, call: CallId)
    requires SenderEnabled(s, e) && call in s.calls && !Touches(Sender(e), call)
    ensures call in SenderNext(s, e).calls && SenderNext(s, e).calls[call] == s.calls[call]
  {
  }

  lemma CancelLeavesCall(s: State, e: CancelEvent, call: CallId)
    requires CancelEnabled(s, e) && call in s.calls && !Touches(Canceller(e), call)
    ensures call in CancelNext(s, e).calls && CancelNext(s, e).calls[call] == s.calls[call]
  {
  }

  lemma JobsLeaveCalls(s: State, e: Event)
    requires Enabled(s, e) && (e.FanningOut? || e.Settling?)
    ensures Next(s, e).calls == s.calls && Next(s, e).claims == s.claims && Next(s, e).now == s.now
  {
  }

  /** Nobody else's event changes a call. */
  lemma CallKept(s: State, e: Event, call: CallId)
    requires Enabled(s, e) && call in s.calls && !Touches(e, call)
    ensures call in Next(s, e).calls && Next(s, e).calls[call] == s.calls[call]
  {
    hide EditorNext, SenderNext, CancelNext, FanOutNext, SettleNext, SweptRows;
    match e {
      case Editor(ed) => EditorLeavesCall(s, ed, call);
      case Sender(se) => SenderLeavesCall(s, se, call);
      case Canceller(ce) => CancelLeavesCall(s, ce, call);
      case FanningOut(_) => JobsLeaveCalls(s, e);
      case Settling(_) => JobsLeaveCalls(s, e);
      case _ =>
    }
  }

  // The call is neither committed nor cut off in this stretch.
  predicate Goes(es: seq<Event>, call: CallId) {
    forall k :: 0 <= k < |es| ==> es[k] != Canceller(CallCrash(call))
                                  && !(es[k].Sender? && es[k].se.SendClaim? && es[k].se.call == call)
                                  && es[k] != Editor(EditCommit(call))
  }

  /* ---- a send on its way ---- */

  // It still is the send that read this version, with what was asked for; if it has
  // armed, it armed that release.
  predicate OnItsWay(s: State, call: CallId, id: Uuid, version: int, provider: Provider, release: Option<Time>) {
    && call in s.calls && s.calls[call].Preparing?
    && var c := s.calls[call];
       && c.id == id && c.version == version && c.provider == provider && c.release == release
       && (c.arming.Some? ==> release == Some(c.arming.value.at))
  }

  lemma StaysOnItsWay(s: State, e: Event, call: CallId, id: Uuid, version: int, provider: Provider, release: Option<Time>)
    requires Enabled(s, e) && OnItsWay(s, call, id, version, provider, release) && Goes([e], call)
    ensures OnItsWay(Next(s, e), call, id, version, provider, release)
  {
    assert [e][0] == e;
    if !Touches(e, call) {
      CallKept(s, e, call);
    }
  }

  lemma {:induction false} ComesThrough(s: State, es: seq<Event>, call: CallId, id: Uuid, version: int,
                                        provider: Provider, release: Option<Time>)
    requires IsRun(s, es) && OnItsWay(s, call, id, version, provider, release) && Goes(es, call)
    ensures OnItsWay(Run(s, es), call, id, version, provider, release)
    decreases |es|
  {
    if es != [] {
      StaysOnItsWay(s, es[0], call, id, version, provider, release);
      ComesThrough(Next(s, es[0]), es[1..], call, id, version, provider, release);
    }
  }

  // A row seen again at the same version is unchanged.
  lemma {:induction false} SameVersionSameRow(s: State, es: seq<Event>, id: Uuid)
    requires Core(s) && IsRun(s, es) && id in s.used
    ensures id in Run(s, es).rows ==>
              id in s.rows && (Run(s, es).rows[id] == s.rows[id] || s.rows[id].version < Run(s, es).rows[id].version)
    decreases |es|
  {
    if es != [] {
      hide Enabled, Next;
      StepKeeps(s, es[0]);
      UsedGrows(s, es[0]);
      SameVersionSameRow(Next(s, es[0]), es[1..], id);
      if id in s.rows {
        RowBefore(s, es[0], id);
      } else if id in Next(s, es[0]).rows {
        RowCreated(s, es[0], id);
      }
    }
  }

  lemma UsedGrows(s: State, e: Event)
    requires Enabled(s, e)
    ensures s.used <= Next(s, e).used
  {
  }

  /** What a claim and the row it takes hold, of what its caller asked for. */
  predicate ClaimedAsAsked(r: Row, q: Row, c: Claim, recipients: seq<Email>, provider: Provider, schedule: bool,
                           releaseAt: Option<Time>) {
    && c.version == r.version + 1 && c.recipients == recipients
    && q.sendProvider == provider && q.totalRecipients == |recipients| && q.content == r.content
    && (!schedule ==> c.arming.None? && q.scheduledAt == r.scheduledAt && q.batchId == r.batchId)
    && (schedule ==> c.arming.Some? && q.batchId == Some(c.arming.value.batch) && q.scheduledAt == Some(c.arming.value.at))
    && (schedule && releaseAt.Some? ==> c.arming.value.at == releaseAt.value)
    && (schedule && releaseAt.None? ==> r.scheduledAt == Some(c.arming.value.at))
  }

  lemma ReadsWhatWasAsked(s: State, call: CallId, id: Uuid, ifMatch: int, provider: Provider, schedule: bool,
                          releaseAt: Option<Time>)
    requires var e := SendRead(call, id, ifMatch, provider, schedule, releaseAt); SenderEnabled(s, e)
    ensures var t := SenderNext(s, SendRead(call, id, ifMatch, provider, schedule, releaseAt));
            && id in s.rows && s.rows[id].status == Draft && (ifMatch == 0 || s.rows[id].version == ifMatch)
            && t.rows == s.rows
            && OnItsWay(t, call, id, s.rows[id].version, provider,
                        if !schedule then None else if releaseAt.Some? then releaseAt else s.rows[id].scheduledAt)
            && (schedule ==> provider == SendGrid && (releaseAt.Some? || s.rows[id].scheduledAt.Some?))
  {
  }

  lemma ClaimsWhatWasAsked(s: State, call: CallId, g: GroupId, recipients: seq<Email>, concurrency: int, id: Uuid,
                           version: int, provider: Provider, release: Option<Time>)
    requires var e := SendClaim(call, g, recipients, concurrency);
             SenderEnabled(s, e) && OnItsWay(s, call, id, version, provider, release) && g in SenderNext(s, e).claims
    ensures var t := SenderNext(s, SendClaim(call, g, recipients, concurrency));
            && id in s.rows && s.rows[id].version == version && s.rows[id].status == Draft
            && id in t.rows && t.rows[id].status == Sending && t.rows[id].groupId == Some(g)
            && t.claims[g].id == id && t.claims[g].madeAt == s.now
            && ClaimedAsAsked(s.rows[id], t.rows[id], t.claims[g], recipients, provider, release.Some?, release)
            && g in t.jobs && t.jobs[g].fan.recipients == recipients
            && (concurrency > 0 ==> t.jobs[g].fan.concurrency == concurrency)
  {
  }

  /** A claim holds exactly what the send that made it asked for: the release time asked
      for, or the one saved on the draft if none was; no schedule if none was wanted; the
      provider and the recipients. The draft it took is the one it read. */
  lemma SendDoesWhatWasAsked(cfg: Config, es: seq<Event>, i: nat, j: nat, call: CallId, id: Uuid, ifMatch: int,
                             provider: Provider, schedule: bool, releaseAt: Option<Time>, g: GroupId,
                             recipients: seq<Email>, concurrency: int)
    requires IsRun(Init(cfg), es) && i < j < |es| && Goes(es[i + 1..j], call)
    requires es[i] == Sender(SendRead(call, id, ifMatch, provider, schedule, releaseAt))
    requires es[j] == Sender(SendClaim(call, g, recipients, concurrency))
    requires IsRun(Init(cfg), es[..j + 1]) && g in Run(Init(cfg), es[..j + 1]).claims
    ensures IsRun(Init(cfg), es[..i]) && IsRun(Init(cfg), es[..j])
    ensures var read, before, after := Run(Init(cfg), es[..i]), Run(Init(cfg), es[..j]), Run(Init(cfg), es[..j + 1]);
            && id in read.rows && id in before.rows && before.rows[id] == read.rows[id] && read.rows[id].status == Draft
            && (ifMatch == 0 || read.rows[id].version == ifMatch)
            && id in after.rows && after.rows[id].status == Sending && after.rows[id].groupId == Some(g)
            && after.claims[g].id == id
            && ClaimedAsAsked(read.rows[id], after.rows[id], after.claims[g], recipients, provider, schedule, releaseAt)
            && g in after.jobs && after.jobs[g].fan.recipients == recipients
            && (concurrency > 0 ==> after.jobs[g].fan.concurrency == concurrency)
  {
    var start := Init(cfg);
    var read := CutAt(start, es, i);
    var before := CutAt(start, es, j);
    ReadsWhatWasAsked(read, call, id, ifMatch, provider, schedule, releaseAt);
    Stretch(start, es, i, j);
    var version := read.rows[id].version;
    var release := if !schedule then None else if releaseAt.Some? then releaseAt else read.rows[id].scheduledAt;
    ComesThrough(Next(read, es[i]), es[i + 1..j], call, id, version, provider, release);
    ClaimsWhatWasAsked(before, call, g, recipients, concurrency, id, version, provider, release);
    Always(cfg, es[..i]);
    StepKeeps(read, es[i]);
    assert RowAt(read.rows, read.used, read.claims, id);
    SameVersionSameRow(Next(read, es[i]), es[i + 1..j], id);
  }

  // The state before event i, and that the event leads on from there.
  lemma CutAt(s: State, es: seq<Event>, i: nat) returns (t: State)
    requires IsRun(s, es) && i < |es|
    ensures IsRun(s, es[..i]) && t == Run(s, es[..i]) && Enabled(t, es[i])
    ensures IsRun(s, es[..i + 1]) && Run(s, es[..i + 1]) == Next(t, es[i])
  {
    CutRun(s, es, i);
    t := Run(s, es[..i]);
    assert es[i..][0] == es[i];
    Extend(s, es[..i], es[i]);
    assert es[..i] + [es[i]] == es[..i + 1];
  }

  // The events strictly between two of a run lead from the one to the other.
  lemma Stretch(s: State, es: seq<Event>, i: nat, j: nat)
    requires IsRun(s, es) && i < j < |es|
    ensures IsRun(s, es[..i + 1]) && IsRun(s, es[..j])
    ensures IsRun(Run(s, es[..i + 1]), es[i + 1..j])
    ensures Run(s, es[..j]) == Run(Run(s, es[..i + 1]), es[i + 1..j])
  {
    CutRun(s, es, j);
    CutRun(s, es[..j], i + 1);
    assert es[..j][..i + 1] == es[..i + 1] && es[..j][i + 1..] == es[i + 1..j];
  }

  /* ---- an edit ---- */

  lemma {:induction false} EditComesThrough(s: State, es: seq<Event>, call: CallId, c: Call)
    requires IsRun(s, es) && call in s.calls && s.calls[call] == c && c.Editing? && Goes(es, call)
    ensures call in Run(s, es).calls && Run(s, es).calls[call] == c
    decreases |es|
  {
    if es != [] {
      assert !Touches(es[0], call);
      CallKept(s, es[0], call);
      EditComesThrough(Next(s, es[0]), es[1..], call, c);
    }
  }

  /** An edit that commits leaves the content and the release time its caller sent, on a
      row at the version it named; an edit that does not leaves everything as it was. */
  lemma EditStoresWhatWasSent(cfg: Config, es: seq<Event>, i: nat, j: nat, call: CallId, id: Uuid, ifMatch: int,
                              content: Content, scheduledAt: Option<Time>)
    requires IsRun(Init(cfg), es) && i < j < |es| && Goes(es[i + 1..j], call)
    requires es[i] == Editor(EditRead(call, id, ifMatch, content, scheduledAt)) && es[j] == Editor(EditCommit(call))
    ensures IsRun(Init(cfg), es[..j]) && IsRun(Init(cfg), es[..j + 1])
    ensures var before, after := Run(Init(cfg), es[..j]), Run(Init(cfg), es[..j + 1]);
            && (id in before.rows && before.rows[id].version == ifMatch && before.rows[id].batchId.None? ==>
                  && id in after.rows && after.rows[id].content == content && after.rows[id].scheduledAt == scheduledAt
                  && after.rows[id].status == before.rows[id].status && after.rows[id].version == ifMatch + 1
                  && after.rows[id].sentAt == before.rows[id].sentAt)
            && (!(id in before.rows && before.rows[id].version == ifMatch && before.rows[id].batchId.None?) ==>
                  after.rows == before.rows)
            && forall k :: k in before.rows && k != id ==> k in after.rows && after.rows[k] == before.rows[k]
  {
    var start := Init(cfg);
    var read := CutAt(start, es, i);
    var before := CutAt(start, es, j);
    Stretch(start, es, i, j);
    EditComesThrough(Next(read, es[i]), es[i + 1..j], call, Editing(id, read.rows[id], ifMatch, content, scheduledAt));
  }

  /* ---- when a schedule may be armed and cancelled ---- */

  predicate CallInWindow(s: State, k: CallId) {
    ArmedCall(s.calls, k) ==>
      var c := s.calls[k];
      && c.since <= s.now
      && c.since + s.cfg.minLead <= c.arming.value.at <= c.since + s.cfg.maxHorizon
  }

  predicate ClaimInWindow(s: State, g: GroupId) {
    g in s.claims && s.claims[g].arming.Some? ==> s.claims[g].arming.value.at <= s.claims[g].madeAt + s.cfg.maxHorizon
  }

  ghost predicate InWindow(s: State) {
    (forall k :: CallInWindow(s, k)) && forall g :: ClaimInWindow(s, g)
  }

  lemma SenderInWindow(s: State, e: SenderEvent)
    requires InWindow(s) && SenderEnabled(s, e)
    ensures InWindow(SenderNext(s, e))
  {
    var t := SenderNext(s, e);
    forall k ensures CallInWindow(t, k) {
      assert CallInWindow(s, k);
    }
    forall g ensures ClaimInWindow(t, g) {
      assert ClaimInWindow(s, g);
      assert e.SendClaim? ==> CallInWindow(s, e.call);
    }
  }

  // Only a sender touches a send in preparation, or makes a claim.
  lemma OthersLeaveSends(s: State, e: Event, k: CallId)
    requires Enabled(s, e) && !e.Sender?
    ensures var t := Next(s, e);
            && t.claims == s.claims && s.now <= t.now && t.cfg == s.cfg
            && (k in t.calls && t.calls[k].Preparing? ==> k in s.calls && t.calls[k] == s.calls[k])
  {
    hide FanOutNext, SettleNext, SweptRows;
    match e {
      case FanningOut(_) => JobsLeaveCalls(s, e);
      case Settling(_) => JobsLeaveCalls(s, e);
      case _ =>
    }
  }

  lemma OthersInWindow(s: State, e: Event)
    requires InWindow(s) && Enabled(s, e) && !e.Sender?
    ensures InWindow(Next(s, e))
  {
    hide Enabled, Next;
    var t := Next(s, e);
    forall k ensures CallInWindow(t, k) {
      OthersLeaveSends(s, e, k);
      assert CallInWindow(s, k);
    }
    forall g ensures ClaimInWindow(t, g) {
      OthersLeaveSends(s, e, 0);
      assert ClaimInWindow(s, g);
    }
  }

  lemma {:induction false} RunInWindow(s: State, es: seq<Event>)
    requires InWindow(s) && IsRun(s, es)
    ensures InWindow(Run(s, es)) && Run(s, es).cfg == s.cfg
    decreases |es|
  {
    if es != [] {
      if es[0].Sender? {
        SenderInWindow(s, es[0].se);
      } else {
        OthersInWindow(s, es[0]);
      }
      RunInWindow(Next(s, es[0]), es[1..]);
    }
  }

  /** In every run a schedule is armed only for a release at least the minimum lead and
      at most the horizon away, and claimed within the horizon of its release. */
  lemma ArmedInWindow(cfg: Config, es: seq<Event>, k: CallId, g: GroupId)
    requires IsRun(Init(cfg), es)
    ensures var s := Run(Init(cfg), es);
            && (ArmedCall(s.calls, k) ==>
                  var c := s.calls[k];
                  c.since <= s.now && c.since + cfg.minLead <= c.arming.value.at <= c.since + cfg.maxHorizon)
            && (g in s.claims && s.claims[g].arming.Some? ==>
                  s.claims[g].arming.value.at <= s.claims[g].madeAt + cfg.maxHorizon)
  {
    RunInWindow(Init(cfg), es);
    assert CallInWindow(Run(Init(cfg), es), k) && ClaimInWindow(Run(Init(cfg), es), g);
  }

  /** A cancel starts only on a scheduled or sending row that is armed, at the version
      named, and no later than the buffer before its release; it goes on with that row's
      batch. */
  lemma CancelStartsInTime(cfg: Config, es: seq<Event>, call: CallId, id: Uuid, ifMatch: int)
    requires IsRun(Init(cfg), es) && CancelEnabled(Run(Init(cfg), es), CancelRead(call, id, ifMatch))
    ensures var s := Run(Init(cfg), es);
            && id in s.rows && s.rows[id].status in {Scheduled, Sending} && (ifMatch == 0 || s.rows[id].version == ifMatch)
            && s.rows[id].batchId.Some? && s.rows[id].scheduledAt.Some?
            && s.now + cfg.cancelBuffer <= s.rows[id].scheduledAt.value
            && var c := CancelNext(s, CancelRead(call, id, ifMatch)).calls[call];
               c.Cancelling? && c.id == id && Some(c.batch) == s.rows[id].batchId && Some(c.group) == s.rows[id].groupId
  {
    Always(cfg, es);
    RunInWindow(Init(cfg), es);
    var s := Run(Init(cfg), es);
    assert RowAt(s.rows, s.used, s.claims, id);
  }

  /** A confirmed cancellation, by a canceller or by a job that reverted its row, is on
      record from then on. */
  lemma CancellationsStand(s: State, e: Event)
    requires Enabled(s, e)
    ensures s.cancelled <= Next(s, e).cancelled
    ensures e.Canceller? && e.ce.CancelBatch? ==> s.calls[e.ce.call].batch in Next(s, e).cancelled
    ensures e.Settling? && e.te.CleanUp? ==> s.claims[e.te.group].arming.value.batch in Next(s, e).cancelled
  {
  }
}
