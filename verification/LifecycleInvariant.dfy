/** The invariant of the send lifecycle in every run. Each conjunct quantifies one predicate over
    its key and names only the components it depends on, so an event that leaves
    them alone keeps it by equality and any other is proved key by key. */
module LifecycleInvariant {
  import opened Wrappers
  import opened Repository
  import opened Lifecycle
  import FanOut

  type Claims = map<GroupId, Claim>
  type Jobs = map<GroupId, Job>
  type Calls = map<CallId, Call>
  type Messages = map<MessageId, Message>

  /* ---- table rows and the claims that hold them ---- */

  predicate RowOk(r: Row) {
    && (r.batchId.Some? ==> r.groupId.Some? && r.scheduledAt.Some? && r.sendProvider == SendGrid)
    && (r.sentAt.Some? <==> r.status == Sent)
    && match r.status
       case Draft => r.groupId.None? && r.batchId.None? && r.totalRecipients == 0
       case Sending => r.groupId.Some?
       case Scheduled => r.groupId.Some? && r.batchId.Some?
       case Sent => r.groupId.Some?
  }

  // group_id on a row names the claim that holds it, with its batch and release time.
  predicate Holds(c: Claim, id: Uuid, r: Row) {
    && c.id == id
    && c.version <= r.version
    && r.totalRecipients == |c.recipients|
    && r.batchId == BatchOf(c)
    && (c.arming.Some? ==> r.scheduledAt == Some(c.arming.value.at))
  }

  predicate RowAt(rows: Table, used: set<Uuid>, claims: Claims, id: Uuid) {
    id in rows ==>
      && id in used && RowOk(rows[id])
      && (rows[id].groupId.Some? ==>
            rows[id].groupId.value in claims && Holds(claims[rows[id].groupId.value], id, rows[id]))
  }

  // A row at a claimed version is that claim's row, untouched since.
  predicate ClaimAt(rows: Table, used: set<Uuid>, minted: set<BatchId>, claims: Claims, g: GroupId) {
    g in claims ==>
      var c := claims[g];
      && c.id in used
      && Distinct(c.recipients)
      && (c.arming.Some? ==> c.arming.value.batch in minted)
      && (c.id in rows ==>
            && c.version <= rows[c.id].version
            && (c.version == rows[c.id].version ==> rows[c.id].groupId == Some(g) && rows[c.id].status == Sending))
  }

  predicate ClaimsDiffer(claims: Claims, g: GroupId, h: GroupId) {
    g in claims && h in claims && g != h ==>
      && (claims[g].arming.Some? ==> BatchOf(claims[g]) != BatchOf(claims[h]))
      && (claims[g].id == claims[h].id ==> claims[g].version != claims[h].version)
  }

  /* ---- service calls ---- */

  // The row is as it was read, or has been written since, or is gone.
  predicate ReadAt(calls: Calls, rows: Table, used: set<Uuid>, k: CallId) {
    k in calls && calls[k].Editing? ==>
      var c := calls[k];
      && c.snapshot.status == Draft && c.id in used
      && (c.id in rows ==> rows[c.id] == c.snapshot || c.snapshot.version < rows[c.id].version)
  }

  predicate ArmedCall(calls: Calls, k: CallId) {
    k in calls && calls[k].Preparing? && calls[k].arming.Some?
  }

  predicate ArmingAt(calls: Calls, minted: set<BatchId>, k: CallId) {
    k in calls && calls[k].Preparing? ==>
      && (calls[k].release.Some? ==> calls[k].provider == SendGrid)
      && (calls[k].arming.Some? ==> calls[k].release.Some? && calls[k].arming.value.batch in minted)
  }

  predicate BatchUnclaimed(calls: Calls, claims: Claims, k: CallId, g: GroupId) {
    ArmedCall(calls, k) && g in claims ==> BatchOf(claims[g]) != Some(calls[k].arming.value.batch)
  }

  predicate BatchUnshared(calls: Calls, k: CallId, l: CallId) {
    ArmedCall(calls, k) && ArmedCall(calls, l) && k != l ==> calls[k].arming.value.batch != calls[l].arming.value.batch
  }

  predicate CancelAt(calls: Calls, claims: Claims, cancelled: set<BatchId>, k: CallId) {
    k in calls && (calls[k].Cancelling? || calls[k].Reverting?) ==>
      && calls[k].group in claims
      && claims[calls[k].group].id == calls[k].id
      && BatchOf(claims[calls[k].group]) == Some(calls[k].batch)
      && (calls[k].Cancelling? ==> calls[k].provider == SendGrid)
      && (calls[k].Reverting? ==> calls[k].batch in cancelled)
  }

  /* ---- jobs and messages ---- */

  predicate JobAt(jobs: Jobs, claims: Claims, g: GroupId) {
    g in jobs ==>
      && g in claims
      && FanOut.Valid(jobs[g].fan)
      && jobs[g].fan.recipients == claims[g].recipients
      && (jobs[g].phase == CleaningUp ==> FanOut.Done(jobs[g].fan))
  }

  predicate MessageAt(messages: Messages, claims: Claims, jobs: Jobs, m: MessageId) {
    m in messages ==>
      var msg := messages[m];
      && msg.group in claims
      && msg.slot < |claims[msg.group].recipients|
      && (msg.group in jobs ==>
            var f := jobs[msg.group].fan;
            msg.slot < f.next && (msg.fate == Refused || msg.slot in f.inFlight || !WhollyRejected(f)))
  }

  // Each recipient of a claim is dispatched at most once.
  predicate SlotsDiffer(messages: Messages, m: MessageId, n: MessageId) {
    m in messages && n in messages && m != n && messages[m].group == messages[n].group ==> messages[m].slot != messages[n].slot
  }

  /* ---- deliveries and release times ---- */

  predicate DeliveryAt(delivered: set<MessageId>, messages: Messages, claims: Claims, cancelled: set<BatchId>,
                       now: Time, m: MessageId) {
    m in delivered ==>
      && m in messages && messages[m].fate == Taken && messages[m].group in claims
      && var a := claims[messages[m].group].arming;
         (a.Some? ==> a.value.batch !in cancelled && a.value.at <= now)
  }

  // An armed send with recipients is not called sent before its release.
  predicate OnTime(rows: Table, now: Time, id: Uuid) {
    id in rows && rows[id].status == Sent && rows[id].batchId.Some? && rows[id].totalRecipients > 0 ==>
      rows[id].scheduledAt.Some? && rows[id].scheduledAt.value <= now
  }

  /* ---- the conjuncts, by the components they read ---- */

  ghost predicate TableInv(rows: Table, used: set<Uuid>, minted: set<BatchId>, claims: Claims) {
    && (forall id :: RowAt(rows, used, claims, id))
    && (forall g :: ClaimAt(rows, used, minted, claims, g))
    && (forall g, h :: ClaimsDiffer(claims, g, h))
  }

  ghost predicate ReadInv(calls: Calls, rows: Table, used: set<Uuid>) {
    forall k :: ReadAt(calls, rows, used, k)
  }

  ghost predicate ArmingInv(calls: Calls, claims: Claims, minted: set<BatchId>) {
    && (forall k :: ArmingAt(calls, minted, k))
    && (forall k, g :: BatchUnclaimed(calls, claims, k, g))
    && (forall k, l :: BatchUnshared(calls, k, l))
  }

  ghost predicate CancelInv(calls: Calls, claims: Claims, cancelled: set<BatchId>) {
    forall k :: CancelAt(calls, claims, cancelled, k)
  }

  ghost predicate JobInv(jobs: Jobs, claims: Claims) {
    forall g :: JobAt(jobs, claims, g)
  }

  ghost predicate MessageInv(messages: Messages, claims: Claims, jobs: Jobs) {
    && (forall m :: MessageAt(messages, claims, jobs, m))
    && (forall m, n :: SlotsDiffer(messages, m, n))
  }

  ghost predicate DeliveryInv(delivered: set<MessageId>, messages: Messages, claims: Claims, cancelled: set<BatchId>,
                              now: Time) {
    forall m :: DeliveryAt(delivered, messages, claims, cancelled, now, m)
  }

  ghost predicate TimeInv(rows: Table, now: Time) {
    forall id :: OnTime(rows, now, id)
  }

  ghost predicate Core(s: State) {
    && TableInv(s.rows, s.used, s.minted, s.claims)
    && ReadInv(s.calls, s.rows, s.used)
    && ArmingInv(s.calls, s.claims, s.minted)
    && CancelInv(s.calls, s.claims, s.cancelled)
    && JobInv(s.jobs, s.claims)
    && MessageInv(s.messages, s.claims, s.jobs)
    && DeliveryInv(s.delivered, s.messages, s.claims, s.cancelled, s.now)
    && TimeInv(s.rows, s.now)
  }

  lemma InitCore(cfg: Config)
    ensures Core(Init(cfg))
  {
  }

  /* ---- calls ---- */

  ghost predicate CallInv(calls: Calls, rows: Table, used: set<Uuid>, minted: set<BatchId>, claims: Claims,
                          cancelled: set<BatchId>) {
    ReadInv(calls, rows, used) && ArmingInv(calls, claims, minted) && CancelInv(calls, claims, cancelled)
  }

  lemma DropCall(calls: Calls, rows: Table, used: set<Uuid>, minted: set<BatchId>, claims: Claims,
                 cancelled: set<BatchId>, call: CallId)
    requires CallInv(calls, rows, used, minted, claims, cancelled)
    ensures CallInv(calls - {call}, rows, used, minted, claims, cancelled)
  {
    var t := calls - {call};
    forall k ensures ReadAt(t, rows, used, k) && ArmingAt(t, minted, k) && CancelAt(t, claims, cancelled, k) {
      assert ReadAt(calls, rows, used, k) && ArmingAt(calls, minted, k) && CancelAt(calls, claims, cancelled, k);
    }
    forall k, g ensures BatchUnclaimed(t, claims, k, g) {
      assert BatchUnclaimed(calls, claims, k, g);
    }
    forall k, l ensures BatchUnshared(t, k, l) {
      assert BatchUnshared(calls, k, l);
    }
  }

  lemma PutCall(calls: Calls, rows: Table, used: set<Uuid>, minted: set<BatchId>, claims: Claims,
                cancelled: set<BatchId>, call: CallId, c: Call)
    requires CallInv(calls, rows, used, minted, claims, cancelled)
    requires var t := calls[call := c];
             && ReadAt(t, rows, used, call) && ArmingAt(t, minted, call) && CancelAt(t, claims, cancelled, call)
             && (forall g :: BatchUnclaimed(t, claims, call, g))
             && (forall k :: BatchUnshared(t, k, call))
    ensures CallInv(calls[call := c], rows, used, minted, claims, cancelled)
  {
    var t := calls[call := c];
    forall k ensures ReadAt(t, rows, used, k) && ArmingAt(t, minted, k) && CancelAt(t, claims, cancelled, k) {
      assert ReadAt(calls, rows, used, k) && ArmingAt(calls, minted, k) && CancelAt(calls, claims, cancelled, k);
    }
    forall k, g ensures BatchUnclaimed(t, claims, k, g) {
      assert BatchUnclaimed(calls, claims, k, g) && BatchUnclaimed(t, claims, call, g);
    }
    forall k, l ensures BatchUnshared(t, k, l) {
      assert BatchUnshared(calls, k, l) && BatchUnshared(t, k, call) && BatchUnshared(t, l, call);
    }
  }

  /* ---- rows ---- */

  // Every committed write raises the version, and a deleted id never returns.
  predicate Advances(rows: Table, after: Table, used: set<Uuid>, id: Uuid) {
    id in after && id in used ==> id in rows && (after[id] == rows[id] || rows[id].version < after[id].version)
  }

  lemma ReadsSurvive(calls: Calls, rows: Table, after: Table, used: set<Uuid>, more: set<Uuid>)
    requires ReadInv(calls, rows, used) && used <= more
    requires forall id :: Advances(rows, after, used, id)
    ensures ReadInv(calls, after, more)
  {
    forall k ensures ReadAt(calls, after, more, k) {
      assert ReadAt(calls, rows, used, k);
      if k in calls && calls[k].Editing? {
        assert Advances(rows, after, used, calls[k].id);
      }
    }
  }

  /** What an atomic write that keeps every row with its holder must show, row by row. */
  predicate QuietWrite(rows: Table, after: Table, now: Time, id: Uuid) {
    && (id in rows <==> id in after)
    && (id in rows && after[id] != rows[id] ==>
          var r, q := rows[id], after[id];
          && q.groupId == r.groupId && q.batchId == r.batchId && q.totalRecipients == r.totalRecipients
          && (r.batchId.Some? ==> q.scheduledAt == r.scheduledAt) && q.sendProvider == r.sendProvider
          && r.version < q.version && RowOk(q)
          && (q.status == Sent && q.batchId.Some? && q.totalRecipients > 0 ==>
                q.scheduledAt.Some? && q.scheduledAt.value <= now))
  }

  lemma QuietWriteKeeps(s: State, after: Table)
    requires Core(s)
    requires forall id :: QuietWrite(s.rows, after, s.now, id)
    ensures Core(s.(rows := after))
  {
    forall id ensures RowAt(after, s.used, s.claims, id) && OnTime(after, s.now, id) && Advances(s.rows, after, s.used, id) {
      assert RowAt(s.rows, s.used, s.claims, id) && OnTime(s.rows, s.now, id) && QuietWrite(s.rows, after, s.now, id);
    }
    forall g ensures ClaimAt(after, s.used, s.minted, s.claims, g) {
      assert ClaimAt(s.rows, s.used, s.minted, s.claims, g);
      if g in s.claims {
        assert QuietWrite(s.rows, after, s.now, s.claims[g].id);
      }
    }
    ReadsSurvive(s.calls, s.rows, after, s.used, s.used);
  }

  lemma CallsKeep(s: State, calls: Calls)
    requires Core(s)
    requires CallInv(calls, s.rows, s.used, s.minted, s.claims, s.cancelled)
    ensures Core(s.(calls := calls))
  {
  }

  /* ---- editors ---- */

  lemma CreateKeeps(s: State, id: Uuid, content: Content, scheduledAt: Option<Time>)
    requires Core(s) && id !in s.used
    ensures Core(s.(rows := s.rows[id := NewRow(content, scheduledAt, s.now)], used := s.used + {id}))
  {
    var after, more := s.rows[id := NewRow(content, scheduledAt, s.now)], s.used + {id};
    forall i ensures RowAt(after, more, s.claims, i) && OnTime(after, s.now, i) && Advances(s.rows, after, s.used, i) {
      assert RowAt(s.rows, s.used, s.claims, i) && OnTime(s.rows, s.now, i);
    }
    forall g ensures ClaimAt(after, more, s.minted, s.claims, g) {
      assert ClaimAt(s.rows, s.used, s.minted, s.claims, g);
    }
    ReadsSurvive(s.calls, s.rows, after, s.used, more);
  }

  lemma UpdateKeeps(s: State, id: Uuid, version: int, content: Content, scheduledAt: Option<Time>)
    requires Core(s)
    ensures Core(s.(rows := Update(s.rows, id, version, content, scheduledAt, s.now)))
  {
    var after := Update(s.rows, id, version, content, scheduledAt, s.now);
    forall i ensures QuietWrite(s.rows, after, s.now, i) {
      assert RowAt(s.rows, s.used, s.claims, i);
    }
    QuietWriteKeeps(s, after);
  }

  lemma DeleteKeeps(s: State, id: Uuid)
    requires Core(s)
    ensures Core(s.(rows := Delete(s.rows, id)))
  {
    var after := Delete(s.rows, id);
    forall i ensures RowAt(after, s.used, s.claims, i) && OnTime(after, s.now, i) && Advances(s.rows, after, s.used, i) {
      assert RowAt(s.rows, s.used, s.claims, i) && OnTime(s.rows, s.now, i);
    }
    forall g ensures ClaimAt(after, s.used, s.minted, s.claims, g) {
      assert ClaimAt(s.rows, s.used, s.minted, s.claims, g) && RowAt(s.rows, s.used, s.claims, id);
    }
    ReadsSurvive(s.calls, s.rows, after, s.used, s.used);
  }

  lemma EditorKeeps(s: State, e: EditorEvent)
    requires Core(s) && EditorEnabled(s, e)
    ensures Core(EditorNext(s, e))
  {
    match e {
      case Create(id, content, scheduledAt) => CreateKeeps(s, id, content, scheduledAt);
      case EditRead(call, id, ifMatch, content, scheduledAt) =>
        assert RowAt(s.rows, s.used, s.claims, id);
        PutCall(s.calls, s.rows, s.used, s.minted, s.claims, s.cancelled, call,
                Editing(id, s.rows[id], ifMatch, content, scheduledAt));
      case EditCommit(call) =>
        var c := s.calls[call];
        UpdateKeeps(s, c.id, c.ifMatch, c.content, c.scheduledAt);
        var t := s.(rows := Update(s.rows, c.id, c.ifMatch, c.content, c.scheduledAt, s.now));
        DropCall(s.calls, t.rows, s.used, s.minted, s.claims, s.cancelled, call);
        CallsKeep(t, s.calls - {call});
      case DeleteRead(call, id) =>
        PutCall(s.calls, s.rows, s.used, s.minted, s.claims, s.cancelled, call, Deleting(id));
      case DeleteCommit(call) =>
        DeleteKeeps(s, s.calls[call].id);
        var t := s.(rows := Delete(s.rows, s.calls[call].id));
        DropCall(s.calls, t.rows, s.used, s.minted, s.claims, s.cancelled, call);
        CallsKeep(t, s.calls - {call});
    }
  }

  /* ---- sweeps ---- */

  lemma SweepKeeps(s: State, e: SweepEvent)
    requires Core(s) && SweepEnabled(s, e)
    ensures Core(s.(rows := SweptRows(s, e)))
  {
    forall id ensures QuietWrite(s.rows, SweptRows(s, e), s.now, id) {
      assert RowAt(s.rows, s.used, s.claims, id);
    }
    QuietWriteKeeps(s, SweptRows(s, e));
  }

  /* ---- senders ---- */

  lemma ArmKeeps(s: State, call: CallId, batch: BatchId)
    requires Core(s) && SenderEnabled(s, SendArm(call, batch))
    ensures Core(SenderNext(s, SendArm(call, batch)))
  {
    var t := SenderNext(s, SendArm(call, batch));
    forall g ensures ClaimAt(t.rows, t.used, t.minted, t.claims, g) && BatchUnclaimed(t.calls, t.claims, call, g) {
      assert ClaimAt(s.rows, s.used, s.minted, s.claims, g);
    }
    forall k ensures ArmingAt(s.calls, t.minted, k) && BatchUnshared(t.calls, k, call) {
      assert ArmingAt(s.calls, s.minted, k);
    }
    assert ArmingAt(s.calls, s.minted, call) && ReadAt(s.calls, s.rows, s.used, call);
    PutCall(s.calls, s.rows, s.used, t.minted, s.claims, s.cancelled, call, t.calls[call]);
  }

  // A claim takes a draft, which no earlier claim can still deliver to.
  lemma ClaimKeeps(s: State, group: GroupId, c: Claim, provider: Provider, concurrency: nat)
    requires Core(s) && group !in s.claims && Distinct(c.recipients)
    requires CanClaim(s.rows, c.id, c.version - 1)
    requires c.arming.Some? ==> c.arming.value.batch in s.minted && provider == SendGrid
    requires forall g :: g in s.claims && c.arming.Some? ==> BatchOf(s.claims[g]) != Some(c.arming.value.batch)
    requires forall k :: ArmedCall(s.calls, k) && c.arming.Some? ==> s.calls[k].arming.value.batch != c.arming.value.batch
    ensures Core(s.(rows := MarkSending(s.rows, c.id, group, provider, |c.recipients|, c.version - 1, c.arming, s.now),
                   claims := s.claims[group := c],
                   jobs := s.jobs[group := Job(FanOut.Start(c.recipients, concurrency), Running, s.now)]))
  {
    var after := MarkSending(s.rows, c.id, group, provider, |c.recipients|, c.version - 1, c.arming, s.now);
    var claims := s.claims[group := c];
    var jobs := s.jobs[group := Job(FanOut.Start(c.recipients, concurrency), Running, s.now)];
    assert RowAt(s.rows, s.used, s.claims, c.id);
    forall i ensures RowAt(after, s.used, claims, i) && OnTime(after, s.now, i) && Advances(s.rows, after, s.used, i) {
      assert RowAt(s.rows, s.used, s.claims, i) && OnTime(s.rows, s.now, i);
    }
    forall g ensures ClaimAt(after, s.used, s.minted, claims, g) && JobAt(jobs, claims, g) {
      assert ClaimAt(s.rows, s.used, s.minted, s.claims, g) && JobAt(s.jobs, s.claims, g);
    }
    forall g, h ensures ClaimsDiffer(claims, g, h) {
      assert ClaimsDiffer(s.claims, g, h);
      assert ClaimAt(s.rows, s.used, s.minted, s.claims, g) && ClaimAt(s.rows, s.used, s.minted, s.claims, h);
    }
    forall k, g ensures BatchUnclaimed(s.calls, claims, k, g) {
      assert BatchUnclaimed(s.calls, s.claims, k, g);
    }
    forall k ensures CancelAt(s.calls, claims, s.cancelled, k) {
      assert CancelAt(s.calls, s.claims, s.cancelled, k);
    }
    forall m ensures MessageAt(s.messages, claims, jobs, m)
        && DeliveryAt(s.delivered, s.messages, claims, s.cancelled, s.now, m) {
      assert MessageAt(s.messages, s.claims, s.jobs, m) && DeliveryAt(s.delivered, s.messages, s.claims, s.cancelled, s.now, m);
    }
    ReadsSurvive(s.calls, s.rows, after, s.used, s.used);
  }

  lemma SenderKeeps(s: State, e: SenderEvent)
    requires Core(s) && SenderEnabled(s, e)
    ensures Core(SenderNext(s, e))
  {
    match e {
      case SendRead(call, id, ifMatch, provider, schedule, releaseAt) =>
        PutCall(s.calls, s.rows, s.used, s.minted, s.claims, s.cancelled, call, SenderNext(s, e).calls[call]);
      case SendArm(call, batch) => ArmKeeps(s, call, batch);
      case SendClaim(call, group, recipients, concurrency) =>
        var c := s.calls[call];
        DropCall(s.calls, s.rows, s.used, s.minted, s.claims, s.cancelled, call);
        var t := s.(calls := s.calls - {call});
        CallsKeep(s, t.calls);
        if CanClaim(s.rows, c.id, c.version) {
          assert ArmingAt(s.calls, s.minted, call);
          forall g | g in s.claims && c.arming.Some? ensures BatchOf(s.claims[g]) != Some(c.arming.value.batch) {
            assert BatchUnclaimed(s.calls, s.claims, call, g);
          }
          forall k | ArmedCall(t.calls, k) && c.arming.Some? ensures t.calls[k].arming.value.batch != c.arming.value.batch {
            assert BatchUnshared(s.calls, k, call);
          }
          ClaimKeeps(t, group, Claim(c.id, c.version + 1, recipients, c.arming, s.now), c.provider,
                     FanOut.Workers(concurrency));
        }
    }
  }

  /* ---- jobs and the provider ---- */

  lemma FanMoves(s: State, g: GroupId, f: FanOut.Fan, messages: Messages)
    requires Core(s) && RunningJob(s, g) && FanOut.Valid(f) && f.recipients == s.jobs[g].fan.recipients
    requires forall m :: MessageAt(messages, s.claims, WithFan(s.jobs, g, f, s.now), m)
    requires forall m, n :: SlotsDiffer(messages, m, n)
    requires forall m :: DeliveryAt(s.delivered, messages, s.claims, s.cancelled, s.now, m)
    ensures Core(s.(jobs := WithFan(s.jobs, g, f, s.now), messages := messages))
  {
    var jobs := WithFan(s.jobs, g, f, s.now);
    forall h ensures JobAt(jobs, s.claims, h) {
      assert JobAt(s.jobs, s.claims, h);
    }
  }

  lemma LocalFanMove(s: State, g: GroupId, f: FanOut.Fan)
    requires Core(s) && RunningJob(s, g) && FanOut.Valid(f) && f.recipients == s.jobs[g].fan.recipients
    requires s.jobs[g].fan.next <= f.next && s.jobs[g].fan.inFlight == f.inFlight
    requires s.jobs[g].fan.sent <= f.sent && s.jobs[g].fan.unknown <= f.unknown
    ensures Core(s.(jobs := WithFan(s.jobs, g, f, s.now)))
  {
    assert JobAt(s.jobs, s.claims, g);
    forall m ensures MessageAt(s.messages, s.claims, WithFan(s.jobs, g, f, s.now), m) {
      assert MessageAt(s.messages, s.claims, s.jobs, m);
    }
    FanMoves(s, g, f, s.messages);
  }

  lemma DispatchKeeps(s: State, g: GroupId, m: MessageId)
    requires Core(s) && FanOutEnabled(s, Dispatch(g, m))
    ensures Core(FanOutNext(s, Dispatch(g, m)))
  {
    var t := FanOutNext(s, Dispatch(g, m));
    assert JobAt(s.jobs, s.claims, g);
    forall n ensures MessageAt(t.messages, s.claims, t.jobs, n)
        && DeliveryAt(s.delivered, t.messages, s.claims, s.cancelled, s.now, n) {
      assert MessageAt(s.messages, s.claims, s.jobs, n) && DeliveryAt(s.delivered, s.messages, s.claims, s.cancelled, s.now, n);
    }
    forall n, k ensures SlotsDiffer(t.messages, n, k) {
      assert SlotsDiffer(s.messages, n, k) && MessageAt(s.messages, s.claims, s.jobs, n)
          && MessageAt(s.messages, s.claims, s.jobs, k);
    }
    FanMoves(s, g, t.jobs[g].fan, t.messages);
  }

  lemma AcceptKeeps(s: State, m: MessageId)
    requires Core(s) && FanOutEnabled(s, ProviderAccept(m))
    ensures Core(FanOutNext(s, ProviderAccept(m)))
  {
    var t := FanOutNext(s, ProviderAccept(m));
    forall n ensures MessageAt(t.messages, s.claims, s.jobs, n)
        && DeliveryAt(s.delivered, t.messages, s.claims, s.cancelled, s.now, n) {
      assert MessageAt(s.messages, s.claims, s.jobs, n) && DeliveryAt(s.delivered, s.messages, s.claims, s.cancelled, s.now, n);
    }
    forall n, k ensures SlotsDiffer(t.messages, n, k) {
      assert SlotsDiffer(s.messages, n, k);
    }
  }

  lemma ReportKeeps(s: State, m: MessageId, outcome: FanOut.Outcome)
    requires Core(s) && FanOutEnabled(s, Report(m, outcome))
    ensures Core(FanOutNext(s, Report(m, outcome)))
  {
    var t := FanOutNext(s, Report(m, outcome));
    var g := s.messages[m].group;
    assert JobAt(s.jobs, s.claims, g) && MessageAt(s.messages, s.claims, s.jobs, m);
    forall n ensures MessageAt(t.messages, s.claims, t.jobs, n)
        && DeliveryAt(s.delivered, t.messages, s.claims, s.cancelled, s.now, n) {
      assert MessageAt(s.messages, s.claims, s.jobs, n) && DeliveryAt(s.delivered, s.messages, s.claims, s.cancelled, s.now, n);
      assert SlotsDiffer(s.messages, m, n);
    }
    forall n, k ensures SlotsDiffer(t.messages, n, k) {
      assert SlotsDiffer(s.messages, n, k);
    }
    FanMoves(s, g, t.jobs[g].fan, t.messages);
  }

  lemma FanOutKeeps(s: State, e: FanOutEvent)
    requires Core(s) && FanOutEnabled(s, e)
    ensures Core(FanOutNext(s, e))
  {
    match e {
      case FanOutOff(g) =>
        assert JobAt(s.jobs, s.claims, g);
        LocalFanMove(s, g, FanOutNext(s, e).jobs[g].fan);
      case Expire(g) =>
        assert JobAt(s.jobs, s.claims, g);
        LocalFanMove(s, g, FanOutNext(s, e).jobs[g].fan);
      case Skip(g) =>
        assert JobAt(s.jobs, s.claims, g);
        LocalFanMove(s, g, FanOutNext(s, e).jobs[g].fan);
      case Dispatch(g, m) => DispatchKeeps(s, g, m);
      case ProviderAccept(m) => AcceptKeeps(s, m);
      case Report(m, outcome) => ReportKeeps(s, m, outcome);
    }
  }

  /* ---- terminal writes ---- */

  lemma RevertKeeps(s: State, id: Uuid)
    requires Core(s) && id in s.rows && s.rows[id].status != Draft && s.rows[id].sentAt.None?
    ensures Core(s.(rows := s.rows[id := Reverted(s.rows[id], s.now)]))
  {
    var after := s.rows[id := Reverted(s.rows[id], s.now)];
    forall i ensures RowAt(after, s.used, s.claims, i) && OnTime(after, s.now, i) && Advances(s.rows, after, s.used, i) {
      assert RowAt(s.rows, s.used, s.claims, i) && OnTime(s.rows, s.now, i);
    }
    forall g ensures ClaimAt(after, s.used, s.minted, s.claims, g) {
      assert ClaimAt(s.rows, s.used, s.minted, s.claims, g);
    }
    ReadsSurvive(s.calls, s.rows, after, s.used, s.used);
  }

  lemma JobEndKeeps(s: State, g: GroupId)
    requires Core(s)
    ensures Core(s.(jobs := s.jobs - {g}))
  {
    var jobs := s.jobs - {g};
    forall h ensures JobAt(jobs, s.claims, h) {
      assert JobAt(s.jobs, s.claims, h);
    }
    forall m ensures MessageAt(s.messages, s.claims, jobs, m) {
      assert MessageAt(s.messages, s.claims, s.jobs, m);
    }
  }

  lemma JobCleaningKeeps(s: State, g: GroupId)
    requires Core(s) && RunningJob(s, g) && FanOut.Done(s.jobs[g].fan)
    ensures Core(s.(jobs := s.jobs[g := s.jobs[g].(phase := CleaningUp)]))
  {
    var jobs := s.jobs[g := s.jobs[g].(phase := CleaningUp)];
    forall h ensures JobAt(jobs, s.claims, h) {
      assert JobAt(s.jobs, s.claims, h);
    }
    forall m ensures MessageAt(s.messages, s.claims, jobs, m) {
      assert MessageAt(s.messages, s.claims, s.jobs, m);
    }
  }

  lemma SettledRowsKeep(s: State, g: GroupId)
    requires Core(s) && SettleEnabled(s, Settle(g))
    ensures Core(s.(rows := SettledRows(s, g)))
  {
    var c := s.claims[g];
    assert JobAt(s.jobs, s.claims, g) && RowAt(s.rows, s.used, s.claims, c.id)
        && ClaimAt(s.rows, s.used, s.minted, s.claims, g);
    if RevertsRow(s, g) {
      RevertKeeps(s, c.id);
    } else {
      forall i ensures QuietWrite(s.rows, SettledRows(s, g), s.now, i) {
        assert RowAt(s.rows, s.used, s.claims, i);
      }
      QuietWriteKeeps(s, SettledRows(s, g));
    }
  }

  lemma CancelledKeeps(s: State, batch: BatchId)
    requires Core(s) && StillHeld(s, batch)
    ensures Core(s.(cancelled := s.cancelled + {batch}))
  {
    var more := s.cancelled + {batch};
    forall k ensures CancelAt(s.calls, s.claims, more, k) {
      assert CancelAt(s.calls, s.claims, s.cancelled, k);
    }
    forall m ensures DeliveryAt(s.delivered, s.messages, s.claims, more, s.now, m) {
      assert DeliveryAt(s.delivered, s.messages, s.claims, s.cancelled, s.now, m);
    }
  }

  lemma SettleKeeps(s: State, e: SettleEvent)
    requires Core(s) && SettleEnabled(s, e)
    ensures Core(SettleNext(s, e))
  {
    match e {
      case Settle(g) =>
        SettledRowsKeep(s, g);
        var t := s.(rows := SettledRows(s, g));
        if RevertsRow(s, g) && s.claims[g].arming.Some? {
          JobCleaningKeeps(t, g);
        } else {
          JobEndKeeps(t, g);
        }
      case CleanUp(g) =>
        CancelledKeeps(s, s.claims[g].arming.value.batch);
        JobEndKeeps(s.(cancelled := s.cancelled + {s.claims[g].arming.value.batch}), g);
      case JobCrash(g) => JobEndKeeps(s, g);
    }
  }

  /* ---- cancellation ---- */

  lemma CancelKeeps(s: State, e: CancelEvent)
    requires Core(s) && CancelEnabled(s, e)
    ensures Core(CancelNext(s, e))
  {
    match e {
      case CancelRead(call, id, ifMatch) =>
        assert RowAt(s.rows, s.used, s.claims, id);
        PutCall(s.calls, s.rows, s.used, s.minted, s.claims, s.cancelled, call, CancelNext(s, e).calls[call]);
      case CancelBatch(call) =>
        var t := s.(cancelled := s.cancelled + {s.calls[call].batch});
        CancelledKeeps(s, s.calls[call].batch);
        assert CancelAt(t.calls, t.claims, t.cancelled, call);
        PutCall(t.calls, t.rows, t.used, t.minted, t.claims, t.cancelled, call, CancelNext(s, e).calls[call]);
      case CancelCommit(call) =>
        var c := s.calls[call];
        assert CancelAt(s.calls, s.claims, s.cancelled, call) && RowAt(s.rows, s.used, s.claims, c.id);
        if CanRevertScheduled(s.rows, c.id, Some(c.batch)) {
          RevertKeeps(s, c.id);
        }
        var t := s.(rows := RevertScheduled(s.rows, c.id, Some(c.batch), s.now));
        DropCall(t.calls, t.rows, t.used, t.minted, t.claims, t.cancelled, call);
        CallsKeep(t, t.calls - {call});
      case CallCrash(call) =>
        DropCall(s.calls, s.rows, s.used, s.minted, s.claims, s.cancelled, call);
        CallsKeep(s, s.calls - {call});
    }
  }

  /* ---- provider deliveries and the clock ---- */

  lemma DeliverKeeps(s: State, m: MessageId)
    requires Core(s) && Deliverable(s, m)
    ensures Core(s.(delivered := s.delivered + {m}))
  {
    var t := s.(delivered := s.delivered + {m});
    forall n ensures DeliveryAt(t.delivered, t.messages, t.claims, t.cancelled, t.now, n) {
      assert DeliveryAt(s.delivered, s.messages, s.claims, s.cancelled, s.now, n);
    }
  }

  lemma TickKeeps(s: State, elapsed: nat)
    requires Core(s)
    ensures Core(s.(now := s.now + elapsed))
  {
    var t := s.(now := s.now + elapsed);
    forall n ensures DeliveryAt(t.delivered, t.messages, t.claims, t.cancelled, t.now, n) {
      assert DeliveryAt(s.delivered, s.messages, s.claims, s.cancelled, s.now, n);
    }
    forall id ensures OnTime(t.rows, t.now, id) {
      assert OnTime(s.rows, s.now, id);
    }
  }

  /** Every event of every actor keeps the invariant. */
  lemma StepKeeps(s: State, e: Event)
    requires Core(s) && Enabled(s, e)
    ensures Core(Next(s, e))
  {
    match e {
      case Tick(elapsed) => TickKeeps(s, elapsed);
      case Editor(ed) => EditorKeeps(s, ed);
      case Sender(se) => SenderKeeps(s, se);
      case FanningOut(fe) => FanOutKeeps(s, fe);
      case Settling(te) => SettleKeeps(s, te);
      case Canceller(ce) => CancelKeeps(s, ce);
      case Sweeper(sw) => SweepKeeps(s, sw);
      case Deliver(m) => DeliverKeeps(s, m);
    }
  }

  lemma {:induction false} RunKeeps(s: State, es: seq<Event>)
    requires Core(s) && IsRun(s, es)
    ensures Core(Run(s, es))
    decreases |es|
  {
    if es != [] {
      StepKeeps(s, es[0]);
      RunKeeps(Next(s, es[0]), es[1..]);
    }
  }

  /** The invariant holds after every run, overlapping ones included. */
  lemma Always(cfg: Config, es: seq<Event>)
    requires IsRun(Init(cfg), es)
    ensures Core(Run(Init(cfg), es))
  {
    InitCore(cfg);
    RunKeeps(Init(cfg), es);
  }
}
