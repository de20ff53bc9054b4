/** The newsletters table and the guarded UPDATE statements that move a row
    through its lifecycle. Every statement is one atomic step on the table. */
module Repository {
  import opened Wrappers

  type Uuid = nat
  type GroupId = nat
  type BatchId = nat
  type Time = int

  datatype Status = Draft | Sending | Scheduled | Sent

  datatype Provider = EmailService | SendGrid

  /** The columns only an editor writes. */
  datatype Content = Content(
    projectUid: string,
    subject: string,
    bodyHtml: string,
    bodyLayout: Option<string>,
    edReplyEmail: string,
    committeeUids: set<string>)

  /** The release time and provider batch persisted by a scheduled claim. */
  datatype Arming = Arming(at: Time, batch: BatchId)

  datatype Row = Row(
    content: Content,
    status: Status,
    version: int,
    sentAt: Option<Time>,
    totalRecipients: nat,
    groupId: Option<GroupId>,
    sendProvider: Provider,
    scheduledAt: Option<Time>,
    batchId: Option<BatchId>,
    updatedAt: Time)

  datatype RepoError = NotFound | VersionMismatch | AlreadySent | SendInProgress | IsScheduled | RowArmed | TriggerRefused

  type Table = map<Uuid, Row>

  /** The part of SET shared by every statement. */
  function Stamp(r: Row, now: Time): Row {
    r.(version := r.version + 1, updatedAt := now)
  }

  function NewRow(content: Content, scheduledAt: Option<Time>, now: Time): Row {
    Row(content, Draft, 1, None, 0, None, EmailService, scheduledAt, None, now)
  }

  /* ---- WHERE clauses ---- */

  predicate AtVersion(t: Table, id: Uuid, version: int) {
    id in t && t[id].version == version
  }

  // What the UPDATE statement commits on: an armed row (batch_id set) is refused by
  // the armed-row trigger.
  predicate CanUpdate(t: Table, id: Uuid, version: int) {
    AtVersion(t, id, version) && t[id].batchId.None?
  }

  predicate CanDelete(t: Table, id: Uuid) {
    id in t && t[id].status == Draft
  }

  predicate CanClaim(t: Table, id: Uuid, version: int) {
    AtVersion(t, id, version) && t[id].status == Draft
  }

  predicate CanSettle(t: Table, id: Uuid, version: int) {
    AtVersion(t, id, version) && t[id].status == Sending
  }

  // The statement in the source carries no version: gate == None. A gate of
  // Some(v) is the variant that also requires the claimed version.
  predicate CanRevertSending(t: Table, id: Uuid, gate: Option<int>) {
    id in t && t[id].status == Sending && (gate.Some? ==> t[id].version == gate.value)
  }

  predicate CanRevertScheduled(t: Table, id: Uuid, batch: Option<BatchId>) {
    id in t && t[id].status in {Scheduled, Sending} && t[id].batchId.Some? && t[id].batchId == batch
  }

  predicate IsStuck(r: Row, cutoff: Time) {
    r.status == Sending && r.updatedAt < cutoff
  }

  predicate IsDue(r: Row, now: Time) {
    r.status == Scheduled && r.scheduledAt.Some? && r.scheduledAt.value <= now
  }

  /* ---- SET clauses ---- */

  function Edited(r: Row, content: Content, scheduledAt: Option<Time>, now: Time): Row {
    Stamp(r.(content := content, scheduledAt := scheduledAt), now)
  }

  function Claimed(r: Row, group: GroupId, provider: Provider, total: nat, arming: Option<Arming>, now: Time): Row {
    var c := Stamp(r.(status := Sending, groupId := Some(group), sendProvider := provider, totalRecipients := total), now);
    match arming
    case None => c
    case Some(a) => c.(scheduledAt := Some(a.at), batchId := Some(a.batch))
  }

  function MarkedSent(r: Row, sentAt: Time, now: Time): Row {
    Stamp(r.(status := Sent, sentAt := Some(sentAt)), now)
  }

  function MarkedScheduled(r: Row, now: Time): Row {
    Stamp(r.(status := Scheduled), now)
  }

  // scheduled_at is deliberately kept: it is the author's saved intent.
  function Reverted(r: Row, now: Time): Row {
    Stamp(r.(status := Draft, groupId := None, batchId := None, totalRecipients := 0), now)
  }

  /* ---- whole statements ---- */

  function Update(t: Table, id: Uuid, version: int, content: Content, scheduledAt: Option<Time>, now: Time): Table {
    if CanUpdate(t, id, version) then t[id := Edited(t[id], content, scheduledAt, now)] else t
  }

  function Delete(t: Table, id: Uuid): Table {
    if CanDelete(t, id) then t - {id} else t
  }

  function MarkSending(t: Table, id: Uuid, group: GroupId, provider: Provider, total: nat, version: int,
                       arming: Option<Arming>, now: Time): Table {
    if CanClaim(t, id, version) then t[id := Claimed(t[id], group, provider, total, arming, now)] else t
  }

  function MarkSent(t: Table, id: Uuid, sentAt: Time, version: int, now: Time): Table {
    if CanSettle(t, id, version) then t[id := MarkedSent(t[id], sentAt, now)] else t
  }

  function MarkScheduled(t: Table, id: Uuid, version: int, now: Time): Table {
    if CanSettle(t, id, version) then t[id := MarkedScheduled(t[id], now)] else t
  }

  function RevertSending(t: Table, id: Uuid, gate: Option<int>, now: Time): Table {
    if CanRevertSending(t, id, gate) then t[id := Reverted(t[id], now)] else t
  }

  function RevertScheduled(t: Table, id: Uuid, batch: Option<BatchId>, now: Time): Table {
    if CanRevertScheduled(t, id, batch) then t[id := Reverted(t[id], now)] else t
  }

  // RecoverStuckSending is two UPDATEs that are not in one transaction.
  function RecoverStuckUnarmed(t: Table, cutoff: Time, now: Time): Table {
    map id | id in t :: if IsStuck(t[id], cutoff) && t[id].batchId.None? then MarkedSent(t[id], now, now) else t[id]
  }

  function RecoverStuckArmed(t: Table, cutoff: Time, now: Time): Table {
    map id | id in t :: if IsStuck(t[id], cutoff) && t[id].batchId.Some? then MarkedScheduled(t[id], now) else t[id]
  }

  // The rows left in 'sending' since before the cutoff.
  function StuckIds(t: Table, cutoff: Time): set<Uuid> {
    set id | id in t && t[id].status == Sending && t[id].updatedAt < cutoff
  }

  // The scheduled rows whose release time has come.
  function DueIds(t: Table, at: Time): set<Uuid> {
    set id | id in t && t[id].status == Scheduled && t[id].scheduledAt.Some? && t[id].scheduledAt.value <= at
  }

  function UnarmedStuck(t: Table, cutoff: Time): set<Uuid> {
    set id | id in t && IsStuck(t[id], cutoff) && t[id].batchId.None?
  }

  function ArmedStuck(t: Table, cutoff: Time): set<Uuid> {
    set id | id in t && IsStuck(t[id], cutoff) && t[id].batchId.Some?
  }

  // No stuck row is matched by both statements, and none by neither.
  lemma StuckIsSplit(t: Table, cutoff: Time, now: Time)
    ensures |UnarmedStuck(t, cutoff)| + |ArmedStuck(RecoverStuckUnarmed(t, cutoff, now), cutoff)| == |StuckIds(t, cutoff)|
  {
    assert ArmedStuck(RecoverStuckUnarmed(t, cutoff, now), cutoff) == ArmedStuck(t, cutoff);
    assert StuckIds(t, cutoff) == UnarmedStuck(t, cutoff) + ArmedStuck(t, cutoff);
  }

  // Stuck rows become scheduled if armed and sent if not; the others stand.
  predicate AllRecovered(t: Table, u: Table, cutoff: Time, now: Time) {
    && u.Keys == t.Keys
    && forall id :: id in t ==>
                      u[id] == if id !in StuckIds(t, cutoff) then t[id]
                               else if t[id].batchId.Some?
                               then t[id].(status := Scheduled, version := t[id].version + 1, updatedAt := now)
                               else t[id].(status := Sent, sentAt := Some(now), version := t[id].version + 1,
                                           updatedAt := now)
  }

  lemma EachRecovered(t: Table, cutoff: Time, now: Time)
    ensures AllRecovered(t, RecoverStuckArmed(RecoverStuckUnarmed(t, cutoff, now), cutoff, now), cutoff, now)
  {
  }

  function SettleDue(t: Table, at: Time, now: Time): Table {
    map id | id in t :: if IsDue(t[id], at) then MarkedSent(t[id], t[id].scheduledAt.value, now) else t[id]
  }

  /* ---- why a guarded statement matched nothing ---- */

  // Status takes precedence over the version.
  function SendTransitionMiss(t: Table, id: Uuid): RepoError {
    if id !in t then NotFound
    else match t[id].status
      case Sent => AlreadySent
      case Sending => SendInProgress
      case Scheduled => IsScheduled
      case Draft => VersionMismatch
  }

  predicate SeenArmed(seen: Option<Row>) {
    seen.Some? && seen.value.batchId.Some?
  }

  /** The rows differ at most in the columns an edit sets. */
  predicate SameButForEdits(a: Row, b: Row) {
    b == a.(content := b.content, scheduledAt := b.scheduledAt, version := b.version, updatedAt := b.updatedAt)
  }

  // No row but this one is touched, added or removed.
  predicate OthersKept(before: Table, after: Table, id: Uuid) {
    && (forall k :: k in before && k != id ==> k in after && after[k] == before[k])
    && (forall k :: k in after && k != id ==> k in before)
  }

  // A draft again: nothing of the send is left on the row but the saved release time.
  predicate IsDraftAgain(r: Row, q: Row, now: Time) {
    && q.status == Draft && q.groupId.None? && q.batchId.None? && q.totalRecipients == 0
    && q.scheduledAt == r.scheduledAt && q.content == r.content && q.sentAt == r.sentAt && q.sendProvider == r.sendProvider
    && q.version == r.version + 1 && q.updatedAt == now
  }

  // Why a send transition matched no row: each status has its own error.
  predicate IsMiss(t: Table, id: Uuid, e: RepoError) {
    && (e == NotFound <==> id !in t)
    && (e == AlreadySent <==> id in t && t[id].status == Sent)
    && (e == SendInProgress <==> id in t && t[id].status == Sending)
    && (e == IsScheduled <==> id in t && t[id].status == Scheduled)
    && (e == VersionMismatch <==> id in t && t[id].status == Draft)
  }

  /** The PostgreSQL-backed repository: `rows` is the table it updates in place.
      `now` is the database clock at the statement. Each method's first clause is the
      statement the lifecycle is made of; the others say outright what it does. */
  class NewsletterRepo {
    var rows: Table

    constructor ()
      ensures rows == map[]
    {
      rows := map[];
    }

    method Create(id: Uuid, content: Content, scheduledAt: Option<Time>, now: Time)
      requires id !in rows
      modifies this
      ensures rows == old(rows)[id := NewRow(content, scheduledAt, now)]
      ensures rows[id].status == Draft && rows[id].version == 1 && rows[id].content == content
      ensures rows[id].scheduledAt == scheduledAt && rows[id].updatedAt == now
      ensures rows[id].batchId.None? && rows[id].groupId.None? && rows[id].sentAt.None? && rows[id].totalRecipients == 0
    {
      rows := rows[id := Row(content, Draft, 1, None, 0, None, EmailService, scheduledAt, None, now)];
    }

    // The look at the row that precedes an update, a statement of its own.
    method ReadRow(id: Uuid) returns (seen: Option<Row>)
      ensures seen == if id in rows then Some(rows[id]) else None
    {
      seen := if id in rows then Some(rows[id]) else None;
    }

    // `seen` is the row as ReadRow found it; the table may have changed since. A row
    // armed in between is refused by the trigger.
    method UpdateDraftRow(id: Uuid, seen: Option<Row>, version: int, content: Content, scheduledAt: Option<Time>,
                          now: Time) returns (res: Result<Row, RepoError>)
      modifies this
      ensures rows == if SeenArmed(seen) then old(rows) else Update(old(rows), id, version, content, scheduledAt, now)
      ensures res.Ok? <==> !(seen.Some? && seen.value.batchId.Some?) && id in old(rows)
                           && old(rows)[id].version == version && old(rows)[id].batchId.None?
      ensures res.Ok? ==> res.value == rows[id] && SameButForEdits(old(rows)[id], rows[id])
      ensures res.Ok? ==> rows[id].content == content && rows[id].scheduledAt == scheduledAt
      ensures res.Ok? ==> rows[id].version == version + 1 && rows[id].updatedAt == now && OthersKept(old(rows), rows, id)
      ensures res.Err? ==> rows == old(rows)
      ensures res.Err? ==> res.error ==
                           if SeenArmed(seen) then RowArmed
                           else if id !in old(rows) then NotFound
                           else if old(rows)[id].version != version then VersionMismatch else TriggerRefused
    {
      if seen.Some? && seen.value.batchId.Some? {
        return Err(RowArmed);
      }
      if id !in rows {
        return Err(NotFound);
      }
      var r := rows[id];
      if r.version != version {
        return Err(VersionMismatch);
      }
      if r.batchId.Some? {
        return Err(TriggerRefused);
      }
      r := r.(content := content);
      r := r.(scheduledAt := scheduledAt);
      r := r.(updatedAt := now, version := r.version + 1);
      rows := rows[id := r];
      res := Ok(r);
    }

    method DeleteDraftRow(id: Uuid) returns (res: Result<(), RepoError>)
      modifies this
      ensures rows == Delete(old(rows), id)
      ensures res.Ok? <==> id in old(rows) && old(rows)[id].status == Draft
      ensures res.Ok? ==> id !in rows && OthersKept(old(rows), rows, id)
      ensures res.Err? ==> rows == old(rows) && IsMiss(old(rows), id, res.error)
    {
      if id !in rows {
        return Err(NotFound);
      }
      match rows[id].status {
        case Draft =>
          rows := rows - {id};
          return Ok(());
        case Sent => return Err(AlreadySent);
        case Scheduled => return Err(IsScheduled);
        case Sending => return Err(SendInProgress);
      }
    }

    method ClaimForSending(id: Uuid, group: GroupId, provider: Provider, total: nat, version: int,
                           arming: Option<Arming>, now: Time) returns (res: Result<Row, RepoError>)
      modifies this
      ensures rows == MarkSending(old(rows), id, group, provider, total, version, arming, now)
      ensures res.Ok? <==> id in old(rows) && old(rows)[id].version == version && old(rows)[id].status == Draft
      ensures res.Ok? ==> res.value == rows[id] && OthersKept(old(rows), rows, id)
      ensures res.Ok? ==> && rows[id].status == Sending && rows[id].version == version + 1 && rows[id].updatedAt == now
                          && rows[id].groupId == Some(group) && rows[id].sendProvider == provider
                          && rows[id].totalRecipients == total && rows[id].content == old(rows)[id].content
                          && rows[id].sentAt == old(rows)[id].sentAt
      ensures res.Ok? ==> rows[id].scheduledAt == if arming.Some? then Some(arming.value.at) else old(rows)[id].scheduledAt
      ensures res.Ok? ==> rows[id].batchId == if arming.Some? then Some(arming.value.batch) else old(rows)[id].batchId
      ensures res.Err? ==> rows == old(rows) && IsMiss(old(rows), id, res.error)
    {
      if id !in rows || rows[id].version != version || rows[id].status != Draft {
        return Err(SendTransitionMiss(rows, id));
      }
      var r := rows[id];
      r := r.(status := Sending, groupId := Some(group), sendProvider := provider);
      r := r.(totalRecipients := total, updatedAt := now, version := r.version + 1);
      if arming.Some? {
        r := r.(scheduledAt := Some(arming.value.at), batchId := Some(arming.value.batch));
      }
      rows := rows[id := r];
      res := Ok(r);
    }

    method SettleSent(id: Uuid, sentAt: Time, version: int, now: Time) returns (res: Result<Row, RepoError>)
      modifies this
      ensures rows == MarkSent(old(rows), id, sentAt, version, now)
      ensures res.Ok? <==> id in old(rows) && old(rows)[id].version == version && old(rows)[id].status == Sending
      ensures res.Ok? ==> res.value == rows[id] && OthersKept(old(rows), rows, id)
      ensures res.Ok? ==> rows[id] == old(rows)[id].(status := Sent, sentAt := Some(sentAt), version := version + 1,
                                                     updatedAt := now)
      ensures res.Err? ==> rows == old(rows) && IsMiss(old(rows), id, res.error)
    {
      if id !in rows || rows[id].version != version || rows[id].status != Sending {
        return Err(SendTransitionMiss(rows, id));
      }
      var r := rows[id];
      r := r.(status := Sent, sentAt := Some(sentAt), updatedAt := now, version := r.version + 1);
      rows := rows[id := r];
      res := Ok(r);
    }

    method SettleScheduled(id: Uuid, version: int, now: Time) returns (res: Result<Row, RepoError>)
      modifies this
      ensures rows == MarkScheduled(old(rows), id, version, now)
      ensures res.Ok? <==> id in old(rows) && old(rows)[id].version == version && old(rows)[id].status == Sending
      ensures res.Ok? ==> res.value == rows[id] && OthersKept(old(rows), rows, id)
      ensures res.Ok? ==> rows[id] == old(rows)[id].(status := Scheduled, version := version + 1, updatedAt := now)
      ensures res.Err? ==> rows == old(rows) && IsMiss(old(rows), id, res.error)
    {
      if id !in rows || rows[id].version != version || rows[id].status != Sending {
        return Err(SendTransitionMiss(rows, id));
      }
      var r := rows[id];
      r := r.(status := Scheduled, updatedAt := now, version := r.version + 1);
      rows := rows[id := r];
      res := Ok(r);
    }

    method RevertFailedSend(id: Uuid, now: Time) returns (res: Result<(), RepoError>)
      modifies this
      ensures rows == RevertSending(old(rows), id, None, now)
      ensures res.Ok? <==> id in old(rows) && old(rows)[id].status == Sending
      ensures res.Ok? ==> IsDraftAgain(old(rows)[id], rows[id], now) && OthersKept(old(rows), rows, id)
      ensures res.Err? ==> rows == old(rows) && res.error == NotFound
    {
      if id !in rows || rows[id].status != Sending {
        return Err(NotFound);
      }
      var r := rows[id];
      r := r.(status := Draft, groupId := None, batchId := None, totalRecipients := 0);
      r := r.(updatedAt := now, version := r.version + 1);
      rows := rows[id := r];
      res := Ok(());
    }

    method RevertCancelled(id: Uuid, batch: Option<BatchId>, now: Time) returns (res: Result<Row, RepoError>)
      modifies this
      ensures rows == RevertScheduled(old(rows), id, batch, now)
      ensures res.Ok? <==> id in old(rows) && old(rows)[id].status in {Scheduled, Sending}
                           && batch.Some? && old(rows)[id].batchId == batch
      ensures res.Ok? ==> res.value == rows[id]
      ensures res.Ok? ==> IsDraftAgain(old(rows)[id], rows[id], now) && OthersKept(old(rows), rows, id)
      ensures res.Err? ==> rows == old(rows) && IsMiss(old(rows), id, res.error)
    {
      if id !in rows || !(rows[id].status in {Scheduled, Sending}) || batch.None? || rows[id].batchId != batch {
        return Err(SendTransitionMiss(rows, id));
      }
      var r := rows[id];
      r := r.(status := Draft, groupId := None, batchId := None, totalRecipients := 0);
      r := r.(updatedAt := now, version := r.version + 1);
      rows := rows[id := r];
      res := Ok(r);
    }

    // The first statement of the sweep.
    method SettleStuck(cutoff: Time, now: Time) returns (affected: nat)
      modifies this
      ensures rows == RecoverStuckUnarmed(old(rows), cutoff, now) && affected == |UnarmedStuck(old(rows), cutoff)|
    {
      var unarmed := UnarmedStuck(rows, cutoff);
      rows := map id | id in rows :: if id in unarmed then MarkedSent(rows[id], now, now) else rows[id];
      affected := |unarmed|;
    }

    // The second.
    method RescheduleStuck(cutoff: Time, now: Time) returns (affected: nat)
      modifies this
      ensures rows == RecoverStuckArmed(old(rows), cutoff, now) && affected == |ArmedStuck(old(rows), cutoff)|
    {
      var armed := ArmedStuck(rows, cutoff);
      rows := map id | id in rows :: if id in armed then MarkedScheduled(rows[id], now) else rows[id];
      affected := |armed|;
    }

    // The count reported is exactly the number of stuck rows: no row is touched
    // by both statements.
    method RecoverStuck(olderThan: Time, now: Time) returns (recovered: nat)
      modifies this
      ensures rows == RecoverStuckArmed(RecoverStuckUnarmed(old(rows), now - olderThan, now), now - olderThan, now)
      ensures recovered == |StuckIds(old(rows), now - olderThan)|
      ensures AllRecovered(old(rows), rows, now - olderThan, now)
    {
      hide AllRecovered, RecoverStuckArmed, RecoverStuckUnarmed, StuckIds, UnarmedStuck, ArmedStuck;
      var cutoff := now - olderThan;
      StuckIsSplit(rows, cutoff, now);
      EachRecovered(rows, cutoff, now);
      var unarmed := SettleStuck(cutoff, now);
      var armed := RescheduleStuck(cutoff, now);
      recovered := unarmed + armed;
    }

    method SettleDueScheduled(at: Time, now: Time) returns (settled: nat)
      modifies this
      ensures rows == SettleDue(old(rows), at, now)
      ensures rows.Keys == old(rows).Keys
      ensures settled == |DueIds(old(rows), at)|
      ensures forall id :: id in rows ==>
                           var r := old(rows)[id];
                           rows[id] == if id !in DueIds(old(rows), at) then r
                                       else r.(status := Sent, sentAt := r.scheduledAt, version := r.version + 1,
                                               updatedAt := now)
    {
      var due := set id | id in rows && IsDue(rows[id], at);
      rows := map id | id in rows :: if id in due then MarkedSent(rows[id], rows[id].scheduledAt.value, now) else rows[id];
      assert due == DueIds(old(rows), at);
      settled := |due|;
    }
  }
}
