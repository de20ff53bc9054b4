/** The SendGrid engagement store: deduplicated open and click events, one rollup
    row per recipient, and tombstones for reverted groups. Every operation is one
    atomic step, as the per-group advisory lock makes it. */
module Engagement {
  import opened Wrappers

  type EmailId = string
  type EventId = string
  type GroupId = string
  type Address = string
  type Time = int

  /** One recipient's rollup. */
  datatype Rollup = Rollup(
    group: GroupId,
    to: Address,
    sentAt: Option<Time>,
    delivered: bool,
    deliveredAt: Option<Time>,
    everOpened: bool,
    openCount: nat,
    lastOpened: Option<Time>,
    everClicked: bool,
    clickCount: nat,
    lastClicked: Option<Time>,
    failed: bool,
    failedAt: Option<Time>)

  /** A stored open or click, keyed by its sg_event_id; only clicks carry a url. */
  datatype Hit = Hit(email: EmailId, url: Option<string>, at: Time)

  datatype Store = Store(
    rows: map<EmailId, Rollup>,
    opens: map<EventId, Hit>,
    clicks: map<EventId, Hit>,
    reverted: set<GroupId>)

  datatype Op =
    | RecordSent(email: EmailId, group: GroupId, to: Address, at: Time)
    | Delivered(email: EmailId, group: GroupId, to: Address, at: Time)
    | Failed(email: EmailId, group: GroupId, to: Address, at: Time)
    | Opened(event: EventId, email: EmailId, group: GroupId, to: Address, at: Time)
    | Clicked(event: EventId, email: EmailId, group: GroupId, to: Address, url: string, at: Time)
    | Revert(group: GroupId)

  const EMPTY := Store(map[], map[], map[], {})

  function Blank(group: GroupId, to: Address): Rollup {
    Rollup(group, to, None, false, None, false, 0, None, false, 0, None, false, None)
  }

  // GREATEST of two nullable instants: NULLs are ignored.
  function Greatest(a: Option<Time>, b: Option<Time>): Option<Time> {
    if a.None? then b else if b.None? then a
    else if a.value < b.value then b else a
  }

  /* ---- what each operation does to the recipient's row ---- */

  function WithDelivery(r: Rollup, at: Time): Rollup {
    if r.delivered then r else r.(delivered := true, deliveredAt := Some(at))
  }

  function WithFailure(r: Rollup, at: Time): Rollup {
    if r.failed then r else r.(failed := true, failedAt := Some(at))
  }

  function WithOpen(r: Rollup, at: Time): Rollup {
    r.(everOpened := true, openCount := r.openCount + 1, lastOpened := Greatest(r.lastOpened, Some(at)))
  }

  function WithClick(r: Rollup, at: Time): Rollup {
    r.(everClicked := true, clickCount := r.clickCount + 1, lastClicked := Greatest(r.lastClicked, Some(at)))
  }

  // The row an upsert starts from: an existing row keeps its group and address.
  function RowFor(s: Store, email: EmailId, group: GroupId, to: Address): Rollup {
    if email in s.rows then s.rows[email] else Blank(group, to)
  }

  /* ---- whole operations ---- */

  // A write for a tombstoned group is dropped, whether it would insert or update.
  function Apply(s: Store, op: Op): Store {
    match op
    case Revert(g) => Reverted(s, g)
    case RecordSent(e, g, to, at) =>
      if g in s.reverted || e in s.rows then s
      else s.(rows := s.rows[e := Blank(g, to).(sentAt := Some(at))])
    case Delivered(e, g, to, at) =>
      if g in s.reverted then s
      else s.(rows := s.rows[e := WithDelivery(RowFor(s, e, g, to), at)])
    case Failed(e, g, to, at) =>
      if g in s.reverted then s
      else s.(rows := s.rows[e := WithFailure(RowFor(s, e, g, to), at)])
    case Opened(ev, e, g, to, at) =>
      if g in s.reverted || ev in s.opens then s
      else s.(opens := s.opens[ev := Hit(e, None, at)], rows := s.rows[e := WithOpen(RowFor(s, e, g, to), at)])
    case Clicked(ev, e, g, to, url, at) =>
      if g in s.reverted || ev in s.clicks then s
      else s.(clicks := s.clicks[ev := Hit(e, Some(url), at)], rows := s.rows[e := WithClick(RowFor(s, e, g, to), at)])
  }

  predicate InGroup(s: Store, email: EmailId, group: GroupId) {
    email in s.rows && s.rows[email].group == group
  }

  function Reverted(s: Store, group: GroupId): Store {
    Store(
      map e | e in s.rows && s.rows[e].group != group :: s.rows[e],
      map ev | ev in s.opens && !InGroup(s, s.opens[ev].email, group) :: s.opens[ev],
      map ev | ev in s.clicks && !InGroup(s, s.clicks[ev].email, group) :: s.clicks[ev],
      s.reverted + {group})
  }

  /* ---- the rollup agrees with the events ---- */

  function HitsOf(hits: map<EventId, Hit>, email: EmailId): set<EventId> {
    set ev | ev in hits && hits[ev].email == email
  }

  predicate HitAt(hits: map<EventId, Hit>, email: EmailId, at: Time) {
    exists ev :: ev in hits && hits[ev].email == email && hits[ev].at == at
  }

  predicate NoneAfter(hits: map<EventId, Hit>, email: EmailId, last: Option<Time>) {
    forall ev :: ev in hits && hits[ev].email == email ==> last.Some? && hits[ev].at <= last.value
  }

  /** A flag, a counter and a last instant that agree with the stored events. */
  predicate Tallies(hits: map<EventId, Hit>, email: EmailId, flag: bool, count: nat, last: Option<Time>) {
    && count == |HitsOf(hits, email)|
    && (flag <==> count > 0)
    && (last.Some? ==> HitAt(hits, email, last.value))
    && NoneAfter(hits, email, last)
  }

  predicate RowAgrees(opens: map<EventId, Hit>, clicks: map<EventId, Hit>, reverted: set<GroupId>, email: EmailId,
                      r: Rollup) {
    && Tallies(opens, email, r.everOpened, r.openCount, r.lastOpened)
    && Tallies(clicks, email, r.everClicked, r.clickCount, r.lastClicked)
    && r.group !in reverted
  }

  predicate HasRows(rows: map<EmailId, Rollup>, hits: map<EventId, Hit>) {
    forall ev :: ev in hits ==> hits[ev].email in rows
  }

  /** Every rollup row agrees with the stored events, every event has its row, and
      no row belongs to a reverted group. */
  predicate Consistent(s: Store) {
    && (forall e :: e in s.rows ==> RowAgrees(s.opens, s.clicks, s.reverted, e, s.rows[e]))
    && HasRows(s.rows, s.opens)
    && HasRows(s.rows, s.clicks)
  }

  lemma NewHit(hits: map<EventId, Hit>, ev: EventId, h: Hit, flag: bool, count: nat, last: Option<Time>)
    requires ev !in hits && Tallies(hits, h.email, flag, count, last)
    ensures Tallies(hits[ev := h], h.email, true, count + 1, Greatest(last, Some(h.at)))
  {
    var more := hits[ev := h];
    assert HitsOf(more, h.email) == HitsOf(hits, h.email) + {ev};
    assert more[ev].at == h.at;
    if last.Some? {
      var was :| was in hits && hits[was].email == h.email && hits[was].at == last.value;
      assert more[was].at == last.value;
    }
  }

  lemma OtherHit(hits: map<EventId, Hit>, ev: EventId, h: Hit, e: EmailId, flag: bool, count: nat, last: Option<Time>)
    requires ev !in hits && e != h.email && Tallies(hits, e, flag, count, last)
    ensures Tallies(hits[ev := h], e, flag, count, last)
  {
    var more := hits[ev := h];
    assert HitsOf(more, e) == HitsOf(hits, e);
    if last.Some? {
      var was :| was in hits && hits[was].email == e && hits[was].at == last.value;
      assert more[was].at == last.value;
    }
  }

  // Dropping the events of other recipients leaves a recipient's tally alone.
  lemma FewerHits(hits: map<EventId, Hit>, fewer: map<EventId, Hit>, e: EmailId, flag: bool, count: nat,
                  last: Option<Time>)
    requires Tallies(hits, e, flag, count, last)
    requires forall ev :: ev in fewer ==> ev in hits && fewer[ev] == hits[ev]
    requires forall ev :: ev in hits && hits[ev].email == e ==> ev in fewer
    ensures Tallies(fewer, e, flag, count, last)
  {
    assert HitsOf(fewer, e) == HitsOf(hits, e);
    if last.Some? {
      var was :| was in hits && hits[was].email == e && hits[was].at == last.value;
      assert fewer[was].at == last.value;
    }
  }

  lemma RevertKeepsConsistent(s: Store, g: GroupId)
    requires Consistent(s)
    ensures Consistent(Reverted(s, g))
  {
    var t := Reverted(s, g);
    forall e | e in t.rows ensures RowAgrees(t.opens, t.clicks, t.reverted, e, t.rows[e]) {
      assert RowAgrees(s.opens, s.clicks, s.reverted, e, s.rows[e]);
      var r := s.rows[e];
      FewerHits(s.opens, t.opens, e, r.everOpened, r.openCount, r.lastOpened);
      FewerHits(s.clicks, t.clicks, e, r.everClicked, r.clickCount, r.lastClicked);
    }
  }

  // A row the operation starts from agrees with the events seen so far.
  lemma RowForAgrees(s: Store, e: EmailId, g: GroupId, to: Address)
    requires Consistent(s) && g !in s.reverted
    ensures RowAgrees(s.opens, s.clicks, s.reverted, e, RowFor(s, e, g, to))
  {
  }

  lemma OpenKeepsConsistent(s: Store, ev: EventId, e: EmailId, g: GroupId, to: Address, at: Time)
    requires Consistent(s) && g !in s.reverted && ev !in s.opens
    ensures Consistent(Apply(s, Opened(ev, e, g, to, at)))
  {
    var t := Apply(s, Opened(ev, e, g, to, at));
    var r := RowFor(s, e, g, to);
    RowForAgrees(s, e, g, to);
    NewHit(s.opens, ev, Hit(e, None, at), r.everOpened, r.openCount, r.lastOpened);
    forall f | f in t.rows ensures RowAgrees(t.opens, t.clicks, t.reverted, f, t.rows[f]) {
      if f != e {
        var q := s.rows[f];
        assert RowAgrees(s.opens, s.clicks, s.reverted, f, s.rows[f]);
        OtherHit(s.opens, ev, Hit(e, None, at), f, q.everOpened, q.openCount, q.lastOpened);
      }
    }
  }

  lemma ClickKeepsConsistent(s: Store, ev: EventId, e: EmailId, g: GroupId, to: Address, url: string, at: Time)
    requires Consistent(s) && g !in s.reverted && ev !in s.clicks
    ensures Consistent(Apply(s, Clicked(ev, e, g, to, url, at)))
  {
    var t := Apply(s, Clicked(ev, e, g, to, url, at));
    var r := RowFor(s, e, g, to);
    RowForAgrees(s, e, g, to);
    NewHit(s.clicks, ev, Hit(e, Some(url), at), r.everClicked, r.clickCount, r.lastClicked);
    forall f | f in t.rows ensures RowAgrees(t.opens, t.clicks, t.reverted, f, t.rows[f]) {
      if f != e {
        var q := s.rows[f];
        assert RowAgrees(s.opens, s.clicks, s.reverted, f, s.rows[f]);
        OtherHit(s.clicks, ev, Hit(e, Some(url), at), f, q.everClicked, q.clickCount, q.lastClicked);
      }
    }
  }

  // Delivery, failure and send records leave the tallies of their row alone.
  predicate SameTallies(a: Rollup, b: Rollup) {
    && a.everOpened == b.everOpened && a.openCount == b.openCount && a.lastOpened == b.lastOpened
    && a.everClicked == b.everClicked && a.clickCount == b.clickCount && a.lastClicked == b.lastClicked
    && a.group == b.group
  }

  lemma PutRowKeepsConsistent(s: Store, e: EmailId, g: GroupId, to: Address, r: Rollup)
    requires Consistent(s) && g !in s.reverted && SameTallies(RowFor(s, e, g, to), r)
    ensures Consistent(s.(rows := s.rows[e := r]))
  {
    RowForAgrees(s, e, g, to);
    assert RowAgrees(s.opens, s.clicks, s.reverted, e, r);
  }

  lemma ApplyKeepsConsistent(s: Store, op: Op)
    requires Consistent(s)
    ensures Consistent(Apply(s, op))
  {
    match op {
      case Revert(g) => RevertKeepsConsistent(s, g);
      case Opened(ev, e, g, to, at) =>
        if g !in s.reverted && ev !in s.opens {
          OpenKeepsConsistent(s, ev, e, g, to, at);
        }
      case Clicked(ev, e, g, to, url, at) =>
        if g !in s.reverted && ev !in s.clicks {
          ClickKeepsConsistent(s, ev, e, g, to, url, at);
        }
      case RecordSent(e, g, to, at) =>
        if g !in s.reverted && e !in s.rows {
          PutRowKeepsConsistent(s, e, g, to, Blank(g, to).(sentAt := Some(at)));
        }
      case Delivered(e, g, to, at) =>
        if g !in s.reverted {
          PutRowKeepsConsistent(s, e, g, to, WithDelivery(RowFor(s, e, g, to), at));
        }
      case Failed(e, g, to, at) =>
        if g !in s.reverted {
          PutRowKeepsConsistent(s, e, g, to, WithFailure(RowFor(s, e, g, to), at));
        }
    }
  }

  /* ---- runs ---- */

  // How one attempt at an operation ended. Unsure: it committed, but the caller
  // saw an error.
  datatype Outcome = Committed | Lost | Unsure

  datatype Attempt = Attempt(op: Op, outcome: Outcome)

  function Step(s: Store, a: Attempt): Store {
    if a.outcome == Lost then s else Apply(s, a.op)
  }

  function Run(s: Store, run: seq<Attempt>): Store {
    if run == [] then s else Step(Run(s, run[..|run| - 1]), run[|run| - 1])
  }

  function Applied(run: seq<Attempt>): set<Op> {
    set i | 0 <= i < |run| && run[i].outcome != Lost :: run[i].op
  }

  /** The rollup agrees with the events in every reachable state. */
  lemma {:induction false} RollupAgreesWithEvents(run: seq<Attempt>)
    ensures Consistent(Run(EMPTY, run))
  {
    if run != [] {
      RollupAgreesWithEvents(run[..|run| - 1]);
      ApplyKeepsConsistent(Run(EMPTY, run[..|run| - 1]), run[|run| - 1].op);
    }
  }

  // Nothing stored belongs to the group: no row, and no event of a row's.
  predicate EmptyGroup(s: Store, g: GroupId) {
    && (forall e :: e in s.rows ==> s.rows[e].group != g)
    && (forall ev :: ev in s.opens ==> !InGroup(s, s.opens[ev].email, g))
    && (forall ev :: ev in s.clicks ==> !InGroup(s, s.clicks[ev].email, g))
  }

  lemma {:induction false} TombstonesStay(s: Store, run: seq<Attempt>)
    ensures s.reverted <= Run(s, run).reverted
  {
    if run != [] {
      TombstonesStay(s, run[..|run| - 1]);
    }
  }

  lemma {:induction false} RunKeepsConsistent(s: Store, run: seq<Attempt>)
    requires Consistent(s)
    ensures Consistent(Run(s, run))
  {
    if run != [] {
      RunKeepsConsistent(s, run[..|run| - 1]);
      ApplyKeepsConsistent(Run(s, run[..|run| - 1]), run[|run| - 1].op);
    }
  }

  /** Once a group is reverted it holds no row and no event, and nothing that
      arrives later, in any order, brings one back. */
  lemma RevertedGroupStaysEmpty(before: seq<Attempt>, g: GroupId, later: seq<Attempt>)
    ensures EmptyGroup(Run(Apply(Run(EMPTY, before), Revert(g)), later), g)
  {
    RollupAgreesWithEvents(before);
    var s := Apply(Run(EMPTY, before), Revert(g));
    ApplyKeepsConsistent(Run(EMPTY, before), Revert(g));
    TombstonesStay(s, later);
    RunKeepsConsistent(s, later);
    var t := Run(s, later);
    assert g in t.reverted;
    forall e | e in t.rows ensures t.rows[e].group != g {
      assert RowAgrees(t.opens, t.clicks, t.reverted, e, t.rows[e]);
    }
  }

  /* ---- convergence ---- */

  predicate SameRecipient(a: Op, b: Op) {
    !a.Revert? && !b.Revert? && a.email == b.email ==> a.group == b.group && a.to == b.to
  }

  predicate SameEvent(a: Op, b: Op) {
    && (a.Opened? && b.Opened? && a.event == b.event ==> a.email == b.email && a.at == b.at)
    && (a.Clicked? && b.Clicked? && a.event == b.event ==> a.email == b.email && a.url == b.url && a.at == b.at)
  }

  /** email_id fixes the group and the address; sg_event_id fixes the payload. */
  predicate WellKeyed(ops: set<Op>) {
    forall a, b :: a in ops && b in ops ==> SameRecipient(a, b) && SameEvent(a, b)
  }

  // An applied operation whose group has not been reverted.
  predicate Live(ops: set<Op>, o: Op) {
    o in ops && !o.Revert? && Revert(o.group) !in ops
  }

  // What the tables must show for a live operation.
  predicate RowShows(rows: map<EmailId, Rollup>, o: Op)
    requires !o.Revert?
  {
    && o.email in rows
    && rows[o.email].group == o.group && rows[o.email].to == o.to
    && (o.Delivered? ==> rows[o.email].delivered)
    && (o.Failed? ==> rows[o.email].failed)
  }

  predicate EventShows(opens: map<EventId, Hit>, clicks: map<EventId, Hit>, o: Op) {
    && (o.Opened? ==> o.event in opens && opens[o.event] == Hit(o.email, None, o.at))
    && (o.Clicked? ==> o.event in clicks && clicks[o.event] == Hit(o.email, Some(o.url), o.at))
  }

  // What may be stored only because some live operation put it there.
  datatype Trace = ARow(email: EmailId) | ADelivery(email: EmailId) | AFailure(email: EmailId)
                 | AnOpen(event: EventId) | AClick(event: EventId)

  predicate Leaves(o: Op, t: Trace) {
    match t
    case ARow(e) => !o.Revert? && o.email == e
    case ADelivery(e) => o.Delivered? && o.email == e
    case AFailure(e) => o.Failed? && o.email == e
    case AnOpen(ev) => o.Opened? && o.event == ev
    case AClick(ev) => o.Clicked? && o.event == ev
  }

  predicate HasTrace(s: Store, t: Trace) {
    match t
    case ARow(e) => e in s.rows
    case ADelivery(e) => e in s.rows && s.rows[e].delivered
    case AFailure(e) => e in s.rows && s.rows[e].failed
    case AnOpen(ev) => ev in s.opens
    case AClick(ev) => ev in s.clicks
  }

  ghost predicate Caused(ops: set<Op>, t: Trace) {
    exists o :: Live(ops, o) && Leaves(o, t)
  }

  /** The store is exactly what the set of applied operations says, whatever the
      order and the number of times they were applied. */
  ghost predicate Reflects(s: Store, ops: set<Op>) {
    && (forall g :: g in s.reverted <==> Revert(g) in ops)
    && (forall o :: Live(ops, o) ==> RowShows(s.rows, o) && EventShows(s.opens, s.clicks, o))
    && (forall t :: HasTrace(s, t) ==> Caused(ops, t))
  }

  lemma CausedGrows(ops: set<Op>, op: Op, t: Trace)
    requires !op.Revert? && Caused(ops, t)
    ensures Caused(ops + {op}, t)
  {
  }

  lemma CausedNow(ops: set<Op>, op: Op, t: Trace)
    requires !op.Revert? && Revert(op.group) !in ops && Leaves(op, t)
    ensures Caused(ops + {op}, t)
  {
  }

  // The row an event or a trace belongs to was written for the same recipient.
  lemma RowOfLive(s: Store, ops: set<Op>, o: Op, g: GroupId)
    requires Reflects(s, ops) && Live(ops, o)
    ensures InGroup(s, o.email, g) <==> o.group == g
  {
  }

  // What a revert leaves in place was put there by another group's operation.
  lemma SurvivesRevert(s: Store, ops: set<Op>, g: GroupId, tr: Trace)
    requires Reflects(s, ops) && HasTrace(Reverted(s, g), tr)
    ensures Caused(ops + {Revert(g)}, tr)
  {
    assert HasTrace(s, tr);
    var o :| Live(ops, o) && Leaves(o, tr);
    RowOfLive(s, ops, o, g);
    assert EventShows(s.opens, s.clicks, o);
    assert Live(ops + {Revert(g)}, o);
  }

  lemma RevertReflects(s: Store, ops: set<Op>, g: GroupId)
    requires Reflects(s, ops)
    ensures Reflects(Reverted(s, g), ops + {Revert(g)})
  {
    var t, more := Reverted(s, g), ops + {Revert(g)};
    forall o | Live(more, o) ensures RowShows(t.rows, o) && EventShows(t.opens, t.clicks, o) {
      assert Live(ops, o);
      RowOfLive(s, ops, o, g);
      assert RowShows(s.rows, o) && EventShows(s.opens, s.clicks, o);
    }
    forall tr | HasTrace(t, tr) ensures Caused(more, tr) {
      SurvivesRevert(s, ops, g, tr);
    }
  }

  lemma DroppedReflects(s: Store, ops: set<Op>, op: Op)
    requires Reflects(s, ops) && !op.Revert? && op.group in s.reverted
    ensures Reflects(s, ops + {op})
  {
  }

  // A row keeps what it showed and shows the new operation too.
  lemma RowKeepsShowing(s: Store, ops: set<Op>, op: Op, r: Rollup)
    requires Reflects(s, ops) && WellKeyed(ops + {op})
    requires !op.Revert? && op.group !in s.reverted
    requires var was := RowFor(s, op.email, op.group, op.to);
             && r.group == was.group && r.to == was.to
             && r.delivered == (was.delivered || op.Delivered?) && r.failed == (was.failed || op.Failed?)
    ensures forall o :: Live(ops + {op}, o) ==> RowShows(s.rows[op.email := r], o)
    ensures forall e :: e in s.rows || e == op.email ==> Caused(ops + {op}, ARow(e))
    ensures forall e :: e in s.rows[op.email := r] && s.rows[op.email := r][e].delivered ==> Caused(ops + {op}, ADelivery(e))
    ensures forall e :: e in s.rows[op.email := r] && s.rows[op.email := r][e].failed ==> Caused(ops + {op}, AFailure(e))
  {
    var more := ops + {op};
    assert r.group == op.group && r.to == op.to by {
      if op.email in s.rows {
        assert HasTrace(s, ARow(op.email));
        var o :| Live(ops, o) && Leaves(o, ARow(op.email));
        assert RowShows(s.rows, o) && SameRecipient(o, op);
      }
    }
    forall o | Live(more, o) ensures RowShows(s.rows[op.email := r], o) {
      assert SameRecipient(o, op);
      assert o != op ==> Live(ops, o) && RowShows(s.rows, o);
    }
    forall e | e in s.rows || e == op.email ensures Caused(more, ARow(e)) {
      if e == op.email { CausedNow(ops, op, ARow(e)); } else { assert HasTrace(s, ARow(e)); CausedGrows(ops, op, ARow(e)); }
    }
    forall e | e in s.rows[op.email := r] && s.rows[op.email := r][e].delivered ensures Caused(more, ADelivery(e)) {
      if e == op.email && op.Delivered? {
        CausedNow(ops, op, ADelivery(e));
      } else {
        assert HasTrace(s, ADelivery(e));
        CausedGrows(ops, op, ADelivery(e));
      }
    }
    forall e | e in s.rows[op.email := r] && s.rows[op.email := r][e].failed ensures Caused(more, AFailure(e)) {
      if e == op.email && op.Failed? {
        CausedNow(ops, op, AFailure(e));
      } else {
        assert HasTrace(s, AFailure(e));
        CausedGrows(ops, op, AFailure(e));
      }
    }
  }

  // The event tables keep what they showed and show the new operation too.
  lemma EventsKeepShowing(s: Store, t: Store, ops: set<Op>, op: Op)
    requires Reflects(s, ops) && WellKeyed(ops + {op})
    requires !op.Revert? && op.group !in s.reverted && t == Apply(s, op)
    ensures forall o :: Live(ops + {op}, o) ==> EventShows(t.opens, t.clicks, o)
    ensures forall ev :: ev in t.opens ==> Caused(ops + {op}, AnOpen(ev))
    ensures forall ev :: ev in t.clicks ==> Caused(ops + {op}, AClick(ev))
  {
    var more := ops + {op};
    forall o | Live(more, o) ensures EventShows(t.opens, t.clicks, o) {
      SeenEventMatches(s, ops, op);
      assert SameEvent(o, op);
      assert o != op ==> Live(ops, o) && EventShows(s.opens, s.clicks, o);
    }
    forall ev | ev in t.opens ensures Caused(more, AnOpen(ev)) {
      if ev in s.opens {
        assert HasTrace(s, AnOpen(ev));
        CausedGrows(ops, op, AnOpen(ev));
      } else {
        CausedNow(ops, op, AnOpen(ev));
      }
    }
    forall ev | ev in t.clicks ensures Caused(more, AClick(ev)) {
      if ev in s.clicks {
        assert HasTrace(s, AClick(ev));
        CausedGrows(ops, op, AClick(ev));
      } else {
        CausedNow(ops, op, AClick(ev));
      }
    }
  }

  // A duplicate event carries what is already stored, and its row shows it.
  lemma SeenEventMatches(s: Store, ops: set<Op>, op: Op)
    requires Reflects(s, ops) && WellKeyed(ops + {op})
    requires !op.Revert? && op.group !in s.reverted
    ensures op.Opened? && op.event in s.opens ==> EventShows(s.opens, s.clicks, op) && op.email in s.rows
    ensures op.Clicked? && op.event in s.clicks ==> EventShows(s.opens, s.clicks, op) && op.email in s.rows
  {
    if op.Opened? && op.event in s.opens {
      assert HasTrace(s, AnOpen(op.event));
      var o :| Live(ops, o) && Leaves(o, AnOpen(op.event));
      assert SameEvent(o, op) && EventShows(s.opens, s.clicks, o) && RowShows(s.rows, o);
    }
    if op.Clicked? && op.event in s.clicks {
      assert HasTrace(s, AClick(op.event));
      var o :| Live(ops, o) && Leaves(o, AClick(op.event));
      assert SameEvent(o, op) && EventShows(s.opens, s.clicks, o) && RowShows(s.rows, o);
    }
  }

  // An operation that is not dropped rewrites one row.
  lemma WrittenRow(s: Store, ops: set<Op>, op: Op) returns (r: Rollup)
    requires Reflects(s, ops) && WellKeyed(ops + {op})
    requires !op.Revert? && op.group !in s.reverted
    ensures Apply(s, op).rows == s.rows[op.email := r] && Apply(s, op).reverted == s.reverted
    ensures var was := RowFor(s, op.email, op.group, op.to);
            && r.group == was.group && r.to == was.to
            && r.delivered == (was.delivered || op.Delivered?) && r.failed == (was.failed || op.Failed?)
  {
    var was := RowFor(s, op.email, op.group, op.to);
    SeenEventMatches(s, ops, op);
    match op {
      case RecordSent(e, g, to, at) => r := if e in s.rows then was else Blank(g, to).(sentAt := Some(at));
      case Delivered(_, _, _, at) => r := WithDelivery(was, at);
      case Failed(_, _, _, at) => r := WithFailure(was, at);
      case Opened(ev, _, _, _, at) => r := if ev in s.opens then was else WithOpen(was, at);
      case Clicked(ev, _, _, _, _, at) => r := if ev in s.clicks then was else WithClick(was, at);
    }
  }

  lemma WriteReflects(s: Store, ops: set<Op>, op: Op)
    requires Reflects(s, ops) && WellKeyed(ops + {op})
    requires !op.Revert? && op.group !in s.reverted
    ensures Reflects(Apply(s, op), ops + {op})
  {
    var t := Apply(s, op);
    var r := WrittenRow(s, ops, op);
    RowKeepsShowing(s, ops, op, r);
    EventsKeepShowing(s, t, ops, op);
    forall g ensures g in t.reverted <==> Revert(g) in ops + {op} {
      assert g in s.reverted <==> Revert(g) in ops;
    }
    forall tr | HasTrace(t, tr) ensures Caused(ops + {op}, tr) {
      match tr {
        case ARow(e) =>
        case ADelivery(e) =>
        case AFailure(e) =>
        case AnOpen(ev) =>
        case AClick(ev) =>
      }
    }
  }

  lemma ApplyReflects(s: Store, ops: set<Op>, op: Op)
    requires Consistent(s) && Reflects(s, ops) && WellKeyed(ops + {op})
    ensures Reflects(Apply(s, op), ops + {op})
  {
    if op.Revert? {
      RevertReflects(s, ops, op.group);
    } else if op.group in s.reverted {
      DroppedReflects(s, ops, op);
    } else {
      WriteReflects(s, ops, op);
    }
  }

  lemma {:induction false} RunReflects(run: seq<Attempt>)
    requires WellKeyed(Applied(run))
    ensures Reflects(Run(EMPTY, run), Applied(run))
  {
    if run != [] {
      var before, last := run[..|run| - 1], run[|run| - 1];
      assert Applied(run) == Applied(before) + (if last.outcome == Lost then {} else {last.op}) by {
        forall i | 0 <= i < |before| ensures before[i] == run[i] {}
      }
      RunReflects(before);
      RollupAgreesWithEvents(before);
      if last.outcome != Lost {
        ApplyReflects(Run(EMPTY, before), Applied(before), last.op);
      }
    }
  }

  /* ---- what the analytics read ---- */

  // Everything but the first-wins instants.
  datatype RowView = RowView(group: GroupId, to: Address, delivered: bool, failed: bool,
                             everOpened: bool, openCount: nat, lastOpened: Option<Time>,
                             everClicked: bool, clickCount: nat, lastClicked: Option<Time>)

  datatype View = View(rows: map<EmailId, RowView>, opens: map<EventId, Hit>, clicks: map<EventId, Hit>,
                       reverted: set<GroupId>)

  function RowViewOf(r: Rollup): RowView {
    RowView(r.group, r.to, r.delivered, r.failed, r.everOpened, r.openCount, r.lastOpened, r.everClicked,
            r.clickCount, r.lastClicked)
  }

  function ViewOf(s: Store): View {
    View(map e | e in s.rows :: RowViewOf(s.rows[e]), s.opens, s.clicks, s.reverted)
  }

  lemma OneSideHits(s: Store, t: Store, ops: set<Op>)
    requires Reflects(s, ops) && Reflects(t, ops)
    ensures forall e :: e in s.rows ==> e in t.rows && s.rows[e].group == t.rows[e].group && s.rows[e].to == t.rows[e].to
                                        && (s.rows[e].delivered ==> t.rows[e].delivered)
                                        && (s.rows[e].failed ==> t.rows[e].failed)
    ensures forall ev :: ev in s.opens ==> ev in t.opens && t.opens[ev] == s.opens[ev]
    ensures forall ev :: ev in s.clicks ==> ev in t.clicks && t.clicks[ev] == s.clicks[ev]
  {
    forall e | e in s.rows
      ensures e in t.rows && s.rows[e].group == t.rows[e].group && s.rows[e].to == t.rows[e].to
              && (s.rows[e].delivered ==> t.rows[e].delivered) && (s.rows[e].failed ==> t.rows[e].failed)
    {
      assert HasTrace(s, ARow(e));
      var o :| Live(ops, o) && Leaves(o, ARow(e));
      assert RowShows(s.rows, o) && RowShows(t.rows, o);
      if s.rows[e].delivered {
        assert HasTrace(s, ADelivery(e));
        var d :| Live(ops, d) && Leaves(d, ADelivery(e));
        assert RowShows(t.rows, d);
      }
      if s.rows[e].failed {
        assert HasTrace(s, AFailure(e));
        var f :| Live(ops, f) && Leaves(f, AFailure(e));
        assert RowShows(t.rows, f);
      }
    }
    forall ev | ev in s.opens ensures ev in t.opens && t.opens[ev] == s.opens[ev] {
      assert HasTrace(s, AnOpen(ev));
      var o :| Live(ops, o) && Leaves(o, AnOpen(ev));
      assert EventShows(s.opens, s.clicks, o) && EventShows(t.opens, t.clicks, o);
    }
    forall ev | ev in s.clicks ensures ev in t.clicks && t.clicks[ev] == s.clicks[ev] {
      assert HasTrace(s, AClick(ev));
      var o :| Live(ops, o) && Leaves(o, AClick(ev));
      assert EventShows(s.opens, s.clicks, o) && EventShows(t.opens, t.clicks, o);
    }
  }

  lemma SameTables(s: Store, t: Store, ops: set<Op>)
    requires Reflects(s, ops) && Reflects(t, ops)
    ensures s.opens == t.opens && s.clicks == t.clicks && s.reverted == t.reverted
    ensures s.rows.Keys == t.rows.Keys
  {
    OneSideHits(s, t, ops);
    OneSideHits(t, s, ops);
    forall g ensures g in s.reverted <==> g in t.reverted {}
  }

  lemma SameRow(opens: map<EventId, Hit>, clicks: map<EventId, Hit>, reverted: set<GroupId>, e: EmailId, a: Rollup,
                b: Rollup)
    requires RowAgrees(opens, clicks, reverted, e, a) && RowAgrees(opens, clicks, reverted, e, b)
    requires a.group == b.group && a.to == b.to && a.delivered == b.delivered && a.failed == b.failed
    ensures RowViewOf(a) == RowViewOf(b)
  {
  }

  /** Two consistent stores that reflect the same operations look the same. */
  lemma SameOpsSameView(s: Store, t: Store, ops: set<Op>)
    requires Consistent(s) && Consistent(t) && Reflects(s, ops) && Reflects(t, ops)
    ensures ViewOf(s) == ViewOf(t)
  {
    SameTables(s, t, ops);
    forall e | e in s.rows ensures e in t.rows && RowViewOf(s.rows[e]) == RowViewOf(t.rows[e]) {
      OneSideHits(s, t, ops);
      OneSideHits(t, s, ops);
      SameRow(s.opens, s.clicks, s.reverted, e, s.rows[e], t.rows[e]);
    }
  }

  /** Convergence: any two runs that applied the same set of operations, in any
      order, with any repetitions, losses and ambiguous commits, agree on the rows,
      flags, counts, last instants, event tables and tombstones. */
  lemma Converges(a: seq<Attempt>, b: seq<Attempt>)
    requires Applied(a) == Applied(b) && WellKeyed(Applied(a))
    ensures ViewOf(Run(EMPTY, a)) == ViewOf(Run(EMPTY, b))
  {
    RunReflects(a);
    RunReflects(b);
    RollupAgreesWithEvents(a);
    RollupAgreesWithEvents(b);
    SameOpsSameView(Run(EMPTY, a), Run(EMPTY, b), Applied(a));
  }
}
