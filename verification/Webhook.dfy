/** The SendGrid event webhook: one batch of events applied to the engagement
    store, kept going past failures, acknowledged only when every event landed. */
module Webhook {
  import opened Wrappers
  import opened Engagement
  import opened EngagementStore

  /** One entry of a batch, its url already cut to the stored length. */
  datatype Event = Event(
    to: Address,
    kind: string,
    at: Time,
    sgEventId: EventId,
    emailId: EmailId,
    groupId: GroupId,
    url: string)

  predicate IsFailure(kind: string) {
    kind == "bounce" || kind == "dropped" || kind == "spamreport" || kind == "blocked"
  }

  // The operation an event stands for, if it is one the store tracks.
  function Translate(ev: Event): Option<Op> {
    if ev.emailId == "" || ev.groupId == "" then None
    else if ev.kind == "delivered" then Some(Delivered(ev.emailId, ev.groupId, ev.to, ev.at))
    else if ev.kind == "open" then
      if ev.sgEventId == "" then None else Some(Opened(ev.sgEventId, ev.emailId, ev.groupId, ev.to, ev.at))
    else if ev.kind == "click" then
      if ev.sgEventId == "" then None else Some(Clicked(ev.sgEventId, ev.emailId, ev.groupId, ev.to, ev.url, ev.at))
    else if IsFailure(ev.kind) then Some(Failed(ev.emailId, ev.groupId, ev.to, ev.at))
    else None
  }

  /** What each kind of event leaves in the store once it has committed, if it names a
      recipient and a group that is not tombstoned. */
  ghost predicate Left(s: Store, t: Store, ev: Event) {
    && t.reverted == s.reverted
    && (ev.kind == "delivered" ==>
          ev.emailId in t.rows && t.rows[ev.emailId].delivered && t.opens == s.opens && t.clicks == s.clicks)
    && (ev.kind in {"bounce", "dropped", "spamreport", "blocked"} ==>
          ev.emailId in t.rows && t.rows[ev.emailId].failed && t.opens == s.opens && t.clicks == s.clicks)
    && (ev.kind == "open" && ev.sgEventId != "" && ev.sgEventId !in s.opens ==>
          && t.opens == s.opens[ev.sgEventId := Hit(ev.emailId, None, ev.at)] && t.clicks == s.clicks
          && ev.emailId in t.rows && t.rows[ev.emailId].everOpened)
    && (ev.kind == "click" && ev.sgEventId != "" && ev.sgEventId !in s.clicks ==>
          && t.clicks == s.clicks[ev.sgEventId := Hit(ev.emailId, Some(ev.url), ev.at)] && t.opens == s.opens
          && ev.emailId in t.rows && t.rows[ev.emailId].everClicked)
    && (ev.emailId !in s.rows && ev.emailId in t.rows ==>
          t.rows[ev.emailId].group == ev.groupId && t.rows[ev.emailId].to == ev.to)
    && (ev.kind in {"open", "click"} && ev.sgEventId == "" ==> t == s)
    && (ev.kind !in {"delivered", "bounce", "dropped", "spamreport", "blocked", "open", "click"} ==> t == s)
  }

  lemma EventLeaves(s: Store, ev: Event)
    requires ev.emailId != "" && ev.groupId != "" && ev.groupId !in s.reverted
    ensures Left(s, match Translate(ev) case None => s case Some(op) => Apply(s, op), ev)
    ensures Translate(ev.(emailId := "")).None? && Translate(ev.(groupId := "")).None?
  {
  }

  // The attempts a batch amounts to, when attempt k ends as outcomes[k].
  function AttemptsOf(batch: seq<Event>, outcomes: seq<Outcome>): seq<Attempt>
    requires |outcomes| == |batch|
  {
    if batch == [] then [] else
    var n := |batch| - 1;
    AttemptsOf(batch[..n], outcomes[..n]) +
    match Translate(batch[n])
    case None => []
    case Some(op) => [Attempt(op, outcomes[n])]
  }

  predicate Errs(ev: Event, o: Outcome) {
    Translate(ev).Some? && o != Committed
  }

  // One event. The database either runs the transaction or rolls it back.
  method ApplyEvent(store: SendGridEngagementStore, ev: Event, outcome: Outcome) returns (ok: bool)
    modifies store
    ensures store.State() == match Translate(ev)
                             case None => old(store.State())
                             case Some(op) => Step(old(store.State()), Attempt(op, outcome))
    ensures ok <==> !Errs(ev, outcome)
    ensures outcome == Lost || ev.emailId == "" || ev.groupId == "" ==> store.State() == old(store.State())
    ensures outcome != Lost && ev.emailId != "" && ev.groupId != "" && ev.groupId !in old(store.revertedGroups) ==>
              Left(old(store.State()), store.State(), ev)
  {
    if ev.emailId == "" || ev.groupId == "" {
      return true;
    }
    if ev.groupId !in store.revertedGroups {
      EventLeaves(store.State(), ev);
    }
    var runs := outcome != Lost;
    ok := outcome == Committed;
    if ev.kind == "delivered" {
      if runs { store.ApplyDelivered(ev.emailId, ev.groupId, ev.to, ev.at); }
    } else if ev.kind == "open" {
      if ev.sgEventId == "" {
        return true;
      }
      if runs { store.ApplyOpen(ev.sgEventId, ev.emailId, ev.groupId, ev.to, ev.at); }
    } else if ev.kind == "click" {
      if ev.sgEventId == "" {
        return true;
      }
      if runs { store.ApplyClick(ev.sgEventId, ev.emailId, ev.groupId, ev.to, ev.url, ev.at); }
    } else if IsFailure(ev.kind) {
      if runs { store.ApplyFailed(ev.emailId, ev.groupId, ev.to, ev.at); }
    } else {
      ok := true;
    }
  }

  // The batch loop: `status` is 204, or 500 to ask for redelivery; `first` is the
  // index of the error that is reported.
  method ServeBatch(store: SendGridEngagementStore, batch: seq<Event>, outcomes: seq<Outcome>) returns (status: nat,
                    first: Option<nat>)
    requires |outcomes| == |batch|
    modifies store
    ensures store.State() == Run(old(store.State()), AttemptsOf(batch, outcomes))
    ensures status == 204 || status == 500
    ensures status == 204 <==> forall i :: 0 <= i < |batch| ==> !Errs(batch[i], outcomes[i])
    ensures status == 500 ==> first.Some? && first.value < |batch| && Errs(batch[first.value], outcomes[first.value])
                              && forall i :: 0 <= i < first.value ==> !Errs(batch[i], outcomes[i])
  {
    hide Left, Translate;
    first := None;
    for k := 0 to |batch|
      invariant store.State() == Run(old(store.State()), AttemptsOf(batch[..k], outcomes[..k]))
      invariant first.None? ==> forall i :: 0 <= i < k ==> !Errs(batch[i], outcomes[i])
      invariant first.Some? ==> first.value < k && Errs(batch[first.value], outcomes[first.value])
                                && forall i :: 0 <= i < first.value ==> !Errs(batch[i], outcomes[i])
    {
      var ok := ApplyEvent(store, batch[k], outcomes[k]);
      AttemptsSoFar(batch, outcomes, k);
      OneMore(old(store.State()), AttemptsOf(batch[..k], outcomes[..k]), batch[k], outcomes[k]);
      if !ok && first.None? {
        first := Some(k);
      }
    }
    assert batch[..|batch|] == batch && outcomes[..|batch|] == outcomes;
    status := if first.Some? then 500 else 204;
  }

  lemma AttemptsSoFar(batch: seq<Event>, outcomes: seq<Outcome>, k: nat)
    requires k < |batch| == |outcomes|
    ensures AttemptsOf(batch[..k + 1], outcomes[..k + 1]) ==
            AttemptsOf(batch[..k], outcomes[..k]) +
                match Translate(batch[k]) case None => [] case Some(op) => [Attempt(op, outcomes[k])]
  {
    assert batch[..k + 1][..k] == batch[..k] && outcomes[..k + 1][..k] == outcomes[..k];
  }

  lemma OneMore(s: Store, run: seq<Attempt>, ev: Event, o: Outcome)
    ensures match Translate(ev)
            case None => run + [] == run
            case Some(op) => Run(s, run + [Attempt(op, o)]) == Step(Run(s, run), Attempt(op, o))
  {
  }

  /* ---- redelivery ---- */

  /** What reaches the store over its life: posts of batches, and the dispatcher's
      own calls (recording a send, purging a reverted group). */
  datatype Item =
    | Post(batch: seq<Event>, outcomes: seq<Outcome>)
    | Call(op: Op, outcome: Outcome)

  predicate WellFormed(item: Item) {
    item.Post? ==> |item.outcomes| == |item.batch|
  }

  function ItemAttempts(item: Item): seq<Attempt>
    requires WellFormed(item)
  {
    match item
    case Post(batch, outcomes) => AttemptsOf(batch, outcomes)
    case Call(op, o) => [Attempt(op, o)]
  }

  function Attempts(history: seq<Item>): seq<Attempt>
    requires forall h :: h in history ==> WellFormed(h)
  {
    if history == [] then [] else
    var n := |history| - 1;
    Attempts(history[..n]) + ItemAttempts(history[n])
  }

  // 2xx for a batch, nil for a call.
  predicate Acknowledged(item: Item)
    requires WellFormed(item)
  {
    match item
    case Post(batch, outcomes) => forall i :: 0 <= i < |batch| ==> !Errs(batch[i], outcomes[i])
    case Call(_, o) => o == Committed
  }

  predicate Asks(item: Item, op: Op) {
    match item
    case Post(batch, _) => exists i :: 0 <= i < |batch| && Translate(batch[i]) == Some(op)
    case Call(o, _) => o == op
  }

  ghost predicate Requested(history: seq<Item>, op: Op) {
    exists i :: 0 <= i < |history| && Asks(history[i], op)
  }

  ghost predicate Confirmed(history: seq<Item>, op: Op)
    requires forall h :: h in history ==> WellFormed(h)
  {
    exists i :: 0 <= i < |history| && Asks(history[i], op) && Acknowledged(history[i])
  }

  /** Whatever was refused was sent again until some batch or call holding it was
      acknowledged. */
  ghost predicate Redelivered(history: seq<Item>)
    requires forall h :: h in history ==> WellFormed(h)
  {
    forall op :: Requested(history, op) ==> Confirmed(history, op)
  }

  lemma AppliedConcat(a: seq<Attempt>, b: seq<Attempt>)
    ensures Applied(a + b) == Applied(a) + Applied(b)
  {
    var c := a + b;
    forall op | op in Applied(a) + Applied(b) ensures op in Applied(c) {
      if op in Applied(a) {
        var i :| 0 <= i < |a| && a[i].outcome != Lost && a[i].op == op;
        assert c[i] == a[i];
      } else {
        var i :| 0 <= i < |b| && b[i].outcome != Lost && b[i].op == op;
        assert c[|a| + i] == b[i];
      }
    }
    forall op | op in Applied(c) ensures op in Applied(a) + Applied(b) {
      var i :| 0 <= i < |c| && c[i].outcome != Lost && c[i].op == op;
      assert if i < |a| then a[i] == c[i] else b[i - |a|] == c[i];
    }
  }

  // The operations of a batch are those of its tracked events that committed.
  lemma {:induction false} BatchApplied(batch: seq<Event>, outcomes: seq<Outcome>, op: Op)
    requires |outcomes| == |batch|
    ensures op in Applied(AttemptsOf(batch, outcomes)) <==>
            exists i :: 0 <= i < |batch| && Translate(batch[i]) == Some(op) && outcomes[i] != Lost
  {
    if batch != [] {
      var n := |batch| - 1;
      BatchApplied(batch[..n], outcomes[..n], op);
      var last := match Translate(batch[n]) case None => [] case Some(o) => [Attempt(o, outcomes[n])];
      AppliedConcat(AttemptsOf(batch[..n], outcomes[..n]), last);
      assert op in Applied(last) <==> Translate(batch[n]) == Some(op) && outcomes[n] != Lost by {
        if Translate(batch[n]).Some? && outcomes[n] != Lost {
          assert last[0].op in Applied(last);
        }
      }
      if op in Applied(AttemptsOf(batch[..n], outcomes[..n])) {
        var i :| 0 <= i < n && Translate(batch[..n][i]) == Some(op) && outcomes[..n][i] != Lost;
        assert Translate(batch[i]) == Some(op) && outcomes[i] != Lost;
      }
      if i :| 0 <= i < |batch| && Translate(batch[i]) == Some(op) && outcomes[i] != Lost {
        if i < n {
          assert Translate(batch[..n][i]) == Some(op) && outcomes[..n][i] != Lost;
        }
      }
    }
  }

  lemma ItemApplied(item: Item, op: Op)
    requires WellFormed(item)
    ensures op in Applied(ItemAttempts(item)) ==> Asks(item, op)
    ensures Asks(item, op) && Acknowledged(item) ==> op in Applied(ItemAttempts(item))
  {
    match item {
      case Post(batch, outcomes) =>
        BatchApplied(batch, outcomes, op);
        if Asks(item, op) && Acknowledged(item) {
          var i :| 0 <= i < |batch| && Translate(batch[i]) == Some(op);
          assert !Errs(batch[i], outcomes[i]);
        }
      case Call(o, out) =>
        assert ItemAttempts(item)[0] == Attempt(o, out);
    }
  }

  lemma {:induction false} HistoryApplied(history: seq<Item>, op: Op)
    requires forall h :: h in history ==> WellFormed(h)
    ensures op in Applied(Attempts(history)) ==> Requested(history, op)
    ensures Confirmed(history, op) ==> op in Applied(Attempts(history))
  {
    if history != [] {
      var n := |history| - 1;
      var before := history[..n];
      HistoryApplied(before, op);
      ItemApplied(history[n], op);
      AppliedConcat(Attempts(before), ItemAttempts(history[n]));
      if Requested(before, op) {
        var i :| 0 <= i < |before| && Asks(before[i], op);
        assert Asks(history[i], op);
      }
      if i :| 0 <= i < |history| && Asks(history[i], op) && Acknowledged(history[i]) {
        if i < n {
          assert Asks(before[i], op) && Acknowledged(before[i]);
        }
      }
    }
  }

  /** Two histories that ask for the same operations, each redelivered until
      acknowledged, leave stores that read the same. */
  lemma RedeliveryConverges(a: seq<Item>, b: seq<Item>)
    requires forall h :: h in a ==> WellFormed(h)
    requires forall h :: h in b ==> WellFormed(h)
    requires Redelivered(a) && Redelivered(b)
    requires forall op :: Requested(a, op) <==> Requested(b, op)
    requires WellKeyed(Applied(Attempts(a)))
    ensures ViewOf(Run(EMPTY, Attempts(a))) == ViewOf(Run(EMPTY, Attempts(b)))
  {
    forall op ensures op in Applied(Attempts(a)) <==> op in Applied(Attempts(b)) {
      HistoryApplied(a, op);
      HistoryApplied(b, op);
    }
    assert Applied(Attempts(a)) == Applied(Attempts(b));
    Converges(Attempts(a), Attempts(b));
  }

  // The store after one operation and then the other.
  function InOrder(x: Op, y: Op): Store {
    Run(EMPTY, [Attempt(x, Committed), Attempt(y, Committed)])
  }

  /** The excluded columns really are first-wins: delivered_at, failed_at and sent_at
      depend on the order two operations arrive in, and the earlier of them decides. */
  lemma FirstWinsDependsOnOrder()
    ensures var x, y := Delivered("e", "g", "a@x.org", 1), Delivered("e", "g", "a@x.org", 2);
            var a, b := InOrder(x, y), InOrder(y, x);
            ViewOf(a) == ViewOf(b) && "e" in a.rows && "e" in b.rows
            && a.rows["e"].deliveredAt == Some(1) && b.rows["e"].deliveredAt == Some(2)
    ensures var x, y := Failed("e", "g", "a@x.org", 1), Failed("e", "g", "a@x.org", 2);
            var a, b := InOrder(x, y), InOrder(y, x);
            ViewOf(a) == ViewOf(b) && "e" in a.rows && "e" in b.rows
            && a.rows["e"].failedAt == Some(1) && b.rows["e"].failedAt == Some(2)
    ensures var x, y := RecordSent("e", "g", "a@x.org", 1), Delivered("e", "g", "a@x.org", 2);
            var a, b := InOrder(x, y), InOrder(y, x);
            "e" in a.rows && "e" in b.rows && a.rows["e"].sentAt == Some(1) && b.rows["e"].sentAt == None
  {
    var d, e := Delivered("e", "g", "a@x.org", 1), Delivered("e", "g", "a@x.org", 2);
    var f, h := Failed("e", "g", "a@x.org", 1), Failed("e", "g", "a@x.org", 2);
    var sent := RecordSent("e", "g", "a@x.org", 1);
    TwoSteps(d, e);
    TwoSteps(e, d);
    TwoSteps(f, h);
    TwoSteps(h, f);
    TwoSteps(sent, e);
    TwoSteps(e, sent);
  }

  lemma TwoSteps(x: Op, y: Op)
    ensures InOrder(x, y) == Apply(Apply(EMPTY, x), y)
  {
    var first, second := Attempt(x, Committed), Attempt(y, Committed);
    assert [first, second][..1] == [first] && [first][..0] == [];
    assert Run(EMPTY, [first]) == Step(Run(EMPTY, []), first);
  }
}
