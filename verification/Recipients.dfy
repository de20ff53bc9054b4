/** Resolving the recipient list: committee lookups that finish in any order, then one
    pass that normalizes, filters and deduplicates. */
module Recipients {
  import opened Wrappers

  type Email = string

  datatype Member = Member(email: Email, firstName: string)

  /** The answer of one committee lookup. */
  type Lookup = Option<seq<Member>>

  /* ---- what the pass keeps ---- */

  predicate Sendable(email: Email) {
    email != "" && '@' in email
  }

  function Normal(ms: seq<Member>, i: nat, norm: string -> string): Email
    requires i < |ms|
  {
    norm(ms[i].email)
  }

  // The first member with this normalized address.
  predicate IsFirst(ms: seq<Member>, i: nat, norm: string -> string)
    requires i < |ms|
  {
    forall j :: 0 <= j < i ==> Normal(ms, j, norm) != Normal(ms, i, norm)
  }

  predicate Keeps(ms: seq<Member>, i: nat, excluded: set<Email>, norm: string -> string)
    requires i < |ms|
  {
    Sendable(Normal(ms, i, norm)) && Normal(ms, i, norm) !in excluded && IsFirst(ms, i, norm)
  }

  // The positions kept, in order.
  function Kept(ms: seq<Member>, n: nat, excluded: set<Email>, norm: string -> string): seq<nat>
    requires n <= |ms|
  {
    if n == 0 then [] else Kept(ms, n - 1, excluded, norm) + if Keeps(ms, n - 1, excluded, norm) then [n - 1] else []
  }

  // Exactly the positions kept among the first n, ascending.
  predicate AreKept(ms: seq<Member>, n: nat, excluded: set<Email>, norm: string -> string, at: seq<nat>)
    requires n <= |ms|
  {
    && (forall k :: 0 <= k < |at| ==> at[k] < n && Keeps(ms, at[k], excluded, norm))
    && (forall k, l :: 0 <= k < l < |at| ==> at[k] < at[l])
    && (forall i :: 0 <= i < n && Keeps(ms, i, excluded, norm) ==> i in at)
  }

  lemma KeptStep(ms: seq<Member>, n: nat, excluded: set<Email>, norm: string -> string, before: seq<nat>)
    requires n < |ms| && AreKept(ms, n, excluded, norm, before)
    ensures Keeps(ms, n, excluded, norm) ==> AreKept(ms, n + 1, excluded, norm, before + [n])
    ensures !Keeps(ms, n, excluded, norm) ==> AreKept(ms, n + 1, excluded, norm, before)
  {
    var at := before + [n];
    assert at[|before|] == n;
    forall i | 0 <= i < n && Keeps(ms, i, excluded, norm) ensures i in at {
      assert i in before;
    }
  }

  lemma {:induction false} KeptAre(ms: seq<Member>, n: nat, excluded: set<Email>, norm: string -> string)
    requires n <= |ms|
    ensures AreKept(ms, n, excluded, norm, Kept(ms, n, excluded, norm))
  {
    if n > 0 {
      var before := Kept(ms, n - 1, excluded, norm);
      KeptAre(ms, n - 1, excluded, norm);
      KeptStep(ms, n - 1, excluded, norm, before);
      assert before + [] == before;
    }
  }

  predicate Within(ms: seq<Member>, at: seq<nat>) {
    forall k :: 0 <= k < |at| ==> at[k] < |ms|
  }

  function Picked(ms: seq<Member>, at: seq<nat>, norm: string -> string, trim: string -> string): (out: seq<Member>)
    requires Within(ms, at)
    ensures |out| == |at|
    ensures forall k :: 0 <= k < |at| ==> out[k] == Member(Normal(ms, at[k], norm), trim(ms[at[k]].firstName))
  {
    seq(|at|, k requires 0 <= k < |at| => Member(norm(ms[at[k]].email), trim(ms[at[k]].firstName)))
  }

  /** The recipients of a send: one entry per distinct sendable address that has not
      opted out, in the order the addresses first occur. */
  function Resolved(ms: seq<Member>, excluded: set<Email>, norm: string -> string,
                    trim: string -> string): seq<Member> {
    KeptAre(ms, |ms|, excluded, norm);
    Picked(ms, Kept(ms, |ms|, excluded, norm), norm, trim)
  }

  /* ---- lookups ---- */

  function Answered(answers: seq<Lookup>): seq<Member> {
    if answers == [] then [] else
    (match answers[0] case None => [] case Some(ms) => ms) + Answered(answers[1..])
  }

  // How many members the lookups before this one returned.
  function Before(answers: seq<Lookup>, i: nat): nat
    requires i <= |answers|
  {
    if i == 0 then 0 else Before(answers, i - 1) + if answers[i - 1].Some? then |answers[i - 1].value| else 0
  }

  lemma Assoc<T>(a: seq<T>, b: seq<T>, c: seq<T>)
    ensures a + (b + c) == a + b + c
  {
  }

  lemma {:induction false} AnsweredConcat(a: seq<Lookup>, b: seq<Lookup>)
    ensures Answered(a + b) == Answered(a) + Answered(b)
  {
    if a == [] {
      assert a + b == b;
    } else {
      AnsweredConcat(a[1..], b);
      var here := match a[0] case None => [] case Some(ms) => ms;
      assert (a + b)[0] == a[0] && (a + b)[1..] == a[1..] + b;
      Assoc(here, Answered(a[1..]), Answered(b));
    }
  }

  lemma {:induction false} BeforeCounts(answers: seq<Lookup>, i: nat)
    requires i <= |answers|
    ensures |Answered(answers[..i])| == Before(answers, i)
  {
    if i > 0 {
      BeforeCounts(answers, i - 1);
      AnsweredConcat(answers[..i - 1], [answers[i - 1]]);
      assert answers[..i] == answers[..i - 1] + [answers[i - 1]] && [answers[i - 1]][1..] == [];
    }
  }

  /** The members stand committee by committee, each committee's in its own order. */
  lemma CommitteesInOrder(answers: seq<Lookup>, i: nat)
    requires i < |answers| && answers[i].Some?
    ensures var low := Before(answers, i);
            var high := low + |answers[i].value|;
            high <= |Answered(answers)| && Answered(answers)[low..high] == answers[i].value
  {
    hide Answered, Before;
    var front, here, back := Answered(answers[..i]), answers[i].value, Answered(answers[i + 1..]);
    BeforeCounts(answers, i);
    AnsweredConcat(answers[..i], answers[i..]);
    AnsweredFirst(answers, i);
    assert answers == answers[..i] + answers[i..];
    Middle(front, here, back);
  }

  lemma AnsweredFirst(answers: seq<Lookup>, i: nat)
    requires i < |answers| && answers[i].Some?
    ensures Answered(answers[i..]) == answers[i].value + Answered(answers[i + 1..])
  {
    assert answers[i..][0] == answers[i] && answers[i..][1..] == answers[i + 1..];
  }

  lemma Middle<T>(a: seq<T>, b: seq<T>, c: seq<T>)
    ensures var all := a + (b + c); |all| == |a| + |b| + |c| && all[|a|..|a| + |b|] == b
  {
  }

  predicate AllAnswered(answers: seq<Lookup>) {
    forall i :: 0 <= i < |answers| ==> answers[i].Some?
  }

  // Every lookup finishes once.
  predicate IsCompletion(order: seq<nat>, n: nat) {
    && (forall k :: 0 <= k < |order| ==> order[k] < n)
    && (forall k, l :: 0 <= k < l < |order| ==> order[k] != order[l])
    && (forall i :: 0 <= i < n ==> i in order)
  }

  /** Each lookup writes its own slot, so the completion order leaves no trace. */
  method GatherMembers(answers: seq<Lookup>, order: seq<nat>) returns (results: seq<seq<Member>>, ok: bool)
    requires IsCompletion(order, |answers|)
    ensures ok <==> AllAnswered(answers)
    ensures ok ==> |results| == |answers| && forall i :: 0 <= i < |answers| ==> answers[i] == Some(results[i])
  {
    var slots := new seq<Member>[|answers|](_ => []);
    ok := true;
    for k := 0 to |order|
      invariant ok <==> forall l :: 0 <= l < k ==> answers[order[l]].Some?
      invariant ok ==> forall l :: 0 <= l < k ==> answers[order[l]] == Some(slots[order[l]])
    {
      match answers[order[k]] {
        case None => ok := false;
        case Some(ms) => slots[order[k]] := ms;
      }
    }
    results := slots[..];
    forall i | 0 <= i < |answers| ensures ok ==> answers[i] == Some(results[i]) {
      assert i in order;
      var l :| 0 <= l < |order| && order[l] == i;
    }
  }

  /** resolveRecipients; norm lower-cases and trims, trim trims. */
  method ResolveRecipients(answers: seq<Lookup>, order: seq<nat>, excluded: Option<set<Email>>,
                           norm: string -> string, trim: string -> string)
    returns (r: Option<seq<Member>>)
    requires IsCompletion(order, |answers|)
    ensures r.Some? <==> AllAnswered(answers) && excluded.Some?
    ensures r.Some? ==> r.value == Resolved(Answered(answers), excluded.value, norm, trim)
  {
    var results, ok := GatherMembers(answers, order);
    if !ok || excluded.None? {
      return None;
    }
    ghost var all := Answered(answers);
    var seen: set<Email> := {};
    var out: seq<Member> := [];
    ghost var n: nat := 0;
    for i := 0 to |results|
      invariant Passed(all, n, seen, out, excluded.value, norm, trim)
      invariant all[n..] == Answered(answers[i..])
    {
      NextCommittee(answers, i, all, n);
      seen, out := PassMembers(results[i], seen, out, excluded.value, norm, trim, all, n);
      n := n + |results[i]|;
    }
    assert |all[n..]| == 0 && n == |all|;
    r := Some(out);
  }

  lemma NextCommittee(answers: seq<Lookup>, i: nat, all: seq<Member>, n: nat)
    requires i < |answers| && answers[i].Some? && n <= |all| && all[n..] == Answered(answers[i..])
    ensures var k := n + |answers[i].value|;
            k <= |all| && all[n..k] == answers[i].value && all[k..] == Answered(answers[i + 1..])
  {
  }

  // One committee's members.
  method PassMembers(members: seq<Member>, seen0: set<Email>, out0: seq<Member>, excluded: set<Email>,
                     norm: string -> string, trim: string -> string,
                     ghost all: seq<Member>, ghost n: nat)
    returns (seen: set<Email>, out: seq<Member>)
    requires n + |members| <= |all| && all[n..n + |members|] == members
    requires Passed(all, n, seen0, out0, excluded, norm, trim)
    ensures Passed(all, n + |members|, seen, out, excluded, norm, trim)
  {
    hide Passed;
    seen, out := seen0, out0;
    for j := 0 to |members|
      invariant Passed(all, n + j, seen, out, excluded, norm, trim)
    {
      var m := members[j];
      assert all[n + j] == m;
      PassOne(all, n + j, seen, out, excluded, norm, trim);
      var email := norm(m.email);
      if email == "" || '@' !in email {
        continue;
      }
      if email in seen {
        continue;
      }
      seen := seen + {email};
      if email in excluded {
        continue;
      }
      out := out + [Member(email, trim(m.firstName))];
    }
  }

  predicate Occurs(ms: seq<Member>, n: nat, norm: string -> string, e: Email)
    requires n <= |ms|
  {
    exists j :: 0 <= j < n && Normal(ms, j, norm) == e
  }

  // The state of the pass after n members.
  ghost predicate Passed(ms: seq<Member>, n: nat, seen: set<Email>, out: seq<Member>, excluded: set<Email>,
                         norm: string -> string, trim: string -> string) {
    && n <= |ms|
    && (forall e :: e in seen <==> Sendable(e) && Occurs(ms, n, norm, e))
    && Within(ms, Kept(ms, n, excluded, norm))
    && out == Picked(ms, Kept(ms, n, excluded, norm), norm, trim)
  }

  lemma PassOne(ms: seq<Member>, n: nat, seen: set<Email>, out: seq<Member>, excluded: set<Email>,
                norm: string -> string, trim: string -> string)
    requires n < |ms| && Passed(ms, n, seen, out, excluded, norm, trim)
    ensures var e := norm(ms[n].email);
            && (!Sendable(e) || e in seen ==> Passed(ms, n + 1, seen, out, excluded, norm, trim))
            && (Sendable(e) && e !in seen ==>
                  Passed(ms, n + 1, seen + {e},
                         if e in excluded then out else out + [Member(e, trim(ms[n].firstName))],
                         excluded, norm, trim))
  {
    var e := Normal(ms, n, norm);
    KeptAre(ms, n + 1, excluded, norm);
    if Sendable(e) {
      assert e !in seen <==> IsFirst(ms, n, norm);
    }
    forall f ensures Occurs(ms, n + 1, norm, f) <==> Occurs(ms, n, norm, f) || f == e {
      assert Normal(ms, n, norm) == e;
    }
  }

  /* ---- the list ---- */

  predicate WantedAddress(ms: seq<Member>, excluded: set<Email>, norm: string -> string, e: Email) {
    Sendable(e) && e !in excluded && Occurs(ms, |ms|, norm, e)
  }

  predicate Listed(out: seq<Member>, e: Email) {
    exists k :: 0 <= k < |out| && out[k].email == e
  }

  // Where an address first occurs.
  lemma {:induction false} FirstWith(ms: seq<Member>, norm: string -> string, i: nat) returns (f: nat)
    requires i < |ms|
    ensures f <= i && Normal(ms, f, norm) == Normal(ms, i, norm) && IsFirst(ms, f, norm)
    decreases i
  {
    if IsFirst(ms, i, norm) {
      f := i;
    } else {
      var j :| 0 <= j < i && Normal(ms, j, norm) == Normal(ms, i, norm);
      f := FirstWith(ms, norm, j);
    }
  }

  lemma ListedAreWanted(ms: seq<Member>, excluded: set<Email>, norm: string -> string, trim: string -> string)
    ensures var out := Resolved(ms, excluded, norm, trim);
            && (forall k, l :: 0 <= k < l < |out| ==> out[k].email != out[l].email)
            && (forall e :: Listed(out, e) <==> WantedAddress(ms, excluded, norm, e))
  {
    var at, out := Kept(ms, |ms|, excluded, norm), Resolved(ms, excluded, norm, trim);
    KeptAre(ms, |ms|, excluded, norm);
    assert AreKept(ms, |ms|, excluded, norm, at) && out == Picked(ms, at, norm, trim);
    forall k, l | 0 <= k < l < |out| ensures out[k].email != out[l].email {
      assert IsFirst(ms, at[l], norm) && at[k] < at[l];
      assert Normal(ms, at[k], norm) != Normal(ms, at[l], norm);
    }
    forall e ensures Listed(out, e) <==> WantedAddress(ms, excluded, norm, e) {
      if Listed(out, e) {
        var k :| 0 <= k < |out| && out[k].email == e;
        assert Normal(ms, at[k], norm) == e && Keeps(ms, at[k], excluded, norm);
      }
      if WantedAddress(ms, excluded, norm, e) {
        var i :| 0 <= i < |ms| && Normal(ms, i, norm) == e;
        var f := FirstWith(ms, norm, i);
        assert Keeps(ms, f, excluded, norm) && f in at;
        var k :| 0 <= k < |at| && at[k] == f;
        assert out[k].email == e;
      }
    }
  }

  lemma OccursMeans(ms: seq<Member>, norm: string -> string, e: Email)
    ensures Occurs(ms, |ms|, norm, e) <==> exists i :: 0 <= i < |ms| && norm(ms[i].email) == e
  {
    if i :| 0 <= i < |ms| && norm(ms[i].email) == e {
      assert Normal(ms, i, norm) == e;
    }
  }

  // The member a recipient comes from.
  lemma FirstOwner(ms: seq<Member>, excluded: set<Email>, norm: string -> string, trim: string -> string, k: nat)
    returns (i: nat)
    requires k < |Resolved(ms, excluded, norm, trim)|
    ensures var m := Resolved(ms, excluded, norm, trim)[k];
            && i < |ms| && m == Member(norm(ms[i].email), trim(ms[i].firstName))
            && (forall j :: 0 <= j < i ==> norm(ms[j].email) != m.email)
            && i in Kept(ms, |ms|, excluded, norm) && i == Kept(ms, |ms|, excluded, norm)[k]
  {
    var at := Kept(ms, |ms|, excluded, norm);
    KeptAre(ms, |ms|, excluded, norm);
    assert Keeps(ms, at[k], excluded, norm);
    i := at[k];
    forall j | 0 <= j < i ensures norm(ms[j].email) != norm(ms[i].email) {
      assert Normal(ms, j, norm) != Normal(ms, i, norm);
    }
  }

  // The first member with this address, as a recipient.
  predicate IsFirstBearer(ms: seq<Member>, m: Member, norm: string -> string, trim: string -> string) {
    exists i :: && 0 <= i < |ms| && m == Member(norm(ms[i].email), trim(ms[i].firstName))
                && forall j :: 0 <= j < i ==> norm(ms[j].email) != m.email
  }

  /** The list holds exactly the addresses with an @ that have not opted out, each once,
      each under the trimmed name of the member who has it first. */
  lemma ResolvedIsExact(ms: seq<Member>, excluded: set<Email>, norm: string -> string, trim: string -> string)
    ensures var out := Resolved(ms, excluded, norm, trim);
            && (forall k, l :: 0 <= k < l < |out| ==> out[k].email != out[l].email)
            && (forall e :: (exists k :: 0 <= k < |out| && out[k].email == e) <==>
                  e != "" && '@' in e && e !in excluded && exists i :: 0 <= i < |ms| && norm(ms[i].email) == e)
            && (forall k :: 0 <= k < |out| ==> IsFirstBearer(ms, out[k], norm, trim))
  {
    hide Resolved, Occurs;
    var out := Resolved(ms, excluded, norm, trim);
    ListedAreWanted(ms, excluded, norm, trim);
    forall e ensures (exists k :: 0 <= k < |out| && out[k].email == e) <==>
                     e != "" && '@' in e && e !in excluded && exists i :: 0 <= i < |ms| && norm(ms[i].email) == e {
      OccursMeans(ms, norm, e);
      assert Listed(out, e) <==> WantedAddress(ms, excluded, norm, e);
    }
    forall k | 0 <= k < |out| ensures IsFirstBearer(ms, out[k], norm, trim) {
      var i := FirstOwner(ms, excluded, norm, trim, k);
    }
  }

  /** Recipients appear in the order in which their addresses first occur. */
  lemma ResolvedKeepsOrder(ms: seq<Member>, excluded: set<Email>, norm: string -> string, trim: string -> string,
                           k: nat, l: nat)
    requires k < l < |Resolved(ms, excluded, norm, trim)|
    ensures var out := Resolved(ms, excluded, norm, trim);
            exists i, j :: && 0 <= i < j < |ms| && norm(ms[i].email) == out[k].email && norm(ms[j].email) == out[l].email
                           && forall h :: 0 <= h < j ==> norm(ms[h].email) != out[l].email
  {
    var i := FirstOwner(ms, excluded, norm, trim, k);
    var j := FirstOwner(ms, excluded, norm, trim, l);
    KeptAre(ms, |ms|, excluded, norm);
  }
}
