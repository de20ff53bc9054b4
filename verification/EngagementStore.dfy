/** The engagement tables as the store updates them in place, statement by
    statement, each operation proved to be one Engagement.Apply. */
module EngagementStore {
  import opened Wrappers
  import opened Engagement

  class SendGridEngagementStore {
    var engagement: map<EmailId, Rollup>
    var openEvents: map<EventId, Hit>
    var clickEvents: map<EventId, Hit>
    var revertedGroups: set<GroupId>

    function State(): Store
      reads this
    {
      Store(engagement, openEvents, clickEvents, revertedGroups)
    }

    constructor ()
      ensures State() == EMPTY
    {
      engagement, openEvents, clickEvents, revertedGroups := map[], map[], map[], {};
    }

    // The BEFORE INSERT trigger returns NULL for a tombstoned group, which skips
    // the row before any conflict is looked for.
    predicate Rejected(group: GroupId)
      reads this`revertedGroups
    {
      group in revertedGroups
    }

    method RecordSend(email: EmailId, group: GroupId, to: Address, at: Time)
      modifies this`engagement
      ensures State() == Apply(old(State()), RecordSent(email, group, to, at))
    {
      var row := Rollup(group, to, Some(at), false, None, false, 0, None, false, 0, None, false, None);
      if Rejected(group) {
        return;
      }
      if email !in engagement {
        engagement := engagement[email := row];
      }
    }

    method ApplyDelivered(email: EmailId, group: GroupId, to: Address, at: Time)
      modifies this`engagement
      ensures State() == Apply(old(State()), Delivered(email, group, to, at))
    {
      var row := Rollup(group, to, None, true, Some(at), false, 0, None, false, 0, None, false, None);
      if Rejected(group) {
        return;
      }
      if email !in engagement {
        engagement := engagement[email := row];
      } else if !engagement[email].delivered {
        engagement := engagement[email := engagement[email].(delivered := true, deliveredAt := row.deliveredAt)];
      } else {
        assert engagement[email := engagement[email]] == engagement;
      }
    }

    method ApplyFailed(email: EmailId, group: GroupId, to: Address, at: Time)
      modifies this`engagement
      ensures State() == Apply(old(State()), Failed(email, group, to, at))
    {
      var row := Rollup(group, to, None, false, None, false, 0, None, false, 0, None, true, Some(at));
      if Rejected(group) {
        return;
      }
      if email !in engagement {
        engagement := engagement[email := row];
      } else if !engagement[email].failed {
        engagement := engagement[email := engagement[email].(failed := true, failedAt := row.failedAt)];
      } else {
        assert engagement[email := engagement[email]] == engagement;
      }
    }

    method ApplyOpen(event: EventId, email: EmailId, group: GroupId, to: Address, at: Time)
      modifies this`engagement, this`openEvents
      ensures State() == Apply(old(State()), Opened(event, email, group, to, at))
    {
      if group in revertedGroups {
        return;
      }
      if event in openEvents {
        return;
      }
      openEvents := openEvents[event := Hit(email, None, at)];
      var row := Rollup(group, to, None, false, None, true, 1, Some(at), false, 0, None, false, None);
      assert !Rejected(group);
      if email !in engagement {
        engagement := engagement[email := row];
      } else {
        var r := engagement[email];
        r := r.(everOpened := true, openCount := r.openCount + 1);
        r := r.(lastOpened := Greatest(r.lastOpened, row.lastOpened));
        engagement := engagement[email := r];
      }
    }

    method ApplyClick(event: EventId, email: EmailId, group: GroupId, to: Address, url: string, at: Time)
      modifies this`engagement, this`clickEvents
      ensures State() == Apply(old(State()), Clicked(event, email, group, to, url, at))
    {
      if group in revertedGroups {
        return;
      }
      if event in clickEvents {
        return;
      }
      clickEvents := clickEvents[event := Hit(email, Some(url), at)];
      var row := Rollup(group, to, None, false, None, false, 0, None, true, 1, Some(at), false, None);
      assert !Rejected(group);
      if email !in engagement {
        engagement := engagement[email := row];
      } else {
        var r := engagement[email];
        r := r.(everClicked := true, clickCount := r.clickCount + 1);
        r := r.(lastClicked := Greatest(r.lastClicked, row.lastClicked));
        engagement := engagement[email := r];
      }
    }

    // The event deletes run while the group's rows still exist: they find the
    // events through those rows.
    method RevertGroup(group: GroupId)
      modifies this
      ensures State() == Apply(old(State()), Revert(group))
      ensures EmptyGroup(State(), group)
    {
      ghost var was := State();
      revertedGroups := revertedGroups + {group};
      var emails := set e | e in engagement && engagement[e].group == group;
      openEvents := WithoutRecipients(openEvents, emails);
      clickEvents := WithoutRecipients(clickEvents, emails);
      engagement := engagement - emails;
      RevertedTables(was, group, emails);
    }
  }

  // DELETE ... WHERE email_id IN (...)
  function WithoutRecipients(hits: map<EventId, Hit>, emails: set<EmailId>): map<EventId, Hit> {
    map ev | ev in hits && hits[ev].email !in emails :: hits[ev]
  }

  lemma RevertedTables(s: Store, group: GroupId, emails: set<EmailId>)
    requires emails == set e | e in s.rows && s.rows[e].group == group
    ensures var t := Reverted(s, group);
            && t.rows == s.rows - emails
            && t.opens == WithoutRecipients(s.opens, emails)
            && t.clicks == WithoutRecipients(s.clicks, emails)
            && EmptyGroup(t, group)
  {
  }
}
