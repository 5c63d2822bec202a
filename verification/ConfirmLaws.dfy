/** What the server answers a report and a confirmation, said of its tables. */
module ConfirmLaws {
  import opened Wrappers
  import opened AudioDesk
  import opened ScreenPage
  import opened AudioProtocol
  import opened AudioAccounts

  /** A response offers exactly the current command, as it stands in the table, with the time left to start it. */
  lemma OfferIsCurrent(stage: Stage, desk: Desk, now: real, v: PlaybackView)
    ensures ViewOf(stage, desk, now) == Some(v) <==>
      && IsCurrent(stage, desk, v.id, now)
      && var c := desk.commands[v.id];
         && v.scope == c.scope && v.operation == c.operation && v.participantId == c.participantId
         && v.displayIds == c.displayIds && v.validFor == ValidFor(c, now)
  {
    PlaybackExactly(stage, desk, v.id, now);
    if ViewOf(stage, desk, now).Some? {
      PlaybackExactly(stage, desk, ViewOf(stage, desk, now).value.id, now);
    }
    hide Playback, ValidFor, IsCurrent;
  }

  /** A report that is not refused is answered with the current offer, and recorded if it was accepted. */
  lemma DeliveryAnswers(s: System, msg: Msg, stamp: real)
    ensures var t, stage := DoDeliver(s, msg, stamp), s.server.stage;
            var (desk, outcome) := AudioReport(stage, s.server.desk, msg.report, stamp);
            if outcome.Refused? then t == s
            else
              && t.server.desk == desk && t.server.receipts == s.server.receipts && t.sites == s.sites
              && (exists a :: a in t.net.answers && a.msg == msg && a.playback == ViewOf(stage, desk, s.clock))
              && (forall a | a in t.net.answers :: a in s.net.answers || a.msg == msg)
              && (outcome == Accepted ==>
                    Acceptance(msg, msg.report.active && stage.intro) in t.net.accepted)
              && (outcome == Stale ==> t.net.accepted == s.net.accepted)
  {
    hide AudioReport, ViewOf;
    var outcome := AudioReport(s.server.stage, s.server.desk, msg.report, stamp).1;
    if !outcome.Refused? {
      var desk := AudioReport(s.server.stage, s.server.desk, msg.report, stamp).0;
      assert Answer(msg, ViewOf(s.server.stage, desk, s.clock)) in DoDeliver(s, msg, stamp).net.answers;
    }
  }

  /** Whose receipts confirm a command: of its displays, those that say they play or played it, or that a stop took. */
  lemma ConfirmedExactly(r: Receipts, c: Command, scope: Scope, id: nat, d: string)
    ensures d in Confirmed(r, c, scope, id) <==>
      && d in c.displayIds && d in r.reports
      && r.reports[d].scope == scope && r.reports[d].commandId == id
      && (c.operation == Play ==> r.reports[d].status == Playing || r.reports[d].status == Ended)
      && (c.operation == Stop ==> r.reports[d].status != Playing)
  {
  }

  /** The command a confirmation waits for is still there and still the one on offer. */
  predicate IsOn(waiter: Waiter) {
    && waiter.phase.Judging? && waiter.phase.found.Some? && waiter.phase.found.value.scope == waiter.scope
    && waiter.phase.current == Some(waiter.id)
  }

  /** What a confirmation does with what it found: it is answered, gives up, drops the command, or looks again. */
  lemma EvaluatedExactly(s: System, w: nat)
    requires w in s.waiters && s.waiters[w].phase.Judging?
    ensures var t, waiter := DoEvaluate(s, w), s.waiters[w];
            && t.server == s.server && t.sites == s.sites && t.net == s.net
            && if !IsOn(waiter) then t.story.acks == s.story.acks && w !in t.waiters
               else
                 var c := waiter.phase.found.value;
                 var confirmed := Confirmed(s.server.receipts, c, waiter.scope, waiter.id);
                 var all := confirmed == c.displayIds && c.displayIds != {};
                 && (all ==>
                       w !in t.waiters
                       && t.story.acks == s.story.acks
                          + {Ack(waiter.id, waiter.scope, c.operation, c.displayIds, c.displayIds, s.clock)})
                 && (!all ==>
                       t.story.acks == s.story.acks && w in t.waiters
                       && t.waiters[w].phase == if waiter.deadline <= s.clock then Dropping(c, confirmed) else Looking)
  {
    hide Confirmed;
  }

  /** A confirmation whose time is over acknowledges those that confirmed, if anybody did, and drops the rest. */
  lemma CancelAcknowledges(s: System, w: nat)
    requires w in s.waiters && s.waiters[w].phase.Dropping?
    ensures var t, waiter := DoCancel(s, w), s.waiters[w];
            var c, confirmed := waiter.phase.command, waiter.phase.confirmed;
            && w !in t.waiters
            && t.story.acks == s.story.acks
               + (if confirmed == {} then {}
                  else {Ack(waiter.id, waiter.scope, c.operation, c.displayIds, confirmed, s.clock)})
            && t.server.desk
               == CancelUnconfirmed(s.server.stage, s.server.desk, waiter.scope, waiter.id, confirmed, s.clock)
  {
    hide CancelUnconfirmed, Drops;
  }

  /** A confirmation has four seconds from its request, and looks at the table as it is. */
  lemma ConfirmationLooks(s: System, w: nat, scope: Scope, id: nat)
    ensures w in DoConfirm(s, w, scope, id).waiters
    ensures DoConfirm(s, w, scope, id).waiters[w] == Waiter(scope, id, s.clock + 4.0, Looking)
    ensures w in s.waiters ==>
              var t, waiter, server := DoLook(s, w), s.waiters[w], s.server;
              if server.stage.scope != waiter.scope || !server.stage.intro then w !in t.waiters
              else
                && w in t.waiters && t.waiters[w].phase.Judging?
                && (t.waiters[w].phase.found.Some? <==> waiter.id in server.desk.commands)
                && (waiter.id in server.desk.commands ==>
                      t.waiters[w].phase.found.value == server.desk.commands[waiter.id])
                && (t.waiters[w].phase.current == Some(waiter.id)
                    <==> IsCurrent(server.stage, server.desk, waiter.id, s.clock))
                && t.waiters[w].(phase := waiter.phase) == waiter
  {
    if w in s.waiters {
      PlaybackExactly(s.server.stage, s.server.desk, s.waiters[w].id, s.clock);
    }
    hide Playback, IsCurrent;
  }
}
