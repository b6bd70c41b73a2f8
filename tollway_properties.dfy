/** What the toll-lane state machine promises: its transition table, the
    effects of each accepted transition, the invariant every reachable machine
    keeps, idempotence of ignored events and the entrance-use-exit round trip. */
module TollwayProperties {
  import opened Tollway

  /** A row of the transition table: in state `from`, event `on` is accepted
      and leads to `to`. */
  datatype Row = Row(from: State, on: Event, to: State)

  /** The accepted transitions, written out independently of the handlers. */
  const AcceptedRows: seq<Row> := [
    Row(OffTollway, EntranceClick, OnEntrance),
    Row(OnEntrance, UseClick, OnTollway),
    Row(OnTollway, ExitClick, OffTollway),
    Row(OffTollway, RegionEntered, OnEntrance),
    Row(OnTollway, RegionEntered, OffTollway),
    Row(OnEntrance, RegionExited, OnTollway)
  ]

  /** An event is accepted exactly when the table has a row for it, it then
      leads to that row's state, and it runs exactly one routine, the one the
      switch selects for the new state. Every other event keeps the state and
      runs no routine. */
  lemma HandleFollowsTable(m: Machine, e: Event)
    ensures var r := Handle(m, e);
      (r.ran.Some? <==> exists i :: 0 <= i < |AcceptedRows| && AcceptedRows[i].from == m.state && AcceptedRows[i].on == e)
    ensures var r := Handle(m, e);
      r.ran.Some? ==> Row(m.state, e, r.after.state) in AcceptedRows && r.ran == Some(Dispatch(r.after.state))
    ensures var r := Handle(m, e);
      r.ran.None? ==> r.after.state == m.state
    ensures var r := Handle(m, e);
      r.ran.Some? <==> r.after.state != m.state
  {
    match (m.state, e)
    case (OffTollway, EntranceClick) => assert AcceptedRows[0] == Row(m.state, e, OnEntrance);
    case (OnEntrance, UseClick) => assert AcceptedRows[1] == Row(m.state, e, OnTollway);
    case (OnTollway, ExitClick) => assert AcceptedRows[2] == Row(m.state, e, OffTollway);
    case (OffTollway, RegionEntered) => assert AcceptedRows[3] == Row(m.state, e, OnEntrance);
    case (OnTollway, RegionEntered) => assert AcceptedRows[4] == Row(m.state, e, OffTollway);
    case (OnEntrance, RegionExited) => assert AcceptedRows[5] == Row(m.state, e, OnTollway);
    case _ =>
  }

  /** Entrance is accepted only off the tollway; otherwise only the short
      rejection toast changes. */
  lemma EntranceClickTable(m: Machine)
    ensures var r := Handle(m, EntranceClick);
      if m.state == OffTollway then
        r == Reaction(Machine(OnEntrance, EnterTollway(m.screen)), Some(Enter))
      else
        r == Reaction(m.(screen := m.screen.(toast := Some(Toast(EnterRejected, Short)))), None)
  {
  }

  /** Use is accepted only at the entrance; otherwise only the short rejection
      toast changes. */
  lemma UseClickTable(m: Machine)
    ensures var r := Handle(m, UseClick);
      if m.state == OnEntrance then
        r == Reaction(Machine(OnTollway, DriveTollway(m.screen)), Some(Drive))
      else
        r == Reaction(m.(screen := m.screen.(toast := Some(Toast(UseRejected, Short)))), None)
  {
  }

  /** Exit is accepted only on the tollway; otherwise only the short rejection
      toast changes. */
  lemma ExitClickTable(m: Machine)
    ensures var r := Handle(m, ExitClick);
      if m.state == OnTollway then
        r == Reaction(Machine(OffTollway, ExitTollway(m.screen)), Some(Exit))
      else
        r == Reaction(m.(screen := m.screen.(toast := Some(Toast(ExitRejected, Short)))), None)
  {
  }

  /** Entering the beacon region means entering when off the tollway and
      leaving when on it; at the entrance it is only a long "Whut" toast. */
  lemma RegionEnteredTable(m: Machine)
    ensures var r := Handle(m, RegionEntered);
      match m.state
      case OffTollway => r == Reaction(Machine(OnEntrance, EnterTollway(m.screen)), Some(Enter))
      case OnTollway => r == Reaction(Machine(OffTollway, ExitTollway(m.screen)), Some(Exit))
      case OnEntrance => r == Reaction(m.(screen := m.screen.(toast := Some(Toast(Whut, Long)))), None)
  {
  }

  /** Leaving the beacon region moves from the entrance onto the tollway; off
      the tollway it says "Bye!" and hides the QR image and the credits without
      any routine; on the tollway it is only a long "Whut" toast. */
  lemma RegionExitedTable(m: Machine)
    ensures var r := Handle(m, RegionExited);
      match m.state
      case OnEntrance => r == Reaction(Machine(OnTollway, DriveTollway(m.screen)), Some(Drive))
      case OffTollway =>
        && r.ran.None? && r.after.state == OffTollway
        && r.after.screen == m.screen.(toast := Some(Toast(Bye, Long)), qrVisible := false, creditsVisible := false)
      case OnTollway => r == Reaction(m.(screen := m.screen.(toast := Some(Toast(Whut, Long)))), None)
  {
  }

  /** What each accepted transition leaves on screen, by its new state. */
  lemma AcceptedEffects(m: Machine, e: Event)
    requires Handle(m, e).ran.Some?
    ensures var s := Handle(m, e).after.screen;
      match Handle(m, e).after.state
      case OnEntrance =>
        && !s.qrVisible && s.creditsVisible && s.creditsText == WalletBalance
        && s.qrBitmap == m.screen.qrBitmap && s.dialogs == m.screen.dialogs
      case OnTollway =>
        && s.qrVisible && s.qrBitmap == Some(TollPass)
        && s.creditsVisible && s.creditsText == ScanAtExit && s.dialogs == m.screen.dialogs
      case OffTollway =>
        && s.qrVisible && s.qrBitmap == m.screen.qrBitmap
        && s.creditsVisible == m.screen.creditsVisible && s.creditsText == m.screen.creditsText
        && s.dialogs == m.screen.dialogs + [PaymentDialog]
    ensures Handle(m, e).after.screen.toast == m.screen.toast
  {
  }

  /** The payment dialog opens exactly on a move from the tollway to off the
      tollway, and one dialog at a time. */
  lemma DialogOnlyOnExit(m: Machine, e: Event)
    ensures var r := Handle(m, e);
      (r.ran == Some(Exit) <==> m.state == OnTollway && r.after.state == OffTollway)
    ensures var r := Handle(m, e);
      r.after.screen.dialogs == if r.ran == Some(Exit) then m.screen.dialogs + [PaymentDialog] else m.screen.dialogs
  {
  }

  /** Either answer closes the top dialog, shows the credits with the matching
      text and changes nothing else, the driving state included. */
  lemma AnswerTable(m: Machine, c: Choice)
    requires |m.screen.dialogs| > 0
    ensures var a := Answer(m, c);
      && a.state == m.state
      && a.screen.creditsVisible
      && a.screen.creditsText == (if c == No then PayAtCounter else ThankYou)
      && a.screen.dialogs + [m.screen.dialogs[|m.screen.dialogs| - 1]] == m.screen.dialogs
      && a.screen.qrVisible == m.screen.qrVisible && a.screen.qrBitmap == m.screen.qrBitmap
      && a.screen.toast == m.screen.toast
  {
  }

  lemma InitialInv(layoutCredits: string)
    ensures Inv(Initial(layoutCredits))
  {
  }

  lemma HandleKeepsInv(m: Machine, e: Event)
    requires Inv(m)
    ensures Inv(Handle(m, e).after)
  {
  }

  lemma AnswerKeepsInv(m: Machine, c: Choice)
    requires Inv(m) && |m.screen.dialogs| > 0
    ensures Inv(Answer(m, c))
  {
  }

  lemma InvIsDurable(m: Machine)
    requires Inv(m)
    ensures Durable(m)
  {
  }

  lemma HandleKeepsDurable(m: Machine, e: Event)
    requires Durable(m)
    ensures Durable(Handle(m, e).after)
  {
  }

  lemma AnswerKeepsDurable(m: Machine, c: Choice)
    requires Durable(m) && |m.screen.dialogs| > 0
    ensures Durable(Answer(m, c))
  {
  }

  lemma ResumedKeepsDurable(m: Machine)
    requires Durable(m)
    ensures Durable(Resumed(m))
  {
  }

  /** A resume on the tollway breaks `Inv`: after Entrance and Use, the pass
      and the credits are hidden although the driver is still on the tollway. */
  lemma ResumeBreaksInv(layoutCredits: string)
    ensures var m := Run(Initial(layoutCredits), [EntranceClick, UseClick]).final;
      Inv(m) && m.state == OnTollway && !Inv(Resumed(m))
  {
    var m0 := Initial(layoutCredits);
    var m1 := Handle(m0, EntranceClick).after;
    var m2 := Handle(m1, UseClick).after;
    assert [EntranceClick, UseClick][1..] == [UseClick];
    assert Run(m1, [UseClick]).final == m2;
  }

  /** Every machine reached by a sequence of events keeps `Durable`. */
  lemma {:induction false} RunKeepsDurable(m: Machine, evs: seq<Event>)
    requires Durable(m)
    ensures Durable(Run(m, evs).final)
    decreases |evs|
  {
    if evs != [] {
      HandleKeepsDurable(m, evs[0]);
      RunKeepsDurable(Handle(m, evs[0]).after, evs[1..]);
    }
  }

  /** Every machine reached by a sequence of events keeps the invariant. */
  lemma {:induction false} RunKeepsInv(m: Machine, evs: seq<Event>)
    requires Inv(m)
    ensures Inv(Run(m, evs).final)
    decreases |evs|
  {
    if evs != [] {
      HandleKeepsInv(m, evs[0]);
      RunKeepsInv(Handle(m, evs[0]).after, evs[1..]);
    }
  }

  /** Running two sequences one after the other is running their concatenation. */
  lemma {:induction false} RunAppend(m: Machine, a: seq<Event>, b: seq<Event>)
    ensures var t1 := Run(m, a); var t2 := Run(t1.final, b);
      Run(m, a + b) == Trace(t2.final, t1.ran + t2.ran)
    decreases |a|
  {
    if a == [] {
      assert a + b == b;
    } else {
      assert (a + b)[1..] == a[1..] + b;
      RunAppend(Handle(m, a[0]).after, a[1..], b);
    }
  }

  /** Every exit routine run opens one payment dialog, and nothing else does. */
  lemma {:induction false} DialogsCountExits(m: Machine, evs: seq<Event>)
    ensures var t := Run(m, evs);
      |t.final.screen.dialogs| == |m.screen.dialogs| + multiset(t.ran)[Exit]
    decreases |evs|
  {
    if evs != [] {
      DialogOnlyOnExit(m, evs[0]);
      DialogsCountExits(Handle(m, evs[0]).after, evs[1..]);
    }
  }

  /** An event that runs no routine (a rejected press, "Whut" or "Bye!") gives
      the same result when it is repeated: it is idempotent. */
  lemma IgnoredIsIdempotent(m: Machine, e: Event)
    requires Handle(m, e).ran.None?
    ensures Handle(m, e).after.state == m.state
    ensures Handle(Handle(m, e).after, e) == Handle(m, e)
  {
  }

  /** Repeating such an event any number of times keeps the driving state and
      leaves the machine as the first occurrence left it. */
  lemma {:induction false} IgnoredRepeated(m: Machine, e: Event, n: nat)
    requires Handle(m, e).ran.None?
    ensures Run(m, Repeat(e, n)).final.state == m.state
    ensures Run(m, Repeat(e, n)).ran == []
    ensures n > 0 ==> Run(m, Repeat(e, n)).final == Handle(m, e).after
    decreases n
  {
    if n > 0 {
      var m1 := Handle(m, e).after;
      IgnoredIsIdempotent(m, e);
      assert Repeat(e, n)[1..] == Repeat(e, n - 1);
      IgnoredRepeated(m1, e, n - 1);
    }
  }

  /** A rejected button press in particular: the three buttons are ignored
      everywhere except in their own state. */
  lemma RejectedPressRepeated(m: Machine, e: Event, n: nat)
    requires (e == EntranceClick && m.state != OffTollway)
          || (e == UseClick && m.state != OnEntrance)
          || (e == ExitClick && m.state != OnTollway)
    ensures Run(m, Repeat(e, n)).final.state == m.state
    ensures Run(m, Repeat(e, n)).ran == []
  {
    IgnoredRepeated(m, e, n);
  }

  /** From the start, Entrance, Use and Exit are three accepted transitions
      that return to off the tollway, run the three routines in order and leave
      the toll pass shown with one payment dialog open. */
  lemma RoundTrip(layoutCredits: string)
    ensures var t := Run(Initial(layoutCredits), [EntranceClick, UseClick, ExitClick]);
      && t.final.state == OffTollway
      && t.ran == [Enter, Drive, Exit]
      && t.final.screen.qrVisible && t.final.screen.qrBitmap == Some(TollPass)
      && t.final.screen.creditsText == ScanAtExit
      && t.final.screen.dialogs == [PaymentDialog]
      && t.final.screen.toast.None?
  {
    var m0 := Initial(layoutCredits);
    var m1 := Handle(m0, EntranceClick).after;
    var m2 := Handle(m1, UseClick).after;
    var m3 := Handle(m2, ExitClick).after;
    assert [EntranceClick, UseClick, ExitClick][1..] == [UseClick, ExitClick];
    assert [UseClick, ExitClick][1..] == [ExitClick];
    assert Run(m2, [ExitClick]) == Trace(m3, [Exit]);
    assert Run(m1, [UseClick, ExitClick]) == Trace(m3, [Drive, Exit]);
  }

  /** The beacon alone drives the same round trip: entering the region, leaving
      it and entering it again ends exactly where Entrance, Use, Exit end. */
  lemma BeaconRoundTrip(layoutCredits: string)
    ensures var t := Run(Initial(layoutCredits), [RegionEntered, RegionExited, RegionEntered]);
      && t.final.state == OffTollway
      && t.ran == [Enter, Drive, Exit]
      && t.final.screen.dialogs == [PaymentDialog]
    ensures Run(Initial(layoutCredits), [RegionEntered, RegionExited, RegionEntered])
         == Run(Initial(layoutCredits), [EntranceClick, UseClick, ExitClick])
  {
    RoundTrip(layoutCredits);
    var m0 := Initial(layoutCredits);
    var m1 := Handle(m0, RegionEntered).after;
    var m2 := Handle(m1, RegionExited).after;
    var m3 := Handle(m2, RegionEntered).after;
    assert [RegionEntered, RegionExited, RegionEntered][1..] == [RegionExited, RegionEntered];
    assert [RegionExited, RegionEntered][1..] == [RegionEntered];
    assert Run(m2, [RegionEntered]) == Trace(m3, [Exit]);
    assert Run(m1, [RegionExited, RegionEntered]) == Trace(m3, [Drive, Exit]);
  }
}
