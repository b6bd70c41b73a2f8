/** How a button tap reaches its handler. The activity attaches its three
    click handlers in its resume callback, with `+=` on the button's Click
    event, and never detaches them; the buttons are the same objects on every
    resume, since the layout is set only once, at creation. Each resume thus
    adds one more copy of each handler, and a tap runs every attached copy in
    turn. */
module ClickWiring {
  import opened Tollway
  import TollwayProperties

  /** A tap on the button for `e` with `copies` copies of its handler attached. */
  function Tap(m: Machine, e: Event, copies: nat): (r: Machine)
    requires e == EntranceClick || e == UseClick || e == ExitClick
    ensures copies == 0 ==> r == m
    decreases copies
  {
    if copies == 0 then m else Tap(Handle(m, e).after, e, copies - 1)
  }

  /** A tap with `k` copies attached is the tap's event handled `k` times in a row. */
  lemma {:induction false} TapIsRun(m: Machine, e: Event, k: nat)
    requires e == EntranceClick || e == UseClick || e == ExitClick
    ensures Tap(m, e, k) == Run(m, Repeat(e, k)).final
    decreases k
  {
    if k > 0 {
      assert Repeat(e, k)[0] == e && Repeat(e, k)[1..] == Repeat(e, k - 1);
      TapIsRun(Handle(m, e).after, e, k - 1);
    }
  }

  /** The resume callback as written: one more copy of each handler. */
  function ResumeAsWritten(copies: nat): nat
  {
    copies + 1
  }

  /** Copies attached after `resumes` resumes, as written. */
  function CopiesAsWritten(resumes: nat): (r: nat)
    ensures r == resumes
    decreases resumes
  {
    if resumes == 0 then 0 else ResumeAsWritten(CopiesAsWritten(resumes - 1))
  }

  /** From the second resume on (the first return to the activity, for
      instance from the system's enable-Bluetooth prompt), a single Entrance
      tap off the tollway is accepted by the first copy and rejected by every
      further one: the driver enters the tollway and is told to be off the
      tollway to enter. */
  lemma LaterResumeRejectsAcceptedEntrance(m: Machine, resumes: nat)
    requires m.state == OffTollway && resumes >= 2
    ensures var r := Tap(m, EntranceClick, CopiesAsWritten(resumes));
      && r.state == OnEntrance
      && r.screen.toast == Some(Toast(EnterRejected, Short))
  {
    var k := CopiesAsWritten(resumes);
    var m1 := Handle(m, EntranceClick).after;
    assert Tap(m, EntranceClick, k) == Tap(m1, EntranceClick, k - 1);
    TapIsRun(m1, EntranceClick, k - 1);
    TollwayProperties.IgnoredRepeated(m1, EntranceClick, k - 1);
  }

  /** The resume callback corrected: detach the handler, then attach it. With
      none attached this attaches one; otherwise the count stays as it was,
      so starting from none there is never more than one. */
  function Resume(copies: nat): (r: nat)
    ensures r == if copies == 0 then 1 else copies
  {
    (if copies == 0 then 0 else copies - 1) + 1
  }

  /** Copies attached after `resumes` resumes, corrected. */
  function Copies(resumes: nat): (r: nat)
    ensures r == if resumes == 0 then 0 else 1
    decreases resumes
  {
    if resumes == 0 then 0 else Resume(Copies(resumes - 1))
  }

  /** With the corrected callback, after any number of resumes a tap runs its
      handler exactly once, so an accepted press shows no rejection. */
  lemma {:induction false} ResumedTapRunsHandlerOnce(m: Machine, e: Event, resumes: nat)
    requires e == EntranceClick || e == UseClick || e == ExitClick
    requires resumes > 0
    ensures Tap(m, e, Copies(resumes)) == Handle(m, e).after
    ensures Handle(m, e).ran.Some? ==> Tap(m, e, Copies(resumes)).screen.toast == m.screen.toast
  {
    assert Copies(resumes) == 1;
    assert Tap(m, e, 1) == Tap(Handle(m, e).after, e, 0);
  }
}
