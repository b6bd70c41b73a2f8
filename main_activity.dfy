/** The main activity as the activity's code writes it: one object whose handlers read
    the driving state and assign it through a setter that runs the effect
    routine, and whose routines assign the widget fields in place. Every
    method is proved to do what the value-level functions of module `Tollway`
    say, so the properties proved in `TollwayProperties` hold of it. */
module Android {
  import opened Tollway
  import TollwayProperties

  class MainActivity {
    var drivingState: State
    var qrVisible: bool
    var qrBitmap: Option<QrCode>
    var creditsVisible: bool
    var creditsText: string
    var toast: Option<Toast>
    var dialogs: seq<Dialog>

    /** The effect routines run so far, in order. */
    ghost var routinesRun: seq<Routine>

    /** The fields as one value of the functional model. */
    function Snapshot(): Machine
      reads this
    {
      Machine(drivingState, Screen(qrVisible, qrBitmap, creditsVisible, creditsText, toast, dialogs))
    }

    /** The object invariant: it holds from construction on, across resumes.
        The stronger `Inv` holds until a resume hides the views on the
        tollway or at the entrance; each handler keeps it when it held. */
    ghost predicate Valid()
      reads this
    {
      Durable(Snapshot())
    }

    /** The activity after it has resumed: off the tollway, QR image and
        credits view hidden, nothing shown yet. */
    constructor (layoutCredits: string)
      ensures Snapshot() == Initial(layoutCredits)
      ensures routinesRun == []
      ensures Valid() && Inv(Snapshot())
    {
      drivingState := OffTollway;
      qrVisible := false;
      qrBitmap := None;
      creditsVisible := false;
      creditsText := layoutCredits;
      toast := None;
      dialogs := [];
      routinesRun := [];
      TollwayProperties.InitialInv(layoutCredits);
      TollwayProperties.InvIsDurable(Initial(layoutCredits));
    }

    /** A later resume: both views are hidden again, in whatever state. */
    method OnResume()
      requires Valid()
      modifies this
      ensures Valid()
      ensures Snapshot() == Resumed(old(Snapshot()))
      ensures drivingState == old(drivingState) && !qrVisible && !creditsVisible
      ensures routinesRun == old(routinesRun)
    {
      TollwayProperties.ResumedKeepsDurable(Snapshot());
      qrVisible := false;
      creditsVisible := false;
    }

    /** The driving-state setter: store the value, then dispatch on it. */
    method SetDrivingState(value: State)
      modifies this
      ensures Snapshot() == Tollway.SetDrivingState(old(Snapshot()), value).after
      ensures routinesRun == old(routinesRun) + [Dispatch(value)]
    {
      drivingState := value;
      StateChanged(drivingState);
    }

    /** Run the routine for `st`; the default case is the exit routine. */
    method StateChanged(st: State)
      modifies this
      ensures Snapshot() == old(Snapshot()).(screen := Perform(Dispatch(st), old(Snapshot()).screen))
      ensures routinesRun == old(routinesRun) + [Dispatch(st)]
    {
      match st
      case OnEntrance => EnterTollway();
      case OnTollway => DriveTollway();
      case OffTollway => ExitTollway();
    }

    method EnterTollway()
      modifies this
      ensures Snapshot() == old(Snapshot()).(screen := Tollway.EnterTollway(old(Snapshot()).screen))
      ensures !qrVisible && creditsVisible && creditsText == WalletBalance
      ensures routinesRun == old(routinesRun) + [Enter]
    {
      qrVisible := false;
      creditsVisible := true;
      creditsText := WalletBalance;
      routinesRun := routinesRun + [Enter];
    }

    method DriveTollway()
      modifies this
      ensures Snapshot() == old(Snapshot()).(screen := Tollway.DriveTollway(old(Snapshot()).screen))
      ensures qrVisible && qrBitmap == Some(TollPass) && creditsVisible && creditsText == ScanAtExit
      ensures routinesRun == old(routinesRun) + [Drive]
    {
      var bitmap := QrCode("http://www.codewisp.com/", 400, 400, 0);
      qrVisible := true;
      qrBitmap := Some(bitmap);
      creditsVisible := true;
      creditsText := ScanAtExit;
      routinesRun := routinesRun + [Drive];
    }

    method ExitTollway()
      modifies this
      ensures Snapshot() == old(Snapshot()).(screen := Tollway.ExitTollway(old(Snapshot()).screen))
      ensures qrVisible && dialogs == old(dialogs) + [PaymentDialog]
      ensures routinesRun == old(routinesRun) + [Exit]
    {
      qrVisible := true;
      dialogs := dialogs + [PaymentDialog];
      routinesRun := routinesRun + [Exit];
    }

    /** The dialog's "No" callback. */
    method AnswerNo()
      requires Valid() && |dialogs| > 0
      modifies this
      ensures Valid() && (old(Inv(Snapshot())) ==> Inv(Snapshot()))
      ensures Snapshot() == Answer(old(Snapshot()), No)
      ensures drivingState == old(drivingState) && creditsVisible && creditsText == PayAtCounter
      ensures routinesRun == old(routinesRun)
    {
      TollwayProperties.AnswerKeepsDurable(Snapshot(), No);
      if Inv(Snapshot()) { TollwayProperties.AnswerKeepsInv(Snapshot(), No); }
      creditsVisible := true;
      creditsText := PayAtCounter;
      dialogs := dialogs[..|dialogs| - 1];
    }

    /** The dialog's "Yes" callback. */
    method AnswerYes()
      requires Valid() && |dialogs| > 0
      modifies this
      ensures Valid() && (old(Inv(Snapshot())) ==> Inv(Snapshot()))
      ensures Snapshot() == Answer(old(Snapshot()), Yes)
      ensures drivingState == old(drivingState) && creditsVisible && creditsText == ThankYou
      ensures routinesRun == old(routinesRun)
    {
      TollwayProperties.AnswerKeepsDurable(Snapshot(), Yes);
      if Inv(Snapshot()) { TollwayProperties.AnswerKeepsInv(Snapshot(), Yes); }
      creditsVisible := true;
      creditsText := ThankYou;
      dialogs := dialogs[..|dialogs| - 1];
    }

    method EntranceButtonOnClick()
      requires Valid()
      modifies this
      ensures Valid() && (old(Inv(Snapshot())) ==> Inv(Snapshot()))
      ensures Snapshot() == Handle(old(Snapshot()), EntranceClick).after
      ensures routinesRun == old(routinesRun) + Routines(Handle(old(Snapshot()), EntranceClick).ran)
      ensures old(drivingState) == OffTollway ==> drivingState == OnEntrance && routinesRun == old(routinesRun) + [Enter]
      ensures old(drivingState) != OffTollway ==>
        Snapshot() == old(Snapshot()).(screen := old(Snapshot()).screen.(toast := Some(Toast(EnterRejected, Short))))
    {
      TollwayProperties.HandleKeepsDurable(Snapshot(), EntranceClick);
      if Inv(Snapshot()) { TollwayProperties.HandleKeepsInv(Snapshot(), EntranceClick); }
      if drivingState != OffTollway {
        toast := Some(Toast(EnterRejected, Short));
        return;
      }
      SetDrivingState(OnEntrance);
    }

    method UseButtonOnClick()
      requires Valid()
      modifies this
      ensures Valid() && (old(Inv(Snapshot())) ==> Inv(Snapshot()))
      ensures Snapshot() == Handle(old(Snapshot()), UseClick).after
      ensures routinesRun == old(routinesRun) + Routines(Handle(old(Snapshot()), UseClick).ran)
      ensures old(drivingState) == OnEntrance ==> drivingState == OnTollway && routinesRun == old(routinesRun) + [Drive]
      ensures old(drivingState) != OnEntrance ==>
        Snapshot() == old(Snapshot()).(screen := old(Snapshot()).screen.(toast := Some(Toast(UseRejected, Short))))
    {
      TollwayProperties.HandleKeepsDurable(Snapshot(), UseClick);
      if Inv(Snapshot()) { TollwayProperties.HandleKeepsInv(Snapshot(), UseClick); }
      if drivingState != OnEntrance {
        toast := Some(Toast(UseRejected, Short));
        return;
      }
      SetDrivingState(OnTollway);
    }

    method ExitButtonOnClick()
      requires Valid()
      modifies this
      ensures Valid() && (old(Inv(Snapshot())) ==> Inv(Snapshot()))
      ensures Snapshot() == Handle(old(Snapshot()), ExitClick).after
      ensures routinesRun == old(routinesRun) + Routines(Handle(old(Snapshot()), ExitClick).ran)
      ensures old(drivingState) == OnTollway ==> drivingState == OffTollway && routinesRun == old(routinesRun) + [Exit]
      ensures old(drivingState) != OnTollway ==>
        Snapshot() == old(Snapshot()).(screen := old(Snapshot()).screen.(toast := Some(Toast(ExitRejected, Short))))
    {
      TollwayProperties.HandleKeepsDurable(Snapshot(), ExitClick);
      if Inv(Snapshot()) { TollwayProperties.HandleKeepsInv(Snapshot(), ExitClick); }
      if drivingState != OnTollway {
        toast := Some(Toast(ExitRejected, Short));
        return;
      }
      SetDrivingState(OffTollway);
    }

    method BeaconManagerOnEnteredRegion()
      requires Valid()
      modifies this
      ensures Valid() && (old(Inv(Snapshot())) ==> Inv(Snapshot()))
      ensures Snapshot() == Handle(old(Snapshot()), RegionEntered).after
      ensures routinesRun == old(routinesRun) + Routines(Handle(old(Snapshot()), RegionEntered).ran)
      ensures old(drivingState) == OffTollway ==> drivingState == OnEntrance && routinesRun == old(routinesRun) + [Enter]
      ensures old(drivingState) == OnTollway ==> drivingState == OffTollway && routinesRun == old(routinesRun) + [Exit]
      ensures old(drivingState) == OnEntrance ==>
        Snapshot() == old(Snapshot()).(screen := old(Snapshot()).screen.(toast := Some(Toast(Whut, Long))))
    {
      TollwayProperties.HandleKeepsDurable(Snapshot(), RegionEntered);
      if Inv(Snapshot()) { TollwayProperties.HandleKeepsInv(Snapshot(), RegionEntered); }
      if drivingState == OffTollway {
        SetDrivingState(OnEntrance);
        return;
      }
      if drivingState == OnTollway {
        SetDrivingState(OffTollway);
        return;
      }
      toast := Some(Toast(Whut, Long));
    }

    method BeaconManagerOnExitedRegion()
      requires Valid()
      modifies this
      ensures Valid() && (old(Inv(Snapshot())) ==> Inv(Snapshot()))
      ensures Snapshot() == Handle(old(Snapshot()), RegionExited).after
      ensures routinesRun == old(routinesRun) + Routines(Handle(old(Snapshot()), RegionExited).ran)
      ensures old(drivingState) == OnEntrance ==> drivingState == OnTollway && routinesRun == old(routinesRun) + [Drive]
      ensures old(drivingState) == OffTollway ==>
        Snapshot() == old(Snapshot()).(screen := old(Snapshot()).screen.(
          toast := Some(Toast(Bye, Long)), qrVisible := false, creditsVisible := false))
      ensures old(drivingState) == OnTollway ==>
        Snapshot() == old(Snapshot()).(screen := old(Snapshot()).screen.(toast := Some(Toast(Whut, Long))))
    {
      TollwayProperties.HandleKeepsDurable(Snapshot(), RegionExited);
      if Inv(Snapshot()) { TollwayProperties.HandleKeepsInv(Snapshot(), RegionExited); }
      if drivingState == OnEntrance {
        SetDrivingState(OnTollway);
        return;
      }
      if drivingState == OffTollway {
        toast := Some(Toast(Bye, Long));
        qrVisible := false;
        creditsVisible := false;
        return;
      }
      toast := Some(Toast(Whut, Long));
    }
  }

  /** A client: the entrance-use-exit round trip on the object, then paying. */
  method DriveThrough(layoutCredits: string)
  {
    var activity := new MainActivity(layoutCredits);
    activity.EntranceButtonOnClick();
    activity.UseButtonOnClick();
    assert activity.qrBitmap == Some(TollPass);
    activity.ExitButtonOnClick();
    assert activity.drivingState == OffTollway && activity.routinesRun == [Enter, Drive, Exit];
    assert activity.dialogs == [PaymentDialog];
    activity.AnswerYes();
    assert activity.drivingState == OffTollway && activity.creditsText == ThankYou && activity.dialogs == [];
    activity.OnResume();
    activity.EntranceButtonOnClick();
    assert activity.drivingState == OnEntrance && activity.creditsVisible && !activity.qrVisible;
  }
}
