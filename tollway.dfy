/** The toll-lane state machine of the Android tollway demo, stated on values.

    A `Machine` is everything the main activity's event handlers read or write:
    the driving state and the visible part of the screen (the QR image, the
    credits text, the last toast and the payment dialogs still open).
    `Handle` is what one button press or one beacon callback does to it, and
    `Answer` what a reply to the payment dialog does. The class in module
    `Android` performs the same steps by assigning fields, and is proved to
    agree with these functions.
 */
module Tollway {

  datatype Option<+T> = None | Some(value: T)

  /** The driving state; the activity's enum declares OffTollway, OnTollway, OnEntrance. */
  datatype State = OffTollway | OnTollway | OnEntrance

  /** The five inputs of the state machine: three buttons and two beacon callbacks. */
  datatype Event = EntranceClick | UseClick | ExitClick | RegionEntered | RegionExited

  /** The three effect routines the state-changed switch can select. */
  datatype Routine = Enter | Drive | Exit

  /** The two answers of the payment dialog. */
  datatype Choice = No | Yes

  datatype ToastLength = Short | Long

  datatype Toast = Toast(text: string, length: ToastLength)

  /** The input given to the QR encoder: the payload and the encoding options. */
  datatype QrCode = QrCode(contents: string, width: nat, height: nat, margin: nat)

  /** An alert dialog as it is built: title, message and the two button labels. */
  datatype Dialog = Dialog(title: string, message: string, negative: string, positive: string)

  /** The widgets the handlers touch. `qrBitmap` is the last image given to the
      QR view (None before any was set); `dialogs` are the payment dialogs shown
      and not yet answered, most recent last. */
  datatype Screen = Screen(
    qrVisible: bool,
    qrBitmap: Option<QrCode>,
    creditsVisible: bool,
    creditsText: string,
    toast: Option<Toast>,
    dialogs: seq<Dialog>)

  datatype Machine = Machine(state: State, screen: Screen)

  /** What one event did: the new machine, and the effect routine it ran, if any. */
  datatype Reaction = Reaction(after: Machine, ran: Option<Routine>)

  /** What a sequence of events did: the final machine and the routines run, in order. */
  datatype Trace = Trace(final: Machine, ran: seq<Routine>)

  // Messages of the rejection, diagnostic and farewell toasts.
  const EnterRejected: string := "You need to be off the tollway to enter!"
  const UseRejected: string := "You need to use the entrance to drive through the tollway!"
  const ExitRejected: string := "You need to be using the tollway to exit"
  const Whut: string := "Whut"
  const Bye: string := "Bye!"

  // Texts the effect routines and the dialog answers put in the credits view.
  const WalletBalance: string := "You have Php 345.00 left on your wallet."
  const ScanAtExit: string := "Scan this QR code when you exit."
  const PayAtCounter: string := "Please proceed to the counter to pay."
  const ThankYou: string := "Thank you for using the tollway!"

  /** The toll pass: the fixed URL encoded at 400 by 400 pixels with no margin. */
  const TollPass: QrCode := QrCode("http://www.codewisp.com/", 400, 400, 0)

  /** The payment prompt the exit routine shows. */
  const PaymentDialog: Dialog :=
    Dialog("Pay with your wallet?",
           "Thank you for using the tollway. Pay Php 118.00 with your wallet?",
           "No", "Yes")

  /** The machine once the activity has resumed: off the tollway, QR image and
      credits both hidden. The credits text is whatever the layout holds. */
  function Initial(layoutCredits: string): Machine
  {
    Machine(OffTollway, Screen(false, None, false, layoutCredits, None, []))
  }

  /** The state-changed switch: OnEntrance and OnTollway have their own case,
      every other state falls to the default case, the exit routine. */
  function Dispatch(st: State): Routine
  {
    match st
    case OnEntrance => Enter
    case OnTollway => Drive
    case OffTollway => Exit
  }

  /** Entering: hide the QR image, show the wallet balance. */
  function EnterTollway(s: Screen): Screen
  {
    s.(qrVisible := false, creditsVisible := true, creditsText := WalletBalance)
  }

  /** Driving: encode and show the toll pass, ask for it to be scanned at the exit. */
  function DriveTollway(s: Screen): Screen
  {
    s.(qrVisible := true, qrBitmap := Some(TollPass),
       creditsVisible := true, creditsText := ScanAtExit)
  }

  /** Exiting: show the QR image again and open the payment dialog. */
  function ExitTollway(s: Screen): Screen
  {
    s.(qrVisible := true, dialogs := s.dialogs + [PaymentDialog])
  }

  function Perform(r: Routine, s: Screen): Screen
  {
    match r
    case Enter => EnterTollway(s)
    case Drive => DriveTollway(s)
    case Exit => ExitTollway(s)
  }

  /** The driving-state setter: store the value, then run the routine the
      switch selects for it. */
  function SetDrivingState(m: Machine, value: State): (r: Reaction)
    ensures r.after.state == value && r.ran.Some?
    ensures r.after.screen.toast == m.screen.toast
  {
    var routine := Dispatch(value);
    Reaction(Machine(value, Perform(routine, m.screen)), Some(routine))
  }

  /** A toast only; no state change and no routine. */
  function ShowToast(m: Machine, t: Toast): Reaction
  {
    Reaction(m.(screen := m.screen.(toast := Some(t))), None)
  }

  /** One event, as the button handlers and the two beacon callbacks treat it. */
  function Handle(m: Machine, e: Event): (r: Reaction)
    ensures r.ran.Some? <==> r.after.state != m.state
    ensures r.ran.Some? ==> r.ran == Some(Dispatch(r.after.state)) && r.after.screen.toast == m.screen.toast
    ensures r.ran.None? ==> r.after.screen.dialogs == m.screen.dialogs && r.after.screen.qrBitmap == m.screen.qrBitmap
  {
    match e
    case EntranceClick =>
      if m.state != OffTollway then ShowToast(m, Toast(EnterRejected, Short))
      else SetDrivingState(m, OnEntrance)
    case UseClick =>
      if m.state != OnEntrance then ShowToast(m, Toast(UseRejected, Short))
      else SetDrivingState(m, OnTollway)
    case ExitClick =>
      if m.state != OnTollway then ShowToast(m, Toast(ExitRejected, Short))
      else SetDrivingState(m, OffTollway)
    case RegionEntered =>
      if m.state == OffTollway then SetDrivingState(m, OnEntrance)
      else if m.state == OnTollway then SetDrivingState(m, OffTollway)
      else ShowToast(m, Toast(Whut, Long))
    case RegionExited =>
      if m.state == OnEntrance then SetDrivingState(m, OnTollway)
      else if m.state == OffTollway then
        Reaction(m.(screen := m.screen.(toast := Some(Toast(Bye, Long)),
                                        qrVisible := false, creditsVisible := false)), None)
      else ShowToast(m, Toast(Whut, Long))
  }

  /** A reply to the most recent open payment dialog: it closes and the credits
      view shows the matching text. The driving state is not touched. */
  function Answer(m: Machine, c: Choice): (a: Machine)
    requires |m.screen.dialogs| > 0
    ensures a.state == m.state && a.screen.creditsVisible
    ensures |a.screen.dialogs| == |m.screen.dialogs| - 1
  {
    var text := if c == No then PayAtCounter else ThankYou;
    var d := m.screen.dialogs;
    m.(screen := m.screen.(creditsVisible := true, creditsText := text, dialogs := d[..|d| - 1]))
  }

  function Routines(o: Option<Routine>): (rs: seq<Routine>)
    ensures |rs| <= 1
  {
    if o.Some? then [o.value] else []
  }

  /** Events applied one after another, as the single UI thread delivers them. */
  function Run(m: Machine, evs: seq<Event>): (t: Trace)
    ensures |t.ran| <= |evs|
    decreases |evs|
  {
    if evs == [] then Trace(m, [])
    else
      var r := Handle(m, evs[0]);
      var t := Run(r.after, evs[1..]);
      Trace(t.final, Routines(r.ran) + t.ran)
  }

  /** The same event `n` times. */
  function Repeat(e: Event, n: nat): (r: seq<Event>)
    ensures |r| == n
    ensures forall i :: 0 <= i < n ==> r[i] == e
  {
    if n == 0 then [] else [e] + Repeat(e, n - 1)
  }

  /** A later resume of the activity hides the QR image and the credits view
      again, whatever the driving state. */
  function Resumed(m: Machine): (r: Machine)
    ensures r.state == m.state && !r.screen.qrVisible && !r.screen.creditsVisible
    ensures r.screen.qrBitmap == m.screen.qrBitmap && r.screen.creditsText == m.screen.creditsText
    ensures r.screen.toast == m.screen.toast && r.screen.dialogs == m.screen.dialogs
  {
    m.(screen := m.screen.(qrVisible := false, creditsVisible := false))
  }

  /** What holds of every machine the handlers and the dialog answers reach
      from `Initial`: the QR view only ever holds the toll pass and is never
      shown empty; on the tollway the pass and the credits are shown; at the
      entrance the pass is hidden and the credits shown; every open dialog is
      the payment prompt. A later resume (`Resumed`) can break the two
      visibility parts for the entrance and the tollway; events and answers
      keep it from any machine that satisfies it. */
  predicate Inv(m: Machine)
  {
    && (m.screen.qrBitmap.Some? ==> m.screen.qrBitmap.value == TollPass)
    && (m.screen.qrVisible ==> m.screen.qrBitmap.Some?)
    && (m.state == OnTollway ==> m.screen.qrVisible && m.screen.creditsVisible)
    && (m.state == OnEntrance ==> !m.screen.qrVisible && m.screen.creditsVisible)
    && (forall i :: 0 <= i < |m.screen.dialogs| ==> m.screen.dialogs[i] == PaymentDialog)
  }

  /** The part of `Inv` that survives a later resume as well: the QR view only
      ever holds the toll pass, is never shown empty, and holds it whenever the
      driver is on the tollway; every open dialog is the payment prompt. */
  predicate Durable(m: Machine)
  {
    && (m.screen.qrBitmap.Some? ==> m.screen.qrBitmap.value == TollPass)
    && (m.screen.qrVisible ==> m.screen.qrBitmap.Some?)
    && (m.state == OnTollway ==> m.screen.qrBitmap.Some?)
    && (forall i :: 0 <= i < |m.screen.dialogs| ==> m.screen.dialogs[i] == PaymentDialog)
  }
}
