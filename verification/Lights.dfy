/** The notification LEDs (hal/liblights/lights.c): battery and notification requests share three
    LEDs, and a cached status per colour saves writes to sysfs. */
module Lights {
  import opened Base

  type Color = x: int | 0 <= x < 0x1_0000_0000

  datatype LightState = LightState(color: Color, timed: bool, flashOnMS: int, flashOffMS: int)

  datatype Colour = Red | Green | Blue

  datatype Rgb<T> = Rgb(red: T, green: T, blue: T) {
    function At(c: Colour): T {
      match c case Red => red case Green => green case Blue => blue
    }
    function With(c: Colour, v: T): Rgb<T> {
      match c case Red => this.(red := v) case Green => this.(green := v) case Blue => this.(blue := v)
    }
  }

  /** preStatus: 0, 1 and 2 in the source. */
  datatype Mode = Off | Blinking | Steady

  // ----- the LED files -----

  /** One LED's files: its trigger (timer or none), brightness and blink delays. */
  datatype Led = Led(timer: bool, brightness: int, delayOn: int, delayOff: int)

  datatype Write = Brightness(v: int) | Trigger(timer: bool) | DelayOff(ms: int) | DelayOn(ms: int)

  /** The kernel's side: brightness 0 also removes the trigger, and removing the trigger leaves the
      LED dark. */
  function Put(l: Led, w: Write): Led {
    match w
    case Brightness(v) => if v == 0 then l.(timer := false, brightness := 0) else l.(brightness := v)
    case Trigger(timer) => if timer then l.(timer := true) else l.(timer := false, brightness := 0)
    case DelayOff(ms) => l.(delayOff := ms)
    case DelayOn(ms) => l.(delayOn := ms)
  }

  function ModeOf(l: Led): Mode {
    if l.timer then Blinking else if l.brightness == 0 then Off else Steady
  }

  // ----- requests -----

  function RedOf(s: LightState): int { s.color / 0x1_0000 % 0x100 }
  function GreenOf(s: LightState): int { s.color / 0x100 % 0x100 }
  function BlueOf(s: LightState): int { s.color % 0x100 }
  function AlphaOf(s: LightState): int { s.color / 0x100_0000 }

  /** is_lit looks at the colour bits alone. */
  predicate IsLit(s: LightState) { s.color % 0x100_0000 != 0 }

  function OnMS(s: LightState): int { if s.timed then s.flashOnMS else 0 }
  function OffMS(s: LightState): int { if s.timed then s.flashOffMS else 0 }

  function Want(level: int, onMS: int, offMS: int): Mode {
    if level == 0 then Off else if onMS != 0 && offMS != 0 then Blinking else Steady
  }

  const UNLIT := LightState(0, false, 0, 0)

  // ----- the uncached arbiter -----

  /** The one LED a request lights, if any: red before green before blue, and none with alpha 0. */
  predicate Selects(s: LightState, c: Colour) {
    AlphaOf(s) != 0 &&
    match c
    case Red => RedOf(s) != 0
    case Green => RedOf(s) == 0 && GreenOf(s) != 0
    case Blue => RedOf(s) == 0 && GreenOf(s) == 0 && BlueOf(s) != 0
  }

  function Shown(s: LightState, c: Colour): Mode {
    if !Selects(s, c) then Off
    else if s.timed && s.flashOnMS != 0 && s.flashOffMS != 0 then Blinking
    else Steady
  }

  /** The battery wins when lit. */
  function Winner(battery: LightState, notification: LightState): LightState {
    if IsLit(battery) then battery else notification
  }

  // ----- what the calls do -----

  /** The LEDs, the cached statuses, and the LEDs as they stood after each write so far. */
  datatype Bank = Bank(leds: Rgb<Led>, pre: Rgb<Mode>, trace: seq<Rgb<Led>>)

  function Do(b: Bank, c: Colour, w: Write): Bank {
    var leds := b.leds.With(c, Put(b.leds.At(c), w));
    b.(leds := leds, trace := b.trace + [leds])
  }

  function Blink(b: Bank, c: Colour, level: int, onMS: int, offMS: int): Bank {
    var now := Want(level, onMS, offMS);
    if b.pre.At(c) == now then b
    else
      (match now
       case Off => Do(b, c, Brightness(0))
       case Blinking => Do(Do(Do(b, c, Trigger(true)), c, DelayOff(offMS)), c, DelayOn(onMS))
       case Steady => Do(Do(b, c, Trigger(false)), c, Brightness(255))).(pre := b.pre.With(c, now))
  }

  /** The two other LEDs, in the order they are switched off. */
  function Others(c: Colour): (Colour, Colour) {
    match c case Red => (Green, Blue) case Green => (Red, Blue) case Blue => (Red, Green)
  }

  function Only(b: Bank, c: Colour, level: int, onMS: int, offMS: int): Bank {
    Blink(Blink(Blink(b, Others(c).0, 0, 0, 0), Others(c).1, 0, 0, 0), c, level, onMS, offMS)
  }

  function Speaker(b: Bank, s: LightState): Bank {
    var on, off := OnMS(s), OffMS(s);
    if AlphaOf(s) == 0 then Only(b, Blue, 0, 0, 0)
    else if RedOf(s) != 0 then Only(b, Red, RedOf(s), on, off)
    else if GreenOf(s) != 0 then Only(b, Green, GreenOf(s), on, off)
    else if BlueOf(s) != 0 then Only(b, Blue, BlueOf(s), on, off)
    else Only(b, Blue, 0, 0, 0)
  }

  /** With the battery unlit, the LEDs are first switched off. */
  function Handle(b: Bank, battery: LightState, notification: LightState): Bank {
    if IsLit(battery) then Speaker(b, battery) else Speaker(Speaker(b, battery), notification)
  }

  // ----- the library -----

  class LightsLib {
    const haveTrackballLight: bool
    var leds: Rgb<Led>
    var preStatus: Rgb<Mode>
    var battery: LightState
    var notification: LightState
    ghost var trace: seq<Rgb<Led>>

    ghost function State(): Bank reads this { Bank(leds, preStatus, trace) }

    constructor (haveTrackballLight: bool, leds: Rgb<Led>)
      ensures State() == Bank(leds, Rgb(Off, Off, Off), []) && battery == UNLIT && notification == UNLIT
      ensures this.haveTrackballLight == haveTrackballLight
    {
      this.haveTrackballLight, this.leds := haveTrackballLight, leds;
      preStatus, battery, notification, trace := Rgb(Off, Off, Off), UNLIT, UNLIT, [];
    }

    method WriteFile(c: Colour, w: Write)
      modifies this`leds, this`trace
      ensures State() == Do(old(State()), c, w)
    {
      leds := leds.With(c, Put(leds.At(c), w));
      trace := trace + [leds];
    }

    /** blink_red, blink_green and blink_blue. */
    method BlinkLed(c: Colour, level: int, onMS: int, offMS: int)
      modifies this`leds, this`trace, this`preStatus
      ensures State() == Blink(old(State()), c, level, onMS, offMS)
    {
      var nowStatus := Off;
      if level == 0 {
        nowStatus := Off;
      } else if onMS != 0 && offMS != 0 {
        nowStatus := Blinking;
      } else {
        nowStatus := Steady;
      }
      if preStatus.At(c) == nowStatus { return; }
      if nowStatus == Off {
        WriteFile(c, Brightness(0));
      } else if nowStatus == Blinking {
        WriteFile(c, Trigger(true));
        WriteFile(c, DelayOff(offMS));
        WriteFile(c, DelayOn(onMS));
      } else {
        WriteFile(c, Trigger(false));
        WriteFile(c, Brightness(255));
      }
      preStatus := preStatus.With(c, nowStatus);
    }

    method SetSpeakerLight(s: LightState)
      modifies this`leds, this`trace, this`preStatus
      ensures State() == Speaker(old(State()), s)
    {
      var onMS, offMS := 0, 0;
      if s.timed { onMS, offMS := s.flashOnMS, s.flashOffMS; }
      var red, green, blue := 0, 0, 0;
      if AlphaOf(s) != 0 {
        red, green, blue := RedOf(s), GreenOf(s), BlueOf(s);
      }
      if red != 0 {
        BlinkLed(Green, 0, 0, 0);
        BlinkLed(Blue, 0, 0, 0);
        BlinkLed(Red, red, onMS, offMS);
      } else if green != 0 {
        BlinkLed(Red, 0, 0, 0);
        BlinkLed(Blue, 0, 0, 0);
        BlinkLed(Green, green, onMS, offMS);
      } else if blue != 0 {
        BlinkLed(Red, 0, 0, 0);
        BlinkLed(Green, 0, 0, 0);
        BlinkLed(Blue, blue, onMS, offMS);
      } else {
        BlinkLed(Red, 0, 0, 0);
        BlinkLed(Green, 0, 0, 0);
        BlinkLed(Blue, 0, 0, 0);
      }
    }

    method HandleSpeakerBattery()
      modifies this`leds, this`trace, this`preStatus
      ensures State() == Handle(old(State()), battery, notification)
    {
      if IsLit(battery) {
        SetSpeakerLight(battery);
      } else {
        SetSpeakerLight(battery);
        SetSpeakerLight(notification);
      }
    }

    method SetLightBattery(s: LightState)
      modifies this
      ensures Current() == Apply(haveTrackballLight, old(Current()), Battery(s))
    {
      battery := s;
      if haveTrackballLight { SetSpeakerLight(s); }
      HandleSpeakerBattery();
    }

    method SetLightNotifications(s: LightState)
      modifies this
      ensures Current() == Apply(haveTrackballLight, old(Current()), Notification(s))
    {
      notification := s;
      HandleSpeakerBattery();
    }

    ghost function Current(): World reads this { World(State(), battery, notification) }
  }

  // ----- runs -----

  datatype Update = Battery(s: LightState) | Notification(s: LightState)

  datatype World = World(bank: Bank, battery: LightState, notification: LightState)

  function Apply(trackball: bool, w: World, u: Update): World {
    match u
    case Battery(s) =>
      var b := if trackball then Speaker(w.bank, s) else w.bank;
      World(Handle(b, s, w.notification), s, w.notification)
    case Notification(s) => World(Handle(w.bank, w.battery, s), w.battery, s)
  }

  function Run(trackball: bool, w: World, us: seq<Update>): World {
    if us == [] then w else Apply(trackball, Run(trackball, w, us[..|us| - 1]), us[|us| - 1])
  }

  function Start(leds: Rgb<Led>): World { World(Bank(leds, Rgb(Off, Off, Off), []), UNLIT, UNLIT) }

  /** The latest request of each kind. */
  function LastBattery(us: seq<Update>): LightState {
    if us == [] then UNLIT
    else if us[|us| - 1].Battery? then us[|us| - 1].s else LastBattery(us[..|us| - 1])
  }

  function LastNotification(us: seq<Update>): LightState {
    if us == [] then UNLIT
    else if us[|us| - 1].Notification? then us[|us| - 1].s else LastNotification(us[..|us| - 1])
  }

  // ----- one call -----

  predicate OneLit(leds: Rgb<Led>) {
    forall c, d :: ModeOf(leds.At(c)) != Off && ModeOf(leds.At(d)) != Off ==> c == d
  }

  /** The cache agrees with the files, and after every write so far at most one LED was on or
      blinking. */
  ghost predicate Good(b: Bank) {
    && (forall c :: b.pre.At(c) == ModeOf(b.leds.At(c)))
    && OneLit(b.leds)
    && forall i :: 0 <= i < |b.trace| ==> OneLit(b.trace[i])
  }

  predicate AllOff(leds: Rgb<Led>) { forall c :: ModeOf(leds.At(c)) == Off }

  lemma AtWith<T>(r: Rgb<T>, c: Colour, v: T)
    ensures forall d :: r.With(c, v).At(d) == if d == c then v else r.At(d)
  {
  }

  lemma BlinkOff(b: Bank, c: Colour)
    requires Good(b)
    ensures var r := Blink(b, c, 0, 0, 0);
      && Good(r) && ModeOf(r.leds.At(c)) == Off
      && (forall d :: d != c ==> r.leds.At(d) == b.leds.At(d) && r.pre.At(d) == b.pre.At(d))
      && (b.pre.At(c) == Off ==> r == b)
  {
    AtWith(b.leds, c, Put(b.leds.At(c), Brightness(0)));
    AtWith(b.pre, c, Off);
  }

  predicate Dark(leds: Rgb<Led>, c: Colour) { forall d :: d != c ==> ModeOf(leds.At(d)) == Off }

  lemma DoKeeps(b: Bank, c: Colour, w: Write)
    requires Dark(b.leds, c) && forall i :: 0 <= i < |b.trace| ==> OneLit(b.trace[i])
    ensures var r := Do(b, c, w);
      && Dark(r.leds, c) && OneLit(r.leds) && (forall i :: 0 <= i < |r.trace| ==> OneLit(r.trace[i]))
      && r.leds.At(c) == Put(b.leds.At(c), w) && r.pre == b.pre
      && forall d :: d != c ==> r.leds.At(d) == b.leds.At(d)
  {
    AtWith(b.leds, c, Put(b.leds.At(c), w));
  }

  /** Lighting an LED while the others are off. */
  lemma BlinkOn(b: Bank, c: Colour, level: int, onMS: int, offMS: int)
    requires Good(b) && Dark(b.leds, c)
    ensures var r := Blink(b, c, level, onMS, offMS);
      && Good(r) && Dark(r.leds, c) && ModeOf(r.leds.At(c)) == Want(level, onMS, offMS)
      && (b.pre.At(c) != Blinking && Want(level, onMS, offMS) == Blinking ==>
            r.leds.At(c).delayOn == onMS && r.leds.At(c).delayOff == offMS)
      && (b.pre.At(c) == Want(level, onMS, offMS) ==> r == b)
  {
    AtWith(b.pre, c, Want(level, onMS, offMS));
    match Want(level, onMS, offMS) {
      case Off => { DoKeeps(b, c, Brightness(0)); }
      case Blinking => {
        var b1 := Do(b, c, Trigger(true));
        var b2 := Do(b1, c, DelayOff(offMS));
        DoKeeps(b, c, Trigger(true));
        DoKeeps(b1, c, DelayOff(offMS));
        DoKeeps(b2, c, DelayOn(onMS));
      }
      case Steady => {
        DoKeeps(b, c, Trigger(false));
        DoKeeps(Do(b, c, Trigger(false)), c, Brightness(255));
      }
    }
  }

  lemma OnlyKeeps(b: Bank, c: Colour, level: int, onMS: int, offMS: int)
    requires Good(b)
    ensures var r := Only(b, c, level, onMS, offMS);
      && Good(r) && Dark(r.leds, c) && ModeOf(r.leds.At(c)) == Want(level, onMS, offMS)
      && (b.pre.At(c) != Blinking && Want(level, onMS, offMS) == Blinking ==>
            r.leds.At(c).delayOn == onMS && r.leds.At(c).delayOff == offMS)
      && (b.pre.At(c) == Want(level, onMS, offMS) && Dark(b.leds, c) ==> r == b)
      && (b.pre.At(c) == Want(level, onMS, offMS) ==> r.leds.At(c) == b.leds.At(c))
  {
    var o := Others(c);
    var b1 := Blink(b, o.0, 0, 0, 0);
    var b2 := Blink(b1, o.1, 0, 0, 0);
    BlinkOff(b, o.0);
    BlinkOff(b1, o.1);
    assert Dark(b2.leds, c) by {
      forall d | d != c ensures ModeOf(b2.leds.At(d)) == Off { assert d == o.0 || d == o.1; }
    }
    BlinkOn(b2, c, level, onMS, offMS);
  }

  // ----- refinement of the uncached arbiter -----

  /** One request: afterwards each LED is as the arbiter shows it. A blinking LED gets the request's
      times unless it was blinking before; a request already shown writes nothing. */
  lemma SpeakerShows(b: Bank, s: LightState)
    requires Good(b)
    ensures var r := Speaker(b, s);
      && Good(r) && (forall c :: ModeOf(r.leds.At(c)) == Shown(s, c))
      && (forall c :: Shown(s, c) == Blinking && b.pre.At(c) != Blinking ==>
            r.leds.At(c).delayOn == s.flashOnMS && r.leds.At(c).delayOff == s.flashOffMS)
      && (forall c :: Shown(s, c) == Blinking && b.pre.At(c) == Blinking ==> r.leds.At(c) == b.leds.At(c))
      && ((forall c :: b.pre.At(c) == Shown(s, c)) ==> r == b)
  {
    var on, off := OnMS(s), OffMS(s);
    if AlphaOf(s) != 0 && RedOf(s) != 0 {
      OnlyKeeps(b, Red, RedOf(s), on, off);
    } else if AlphaOf(s) != 0 && GreenOf(s) != 0 {
      OnlyKeeps(b, Green, GreenOf(s), on, off);
    } else if AlphaOf(s) != 0 && BlueOf(s) != 0 {
      OnlyKeeps(b, Blue, BlueOf(s), on, off);
    } else {
      OnlyKeeps(b, Blue, 0, 0, 0);
    }
  }

  ghost predicate HasTimes(b: Bank, s: LightState) {
    forall c :: Shown(s, c) == Blinking ==> b.leds.At(c).delayOn == s.flashOnMS && b.leds.At(c).delayOff == s.flashOffMS
  }

  /** What holds between calls: the LEDs show the winner, and, when that is the notification, blink
      at its current times. */
  ghost predicate Refines(w: World) {
    && Good(w.bank)
    && (forall c :: ModeOf(w.bank.leds.At(c)) == Shown(Winner(w.battery, w.notification), c))
    && (!IsLit(w.battery) ==> HasTimes(w.bank, w.notification))
  }

  lemma UnlitShowsNothing(s: LightState)
    requires !IsLit(s)
    ensures forall c :: Shown(s, c) == Off
  {
  }

  lemma HandleRefines(b: Bank, battery: LightState, notification: LightState)
    requires Good(b)
    ensures Refines(World(Handle(b, battery, notification), battery, notification))
  {
    SpeakerShows(b, battery);
    if !IsLit(battery) {
      UnlitShowsNothing(battery);
      SpeakerShows(Speaker(b, battery), notification);
    }
  }

  /** From LEDs that are off, after any run of requests: the cached library is in the state of the
      uncached arbiter on the latest two requests, and at every write of the run at most one LED
      was lit. */
  lemma {:induction false} RunRefines(trackball: bool, leds: Rgb<Led>, us: seq<Update>)
    requires AllOff(leds)
    ensures var w := Run(trackball, Start(leds), us);
      Refines(w) && w.battery == LastBattery(us) && w.notification == LastNotification(us)
  {
    if us == [] {
      assert Refines(Start(leds));
    } else {
      var w := Run(trackball, Start(leds), us[..|us| - 1]);
      RunRefines(trackball, leds, us[..|us| - 1]);
      match us[|us| - 1] {
        case Battery(s) => {
          SpeakerShows(w.bank, s);
          HandleRefines(if trackball then Speaker(w.bank, s) else w.bank, s, w.notification);
        }
        case Notification(s) => { HandleRefines(w.bank, w.battery, s); }
      }
    }
  }

  // ----- in the bytes of the colour -----

  /** A colour is alpha, red, green and blue, highest byte first. */
  lemma ColourBytes(s: LightState, a: Byte, r: Byte, g: Byte, b: Byte)
    requires s.color == a * 0x100_0000 + r * 0x1_0000 + g * 0x100 + b
    ensures AlphaOf(s) == a && RedOf(s) == r && GreenOf(s) == g && BlueOf(s) == b
    ensures IsLit(s) <==> r != 0 || g != 0 || b != 0
  {
  }

  /** Which LED is on after any run of requests: that of the highest colour byte of the battery request that
      is not 0, or of the notification when the battery's are all 0, and none with alpha 0. */
  lemma LedsByBytes(trackball: bool, leds: Rgb<Led>, us: seq<Update>, s: LightState, a: Byte, r: Byte, g: Byte, b: Byte)
    requires AllOff(leds)
    requires s == if LastBattery(us).color % 0x100_0000 != 0 then LastBattery(us) else LastNotification(us)
    requires s.color == a * 0x100_0000 + r * 0x1_0000 + g * 0x100 + b
    ensures var l := Run(trackball, Start(leds), us).bank.leds;
      var on := if s.timed && s.flashOnMS != 0 && s.flashOffMS != 0 then Blinking else Steady;
      && ModeOf(l.red) == (if a != 0 && r != 0 then on else Off)
      && ModeOf(l.green) == (if a != 0 && r == 0 && g != 0 then on else Off)
      && ModeOf(l.blue) == (if a != 0 && r == 0 && g == 0 && b != 0 then on else Off)
  {
    RunRefines(trackball, leds, us);
    ColourBytes(s, a, r, g, b);
    var l := Run(trackball, Start(leds), us).bank.leds;
    assert ModeOf(l.At(Red)) == Shown(s, Red) && ModeOf(l.At(Green)) == Shown(s, Green);
    assert ModeOf(l.At(Blue)) == Shown(s, Blue);
  }

  // ----- the files over a run -----

  ghost predicate Levels(leds: Rgb<Led>) { forall c :: leds.At(c).brightness in {0, 255} }

  /** An LED's delay files changed. */
  predicate Retimed(was: Led, now: Led) { was.delayOn != now.delayOn || was.delayOff != now.delayOff }

  /** The LEDs before write i. */
  function Before(start: Rgb<Led>, trace: seq<Rgb<Led>>, i: nat): Rgb<Led>
    requires i <= |trace|
  {
    if i == 0 then start else trace[i - 1]
  }

  /** Brightness is 0 or 255 throughout, and the delay files, which the timer trigger brings into being, are
      written only under that trigger. */
  ghost predicate Orderly(start: Rgb<Led>, b: Bank) {
    && b.leds == Before(start, b.trace, |b.trace|) && Levels(b.leds)
    && forall i: nat, c :: i < |b.trace| && Retimed(Before(start, b.trace, i).At(c), b.trace[i].At(c))
         ==> b.trace[i].At(c).timer
  }

  lemma DoOrderly(start: Rgb<Led>, b: Bank, c: Colour, w: Write)
    requires Orderly(start, b) && (w.Brightness? ==> w.v in {0, 255})
    requires w.DelayOff? || w.DelayOn? ==> b.leds.At(c).timer
    ensures Orderly(start, Do(b, c, w)) && Do(b, c, w).leds.At(c) == Put(b.leds.At(c), w)
  {
    var r := Do(b, c, w);
    AtWith(b.leds, c, Put(b.leds.At(c), w));
    forall i: nat, d | i < |r.trace| && Retimed(Before(start, r.trace, i).At(d), r.trace[i].At(d))
      ensures r.trace[i].At(d).timer
    {
      if i < |b.trace| {
        assert Before(start, r.trace, i) == Before(start, b.trace, i) && r.trace[i] == b.trace[i];
      }
    }
  }

  lemma BlinkOrderly(start: Rgb<Led>, b: Bank, c: Colour, level: int, onMS: int, offMS: int)
    requires Orderly(start, b)
    ensures Orderly(start, Blink(b, c, level, onMS, offMS))
  {
    match Want(level, onMS, offMS) {
      case Off => { DoOrderly(start, b, c, Brightness(0)); }
      case Blinking => {
        var b1 := Do(b, c, Trigger(true));
        var b2 := Do(b1, c, DelayOff(offMS));
        DoOrderly(start, b, c, Trigger(true));
        DoOrderly(start, b1, c, DelayOff(offMS));
        DoOrderly(start, b2, c, DelayOn(onMS));
      }
      case Steady => {
        DoOrderly(start, b, c, Trigger(false));
        DoOrderly(start, Do(b, c, Trigger(false)), c, Brightness(255));
      }
    }
  }

  lemma OnlyOrderly(start: Rgb<Led>, b: Bank, c: Colour, level: int, onMS: int, offMS: int)
    requires Orderly(start, b)
    ensures Orderly(start, Only(b, c, level, onMS, offMS))
  {
    var b1 := Blink(b, Others(c).0, 0, 0, 0);
    BlinkOrderly(start, b, Others(c).0, 0, 0, 0);
    BlinkOrderly(start, b1, Others(c).1, 0, 0, 0);
    BlinkOrderly(start, Blink(b1, Others(c).1, 0, 0, 0), c, level, onMS, offMS);
  }

  lemma SpeakerOrderly(start: Rgb<Led>, b: Bank, s: LightState)
    requires Orderly(start, b)
    ensures Orderly(start, Speaker(b, s))
  {
    OnlyOrderly(start, b, Red, RedOf(s), OnMS(s), OffMS(s));
    OnlyOrderly(start, b, Green, GreenOf(s), OnMS(s), OffMS(s));
    OnlyOrderly(start, b, Blue, BlueOf(s), OnMS(s), OffMS(s));
    OnlyOrderly(start, b, Blue, 0, 0, 0);
  }

  lemma HandleOrderly(start: Rgb<Led>, b: Bank, battery: LightState, notification: LightState)
    requires Orderly(start, b)
    ensures Orderly(start, Handle(b, battery, notification))
  {
    SpeakerOrderly(start, b, battery);
    SpeakerOrderly(start, Speaker(b, battery), notification);
  }

  lemma {:induction false} RunOrderly(trackball: bool, leds: Rgb<Led>, us: seq<Update>)
    requires AllOff(leds)
    ensures Orderly(leds, Run(trackball, Start(leds), us).bank)
  {
    if us == [] {
      forall c ensures leds.At(c).brightness == 0 { assert ModeOf(leds.At(c)) == Off; }
    } else {
      var w := Run(trackball, Start(leds), us[..|us| - 1]);
      RunOrderly(trackball, leds, us[..|us| - 1]);
      match us[|us| - 1] {
        case Battery(s) => {
          SpeakerOrderly(leds, w.bank, s);
          HandleOrderly(leds, if trackball then Speaker(w.bank, s) else w.bank, s, w.notification);
        }
        case Notification(s) => { HandleOrderly(leds, w.bank, w.battery, s); }
      }
    }
  }

  /** What the files of an LED hold after any run: dark ones 0 and no trigger, steady ones full brightness,
      blinking ones the timer trigger. */
  lemma FilesAfterRun(trackball: bool, leds: Rgb<Led>, us: seq<Update>, c: Colour)
    requires AllOff(leds)
    ensures var l := Run(trackball, Start(leds), us).bank.leds.At(c);
      match ModeOf(l)
      case Off => !l.timer && l.brightness == 0
      case Steady => !l.timer && l.brightness == 255
      case Blinking => l.timer
  {
    RunOrderly(trackball, leds, us);
  }

  /** A lit battery request that blinks an LED gets its own times exactly when that LED was not
      already blinking, or was blinking at those times. */
  lemma BatteryTimesIff(trackball: bool, w: World, s: LightState, c: Colour)
    requires Refines(w) && IsLit(s) && Shown(s, c) == Blinking
    ensures var l, r := w.bank.leds.At(c), Apply(trackball, w, Battery(s)).bank.leds.At(c);
      (r.delayOn == s.flashOnMS && r.delayOff == s.flashOffMS)
      <==> (ModeOf(l) != Blinking || (l.delayOn == s.flashOnMS && l.delayOff == s.flashOffMS))
  {
    SpeakerShows(w.bank, s);
    if trackball { SpeakerShows(Speaker(w.bank, s), s); }
  }

  /** Old times are kept: a red notification blinking at 5 ms, then a red battery request blinking at
      7 ms. */
  lemma OldTimesKept(trackball: bool, leds: Rgb<Led>)
    requires AllOff(leds)
    ensures var first, second := LightState(0xFFFF_0000, true, 5, 5), LightState(0xFFFF_0000, true, 7, 7);
      var w := Run(trackball, Start(leds), [Notification(first), Battery(second)]);
      Shown(second, Red) == Blinking && w.bank.leds.At(Red).delayOn == 5 && w.bank.leds.At(Red).delayOff == 5
  {
    var first, second := LightState(0xFFFF_0000, true, 5, 5), LightState(0xFFFF_0000, true, 7, 7);
    var us := [Notification(first), Battery(second)];
    assert us[..1] == [Notification(first)];
    RunRefines(trackball, leds, us[..1]);
    var w := Run(trackball, Start(leds), us[..1]);
    assert Selects(first, Red) && Selects(second, Red);
    assert w.battery == UNLIT && w.notification == first;
    SpeakerShows(w.bank, second);
    if trackball { SpeakerShows(Speaker(w.bank, second), second); }
  }

  /** While the battery is lit, a notification changes no file. */
  lemma LitBatteryMasksNotification(trackball: bool, w: World, s: LightState)
    requires Refines(w) && IsLit(w.battery)
    ensures Apply(trackball, w, Notification(s)).bank == w.bank
  {
  }
}
