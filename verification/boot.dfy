/** Start-up of the bridge: the status LEDs are set, then the co-processor is
    power-cycled with its boot-strap pins configured for either normal boot
    (from flash) or programming mode. `flashMode` is a parameter: how it is
    sampled differs per board. */
module Boot {
  import opened Wrappers
  import opened Pins

  /** How long the co-processor is held powered down before its strap pins
      are configured. */
  const SettleMs: nat := 100

  /** The level GPIO0 must hold at power-up: low requests the bootloader
      (programming mode), high requests boot from flash. */
  function StrapGpio0(flashMode: bool): Level {
    if flashMode then Low else High
  }

  /** The co-processor is held powered down: enable and reset both low. */
  predicate HeldDown(t: seq<Event>) {
    LevelAfter(t, En) == Some(Low) && LevelAfter(t, Reset) == Some(Low)
  }

  /** Strap pins are at the levels `flashMode` requests. */
  predicate Strapped(t: seq<Event>, flashMode: bool) {
    LevelAfter(t, EspGpio0) == Some(StrapGpio0(flashMode)) && LevelAfter(t, EspGpio2) == Some(High)
  }

  /** The boot procedure: power down, wait, configure the strap pins, power up. */
  function BootSequence(flashMode: bool): (t: seq<Event>)
    ensures t == [Drive(En, Low), Drive(Reset, Low), DelayMs(SettleMs),
                  Drive(EspGpio0, StrapGpio0(flashMode)), Drive(EspGpio2, High),
                  Drive(En, High), Drive(Reset, High)]
  {
    var powerDown := [Drive(En, Low), Drive(Reset, Low)];
    var configure :=
      if flashMode then [Drive(EspGpio0, Low), Drive(EspGpio2, High)]
      else [Drive(EspGpio0, High), Drive(EspGpio2, High)];
    var powerUp := [Drive(En, High), Drive(Reset, High)];
    powerDown + [DelayMs(SettleMs)] + configure + powerUp
  }

  /** The levels each line holds, and the time spent, after each prefix of
      the boot procedure. */
  lemma BootPrefixes(flashMode: bool)
    ensures var t := BootSequence(flashMode);
      && LevelAfter(t[..0], En) == None && LevelAfter(t[..0], Reset) == None
      && HeldDown(t[..2]) && ElapsedMs(t[..2]) == 0
      && HeldDown(t[..3]) && ElapsedMs(t[..3]) == SettleMs
      && HeldDown(t[..4]) && ElapsedMs(t[..4]) == SettleMs
      && Strapped(t[..5], flashMode) && Strapped(t[..6], flashMode) && Strapped(t[..7], flashMode)
      && LevelAfter(t[..7], En) == Some(High) && LevelAfter(t[..7], Reset) == Some(High)
      && ElapsedMs(t[..7]) == SettleMs
  {
    var t := BootSequence(flashMode);
    assert t[..0] == [];
    Advance(t, 0); Advance(t, 1); Advance(t, 2); Advance(t, 3);
    Advance(t, 4); Advance(t, 5); Advance(t, 6);
  }

  /** After booting, the co-processor is powered up with its strap pins at
      the levels the mode requests, and exactly the settle time has passed. */
  lemma BootOutcome(flashMode: bool)
    ensures Strapped(BootSequence(flashMode), flashMode)
    ensures LevelAfter(BootSequence(flashMode), En) == Some(High)
    ensures LevelAfter(BootSequence(flashMode), Reset) == Some(High)
    ensures ElapsedMs(BootSequence(flashMode)) == SettleMs
  {
    var t := BootSequence(flashMode);
    BootPrefixes(flashMode);
    assert t[..7] == t;
  }

  /** The hardware ordering the procedure guarantees: the settle delay and the
      strap configuration happen while the co-processor is held down, the
      strap pins are set only after the full settle time, and the co-processor
      is released only once the strap pins hold the requested levels. */
  lemma BootOrdering(flashMode: bool)
    ensures var t := BootSequence(flashMode);
      && (forall i :: 0 <= i < |t| && t[i].DelayMs? ==> HeldDown(t[..i]))
      && (forall i :: 0 <= i < |t| && t[i].Drive? && t[i].pin in {EspGpio0, EspGpio2} ==>
            HeldDown(t[..i]) && ElapsedMs(t[..i]) >= SettleMs)
      && (forall i :: 0 <= i < |t| && t[i].Drive? && t[i].level == High && t[i].pin in {En, Reset} ==>
            Strapped(t[..i], flashMode))
  {
    BootPrefixes(flashMode);
  }

  /** Status LEDs at start-up: the busy LED is switched off, and on boards
      that have a flash-mode LED it is lit exactly in programming mode. */
  function Indicators(flashMode: bool, hasFlashLed: bool): (t: seq<Event>)
    ensures LevelAfter(t, LedBusy) == Some(Low)
    ensures hasFlashLed ==> LevelAfter(t, LedFlash) == Some(if flashMode then High else Low)
    ensures !hasFlashLed ==> LevelAfter(t, LedFlash) == None
    ensures forall p :: LevelAfter(t, p).Some? ==> p == LedBusy || p == LedFlash
  {
    var busy := [Drive(LedBusy, Low)];
    var flash := if hasFlashLed then [Drive(LedFlash, if flashMode then High else Low)] else [];
    forall p
      ensures LevelAfter(busy + flash, p) == if LevelAfter(flash, p).Some? then LevelAfter(flash, p) else LevelAfter(busy, p)
    {
      LevelAfterAppend(busy, flash, p);
    }
    busy + flash
  }

  /** Everything the bridge drives before the relay loop starts. */
  function Startup(flashMode: bool, hasFlashLed: bool): seq<Event> {
    Indicators(flashMode, hasFlashLed) + BootSequence(flashMode)
  }

  /** After start-up the co-processor runs in the requested mode, and the
      boot procedure leaves the LED settings untouched. */
  lemma StartupOutcome(flashMode: bool, hasFlashLed: bool)
    ensures var t := Startup(flashMode, hasFlashLed);
      && LevelAfter(t, En) == Some(High) && LevelAfter(t, Reset) == Some(High)
      && Strapped(t, flashMode)
      && LevelAfter(t, LedBusy) == Some(Low)
      && LevelAfter(t, LedFlash) == LevelAfter(Indicators(flashMode, hasFlashLed), LedFlash)
      && ElapsedMs(t) == SettleMs
  {
    var a := Indicators(flashMode, hasFlashLed);
    var b := BootSequence(flashMode);
    BootOutcome(flashMode);
    BootPrefixes(flashMode);
    assert b[..7] == b;
    UndrivenLevel(b, LedBusy);
    UndrivenLevel(b, LedFlash);
    LevelAfterAppend(a, b, En);
    LevelAfterAppend(a, b, Reset);
    LevelAfterAppend(a, b, EspGpio0);
    LevelAfterAppend(a, b, EspGpio2);
    LevelAfterAppend(a, b, LedBusy);
    LevelAfterAppend(a, b, LedFlash);
    ElapsedAppend(a, b);
    assert ElapsedMs(a) == 0 by {
      ElapsedAppend([Drive(LedBusy, Low)], a[1..]);
      assert a == [Drive(LedBusy, Low)] + a[1..];
    }
  }
}
