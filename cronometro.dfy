/** The stopwatch screen (`CronometroScreen`): an elapsed-seconds counter
    that the one-second interval increments while it runs, a play/pause
    button, a reset button, and an alarm minute typed into a box.

    The effect keyed on `tiempo` is folded into every step that changes
    `tiempo`: when the new `tiempo` equals the box's minute times sixty the
    alarm sound plays, which is counted in `alarmas`. */
module CronometroScreen {
  import opened JsText
  import opened ClockDisplay

  /** `formatearTiempo`: the whole minutes as written by `toString`, a ':',
      and the seconds zero-padded to two characters. */
  function Format(segundos: nat): (r: string)
    ensures |r| >= 4 && r[|r| - 3] == ':'
    ensures segundos < 600 <==> |r| == 4
    ensures r[0] == '0' ==> |r| == 4
  {
    var m := NatToDecimal(segundos / 60);
    var s := Pad2(segundos % 60);
    assert |s| == 2;
    Join(m, s)
  }

  /** Both fields of the display are digits, the minutes without a leading
      zero; the seconds field is below 60 and the two fields together make
      up `segundos`. */
  lemma FormatFields(segundos: nat)
    ensures var r := Format(segundos);
      AllDigits(r[..|r| - 3], 10) && AllDigits(r[|r| - 2..], 10) &&
      (r[0] == '0' ==> r[..|r| - 3] == "0") &&
      0 <= Value(r[|r| - 2..], 10) < 60 &&
      Value(r[..|r| - 3], 10) * 60 + Value(r[|r| - 2..], 10) == segundos
  {
    FieldsOfDisplay(Format(segundos), NatToDecimal(segundos / 60), Pad2(segundos % 60));
  }

  /** The display reads back, split at its ':' and parsed with `parseInt`,
      as the number of seconds it shows. */
  lemma FormatRoundTrip(segundos: nat)
    ensures ReadClock(Format(segundos)) == Some(segundos)
  {
    ParseDecimal(segundos / 60);
    ParsePad2(segundos % 60);
    ReadClockOfFields(Format(segundos), NatToDecimal(segundos / 60), Pad2(segundos % 60),
      segundos / 60, segundos % 60, segundos);
  }

  /** The `tiempo` at which the alarm sounds: `parseInt(minutoAlarma) * 60`,
      or `None` when the box is empty (the `minutoAlarma &&` guard) or NaN. */
  function Threshold(minutoAlarma: string): (r: Option<int>)
    ensures minutoAlarma == [] || NoDecimalDigit(minutoAlarma) ==> r == None
    ensures r.Some? ==> r.value % 60 == 0
  {
    if minutoAlarma == "" then None
    else
      match ParseInt(minutoAlarma, false)
      case None => None
      case Some(minutes) => Some(minutes * 60)
  }

  /** A box of decimal digits gives its value in minutes. */
  lemma ThresholdOfDigits(minutoAlarma: string)
    requires minutoAlarma != "" && AllDigits(minutoAlarma, 10)
    ensures Threshold(minutoAlarma) == Some(Value(minutoAlarma, 10) * 60)
  {
    ParseIntOfDigits(minutoAlarma, false);
  }

  /** `parseInt` is called without a radix, so a box reading "0x" followed by
      hexadecimal digits is read in base 16. */
  lemma ThresholdOfHex(digits: string)
    requires digits != "" && AllDigits(digits, 16)
    ensures Threshold("0x" + digits) == Some(Value(digits, 16) * 60)
  {
    ParseIntOfHex(digits);
  }

  /** A box starting with decimal digits followed by other text ("5 min")
      sets the alarm at the minute those digits write. */
  lemma ThresholdOfPrefix(d: string, rest: string)
    requires d != [] && AllDigits(d, 10) && (rest == [] || !IsDigit(rest[0], 10))
    requires !(d == "0" && rest != [] && (rest[0] == 'x' || rest[0] == 'X'))
    ensures Threshold(d + rest) == Some(Value(d, 10) * 60)
  {
    ParseIntOfPrefix(d, rest, false);
  }

  /** "5 min" in the box sets the alarm at the 300th second. */
  lemma TrailingTextIgnored()
    ensures Threshold("5 min") == Some(300)
  {
    ThresholdOfPrefix("5", " min");
    assert "5" + " min" == "5 min" && Value("5", 10) == 5;
  }

  /** The screen's state: `tiempo`, `corriendo`, the alarm box, and how many
      times the alarm has sounded. */
  datatype Snapshot = Snapshot(
    tiempo: int,
    corriendo: bool,
    minutoAlarma: string,
    alarmas: nat)

  /** The state right after mounting; the effect's first run finds the box
      empty and stays silent. */
  const Mounted := Snapshot(0, false, "", 0)

  /** What holds after every step: elapsed time is never negative. */
  predicate Inv(s: Snapshot)
  {
    s.tiempo >= 0
  }

  /** The effect on `[tiempo]`: it runs only when `tiempo` changed, and
      sounds when the new `tiempo` is the alarm's. */
  function Effect(before: Snapshot, after: Snapshot): (r: Snapshot)
    // only the alarm count can change, and by one at most
    ensures r.(alarmas := after.alarmas) == after
    ensures r.alarmas == after.alarmas || r.alarmas == after.alarmas + 1
    // it sounds exactly when `tiempo` moved onto the alarm's second
    ensures r.alarmas == after.alarmas + 1 <==>
      after.tiempo != before.tiempo && Threshold(after.minutoAlarma) == Some(after.tiempo)
  {
    if after.tiempo != before.tiempo && Threshold(after.minutoAlarma) == Some(after.tiempo)
    then after.(alarmas := after.alarmas + 1)
    else after
  }

  /** One callback of the interval, which is only scheduled while running. */
  function TickStep(s: Snapshot): (r: Snapshot)
    ensures Inv(s) ==> Inv(r)
    ensures r.minutoAlarma == s.minutoAlarma && r.corriendo == s.corriendo
    ensures !s.corriendo ==> r == s
    ensures s.corriendo ==> r.tiempo == s.tiempo + 1
    ensures s.corriendo ==>
      (r.alarmas == s.alarmas + 1 <==> Threshold(s.minutoAlarma) == Some(s.tiempo + 1))
    ensures r.alarmas == s.alarmas || r.alarmas == s.alarmas + 1
  {
    if s.corriendo then Effect(s, s.(tiempo := s.tiempo + 1)) else s
  }

  /** The play/pause button: `setCorriendo(!corriendo)`. */
  function ToggleStep(s: Snapshot): (r: Snapshot)
    ensures r.corriendo != s.corriendo
    ensures r.(corriendo := s.corriendo) == s
  {
    s.(corriendo := !s.corriendo)
  }

  /** The reset button: `tiempo` back to 0 and stopped. The box is kept, and
      when the box reads minute 0 and `tiempo` was not already 0, going back
      to 0 sounds the alarm. */
  function ResetStep(s: Snapshot): (r: Snapshot)
    ensures Inv(r) && r.tiempo == 0 && !r.corriendo && r.minutoAlarma == s.minutoAlarma
    ensures r.alarmas == if s.tiempo != 0 && Threshold(s.minutoAlarma) == Some(0)
      then s.alarmas + 1 else s.alarmas
  {
    Effect(s, s.(tiempo := 0, corriendo := false))
  }

  /** Typing into the alarm box: `onChangeText={setMinutoAlarma}`. The effect
      is not keyed on the box, so typing never sounds the alarm, even when the
      new minute is the one on the display. */
  function EditStep(s: Snapshot, text: string): (r: Snapshot)
    ensures r.minutoAlarma == text
    ensures r.(minutoAlarma := s.minutoAlarma) == s
  {
    s.(minutoAlarma := text)
  }

  /** Whether the alarm minute of `minutoAlarma` lies in `(from, to]`. */
  function Crossed(minutoAlarma: string, from: int, to: int): nat
  {
    match Threshold(minutoAlarma)
    case Some(t) => if from < t <= to then 1 else 0
    case None => 0
  }

  /** `n` callbacks of the interval. */
  function Ticks(s: Snapshot, n: nat): (r: Snapshot)
    ensures Inv(s) ==> Inv(r)
    ensures r.minutoAlarma == s.minutoAlarma && r.corriendo == s.corriendo
    decreases n
  {
    if n == 0 then s else Ticks(TickStep(s), n - 1)
  }

  /** While running, `n` ticks add `n` seconds and sound the alarm once if its
      time lies among them, and never more than once. */
  lemma {:induction false} TicksCount(s: Snapshot, n: nat)
    requires s.corriendo
    ensures Ticks(s, n) ==
      s.(tiempo := s.tiempo + n, alarmas := s.alarmas + Crossed(s.minutoAlarma, s.tiempo, s.tiempo + n))
    decreases n
  {
    if n > 0 {
      TicksCount(TickStep(s), n - 1);
    }
  }

  /** While stopped, ticks change nothing. */
  lemma {:induction false} StoppedIsFrozen(s: Snapshot, n: nat)
    requires !s.corriendo
    ensures Ticks(s, n) == s
    decreases n
  {
    if n > 0 {
      StoppedIsFrozen(TickStep(s), n - 1);
    }
  }

  /** An alarm whose time has already gone by does not sound when the box is
      changed to it: only a later `tiempo` can. */
  lemma NoRetroactiveAlarm(s: Snapshot, text: string, n: nat)
    requires s.corriendo
    requires Threshold(text).Some? && Threshold(text).value <= s.tiempo
    ensures Ticks(EditStep(s, text), n).alarmas == s.alarmas
  {
    TicksCount(EditStep(s, text), n);
  }

  /** With the box empty or unreadable, no number of ticks sounds the
      alarm. */
  lemma SilentWithoutThreshold(s: Snapshot, n: nat)
    requires Threshold(s.minutoAlarma).None?
    ensures Ticks(s, n).alarmas == s.alarmas
  {
    if s.corriendo {
      TicksCount(s, n);
    } else {
      StoppedIsFrozen(s, n);
    }
  }

  /** With "0" in the box, resetting after one second of running sounds the
      alarm, while resetting a stopwatch already at 0 does not. */
  lemma ResetAtMinuteZero()
    ensures var s := Mounted.(minutoAlarma := "0");
      ResetStep(Ticks(ToggleStep(s), 1)).alarmas == 1 && ResetStep(s).alarmas == 0
  {
    ThresholdOfDigits("0");
    assert Value("0", 10) == 0;
    TicksCount(ToggleStep(Mounted.(minutoAlarma := "0")), 1);
  }

  /** With "5" in the box, the alarm sounds at the 300th second and only
      then: not before, and not again by the 600th. */
  lemma FiveMinutes()
    ensures var s := Mounted.(minutoAlarma := "5", corriendo := true);
      Ticks(s, 299).alarmas == 0 && Ticks(s, 300).alarmas == 1 && Ticks(s, 600).alarmas == 1
  {
    var s := Mounted.(minutoAlarma := "5", corriendo := true);
    ThresholdOfDigits("5");
    assert Value("5", 10) == 5;
    TicksCount(s, 299);
    TicksCount(s, 300);
    TicksCount(s, 600);
  }

  /** Editing the box re-arms the alarm without a reset: with "5" it sounds
      at the 300th second, and after changing the box to "6" it sounds again
      sixty seconds later. */
  lemma EditRearms()
    ensures var s := Ticks(Mounted.(minutoAlarma := "5", corriendo := true), 300);
      s.alarmas == 1 && Ticks(EditStep(s, "6"), 60).alarmas == 2
  {
    var s := Mounted.(minutoAlarma := "5", corriendo := true);
    ThresholdOfDigits("5");
    ThresholdOfDigits("6");
    assert Value("5", 10) == 5 && Value("6", 10) == 6;
    TicksCount(s, 300);
    TicksCount(EditStep(Ticks(s, 300), "6"), 60);
  }

  /** An event the screen reacts to. */
  datatype Event = Tick | Toggle | Reset | TypeAlarma(text: string)

  function Step(s: Snapshot, e: Event): Snapshot
  {
    match e
    case Tick => TickStep(s)
    case Toggle => ToggleStep(s)
    case Reset => ResetStep(s)
    case TypeAlarma(text) => EditStep(s, text)
  }

  function Run(s: Snapshot, events: seq<Event>): Snapshot
    decreases |events|
  {
    if events == [] then s else Run(Step(s, events[0]), events[1..])
  }

  /** Whatever happens, elapsed time is never negative. */
  lemma {:induction false} AlwaysInv(s: Snapshot, events: seq<Event>)
    requires Inv(s)
    ensures Inv(Run(s, events))
    decreases |events|
  {
    if events != [] {
      AlwaysInv(Step(s, events[0]), events[1..]);
    }
  }

  /** Through any mix of ticks and pauses, without a reset or an edit of the
      box, time never goes back and the alarm sounds once exactly when its
      time was passed. */
  lemma {:induction false} PausesKeepOneAlarm(s: Snapshot, events: seq<Event>)
    requires forall i :: 0 <= i < |events| ==> events[i] == Tick || events[i] == Toggle
    ensures Run(s, events).tiempo >= s.tiempo
    ensures Run(s, events).minutoAlarma == s.minutoAlarma
    ensures Run(s, events).alarmas ==
      s.alarmas + Crossed(s.minutoAlarma, s.tiempo, Run(s, events).tiempo)
    decreases |events|
  {
    if events != [] {
      var next := Step(s, events[0]);
      PausesKeepOneAlarm(next, events[1..]);
    }
  }

  /** The screen's state, updated in place by its handlers. */
  class Cronometro {
    var tiempo: int
    var corriendo: bool
    var minutoAlarma: string
    var alarmas: nat

    function State(): Snapshot
      reads this
    {
      Snapshot(tiempo, corriendo, minutoAlarma, alarmas)
    }

    ghost predicate Valid()
      reads this
    {
      Inv(State())
    }

    constructor ()
      ensures Valid() && State() == Mounted
    {
      tiempo, corriendo, minutoAlarma, alarmas := 0, false, "", 0;
    }

    /** What the circle shows: `formatearTiempo(tiempo)`. */
    method Display() returns (text: string)
      requires Valid()
      ensures ReadClock(text) == Some(tiempo)
      ensures text == Format(tiempo)
    {
      text := Format(tiempo);
      FormatRoundTrip(tiempo);
    }

    /** One callback of the one-second interval. */
    method Tick()
      requires Valid()
      modifies this
      ensures Valid() && State() == TickStep(old(State()))
    {
      if corriendo {
        var before := State();
        tiempo := tiempo + 1;
        AlarmEffect(before);
      }
    }

    /** The play/pause button. */
    method Toggle()
      requires Valid()
      modifies this
      ensures Valid() && State() == ToggleStep(old(State()))
    {
      corriendo := !corriendo;
    }

    /** The reset button. */
    method Reset()
      requires Valid()
      modifies this
      ensures Valid() && State() == ResetStep(old(State()))
    {
      var before := State();
      tiempo := 0;
      corriendo := false;
      AlarmEffect(before);
    }

    method SetMinutoAlarma(text: string)
      requires Valid()
      modifies this
      ensures Valid() && State() == EditStep(old(State()), text)
    {
      minutoAlarma := text;
    }

    /** The effect on `[tiempo]`, run after a step that started in `before`. */
    method AlarmEffect(before: Snapshot)
      modifies this
      ensures State() == Effect(before, old(State()))
    {
      if tiempo != before.tiempo && Threshold(minutoAlarma) == Some(tiempo) {
        alarmas := alarmas + 1;
      }
    }
  }
}
