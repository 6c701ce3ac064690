/** The countdown screen (`TemporizadorScreen`): a remaining-seconds counter
    that the one-second interval decrements while it runs, a play/pause
    button that starts it from the two input boxes, a reset button, and an
    alarm when the count reaches zero.

    The screen's React effects are folded into the step that triggers them:
    the interval effect decides whether a tick is delivered, and the zero
    check runs at the end of every step that changed `corriendo` or
    `tiempoRestante`. Each alarm (sound and vibration) is counted in
    `alarmas`. */
module TemporizadorScreen {
  import opened JsText
  import opened ClockDisplay

  /** `formatearTiempo`: minutes and seconds, each zero-padded to two
      characters, around a ':'. The display is "MM:SS" exactly below 100
      minutes; past that the minutes field grows. */
  function Format(seg: nat): (r: string)
    ensures |r| >= 5 && r[|r| - 3] == ':'
    ensures seg < 6000 <==> |r| == 5
    ensures r[0] == '0' ==> seg < 600
  {
    var m, s := Pad2(seg / 60), Pad2(seg % 60);
    assert |s| == 2;
    HundredMinutes(seg);
    Join(m, s)
  }

  /** Below 6000 seconds exactly when below 100 whole minutes. */
  lemma HundredMinutes(seg: nat)
    ensures seg < 6000 <==> seg / 60 < 100
  {
  }

  /** Both fields of the display are digits; the seconds field is below 60
      and the two fields together make up `seg`. */
  lemma FormatFields(seg: nat)
    ensures var r := Format(seg);
      AllDigits(r[..|r| - 3], 10) && AllDigits(r[|r| - 2..], 10) &&
      0 <= Value(r[|r| - 2..], 10) < 60 &&
      Value(r[..|r| - 3], 10) * 60 + Value(r[|r| - 2..], 10) == seg
  {
    FieldsOfDisplay(Format(seg), Pad2(seg / 60), Pad2(seg % 60));
  }

  /** The display reads back, split at its ':' and parsed with `parseInt`,
      as the number of seconds it shows. */
  lemma FormatRoundTrip(seg: nat)
    ensures ReadClock(Format(seg)) == Some(seg)
  {
    ParsePad2(seg / 60);
    ParsePad2(seg % 60);
    ReadClockOfFields(Format(seg), Pad2(seg / 60), Pad2(seg % 60), seg / 60, seg % 60, seg);
  }

  /** What `parseInt` is given for a box: `box || '0'`. */
  function OrZero(box: string): (r: string)
    ensures r != [] && (box != [] ==> r == box)
  {
    if box == "" then "0" else box
  }

  /** `parseInt(minutos || '0', 10) * 60 + parseInt(segundos || '0', 10)`,
      with `None` for NaN. */
  function StartTotal(minutos: string, segundos: string): (r: Option<int>)
    ensures minutos != [] && NoDecimalDigit(minutos) ==> r == None
    ensures segundos != [] && NoDecimalDigit(segundos) ==> r == None
  {
    var m := ParseInt(OrZero(minutos), true);
    var s := ParseInt(OrZero(segundos), true);
    if m.Some? && s.Some? then Some(m.value * 60 + s.value) else None
  }

  /** Boxes holding digits only (or nothing) give minutes * 60 + seconds. */
  lemma StartTotalOfDigits(minutos: string, segundos: string)
    requires AllDigits(minutos, 10) && AllDigits(segundos, 10)
    ensures StartTotal(minutos, segundos) == Some(Value(minutos, 10) * 60 + Value(segundos, 10))
  {
    var m, s := Value(minutos, 10), Value(segundos, 10);
    BoxOfDigits(minutos);
    BoxOfDigits(segundos);
    StartTotalOfParsed(minutos, segundos, m, s, m * 60 + s);
  }

  /** A box of digits, read through `|| '0'`, parses to the value of its
      digits; an empty box is worth zero. */
  lemma BoxOfDigits(box: string)
    requires AllDigits(box, 10)
    ensures ParseInt(OrZero(box), true) == Some(Value(box, 10))
  {
    var read := OrZero(box);
    if box == "" {
      assert read[..0] == [];
      assert Value(read, 10) == 0;
    }
    ParseIntOfDigits(read, true);
  }

  lemma StartTotalOfParsed(minutos: string, segundos: string, m: int, s: int, total: int)
    requires ParseInt(OrZero(minutos), true) == Some(m)
    requires ParseInt(OrZero(segundos), true) == Some(s)
    requires m * 60 + s == total
    ensures StartTotal(minutos, segundos) == Some(total)
  {
  }

  /** Boxes starting with digits followed by other text ("1.5", "2 min") are
      read up to the first character that is not a digit. */
  lemma StartTotalOfPrefixes(minutos: string, segundos: string)
    requires DigitRun(minutos, 10) > 0 && DigitRun(segundos, 10) > 0
    ensures StartTotal(minutos, segundos) ==
      Some(Value(minutos[..DigitRun(minutos, 10)], 10) * 60 + Value(segundos[..DigitRun(segundos, 10)], 10))
  {
    BoxOfPrefix(minutos);
    BoxOfPrefix(segundos);
    StartTotalOfBoxes(minutos, segundos,
      Value(minutos[..DigitRun(minutos, 10)], 10), Value(segundos[..DigitRun(segundos, 10)], 10));
  }

  lemma StartTotalOfBoxes(minutos: string, segundos: string, m: int, s: int)
    requires ParseInt(OrZero(minutos), true) == Some(m)
    requires ParseInt(OrZero(segundos), true) == Some(s)
    ensures StartTotal(minutos, segundos) == Some(m * 60 + s)
  {
    StartTotalOfParsed(minutos, segundos, m, s, m * 60 + s);
  }

  /** A box starting with a digit parses to the value of its leading digits. */
  lemma BoxOfPrefix(box: string)
    requires DigitRun(box, 10) > 0
    ensures ParseInt(OrZero(box), true) == Some(Value(box[..DigitRun(box, 10)], 10))
  {
    var k := DigitRun(box, 10);
    DigitRunIsLongest(box, 10);
    assert box == box[..k] + box[k..];
    ParseIntOfPrefix(box[..k], box[k..], true);
  }

  /** "1.5" minutes and an empty seconds box start a one-minute count. */
  lemma DecimalPointIgnored()
    ensures StartTotal("1.5", "") == Some(60)
  {
    ParseIntOfPrefix("1", ".5", true);
    assert "1" + ".5" == "1.5" && Value("1", 10) == 1;
    BoxOfDigits("");
    StartTotalOfParsed("1.5", "", 1, 0, 60);
  }

  /** The screen's state: `tiempoRestante`, `corriendo`, the two input
      boxes, and how many alarms have gone off. */
  datatype Snapshot = Snapshot(
    tiempoRestante: int,
    corriendo: bool,
    minutos: string,
    segundos: string,
    alarmas: nat)

  /** The state right after mounting. */
  const Mounted := Snapshot(0, false, "", "", 0)

  /** What holds after every step: the count is never negative, and the
      timer only runs while there is time left. */
  predicate Inv(s: Snapshot)
  {
    s.tiempoRestante >= 0 && (s.corriendo ==> s.tiempoRestante > 0)
  }

  /** The effect on `[corriendo, tiempoRestante]`: when either changed and the
      count is at zero while running, the alarm fires and the timer stops. */
  function ZeroCheck(before: Snapshot, after: Snapshot): (r: Snapshot)
    // it never touches the count or the boxes, and only ever stops the timer
    ensures r == after.(corriendo := r.corriendo, alarmas := r.alarmas)
    ensures r.corriendo ==> after.corriendo
    // the alarm fires exactly when the timer is stopped here
    ensures r.alarmas == if r.corriendo != after.corriendo then after.alarmas + 1 else after.alarmas
    // a change that leaves the count at zero never leaves the timer running
    ensures ((after.corriendo != before.corriendo || after.tiempoRestante != before.tiempoRestante)
             && after.tiempoRestante == 0) ==> !r.corriendo
    // and it stops the timer only then
    ensures r.corriendo != after.corriendo ==>
      after.tiempoRestante == 0 &&
      (after.corriendo != before.corriendo || after.tiempoRestante != before.tiempoRestante)
  {
    if (after.corriendo != before.corriendo || after.tiempoRestante != before.tiempoRestante)
       && after.tiempoRestante == 0 && after.corriendo
    then after.(corriendo := false, alarmas := after.alarmas + 1)
    else after
  }

  /** One callback of the interval, which is only scheduled while running
      with time left, followed by the zero check. */
  function TickStep(s: Snapshot): (r: Snapshot)
    ensures Inv(s) ==> Inv(r)
    ensures r.minutos == s.minutos && r.segundos == s.segundos
    ensures !s.corriendo ==> r == s
    ensures Inv(s) && s.corriendo ==> r.tiempoRestante == s.tiempoRestante - 1
    ensures Inv(s) && s.corriendo ==> (r.corriendo <==> r.tiempoRestante > 0)
    ensures Inv(s) ==> r.alarmas == if s.corriendo && s.tiempoRestante == 1 then s.alarmas + 1 else s.alarmas
  {
    var ticked := if s.corriendo && s.tiempoRestante > 0
      then s.(tiempoRestante := s.tiempoRestante - 1) else s;
    ZeroCheck(s, ticked)
  }

  /** `toggleTemporizador`. */
  function ToggleStep(s: Snapshot): (r: Snapshot)
    ensures Inv(s) ==> Inv(r)
    ensures r.minutos == s.minutos && r.segundos == s.segundos && r.alarmas == s.alarmas
    // running: pause, keeping the count
    ensures s.corriendo ==> r == s.(corriendo := false)
    // paused with time left: resume without reading the boxes
    ensures !s.corriendo && s.tiempoRestante != 0 ==> r == s.(corriendo := true)
    // idle: start from the boxes when they give a positive total, else nothing
    ensures !s.corriendo && s.tiempoRestante == 0 ==>
      match StartTotal(s.minutos, s.segundos)
      case Some(total) => r == if total > 0 then s.(tiempoRestante := total, corriendo := true) else s
      case None => r == s
  {
    var pressed :=
      if !s.corriendo then
        if s.tiempoRestante == 0 then
          var total := StartTotal(s.minutos, s.segundos);
          if total.Some? && total.value > 0
          then s.(tiempoRestante := total.value, corriendo := true)
          else s
        else s.(corriendo := true)
      else s.(corriendo := false);
    ZeroCheck(s, pressed)
  }

  /** `reiniciarTemporizador`. */
  function ResetStep(s: Snapshot): (r: Snapshot)
    ensures r == Mounted.(alarmas := s.alarmas)
  {
    ZeroCheck(s, s.(corriendo := false, tiempoRestante := 0, minutos := "", segundos := ""))
  }

  /** Typing into the minutes box: `onChangeText={setMinutos}`. */
  function SetMinutosStep(s: Snapshot, text: string): (r: Snapshot)
    ensures r.minutos == text
    ensures r.(minutos := s.minutos) == s
  {
    s.(minutos := text)
  }

  /** Typing into the seconds box: `onChangeText={setSegundos}`. */
  function SetSegundosStep(s: Snapshot, text: string): (r: Snapshot)
    ensures r.segundos == text
    ensures r.(segundos := s.segundos) == s
  {
    s.(segundos := text)
  }

  /** `n` callbacks of the interval. */
  function Ticks(s: Snapshot, n: nat): (r: Snapshot)
    ensures Inv(s) ==> Inv(r)
    ensures r.minutos == s.minutos && r.segundos == s.segundos
    ensures r.alarmas >= s.alarmas
    decreases n
  {
    if n == 0 then s else Ticks(TickStep(s), n - 1)
  }

  /** Fewer ticks than the time left only count down. */
  lemma {:induction false} CountsDown(s: Snapshot, k: nat)
    requires Inv(s) && s.corriendo && k < s.tiempoRestante
    ensures Ticks(s, k) == s.(tiempoRestante := s.tiempoRestante - k)
    decreases k
  {
    if k > 0 {
      CountsDown(TickStep(s), k - 1);
    }
  }

  /** As many ticks as the time left bring the count to zero, stop the timer
      and fire the alarm exactly once. */
  lemma {:induction false} ExpiresOnce(s: Snapshot)
    requires Inv(s) && s.corriendo
    ensures Ticks(s, s.tiempoRestante) ==
      s.(tiempoRestante := 0, corriendo := false, alarmas := s.alarmas + 1)
  {
    var d := s.tiempoRestante;
    CountsDown(s, d - 1);
    TicksSplit(s, d - 1, 1);
  }

  lemma {:induction false} TicksSplit(s: Snapshot, a: nat, b: nat)
    ensures Ticks(s, a + b) == Ticks(Ticks(s, a), b)
    decreases a
  {
    if a > 0 {
      TicksSplit(TickStep(s), a - 1, b);
    }
  }

  /** While stopped, ticks change nothing: a paused timer keeps its count, and
      an expired one never fires again. */
  lemma {:induction false} StoppedIsFrozen(s: Snapshot, n: nat)
    requires !s.corriendo
    ensures Ticks(s, n) == s
    decreases n
  {
    if n > 0 {
      StoppedIsFrozen(TickStep(s), n - 1);
    }
  }

  /** Starting from idle with boxes that give `d > 0` seconds, and delivering
      at least `d` ticks, ends idle again with the same boxes and exactly one
      more alarm. */
  lemma StartThenExpire(s: Snapshot, n: nat)
    requires s.tiempoRestante == 0 && !s.corriendo
    requires StartTotal(s.minutos, s.segundos).Some?
    requires n >= StartTotal(s.minutos, s.segundos).value > 0
    ensures ToggleStep(s).corriendo && ToggleStep(s).tiempoRestante == StartTotal(s.minutos, s.segundos).value
    ensures Ticks(ToggleStep(s), n) == s.(alarmas := s.alarmas + 1)
  {
    var started := ToggleStep(s);
    var d := started.tiempoRestante;
    ExpiresOnce(started);
    TicksSplit(started, d, n - d);
    StoppedIsFrozen(Ticks(started, d), n - d);
  }

  /** Expiry keeps the boxes, so pressing play again restarts with the same
      total; only reset clears them. */
  lemma RestartAfterExpiry(s: Snapshot)
    requires s.tiempoRestante == 0 && !s.corriendo
    requires StartTotal(s.minutos, s.segundos).Some? && StartTotal(s.minutos, s.segundos).value > 0
    ensures var expired := Ticks(ToggleStep(s), StartTotal(s.minutos, s.segundos).value);
      ToggleStep(expired) == ToggleStep(s).(alarmas := s.alarmas + 1)
  {
    StartThenExpire(s, StartTotal(s.minutos, s.segundos).value);
  }

  /** Reset empties both boxes, so pressing play right after it does nothing
      until a time is typed. */
  lemma ResetThenToggle(s: Snapshot)
    ensures ToggleStep(ResetStep(s)) == ResetStep(s)
  {
    StartTotalOfDigits("", "");
  }

  /** Setting 1:00 and pressing play runs for sixty ticks, then stops with one
      alarm and "00:00" on the display. */
  lemma OneMinute()
    ensures var started := ToggleStep(Mounted.(minutos := "1", segundos := "00"));
      started.tiempoRestante == 60 && started.corriendo &&
      Ticks(started, 60) == Mounted.(minutos := "1", segundos := "00", alarmas := 1)
  {
    var s := Mounted.(minutos := "1", segundos := "00");
    StartTotalOfDigits("1", "00");
    assert Value("1", 10) == 1 && Value("00", 10) == 0;
    StartThenExpire(s, 60);
  }

  /** An event the screen reacts to. */
  datatype Event = Tick | Toggle | Reset | TypeMinutos(text: string) | TypeSegundos(text: string)

  function Step(s: Snapshot, e: Event): Snapshot
  {
    match e
    case Tick => TickStep(s)
    case Toggle => ToggleStep(s)
    case Reset => ResetStep(s)
    case TypeMinutos(text) => SetMinutosStep(s, text)
    case TypeSegundos(text) => SetSegundosStep(s, text)
  }

  function Run(s: Snapshot, events: seq<Event>): Snapshot
    decreases |events|
  {
    if events == [] then s else Run(Step(s, events[0]), events[1..])
  }

  /** From mounting on, whatever happens, the count is never negative and
      the timer runs only with time left. */
  lemma {:induction false} AlwaysInv(s: Snapshot, events: seq<Event>)
    requires Inv(s)
    ensures Inv(Run(s, events))
    decreases |events|
  {
    if events != [] {
      AlwaysInv(Step(s, events[0]), events[1..]);
    }
  }

  /** Only reset and typing change the boxes. */
  lemma {:induction false} BoxesKept(s: Snapshot, events: seq<Event>)
    requires forall i :: 0 <= i < |events| ==> events[i] == Tick || events[i] == Toggle
    ensures Run(s, events).minutos == s.minutos && Run(s, events).segundos == s.segundos
    decreases |events|
  {
    if events != [] {
      BoxesKept(Step(s, events[0]), events[1..]);
    }
  }

  /** The screen's state, updated in place by its handlers. */
  class Temporizador {
    var tiempoRestante: int
    var corriendo: bool
    var minutos: string
    var segundos: string
    var alarmas: nat

    function State(): Snapshot
      reads this
    {
      Snapshot(tiempoRestante, corriendo, minutos, segundos, alarmas)
    }

    ghost predicate Valid()
      reads this
    {
      Inv(State())
    }

    constructor ()
      ensures Valid() && State() == Mounted
    {
      tiempoRestante, corriendo, minutos, segundos, alarmas := 0, false, "", "", 0;
    }

    /** What the circle shows: `formatearTiempo(tiempoRestante)`. */
    method Display() returns (text: string)
      requires Valid()
      ensures ReadClock(text) == Some(tiempoRestante)
      ensures text == Format(tiempoRestante)
    {
      text := Format(tiempoRestante);
      FormatRoundTrip(tiempoRestante);
    }

    /** One callback of the one-second interval. */
    method Tick()
      requires Valid()
      modifies this
      ensures Valid() && State() == TickStep(old(State()))
    {
      var before := State();
      if corriendo && tiempoRestante > 0 {
        tiempoRestante := tiempoRestante - 1;
      }
      CheckZero(before);
    }

    /** The play/pause button. */
    method Toggle()
      requires Valid()
      modifies this
      ensures Valid() && State() == ToggleStep(old(State()))
    {
      var before := State();
      if !corriendo {
        if tiempoRestante == 0 {
          var total := StartTotal(minutos, segundos);
          if total.Some? && total.value > 0 {
            tiempoRestante := total.value;
            corriendo := true;
          }
        } else {
          corriendo := true;
        }
      } else {
        corriendo := false;
      }
      CheckZero(before);
    }

    /** The reset button. */
    method Reset()
      requires Valid()
      modifies this
      ensures Valid() && State() == ResetStep(old(State()))
    {
      var before := State();
      corriendo := false;
      tiempoRestante := 0;
      minutos := "";
      segundos := "";
      CheckZero(before);
    }

    method SetMinutos(text: string)
      requires Valid()
      modifies this
      ensures Valid() && State() == SetMinutosStep(old(State()), text)
    {
      minutos := text;
    }

    method SetSegundos(text: string)
      requires Valid()
      modifies this
      ensures Valid() && State() == SetSegundosStep(old(State()), text)
    {
      segundos := text;
    }

    /** The zero-check effect, run after a step that started in `before`. */
    method CheckZero(before: Snapshot)
      modifies this
      ensures State() == ZeroCheck(before, old(State()))
    {
      if (corriendo != before.corriendo || tiempoRestante != before.tiempoRestante)
         && tiempoRestante == 0 && corriendo {
        alarmas := alarmas + 1;
        corriendo := false;
      }
    }
  }
}
