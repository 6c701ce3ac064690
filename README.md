# Countdown and stopwatch screens, in Dafny

This project models the two timer screens of a small React Native app and
proves properties of the model:

- `TemporizadorScreen` (`src/screens/temporizador.js`): a countdown. Two text
  boxes give minutes and seconds. Play starts the count from the boxes, or
  resumes it after a pause. A one-second interval decrements the remaining
  seconds. When the count reaches zero, the alarm fires and the timer
  stops. Reset clears everything.
- `CronometroScreen` (`src/screens/cronometro.js`): a stopwatch. A one-second
  interval increments the elapsed seconds while it runs. A text box holds
  an alarm minute, and the alarm sounds when the elapsed time reaches that
  minute. Reset puts the time back to zero.

Each screen's state is a `class` (`Temporizador`, `Cronometro`). Its fields
are the screen's React state, and the handlers are methods that update them
in place. Each method is proved to take the state to the result of a pure
step function over a `Snapshot` datatype. The properties of the screens are
proved as lemmas over those step functions and over runs of many steps
(`Ticks`, `Run`).

The React mechanics are made explicit:

- one callback of `setInterval` is a `Tick` step;
- each `useEffect` reaction is run at the end of the step that changed one of
  its dependencies:
  - the countdown's zero check (`ZeroCheck`) is keyed on `corriendo` and
    `tiempoRestante`;
  - the stopwatch's alarm check (`Effect`) is keyed on `tiempo`;
- the state updates made in one handler are applied together before the
  effect runs.

An alarm (sound plus vibration on the countdown, sound on the stopwatch)
increments a counter, `alarmas`.

`JsText` models the pieces of JavaScript that the screens rely on:
- `parseInt` with and without a radix, including its leading white space,
  its sign and, without a radix, the "0x" prefix; NaN is `None`;
- `toString` of a non-negative integer;
- `padStart`.

`ClockDisplay` defines `ReadClock`, which reads a clock display back: it
splits the display at the first ':' and parses both sides. Both formatters
are proved to round-trip through it.

The model follows the code:
- the boxes keep exactly the text typed into them, with no digit filtering
  and no 59-second clamp;
- the stopwatch has no alarm-fired flag. Between resets it sounds at most
  once per alarm minute, unless the box is edited: an edit to a minute
  still ahead re-arms it (`EditRearms`).

## Model

| member | source | states |
|---|---|---|
| JsText.NatToDecimal | src/screens/cronometro.js:35-37 | `toString` of whole minutes is a non-empty run of decimal digits, with no leading zero unless it is "0", whose value is the number; it is one character exactly below 10 and at most two exactly below 100 |
| JsText.PadStart | src/screens/temporizador.js:72 | `padStart(width, fill)` is as long as the longer of `s` and `width`: the fill character in front, then `s` itself; a string already `width` long is left as it is |
| JsText.Pad2 | src/screens/temporizador.js:72 | `x.toString().padStart(2, '0')` is all digits with value `x`, at least two characters, exactly two iff `x < 100`, and starts with '0' only when `x < 10` |
| JsText.ZeroPaddedValue | src/screens/temporizador.js:72 | padding a digit string with '0' on the left keeps it all digits and keeps its value |
| JsText.ParseDecimal | src/screens/cronometro.js:37 | what `toString` writes, `parseInt` reads back to the same number |
| JsText.ParsePad2 | src/screens/temporizador.js:72 | what `toString().padStart(2, '0')` writes, `parseInt` reads back to the same number |
| JsText.ParseIntOfDigits | src/screens/temporizador.js:120 | a non-empty string of decimal digits parses, with or without a radix, to the number it writes |
| JsText.ParseInt | src/screens/temporizador.js:120 | `parseInt` of a string with no decimal digit anywhere (such as "cinco" or "abc") is NaN, with or without a radix; `ParseIntOfDigits`, `ParseIntOfHex`, `ParseDecimal` and `ParsePad2` give its values on digit strings |
| JsText.Negate | src/screens/cronometro.js:29 | a leading '-' negates the magnitude read after it, and NaN stays NaN |
| JsText.ParseUnsigned | src/screens/cronometro.js:29 | after the sign, a number is read only when the next character is a decimal digit (a "0x" prefix starts with one), and it is never negative; with radix 10 a number is read exactly then |
| JsText.LeadingNumber | src/screens/temporizador.js:120 | the digits at the start are read exactly when the first character is a digit of the radix, and their value is never negative |
| JsText.DigitRunOfPrefix | src/screens/temporizador.js:120 | the digit run at the start of a run of digits followed by a non-digit is exactly the run |
| JsText.LeadingNumberOfPrefix | src/screens/temporizador.js:120 | a run of digits followed by anything that does not start with a digit reads as the run's value |
| JsText.ParseIntOfPrefix | src/screens/cronometro.js:29 | `parseInt` of decimal digits followed by other text ("1.5", "5 min") is the digits' value; behind '+' the same, behind '-' its negation; with radix 10 always, and without a radix whenever the text does not start with "0x"/"0X" |
| JsText.ParseIntSkipsSpace | src/screens/temporizador.js:120 | a white-space character in front changes nothing: " 3" reads as "3" |
| JsText.ParseIntOfHex | src/screens/cronometro.js:29 | with no radix, "0x" followed by hex digits is read in base 16; with radix 10 the same text reads 0 |
| ClockDisplay.Join | src/screens/temporizador.js:72 | the template `${m}:${s}` has length `|m| + 1 + |s|`: the minutes field, then ':', then the seconds field |
| ClockDisplay.FieldsOfDisplay | src/screens/cronometro.js:37 | with a two-character seconds field, the display's last two characters are the seconds field and all but its last three the minutes field |
| ClockDisplay.SplitAfterDigits | src/screens/temporizador.js:72 | in a display whose minutes field is all digits, the first ':' is the one after that field |
| ClockDisplay.ReadClockOfFields | src/screens/temporizador.js:69-73 | a display of a digit field, ':' and a second field reads back as minutes * 60 + seconds |
| TemporizadorScreen.Format | src/screens/temporizador.js:69-73 | the display has a ':' three characters from its end, is exactly five characters ("MM:SS") iff the time is below 100 minutes, and starts with '0' only below 10 minutes, so 100 minutes show as "100:00" |
| TemporizadorScreen.FormatFields | src/screens/temporizador.js:69-73 | both fields are digits, the seconds field is in 0..59, and minutes * 60 + seconds gives back the input |
| TemporizadorScreen.FormatRoundTrip | src/screens/temporizador.js:69-73 | splitting the display at ':' and parsing both sides gives back the number of seconds shown |
| TemporizadorScreen.StartTotalOfDigits | src/screens/temporizador.js:120 | boxes holding only digits, an empty box counting as '0', give minutes * 60 + seconds |
| TemporizadorScreen.StartTotalOfPrefixes | src/screens/temporizador.js:120 | boxes that start with a digit give minutes * 60 + seconds, each read from the box's leading digits up to the first other character |
| TemporizadorScreen.BoxOfPrefix | src/screens/temporizador.js:120 | a box that starts with a digit is read through the `0` fallback as the value of its leading digits |
| TemporizadorScreen.DecimalPointIgnored | src/screens/temporizador.js:120 | "1.5" minutes with an empty seconds box start 60 seconds, not 90 |
| TemporizadorScreen.OrZero | src/screens/temporizador.js:120 | `box || '0'` is never empty and is the box itself when the box is not empty |
| TemporizadorScreen.StartTotal | src/screens/temporizador.js:120-121 | a non-empty minutes box or a non-empty seconds box without any decimal digit makes the total NaN, so play does not start |
| TemporizadorScreen.ZeroCheck | src/screens/temporizador.js:60-64 | the zero check touches neither the count nor the boxes and only ever stops the timer; the alarm fires exactly when it stops it; it stops the timer exactly when `corriendo` or `tiempoRestante` changed and the count is 0 while running |
| TemporizadorScreen.TickStep | src/screens/temporizador.js:51-64 | a tick changes nothing while stopped; while running it decrements by exactly one, the timer keeps running exactly while time is left, and the alarm fires exactly on the tick from 1 to 0; the invariant and the boxes are kept |
| TemporizadorScreen.ToggleStep | src/screens/temporizador.js:117-132 | running: pause and keep the count; paused with time left: resume without reading the boxes; idle: start with the boxes' total only when it is a number above 0, else change nothing; never fires the alarm |
| TemporizadorScreen.ResetStep | src/screens/temporizador.js:134-138 | from any state: count 0, stopped, both boxes empty, no alarm |
| TemporizadorScreen.SetMinutosStep | src/screens/temporizador.js:166 | typing stores the raw text in the minutes box and changes nothing else |
| TemporizadorScreen.SetSegundosStep | src/screens/temporizador.js:181 | typing stores the raw text in the seconds box and changes nothing else |
| TemporizadorScreen.Ticks | src/screens/temporizador.js:51-58 | any number of ticks keeps the invariant and the boxes, and never takes an alarm back |
| TemporizadorScreen.CountsDown | src/screens/temporizador.js:52-54 | fewer ticks than the time left only count down, one second per tick |
| TemporizadorScreen.ExpiresOnce | src/screens/temporizador.js:60-64 | as many ticks as the time left bring the count to 0, stop the timer and fire exactly one alarm |
| TemporizadorScreen.TicksSplit | src/screens/temporizador.js:51-58 | `a + b` ticks are `a` ticks followed by `b` ticks |
| TemporizadorScreen.StoppedIsFrozen | src/screens/temporizador.js:52-57 | while stopped, ticks change nothing, so an expired timer never fires again |
| TemporizadorScreen.StartThenExpire | src/screens/temporizador.js:117-123 | from idle with a total `d > 0`, play starts at `d`, and any `n >= d` ticks end idle with the same boxes and exactly one more alarm |
| TemporizadorScreen.RestartAfterExpiry | src/screens/temporizador.js:117-123 | expiry keeps the boxes, so play after expiry restarts with the same total |
| TemporizadorScreen.ResetThenToggle | src/screens/temporizador.js:134-138 | after a reset the boxes are empty, so play does nothing |
| TemporizadorScreen.OneMinute | src/screens/temporizador.js:117-123 | "1" and "00" start at 60 seconds; 60 ticks end stopped at 0 with one alarm |
| TemporizadorScreen.AlwaysInv | src/screens/temporizador.js:51-64 | after any sequence of events, the count is never negative and the timer runs only with time left |
| TemporizadorScreen.BoxesKept | src/screens/temporizador.js:117-132 | ticks and play/pause never change the boxes |
| TemporizadorScreen.Temporizador.constructor | src/screens/temporizador.js:8-11 | the screen mounts idle at 0 with empty boxes |
| TemporizadorScreen.Temporizador.Display | src/screens/temporizador.js:152 | the circle shows `formatearTiempo(tiempoRestante)`, which reads back as `tiempoRestante` |
| TemporizadorScreen.Temporizador.Tick | src/screens/temporizador.js:51-58 | one interval callback takes the state to `TickStep` of the old state and keeps the invariant |
| TemporizadorScreen.Temporizador.Toggle | src/screens/temporizador.js:117-132 | the play/pause button takes the state to `ToggleStep` of the old state and keeps the invariant |
| TemporizadorScreen.Temporizador.Reset | src/screens/temporizador.js:134-145 | the reset button takes the state to `ResetStep` of the old state |
| TemporizadorScreen.Temporizador.SetMinutos | src/screens/temporizador.js:166 | typing in the minutes box stores the text |
| TemporizadorScreen.Temporizador.SetSegundos | src/screens/temporizador.js:181 | typing in the seconds box stores the text |
| TemporizadorScreen.Temporizador.CheckZero | src/screens/temporizador.js:60-64 | the zero check fires the alarm and stops the timer when the count is 0 while running after a change |
| CronometroScreen.Format | src/screens/cronometro.js:34-38 | the display has a ':' three characters from its end, is exactly four characters iff the time is below 10 minutes, and starts with '0' only when the minutes are 0 |
| CronometroScreen.FormatFields | src/screens/cronometro.js:34-38 | both fields are digits, the minutes field has no leading zero, the seconds field is in 0..59, and minutes * 60 + seconds gives back the input |
| CronometroScreen.FormatRoundTrip | src/screens/cronometro.js:34-38 | splitting the display at ':' and parsing both sides gives back the number of seconds shown |
| CronometroScreen.ThresholdOfDigits | src/screens/cronometro.js:29 | a non-empty box of decimal digits sets the alarm at that many minutes, in seconds |
| CronometroScreen.ThresholdOfHex | src/screens/cronometro.js:29 | since `parseInt` gets no radix, "0x" and hex digits set the alarm at that hexadecimal number of minutes |
| CronometroScreen.ThresholdOfPrefix | src/screens/cronometro.js:29 | a box of decimal digits followed by other text (not "0x"/"0X") sets the alarm at the minute the digits write |
| CronometroScreen.TrailingTextIgnored | src/screens/cronometro.js:29 | "5 min" in the box sets the alarm at the 300th second |
| CronometroScreen.Threshold | src/screens/cronometro.js:29 | an empty box, or a box without any decimal digit, sets no alarm; an alarm time is always a whole number of minutes |
| CronometroScreen.Effect | src/screens/cronometro.js:28-32 | the effect changes only the alarm count, by at most one, and sounds exactly when `tiempo` changed onto the box's minute * 60 |
| CronometroScreen.TickStep | src/screens/cronometro.js:16-32 | a tick changes nothing while stopped; while running it adds exactly one second and sounds the alarm iff the new time is the box's minute * 60 |
| CronometroScreen.ToggleStep | src/screens/cronometro.js:85 | play/pause flips `corriendo` and changes nothing else |
| CronometroScreen.ResetStep | src/screens/cronometro.js:93 | time 0, stopped, box kept; the alarm sounds iff the time was not already 0 and the box reads minute 0 |
| CronometroScreen.EditStep | src/screens/cronometro.js:78 | typing stores the raw text in the box and never sounds the alarm |
| CronometroScreen.Ticks | src/screens/cronometro.js:16-25 | any number of ticks keeps the time non-negative and keeps the box and the running flag |
| CronometroScreen.TicksCount | src/screens/cronometro.js:28-32 | while running, `n` ticks add `n` seconds and sound the alarm once if its time lies in the ticks' span, else not at all |
| CronometroScreen.StoppedIsFrozen | src/screens/cronometro.js:16-25 | while stopped, ticks change nothing |
| CronometroScreen.NoRetroactiveAlarm | src/screens/cronometro.js:28-32 | changing the box to a minute already passed never sounds the alarm on later ticks |
| CronometroScreen.SilentWithoutThreshold | src/screens/cronometro.js:29 | with an empty or unreadable box, no number of ticks sounds the alarm |
| CronometroScreen.ResetAtMinuteZero | src/screens/cronometro.js:93 | with "0" in the box, a reset after one running second sounds the alarm; a reset already at 0 does not |
| CronometroScreen.FiveMinutes | src/screens/cronometro.js:28-32 | with "5" in the box, 299 ticks sound nothing, 300 sound once, 600 still once |
| CronometroScreen.EditRearms | src/screens/cronometro.js:78 | with "5", 300 ticks sound once; editing the box to "6" and 60 more ticks sound a second time, with no reset |
| CronometroScreen.AlwaysInv | src/screens/cronometro.js:16-25 | after any sequence of events the elapsed time is never negative |
| CronometroScreen.PausesKeepOneAlarm | src/screens/cronometro.js:28-32 | over any mix of ticks and pauses, time never goes back and the alarm sounds exactly once iff its time was passed |
| CronometroScreen.Cronometro.constructor | src/screens/cronometro.js:8-10 | the screen mounts stopped at 0 with an empty box |
| CronometroScreen.Cronometro.Display | src/screens/cronometro.js:67 | the circle shows `formatearTiempo(tiempo)`, which reads back as `tiempo` |
| CronometroScreen.Cronometro.Tick | src/screens/cronometro.js:18-20 | one interval callback takes the state to `TickStep` of the old state |
| CronometroScreen.Cronometro.Toggle | src/screens/cronometro.js:85 | the play/pause button takes the state to `ToggleStep` of the old state |
| CronometroScreen.Cronometro.Reset | src/screens/cronometro.js:93 | the reset button takes the state to `ResetStep` of the old state |
| CronometroScreen.Cronometro.SetMinutoAlarma | src/screens/cronometro.js:78 | typing in the box takes the state to `EditStep` of the old state |
| CronometroScreen.Cronometro.AlarmEffect | src/screens/cronometro.js:28-32 | the effect on `tiempo` sounds the alarm when `tiempo` changed to the box's minute * 60 |

## Left out

- Audio through `expo-av` is not modelled: preloading, replay, the fallback reload, stopping and unloading (src/screens/temporizador.js:18-48, 76-115, 139-142; src/screens/cronometro.js:41-60). It is asynchronous device I/O. An alarm is only counted in `alarmas`, and a failed sound does not change the timer's state.
- `Vibration.vibrate`, `Vibration.cancel` and `Keyboard.dismiss` are not modelled: they are device calls with no effect on the screen's state.
- The timing of `setInterval`/`clearInterval` is not modelled: ticks are explicit events and the one-second period is not represented. The interval ids (`intervalRef`) are left out too. React's render and effect scheduling is replaced by running each effect at the end of the step that changed its dependencies.
- Unmounting is not modelled, together with the cleanups that clear the interval and unload the sound.
- JSX rendering and styles are not modelled, and neither is the icon choice between play and pause.
- The other screens and the navigation are not modelled: src/screens/calendarioScreen.js, src/screens/screenInicial.js, src/navigation and App.js.
- Numbers are unbounded integers. JavaScript's doubles are not modelled: `parseInt` of more than about 15 digits loses precision, or yields Infinity, in the original but not in the model.
- Strings are sequences of Dafny characters. UTF-16 surrogate pairs are not distinguished; only the white space `parseInt` skips matters here.
