# Anycubic DWIN touch panel engine — a Dafny model

This project models the engine that lets an Anycubic DWIN touch panel
drive a Marlin printer over a serial line. The panel sends short text
commands such as `A0` or `A13 file.gco`. The printer answers with reply
lines such as `J20` or `A0V 205`, makes calls into the firmware and keeps
a small file browser over the SD card. The model has four parts.

- **The line framer and its ring queue** (`framer.dfy`, `world.dfy`, and
  `Engine.CommandEngine` in `engine.dfy`). Characters from the panel are
  collected into four slots of 96 characters. A line ends at a line feed,
  a carriage return, a `:` or the 96th character. A line holding an `A`
  is handled at once, under the number after its first `A`, and every
  line then takes a slot. `loop()` receives only while fewer than three
  lines wait, and then releases the oldest line. `codeSeen`/`codeValue`
  read the parameters from the oldest queued slot (`TFTbufindr`), not
  from the slot just framed.
  - `Engine.CommandEngine` is a class: the buffer is an `array`, and the
    counters, the strchr pointer and the pending input are fields.
  - Each method is proved to leave the engine in the state a function
    of `Framer` computes (`Framer.Receive`, `Framer.Loop`, …).
  - `Framer.Consume` is an independent framing reference on strings. It
    is proved to agree with the receiver, and a framing round trip is
    proved about it.
- **The command handlers A0–A42** (`handlers.dfy`). Each handler is a
  function of the build configuration, the printer state and the line
  its parameters are read from. It appends reply text to an output log
  and firmware calls to a call log.
- **The file browser** (`browser.dfy`, and `Engine.FileBrowser`).
  - `listFiles` pages through the directory enumerator, or through the
    static extra menu.
  - `selectFile` classifies the text after `A13 `, first match wins.
  - The file-name branch cuts the name in the command buffer itself.
  - `refreshFileList` climbs to the root directory.
  - `handleExtraMenu` maps menu names to G-code.
- **The number formatters and the event hooks** (`formatters.dfy`,
  `hooks.dfy`).
  - `itostr2`, `itostr3` and `ftostr32` are modelled as functions giving
    their characters. `Formatters.ConvBuffer` models the shared 8-byte
    buffer `_conv` they all write into.
  - The hooks map firmware events to reply tokens.

Shared pieces:
- `text.dfy`: C strings in a buffer, `strchr`, case folding and decimal
  digits.
- `numbers.dfy`: the part of `strtod` the panel uses (leading blanks, a
  sign, digits, a fraction), truncation and clamping.
- `host.dfy`: the printer as abstract state. It holds flags, temperatures,
  the enumerator (a path and a map from directory to entries), an output
  log and a call log, and the build configuration holds the constants
  that are defined outside the engine.

## Model

| member | source | states |
|---|---|---|
| Engine.CommandEngine.constructor | Marlin/src/lcd/extensible_ui/lib/dwin/DwinTFTCommand.h:106-111 | the engine starts with an empty queue, both indices at slot 0 and no partial line, and satisfies the queue invariant |
| Engine.CommandEngine.CodeSeen | Marlin/src/lcd/extensible_ui/lib/dwin/DwinTFTCommand.cpp:165-169 | true exactly when the letter occurs in the oldest queued line; the pointer is then at its first occurrence, otherwise it is -1 (no match) |
| Engine.CommandEngine.CodeValue | Marlin/src/lcd/extensible_ui/lib/dwin/DwinTFTCommand.cpp:160-163 | after a successful codeSeen(c), the value is the number after the first c of the oldest queued line (0 when no digits follow) |
| Engine.ParameterText | Marlin/src/lcd/extensible_ui/lib/dwin/DwinTFTCommand.cpp:160-169 | strchr on the read slot succeeds exactly when the letter is in the oldest line, and the C string after the hit is the text after the letter's first occurrence |
| Engine.ParameterValue | Marlin/src/lcd/extensible_ui/lib/dwin/DwinTFTCommand.cpp:160-163 | strtod one past the letter strchr found is the parameter value of the oldest line |
| Engine.CommandEngine.ReceiveCommands | Marlin/src/lcd/extensible_ui/lib/dwin/DwinTFTCommand.cpp:171-205 | the while loop over the pending input ends in exactly the state the receiver function gives, and keeps the queue invariant |
| Engine.CommandEngine.Loop | Marlin/src/lcd/extensible_ui/lib/dwin/DwinTFTCommand.cpp:207-216 | loop() ends in the state Framer.Loop gives: receive while fewer than three lines wait, then release one |
| Engine.CommandEngine.ReleaseLine | Marlin/src/lcd/extensible_ui/lib/dwin/DwinTFTCommand.cpp:212-215 | one waiting line fewer, the read index one slot further round the ring, nothing else changed |
| Engine.CommandEngine.TerminateLine | Marlin/src/lcd/extensible_ui/lib/dwin/DwinTFTCommand.cpp:176-199 | a line end after a non-empty partial line: the NUL, the dispatch, the slot advance; the line text is the partial line |
| Engine.CommandEngine.CutLine | Marlin/src/lcd/extensible_ui/lib/dwin/DwinTFTCommand.cpp:182 | the write slot's C string becomes exactly the characters received, and the queue is unchanged |
| Engine.CommandEngine.DispatchLine | Marlin/src/lcd/extensible_ui/lib/dwin/DwinTFTCommand.cpp:184-195 | the line in the write slot is handled exactly when it holds an 'A', under the number after that 'A' |
| Engine.CommandEngine.HandleCommand | Marlin/src/lcd/extensible_ui/lib/dwin/DwinTFTCommand.cpp:43-158 | A8, A13 and A26 go to the file browser and every other id to its handler; the queue is never touched |
| Engine.CommandEngine.HandleAt | Marlin/src/lcd/extensible_ui/lib/dwin/DwinTFTCommand.cpp:184-195 | the strchr pointer is left at the line's 'A' and the line is handled under its id, as Framer.Handle gives |
| Engine.CommandEngine.EnqueueLine | Marlin/src/lcd/extensible_ui/lib/dwin/DwinTFTCommand.cpp:196-198 | the write index moves on by one slot, one more line waits, and the next line starts empty |
| Engine.CommandEngine.StoreChar | Marlin/src/lcd/extensible_ui/lib/dwin/DwinTFTCommand.cpp:200-203 | the partial line grows by exactly the character read; nothing else changes |
| Framer.Dispatch | Marlin/src/lcd/extensible_ui/lib/dwin/DwinTFTCommand.cpp:184-195 | the id is a byte; a line without 'A' is left alone; the queue is never changed by handling |
| Framer.DispatchId | Marlin/src/lcd/extensible_ui/lib/dwin/DwinTFTCommand.cpp:184-194 | the id a line is dispatched under is the truncated number after its first 'A', and none without an 'A' |
| Framer.Terminate | Marlin/src/lcd/extensible_ui/lib/dwin/DwinTFTCommand.cpp:176-199 | one more line queued, the read index and the unread input unchanged, the next line empty, and the queued text is the partial line |
| Framer.Store | Marlin/src/lcd/extensible_ui/lib/dwin/DwinTFTCommand.cpp:200-203 | the partial line is extended by the character and the counters stay valid |
| Framer.Receive | Marlin/src/lcd/extensible_ui/lib/dwin/DwinTFTCommand.cpp:171-205 | the receiver keeps the queue invariant, never moves the read index and never shortens the queue |
| Framer.Loop | Marlin/src/lcd/extensible_ui/lib/dwin/DwinTFTCommand.cpp:207-216 | loop() keeps the queue invariant |
| Framer.Release | Marlin/src/lcd/extensible_ui/lib/dwin/DwinTFTCommand.cpp:212-215 | releasing keeps the invariant: one line fewer, read index plus one modulo 4 |
| Framer.ReceiveFrames | Marlin/src/lcd/extensible_ui/lib/dwin/DwinTFTCommand.cpp:171-205 | the receiver agrees with the string framing reference: same unread input, same partial line, one queue slot per framed line, and the queued texts are the framed lines in order |
| Framer.ConsumeJoin | Marlin/src/lcd/extensible_ui/lib/dwin/DwinTFTCommand.cpp:173-203 | round trip: well-formed lines sent with line feeds are framed back into exactly those lines when the queue has room |
| Framer.ConsumedLinesWellFormed | Marlin/src/lcd/extensible_ui/lib/dwin/DwinTFTCommand.cpp:176-202 | every framed line has 1 to 95 characters and no line end, and no more lines are framed than the queue has room for |
| Framer.QueuedLinesWellFormed | Marlin/src/lcd/extensible_ui/lib/dwin/DwinTFTCommand.cpp:176-202 | from any valid state without a partial line, every line receiveCommands queues has 1 to 95 characters and no LF, CR or ':' |
| Framer.ForcedEndDropsCharacter | Marlin/src/lcd/extensible_ui/lib/dwin/DwinTFTCommand.cpp:176 | a character arriving at a full partial line ends the line exactly as a line feed would: it is consumed and never stored |
| Framer.EmptyLineStops | Marlin/src/lcd/extensible_ui/lib/dwin/DwinTFTCommand.cpp:178-180 | a line end with no partial line consumes that one character and returns, leaving the rest unread although the queue has room |
| Framer.DispatchReadsOldestLine | Marlin/src/lcd/extensible_ui/lib/dwin/DwinTFTCommand.cpp:162-186 | the parameters of a dispatched line are read from the line itself only when no other line waits; otherwise from a different slot |
| Framer.LoopBounds | Marlin/src/lcd/extensible_ui/lib/dwin/DwinTFTCommand.cpp:207-216 | loop() keeps the invariant, leaves at most three lines waiting, releases at most one, and reads nothing while three wait |
| Framer.LoopReleases | Marlin/src/lcd/extensible_ui/lib/dwin/DwinTFTCommand.cpp:207-216 | loop() is the receiver (run only below three waiting lines) followed by the release of the oldest line when any waits |
| Handlers.Respond | Marlin/src/lcd/extensible_ui/lib/dwin/DwinTFTCommand.cpp:43-158 | every id other than A8, A13 and A26 only appends to the serial output and the firmware-call log; the printer and the card change only through the recorded calls |
| Handlers.ReportTemperature | Marlin/src/lcd/extensible_ui/lib/dwin/DwinTFTCommand.cpp:218-244 | a query adds one reply line ending in CR LF and changes nothing else: no firmware call, no state change |
| Handlers.ReportFanSpeed | Marlin/src/lcd/extensible_ui/lib/dwin/DwinTFTCommand.cpp:246-251 | a query adds one reply line ending in CR LF and changes nothing else: no firmware call, no state change |
| Handlers.ReportCoordinates | Marlin/src/lcd/extensible_ui/lib/dwin/DwinTFTCommand.cpp:253-267 | a query adds one reply line ending in CR LF and changes nothing else: no firmware call, no state change |
| Handlers.CoordinatesLayout | Marlin/src/lcd/extensible_ui/lib/dwin/DwinTFTCommand.cpp:253-267 | A5: after the prefix the reply is " X: ", the X position's text, " Y: ", the Y position's, " Z: ", the Z position's, a space and CR LF; nothing is called |
| Handlers.ReportPrintStatus | Marlin/src/lcd/extensible_ui/lib/dwin/DwinTFTCommand.cpp:269-280 | a query adds one reply line ending in CR LF and changes nothing else: no firmware call, no state change |
| Handlers.PrintStatusReadBack | Marlin/src/lcd/extensible_ui/lib/dwin/DwinTFTCommand.cpp:269-280 | A6 while printing: prefix, three characters, CR LF, and the three characters read back as the percentage for 0..999; otherwise exactly "A6V ---" and CR LF; no call either way |
| Handlers.ReportPrintingTime | Marlin/src/lcd/extensible_ui/lib/dwin/DwinTFTCommand.cpp:282-299 | a query adds one reply line ending in CR LF and changes nothing else: no firmware call, no state change |
| Handlers.Version | Marlin/src/lcd/extensible_ui/lib/dwin/DwinTFTCommand.cpp:557-565 | a query adds one reply line ending in CR LF and changes nothing else: no firmware call, no state change |
| Handlers.Pause | Marlin/src/lcd/extensible_ui/lib/dwin/DwinTFTCommand.cpp:308-320 | the handler only appends to the serial output and the firmware-call log; everything else it changes goes through the recorded calls |
| Handlers.Resume | Marlin/src/lcd/extensible_ui/lib/dwin/DwinTFTCommand.cpp:322-334 | the handler only appends to the serial output and the firmware-call log; everything else it changes goes through the recorded calls |
| Handlers.Stop | Marlin/src/lcd/extensible_ui/lib/dwin/DwinTFTCommand.cpp:336-348 | the handler only appends to the serial output and the firmware-call log; everything else it changes goes through the recorded calls |
| Handlers.Start | Marlin/src/lcd/extensible_ui/lib/dwin/DwinTFTCommand.cpp:357-371 | the handler only appends to the serial output and the firmware-call log; everything else it changes goes through the recorded calls |
| Handlers.SetHotendTemp | Marlin/src/lcd/extensible_ui/lib/dwin/DwinTFTCommand.cpp:373-388 | the handler only appends to the serial output and the firmware-call log; everything else it changes goes through the recorded calls |
| Handlers.SetBedTemp | Marlin/src/lcd/extensible_ui/lib/dwin/DwinTFTCommand.cpp:390-398 | the handler only appends to the serial output and the firmware-call log; everything else it changes goes through the recorded calls |
| Handlers.SetFanSpeed | Marlin/src/lcd/extensible_ui/lib/dwin/DwinTFTCommand.cpp:400-410 | the handler only appends to the serial output and the firmware-call log; everything else it changes goes through the recorded calls |
| Handlers.StopSteppers | Marlin/src/lcd/extensible_ui/lib/dwin/DwinTFTCommand.cpp:412-419 | the handler only appends to the serial output and the firmware-call log; everything else it changes goes through the recorded calls |
| Handlers.StopSteppersIdle | Marlin/src/lcd/extensible_ui/lib/dwin/DwinTFTCommand.cpp:412-419 | A19 when idle: a quick stop, then the steppers off, then one empty reply line, and nothing else |
| Handlers.PrintSpeed | Marlin/src/lcd/extensible_ui/lib/dwin/DwinTFTCommand.cpp:421-430 | the handler only appends to the serial output and the firmware-call log; everything else it changes goes through the recorded calls |
| Handlers.HomeAxes | Marlin/src/lcd/extensible_ui/lib/dwin/DwinTFTCommand.cpp:432-443 | the handler only appends to the serial output and the firmware-call log; everything else it changes goes through the recorded calls |
| Handlers.Move | Marlin/src/lcd/extensible_ui/lib/dwin/DwinTFTCommand.cpp:445-490 | the handler only appends to the serial output and the firmware-call log; everything else it changes goes through the recorded calls |
| Handlers.Preheat | Marlin/src/lcd/extensible_ui/lib/dwin/DwinTFTCommand.cpp:492-522 | the handler only appends to the serial output and the firmware-call log; everything else it changes goes through the recorded calls |
| Handlers.Cooldown | Marlin/src/lcd/extensible_ui/lib/dwin/DwinTFTCommand.cpp:524-535 | the handler only appends to the serial output and the firmware-call log; everything else it changes goes through the recorded calls |
| Handlers.AutoPowerOff | Marlin/src/lcd/extensible_ui/lib/dwin/DwinTFTCommand.cpp:567-596 | the handler only appends to the serial output and the firmware-call log; everything else it changes goes through the recorded calls |
| Handlers.CaseLight | Marlin/src/lcd/extensible_ui/lib/dwin/DwinTFTCommand.cpp:598-605 | the handler only appends to the serial output and the firmware-call log; everything else it changes goes through the recorded calls |
| Handlers.CaseLightSetsNextLevel | Marlin/src/lcd/extensible_ui/lib/dwin/DwinTFTCommand.cpp:598-605 | A42 makes exactly one call, setting the brightness NextBrightness gives for the current one, sends nothing, and keeps a light level on a light level |
| Handlers.IgnoredIdsDoNothing | Marlin/src/lcd/extensible_ui/lib/dwin/DwinTFTCommand.cpp:101-102 | A15, A27–A32, A34–A39 and ids above 42 change neither the printer nor the output |
| Handlers.BusyGuard | Marlin/src/lcd/extensible_ui/lib/dwin/DwinTFTCommand.cpp:373-535 | while printing or moving, A16–A19, A21 and A23–A25 do nothing and A22 only sends its empty line |
| Handlers.TargetFor | Marlin/src/lcd/extensible_ui/lib/dwin/DwinTFTCommand.cpp:379-396 | a target is within 0..max, equals the truncated value inside the range, 0 below and max above |
| Handlers.HotendTargetFromS | Marlin/src/lcd/extensible_ui/lib/dwin/DwinTFTCommand.cpp:373-379 | A16 with S sets one hotend target within 0..275, the truncated S when S is in range, and sends nothing |
| Handlers.HotendTargetFromC | Marlin/src/lcd/extensible_ui/lib/dwin/DwinTFTCommand.cpp:380-387 | A16 with C only: Z is raised to 10 mm first when lower, then one target within 0..HEATER_0_MAXTEMP |
| Handlers.BedTargetRange | Marlin/src/lcd/extensible_ui/lib/dwin/DwinTFTCommand.cpp:390-398 | A17 sets the bed target within 0..BED_MAXTEMP exactly when idle with S, and otherwise does nothing |
| Handlers.FanPercent | Marlin/src/lcd/extensible_ui/lib/dwin/DwinTFTCommand.cpp:400-410 | A18 sets the fan to S unclamped, or 100 without S, and sends an empty line |
| Handlers.FeedrateRange | Marlin/src/lcd/extensible_ui/lib/dwin/DwinTFTCommand.cpp:421-425 | A20 with S sets a feedrate within 40..999 %, even while printing, and sends nothing |
| Handlers.FeedrateReadBack | Marlin/src/lcd/extensible_ui/lib/dwin/DwinTFTCommand.cpp:426-429 | A20 without S: the reply after its prefix reads back as the truncated feedrate |
| Handlers.FanSpeedReadBack | Marlin/src/lcd/extensible_ui/lib/dwin/DwinTFTCommand.cpp:246-251 | A4: the reply after its prefix reads back as the truncated fan percentage |
| Handlers.TemperatureReadBack | Marlin/src/lcd/extensible_ui/lib/dwin/DwinTFTCommand.cpp:218-244 | A0–A3: prefix, three characters, CR LF; for 0..999 degrees the three characters read back as the whole degrees |
| Handlers.MinutesInHour | Marlin/src/lcd/extensible_ui/lib/dwin/DwinTFTCommand.cpp:291 | the firmware's minutes minus sixty per hour are the minutes within the hour, below 60 |
| Handlers.ElapsedDigits | Marlin/src/lcd/extensible_ui/lib/dwin/DwinTFTCommand.cpp:282-299 | A7 while the timer runs: "HH H MM M" whose two digit pairs read back as hours modulo 256 modulo 100 and minutes within the hour |
| Handlers.ElapsedZero | Marlin/src/lcd/extensible_ui/lib/dwin/DwinTFTCommand.cpp:294-297 | A7 with the timer at zero sends the fixed " 999:999" |
| Handlers.StepOf | Marlin/src/lcd/extensible_ui/lib/dwin/DwinTFTCommand.cpp:457-479 | the jog step is +0.1 exactly for values in (0, 0.2], -0.1 exactly for (-1, -0.1], and otherwise the truncated value |
| Handlers.JogFor | Marlin/src/lcd/extensible_ui/lib/dwin/DwinTFTCommand.cpp:457-486 | the first of X, Y, Z, E present decides the axis; the step is StepOf of that axis' value; X, Y and Z use the requested speed scaled by the axis' maximum feedrate, E uses feed 500 for a whole step and the requested speed for a snapped one; with no axis letter the call is QueueUnset |
| Handlers.MoveQueuesOneJog | Marlin/src/lcd/extensible_ui/lib/dwin/DwinTFTCommand.cpp:445-490 | A22 when idle queues G91, one jog on the first of X, Y, Z, E present, G90, and always ends with CR LF |
| Handlers.ExtrudeFeed | Marlin/src/lcd/extensible_ui/lib/dwin/DwinTFTCommand.cpp:472-480 | an E jog by a whole amount uses feed 500; a snapped one uses the requested speed |
| Handlers.HomeQueuesSeenAxes | Marlin/src/lcd/extensible_ui/lib/dwin/DwinTFTCommand.cpp:432-443 | A21 queues "G28 X", "G28 Y", "G28 Z" for exactly the axes present, in that order |
| Handlers.HomeAllWithoutAxes | Marlin/src/lcd/extensible_ui/lib/dwin/DwinTFTCommand.cpp:432-443 | A21 with no axis letter homes all with "G28" when C is present and otherwise does nothing |
| Handlers.WaitingLatch | Marlin/src/lcd/extensible_ui/lib/dwin/DwinTFTCommand.cpp:73-88 | while the firmware waits for the user, A9 only sends J18 and A10 only confirms |
| Handlers.PauseResumeNotWaiting | Marlin/src/lcd/extensible_ui/lib/dwin/DwinTFTCommand.cpp:308-334 | otherwise A9 always sends J18 and pauses exactly a card print; A10 resumes and sends J04 exactly when the card print is paused |
| Handlers.StopAndStartConditions | Marlin/src/lcd/extensible_ui/lib/dwin/DwinTFTCommand.cpp:336-371 | A11 stops and sends J16 exactly when a card print runs or is paused; A14 starts the print and sends J04 exactly with a card, no motion and an open file |
| Handlers.PreheatSetsTargets | Marlin/src/lcd/extensible_ui/lib/dwin/DwinTFTCommand.cpp:492-522 | a preheat when idle raises Z below 10 mm, sets the hotend then the bed target, and answers OK |
| Handlers.PreheatPresets | Marlin/src/lcd/extensible_ui/lib/dwin/DwinTFTCommand.cpp:124-129 | A23 uses the first preheat preset and A24 the second |
| Handlers.CooldownZeroes | Marlin/src/lcd/extensible_ui/lib/dwin/DwinTFTCommand.cpp:524-535 | A25 when idle zeroes the hotend then the bed target and sends J12 |
| Handlers.FixedResponses | Marlin/src/lcd/extensible_ui/lib/dwin/DwinTFTCommand.cpp:92-94 | A12 kills, A40 runs M502 and A33 sends the version line, whatever the line and the printer state |
| Handlers.CaseLightCycle | Marlin/src/lcd/extensible_ui/lib/dwin/DwinTFTCommand.cpp:598-605 | the brightness stays on 0/25/50/75/100, returns to off after five presses, and among the five levels drops to 0 only from 100 |
| Handlers.AutoPowerOffChoice | Marlin/src/lcd/extensible_ui/lib/dwin/DwinTFTCommand.cpp:567-596 | A41: enable beats disable beats status, and only status answers the panel |
| Engine.FileBrowser.constructor | Marlin/src/lcd/extensible_ui/lib/dwin/DwinTFTFileBrowser.cpp:58-62 | a new browser has no directory and no file selected |
| Engine.FileBrowser.Reset | Marlin/src/lcd/extensible_ui/lib/dwin/DwinTFTFileBrowser.cpp:58-62 | both selections become empty |
| Engine.FileBrowser.ListWindow | Marlin/src/lcd/extensible_ui/lib/dwin/DwinTFTFileBrowser.cpp:99-118 | the for loop over the positions leaves the enumerator and the output as the window function gives |
| Engine.FileBrowser.ListPage | Marlin/src/lcd/extensible_ui/lib/dwin/DwinTFTFileBrowser.cpp:80-118 | the body of a listing is the extra menu's page in menu mode, otherwise the directory page over listFiles' own window: positions 0 up to min(3, count + 1) - 1 after the synthetic pair on the first page, S-1 up to min(S + 4, count) - 1 on the others |
| Engine.FileBrowser.ListFiles | Marlin/src/lcd/extensible_ui/lib/dwin/DwinTFTFileBrowser.cpp:64-124 | listFiles() ends in the state Browser.List gives: J02 without a card, otherwise FN, the page S asks for with the window as written, END |
| Engine.FileBrowser.HandleExtraMenu | Marlin/src/lcd/extensible_ui/lib/dwin/DwinTFTFileBrowser.cpp:219-270 | handleExtraMenu() ends in the state Browser.HandleExtraMenu gives |
| Engine.FileBrowser.OpenSelected | Marlin/src/lcd/extensible_ui/lib/dwin/DwinTFTFileBrowser.cpp:152-171 | the name is cut in the buffer itself, selected and opened, and J20 or J21 reports the outcome |
| Engine.FileBrowser.CutSelected | Marlin/src/lcd/extensible_ui/lib/dwin/DwinTFTFileBrowser.cpp:153-155 | the NUL is written one character before the first '*' into the command slot, and nothing else changes |
| Engine.FileBrowser.SelectFile | Marlin/src/lcd/extensible_ui/lib/dwin/DwinTFTFileBrowser.cpp:126-173 | selectFile() ends in the state Browser.SelectFile gives |
| Engine.FileBrowser.ListFirstPage | Marlin/src/lcd/extensible_ui/lib/dwin/DwinTFTFileBrowser.cpp:85-118 | the first page: the synthetic pair for the directory, then the window from position 0, as Browser.DirectoryPage gives |
| Engine.FileBrowser.PrintListing | Marlin/src/lcd/extensible_ui/lib/dwin/DwinTFTFileBrowser.cpp:77-121 | with a card: FN, the body, END, each with CR LF, as Browser.ListFiles gives |
| Engine.FileBrowser.SelectName | Marlin/src/lcd/extensible_ui/lib/dwin/DwinTFTFileBrowser.cpp:145-171 | the branches for a line not ending in '/' end in the state Browser.SelectFile gives |
| Engine.FileBrowser.SelectFileName | Marlin/src/lcd/extensible_ui/lib/dwin/DwinTFTFileBrowser.cpp:152-172 | the file-name branch and the final CR LF end in the state Browser.ChooseFile gives |
| Engine.FileBrowser.ListAndEnd | Marlin/src/lcd/extensible_ui/lib/dwin/DwinTFTFileBrowser.cpp:138-172 | the listing of a directory branch and the final CR LF, as Browser.List followed by the line end |
| Engine.FileBrowser.SelectParent | Marlin/src/lcd/extensible_ui/lib/dwin/DwinTFTFileBrowser.cpp:135-139 | up one directory, then the listing, as Browser.EnterParent gives |
| Engine.FileBrowser.SelectDirectory | Marlin/src/lcd/extensible_ui/lib/dwin/DwinTFTFileBrowser.cpp:140-144 | the name becomes the directory selection and is entered, then the listing, as Browser.EnterDirectory gives |
| Engine.FileBrowser.SelectExtraMenu | Marlin/src/lcd/extensible_ui/lib/dwin/DwinTFTFileBrowser.cpp:145-147 | the menu's name becomes the directory selection, then its page, as Browser.EnterExtraMenu gives |
| Engine.FileBrowser.SelectMenuEntry | Marlin/src/lcd/extensible_ui/lib/dwin/DwinTFTFileBrowser.cpp:148-151 | the entry becomes the file selection and the extra menu acts on it, as Browser.ChooseMenuEntry gives |
| Engine.FileBrowser.RefreshFileList | Marlin/src/lcd/extensible_ui/lib/dwin/DwinTFTFileBrowser.cpp:175-187 | refreshFileList(), with its while loop of upDir, ends in the state Browser.Refresh gives |
| Browser.ItemPos | Marlin/src/lcd/extensible_ui/lib/dwin/DwinTFTFileBrowser.cpp:72-75 | the page offset fits a uint16_t and is 0 without S |
| Browser.List | Marlin/src/lcd/extensible_ui/lib/dwin/DwinTFTFileBrowser.cpp:64-124 | listing changes only the printer side (the output and the enumerator) and takes its offset from the S of the oldest queued line |
| Browser.ListFiles | Marlin/src/lcd/extensible_ui/lib/dwin/DwinTFTFileBrowser.cpp:64-124 | J02 without a card; otherwise FN, CR LF, the page body, END, CR LF appended to the output, and of the enumerator only the selected entry changes |
| Browser.WindowLists | Marlin/src/lcd/extensible_ui/lib/dwin/DwinTFTFileBrowser.cpp:99-118 | a window inside the directory prints exactly the entries at its positions, in order, each short then long name with '/' for directories, and leaves the last selected |
| Browser.FirstPage | Marlin/src/lcd/extensible_ui/lib/dwin/DwinTFTFileBrowser.cpp:85-94 | the corrected half of the finding: with the intended window the first page is the synthetic pair, then the first three entries or fewer, never one twice |
| Browser.LaterPage | Marlin/src/lcd/extensible_ui/lib/dwin/DwinTFTFileBrowser.cpp:83-99 | offset S > 0 lists positions S-1 up to S+3 (up to five entries) with no synthetic pair, or nothing past the end |
| Browser.FirstPageAsWritten | Marlin/src/lcd/extensible_ui/lib/dwin/DwinTFTFileBrowser.cpp:83-118 | the first page as listFiles prints it: with three entries or more the synthetic pair and the first three; with one or two, every entry and then the last one again; in an empty directory, the entry the enumerator already had selected |
| Browser.WindowEndsAgree | Marlin/src/lcd/extensible_ui/lib/dwin/DwinTFTFileBrowser.cpp:83-94 | the window end as written and the intended one agree on every later page and on first pages of three entries or more; otherwise the written end is one past the last entry |
| Browser.FirstPageAsWrittenRepeats | Marlin/src/lcd/extensible_ui/lib/dwin/DwinTFTFileBrowser.cpp:89-99 | as written, at the root with a single entry the first page lists that entry twice |
| Browser.WindowEnd | Marlin/src/lcd/extensible_ui/lib/dwin/DwinTFTFileBrowser.cpp:83-94 | the intended end of the window never passes the last entry, and on the first page is min(3, count) |
| Browser.ExtraMenuPages | Marlin/src/lcd/extensible_ui/lib/dwin/DwinTFTFileBrowser.cpp:189-217 | menu pages 0, 1 and 2 show their four names in order; other offsets show nothing |
| Browser.MenuItems | Marlin/src/lcd/extensible_ui/lib/dwin/DwinTFTFileBrowser.cpp:196-213 | the menu has twelve names, the first being "<../>" |
| Browser.MenuEntryRunsItsAction | Marlin/src/lcd/extensible_ui/lib/dwin/DwinTFTFileBrowser.cpp:224-269 | a menu name makes exactly the calls of the first entry it equals ignoring case, and prints nothing |
| Browser.UnknownMenuEntry | Marlin/src/lcd/extensible_ui/lib/dwin/DwinTFTFileBrowser.cpp:219-270 | a name matching no entry changes nothing |
| Browser.NudgeQueues | Marlin/src/lcd/extensible_ui/lib/dwin/DwinTFTFileBrowser.cpp:249-268 | a Z nudge queues G91, its move, G90 |
| Browser.MenuAction | Marlin/src/lcd/extensible_ui/lib/dwin/DwinTFTFileBrowser.cpp:224-269 | a menu action sends nothing to the panel and only adds up to three firmware calls |
| Browser.HandleExtraMenu | Marlin/src/lcd/extensible_ui/lib/dwin/DwinTFTFileBrowser.cpp:219-270 | handling a menu entry never changes the command queue |
| Browser.MenuBackLists | Marlin/src/lcd/extensible_ui/lib/dwin/DwinTFTFileBrowser.cpp:221-223 | "<../>" clears both selections and lists the enumerator's directory |
| Browser.Classify | Marlin/src/lcd/extensible_ui/lib/dwin/DwinTFTFileBrowser.cpp:133-152 | a directory selection is the text after "A13 " minus its '/', and a menu name equals "<Extra Menu>" ignoring case |
| Browser.ClassifyLine | Marlin/src/lcd/extensible_ui/lib/dwin/DwinTFTFileBrowser.cpp:133-152 | for a line "A13 name" the classification is decided by the name alone, in the source's order |
| Browser.CutAtStar | Marlin/src/lcd/extensible_ui/lib/dwin/DwinTFTFileBrowser.cpp:153-155 | the cut keeps the buffer's length and its slot ends |
| Browser.CutName | Marlin/src/lcd/extensible_ui/lib/dwin/DwinTFTFileBrowser.cpp:153-156 | the name read back after the cut is the text up to one character before its first '*', or the whole text without '*' |
| Browser.OpenSelected | Marlin/src/lcd/extensible_ui/lib/dwin/DwinTFTFileBrowser.cpp:152-171 | the file opened is the selected name, the directory selection stays, the queue is unchanged |
| Browser.SelectFile | Marlin/src/lcd/extensible_ui/lib/dwin/DwinTFTFileBrowser.cpp:126-173 | without a card only J02 is sent; selection never changes the queue |
| Browser.SelectFileOpens | Marlin/src/lcd/extensible_ui/lib/dwin/DwinTFTFileBrowser.cpp:152-172 | a file name is cut before its '*', selected and opened, J20 exactly when it opened else J21, then CR LF |
| Browser.SelectParent | Marlin/src/lcd/extensible_ui/lib/dwin/DwinTFTFileBrowser.cpp:135-139 | "../" goes up one directory and lists the page S asks for there, then CR LF, without changing either selection |
| Browser.SelectDirectory | Marlin/src/lcd/extensible_ui/lib/dwin/DwinTFTFileBrowser.cpp:140-144 | "name/" selects and enters name without its '/', and lists it |
| Browser.SelectExtraMenu | Marlin/src/lcd/extensible_ui/lib/dwin/DwinTFTFileBrowser.cpp:145-147 | the extra menu's name, in any case, becomes the directory selection and its page is listed |
| Browser.Refresh | Marlin/src/lcd/extensible_ui/lib/dwin/DwinTFTFileBrowser.cpp:175-187 | both selections are cleared; without a card only J02 is sent |
| Browser.RefreshListsRoot | Marlin/src/lcd/extensible_ui/lib/dwin/DwinTFTFileBrowser.cpp:175-187 | with a card the enumerator ends at the root and the page S asks for is listed at the root (S of the oldest queued line, as listFiles reads it) |
| Formatters.Itostr2Text | Marlin/src/lcd/extensible_ui/lib/dwin/DwinTFT.cpp:55-63 | itostr2 gives exactly two digit characters |
| Formatters.Itostr2Digits | Marlin/src/lcd/extensible_ui/lib/dwin/DwinTFT.cpp:55-63 | the two digits are x modulo 100, zero-padded, and read back as x modulo 100 |
| Formatters.Itostr3Text | Marlin/src/lcd/extensible_ui/lib/dwin/DwinTFT.cpp:71-78 | itostr3 gives three characters, none of them NUL |
| Formatters.Itostr3Small | Marlin/src/lcd/extensible_ui/lib/dwin/DwinTFT.cpp:71-78 | 0..999 is right-justified with spaces in three characters |
| Formatters.Itostr3Large | Marlin/src/lcd/extensible_ui/lib/dwin/DwinTFT.cpp:71-78 | from 1000 on only the last three digits appear |
| Formatters.Itostr3Negative | Marlin/src/lcd/extensible_ui/lib/dwin/DwinTFT.cpp:69-77 | a negative value gives '-', the tens digit or a space, the units digit; the hundreds are lost |
| Formatters.Itostr3ReadBack | Marlin/src/lcd/extensible_ui/lib/dwin/DwinTFT.cpp:71-78 | round trip: strtod reads itostr3 of 0..999 back exactly |
| Formatters.Ftostr32Text | Marlin/src/lcd/extensible_ui/lib/dwin/DwinTFT.cpp:81-91 | ftostr32 gives six characters with '.' at index 3 |
| Formatters.Ftostr32Shape | Marlin/src/lcd/extensible_ui/lib/dwin/DwinTFT.cpp:81-91 | "DDD.DD" of n mod 100000 for n >= 0, "-DD.DD" of |n| mod 10000 for n < 0 |
| Formatters.Ftostr32ReadBack | Marlin/src/lcd/extensible_ui/lib/dwin/DwinTFT.cpp:81-91 | round trip: for hundredths that fit the field, strtod reads the text back as n / 100 |
| Formatters.ConvBuffer.constructor | Marlin/src/lcd/extensible_ui/lib/dwin/DwinTFT.cpp:53 | the shared buffer starts as eight NULs |
| Formatters.ConvBuffer.Itostr2 | Marlin/src/lcd/extensible_ui/lib/dwin/DwinTFT.cpp:55-63 | writes positions 0–2 only; the C string at the start is itostr2's text |
| Formatters.ConvBuffer.Itostr3 | Marlin/src/lcd/extensible_ui/lib/dwin/DwinTFT.cpp:71-78 | writes positions 4–6 only; the C string at 4 is itostr3's text, ended by the never-written position 7 |
| Formatters.ConvBuffer.Ftostr32 | Marlin/src/lcd/extensible_ui/lib/dwin/DwinTFT.cpp:81-91 | writes positions 1–6 only; the C string at 1 is ftostr32's text |
| Hooks.WaitForUserConfirm | Marlin/src/lcd/extensible_ui/lib/dwin/DwinTFT.cpp:278-285 | sends J18 exactly when the build has resume support, and calls nothing |
| Hooks.OnUserConfirmRequired | Marlin/src/lcd/extensible_ui/lib/dwin/DwinTFT.cpp:237-267 | a confirmation request only appends to the output and adds at most one firmware call (the confirmation) |
| Hooks.ConfirmIgnored | Marlin/src/lcd/extensible_ui/lib/dwin/DwinTFT.cpp:237-267 | without resume support or without a message, nothing happens |
| Hooks.ConfirmHeaterTimeout | Marlin/src/lcd/extensible_ui/lib/dwin/DwinTFT.cpp:242-247 | "HeaterTimeout" in any case sends J06 then J18 |
| Hooks.ConfirmReheatFinished | Marlin/src/lcd/extensible_ui/lib/dwin/DwinTFT.cpp:248-253 | "Reheat finished." in any case sends J07 then J18 |
| Hooks.ConfirmWaitMessage | Marlin/src/lcd/extensible_ui/lib/dwin/DwinTFT.cpp:254-262 | the five waiting messages send only J18 |
| Hooks.ConfirmOtherMessage | Marlin/src/lcd/extensible_ui/lib/dwin/DwinTFT.cpp:263-265 | any other message is confirmed at once with no output |
| Hooks.DistinctIgnoringCase | Marlin/src/lcd/extensible_ui/lib/dwin/DwinTFT.cpp:242-262 | the waiting messages never collide with the heater messages, so the branch order does not matter for them |
| Hooks.OnStatusChanged | Marlin/src/lcd/extensible_ui/lib/dwin/DwinTFT.cpp:224-235 | J06 is sent exactly for "Reheating..." in any case |
| Hooks.MediaHooksAgreeWithCard | Marlin/src/lcd/extensible_ui/lib/dwin/DwinTFT.cpp:191-222 | with a card only insertion reports (J00); without one only error (J02) and removal (J01) do; none calls the firmware |
| Hooks.OnPrintTimerStopped | Marlin/src/lcd/extensible_ui/lib/dwin/DwinTFT.cpp:326-333 | sends exactly J14 |
| Hooks.FilamentRunout | Marlin/src/lcd/extensible_ui/lib/dwin/DwinTFT.cpp:163-174 | sends exactly J15 twice |
| Hooks.Init | Marlin/src/lcd/extensible_ui/lib/dwin/DwinTFT.cpp:101-135 | start-up sends J17 and J12 and switches the inactivity shutdown on |
| Hooks.Kill | Marlin/src/lcd/extensible_ui/lib/dwin/DwinTFT.cpp:137-145 | sends exactly J11 |

## Left out

- The serial ports and timing are not modelled. The panel's input is a
  string field, its output an append-only log, and the host-serial debug
  echoes, `DWIN_TFT_DEBUG` blocks, `delay` and `tick`'s timer are left out.
- The buzzer tones (extra menu, runout), `PowerDown` pin toggling,
  `init` pin setup and the `onMeshUpdate`/`onPidTuning` stubs are left out.
- `extui_dwin_tft.cpp` (forwarding hooks) and the UART driver in
  `DwinTFTSerial.h` are not part of this model.
- Floating point is modelled with reals. `strtod` covers leading blanks,
  a sign, digits and a fraction only; float-to-integer conversion is
  truncation toward zero.
- The firmware collaborators (`ExtUI`, `card`, `fileList`, the G-code
  queue, `kill`, stepper control) are abstract. Their setters are
  recorded as calls in a log rather than applied to the printer state.
  Only opening a file and the enumerator's seek, upDir and changeDir act
  on the modelled card.
- The enumerator's `seek` past the last entry is modelled as refused:
  it leaves the selected entry as it was.
- Constants defined outside the engine (the `EXTRA_MENU_*` names, the
  reply prefixes of A0–A7, A20 and A33, the `DWIN_TFT_RX_CODE_*` letters,
  `HEATER_0_MAXTEMP`, `BED_MAXTEMP`, the preheat presets, the build
  version) are fields of the configuration.
- Handlers.ReportCoordinates: A5's axis text is a function of the
  configuration (`floatText`), not a real float printer.
- Handlers.JogFor: the X/Y/Z feed is kept as the requested speed tagged
  for scaling by the axis' maximum feedrate; the scaling itself is not
  modelled.
- Handlers.ReportPrintingTime: the print timer is a number of seconds
  in the printer state.
- Handlers.JogFor: A22 without any axis letter queues the uninitialized
  `value`, which is undefined; the model records it as the opaque call
  `QueueUnset`.
- A28 (filament test) is an empty handler and is modelled as doing
  nothing.
- Engine.FileBrowser.SelectFile: for a line of fewer than five
  characters that ends in '/' (and does not go up), the directory branch
  copies from the line's end or beyond it, so its result depends on stale
  bytes of the slot and on the previous selection; when the copied name
  is empty, the write to `selectedDirectory[strlen - 1]` is at index -1,
  which is undefined. The model classifies this case apart
  (`ShortDirectory`) and leaves the engine unchanged, with no output.
- Engine.FileBrowser.SelectDirectory: the `memcpy` of `lastCharPos - 1`
  bytes copies the bare name and three bytes more: the '/', the NUL and
  one further byte of the slot; the NUL write then cuts the '/'. The
  model keeps only the name, which is what the firmware ends up with.
- The `LONG_FILENAME_LENGTH` bound of `selectedDirectory` and
  `selectedFilename` is not modelled: a longer name would overflow the
  arrays.
- Engine.FileBrowser.ListWindow: the lines of a listing window are
  gathered and written at the end of the loop instead of one by one;
  the text the panel receives is the same.
- The command id is the truncated value modulo 256, which is what the
  cast to the `uint8_t` command enumeration keeps.
- `HAS_RESUME_CONTINUE` and `SDSUPPORT` are configuration flags; the
  builds without SD support are not modelled.

## Findings

| source | as written | input that shows it | evidently intended | confidence | as-written member | corrected member |
|---|---|---|---|---|---|---|
| Marlin/src/lcd/extensible_ui/lib/dwin/DwinTFTFileBrowser.cpp:89-99 | the first page lists positions 0 up to min(3, count + 1) - 1, one past the last entry when the directory has fewer than three | at the root with a single entry, `A8 S0` seeks position 1, the seek is refused and the one entry is printed twice | the first page lists positions 0 up to min(3, count) - 1 | not executed | Browser.FirstPageAsWrittenRepeats | Browser.FirstPage |

The model's listing (`Browser.ListBody`, `Engine.FileBrowser.ListPage`)
follows the code as written. `Browser.WindowEnd` and `Browser.FirstPage`
state the intended window, and `Browser.WindowEndsAgree` says where the
two differ.
