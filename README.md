# Arcus stepper-motor driver, modelled in Dafny

This project models the EPICS `asynMotor` driver for Arcus controllers: the PMX-4ET-SA, DMX-ETH and DMX-K-SA. The driver is `motorApp/ArcusSrc/arcusMotorDriver.cpp` and `.h`.

**The controller.** It opens an asyn octet connection to the controller. It detects the model from the reply to an `ID` probe, falling back to `@01ID` when nothing comes back. It sends every command through one retry loop (`sendCmd`):
- at most five attempts;
- it stops at the first success;
- it disconnects and reconnects before every attempt after the second.

**An axis.** It derives its axis letter and its DMX-K-SA address prefix from its channel. It reads the motion status once when it is built. It then turns each motor-record request into controller commands:
- `poll`
- `move`
- `home`
- `moveVelocity`
- `stop`
- `setPosition`
- `moveCmd`
- the two `setSpeed` forms

It decodes the controller's replies: one number, or four colon-separated numbers on a PMX-4ET-SA. It publishes the positions, the done flag and the fault flags.

**Modules:**

- `ArcusTypes` (`arcus_types.dfy`): the controller types and their identifier table, the asyn status values, and the exception type.
- `CText` (`ctext.dfy`): the C text conventions the driver relies on. These are decimal formatting, `%d`/`%i`/`%[A-Z]` scanning, `strstr` and NUL termination.
- `AsynTransport` (`transport.dfy`): the asyn link as a `Transport` class. It holds a script of `writeRead` outcomes and a log of what went over the link.
- `RetryLoop` (`retry_loop.dfy`): the retry loop as a function (`Retry`), a run of several commands (`Dialog`), and the lemmas about them.
- `Replies` (`replies.dfy`): `parseReply`, the decoding of readings, and the motion-state enums.
- `Commands` (`commands.dfy`): axis letter and prefix, every command string the axis sends, the timeout forgiveness rule, C's truncating division.
- `Detection` (`detection.dfy`): model detection.
- `AxisOps` (`axis_ops.dfy`): each axis operation as a function of the configuration, its arguments and the replies to come.
- `Driver` (`driver.dfy`): the imperative driver. It has a `Controller` class and an `Axis` class whose methods update the transport, `comStatus_` and the axis's motor parameters. Each method is proved against its `AxisOps` function.

Behaviour worth knowing, which the model keeps as the code has it:

- **Reconnect cycles.** The retry loop makes a reconnect cycle after the second, third and fourth failures. So four failures followed by a success take three cycles (`RetryLoop.FourFailuresThenSuccess`).
- **Write length in the readings.** The three reading loops (`getAxisStatus`, `getEncoderVal`, `getPositionVal`) pass `&outCount` both as the write length and as `nbytesOut`. A failed attempt that reports a short write therefore makes the next attempt send only that many bytes. The model has this as `Retry`'s `reuseWritten` flag (`RetryLoop.ShortWriteShrinksRetry`, `RetryLoop.ReuseHarmlessOnFullWrites`).
- **Status failure in `poll`.** A failed status reading in `poll` neither raises the flags nor stops it. It computes "moving" from the motor position still held in `val` (`AxisOps.PollStatusFailureUsesPosition`).
- **Code overflow in `parseReply`.** `parseReply` reads the code with `%10[A-Z]` into a 10-byte buffer. A ten-letter code therefore overflows by its NUL terminator, and the model does not capture this.
- **`setPosition`.** It formats its third command with `printf`, not `sprintf`, so it sends absolute mode a second time instead of the position (see Findings).

## Model

| member | source | states |
|---|---|---|
| ArcusTypes.TypeName | motorApp/ArcusSrc/arcusMotorDriver.h:102-115 | each controller type's identifier is its entry in `ControllerTypeStrings`, at the enumerator's position |
| ArcusTypes.TypeNamesDistinct | motorApp/ArcusSrc/arcusMotorDriver.h:114-115 | two types have the same identifier exactly when they are the same type |
| ArcusTypes.IdentifiersDoNotOverlap | motorApp/ArcusSrc/arcusMotorDriver.h:114-115 | no known model's identifier occurs inside another's |
| ArcusTypes.DefaultException | motorApp/ArcusSrc/arcusMotorDriver.h:38-46 | the default exception has the unknown-error type and an empty message |
| ArcusTypes.ExceptionOfType | motorApp/ArcusSrc/arcusMotorDriver.h:35-37 | an exception built from a type reports that type and an empty message |
| AsynTransport.WrittenCount | motorApp/ArcusSrc/arcusMotorDriver.cpp:371-373 | the `nbytesOut` a write reports never exceeds the length asked for |
| AsynTransport.Transport.WriteRead | motorApp/ArcusSrc/arcusMotorDriver.cpp:250-251 | a `writeRead` consumes the next scripted reply (a timeout with no bytes when none is left) and logs the bytes sent |
| AsynTransport.Transport.DisconnectDevice | motorApp/ArcusSrc/arcusMotorDriver.cpp:258 | a disconnect is logged and returns the link's status |
| AsynTransport.Transport.ConnectDevice | motorApp/ArcusSrc/arcusMotorDriver.cpp:263 | a reconnect is logged and returns the link's status |
| RetryLoop.Retry | motorApp/ArcusSrc/arcusMotorDriver.cpp:249-269 | the loop makes between one and five attempts |
| RetryLoop.Exchange | motorApp/ArcusSrc/arcusMotorDriver.cpp:238-274 | `sendCmd` makes one to five attempts and ends on a success or on the fifth failure |
| RetryLoop.RetryStopsAtFirstSuccess | motorApp/ArcusSrc/arcusMotorDriver.cpp:249-273 | attempts stop at the first success or at the fifth. Every earlier attempt failed. The reply returned is the last one read. Each attempt takes one reply |
| RetryLoop.RetryStopsAt | motorApp/ArcusSrc/arcusMotorDriver.cpp:249-269 | the same facts, from any pass and any write length |
| RetryLoop.ExchangeFollowsPattern | motorApp/ArcusSrc/arcusMotorDriver.cpp:249-269 | `sendCmd` writes the whole command on each attempt. A reconnect cycle comes before each attempt after the second, exactly as the reference pattern places it |
| RetryLoop.RetryResends | motorApp/ArcusSrc/arcusMotorDriver.cpp:256-268 | from the second attempt on, every resend but the first comes after a disconnect and a reconnect |
| RetryLoop.RetryPatternCounts | motorApp/ArcusSrc/arcusMotorDriver.cpp:256-268 | `n` attempts make `n` writes and `n - 2` reconnect cycles (none for one or two attempts) |
| RetryLoop.CountsAppend | motorApp/ArcusSrc/arcusMotorDriver.cpp:249-269 | counts of writes and of reconnect cycles add over concatenated logs |
| RetryLoop.ResendsCounts | motorApp/ArcusSrc/arcusMotorDriver.cpp:256-268 | `k` resends hold `k` writes and `k - 1` reconnect cycles |
| RetryLoop.FiveAttemptPattern | motorApp/ArcusSrc/arcusMotorDriver.cpp:249-269 | five attempts are two writes, then three reconnect cycles each followed by a write |
| RetryLoop.AlwaysFailingLink | motorApp/ArcusSrc/arcusMotorDriver.cpp:249-273 | on a link that never succeeds, five attempts are made, in that pattern, and the fifth failure's status is returned |
| RetryLoop.FourFailuresThenSuccess | motorApp/ArcusSrc/arcusMotorDriver.cpp:249-273 | four failures then a success give success on the fifth attempt, after three reconnect cycles |
| RetryLoop.ReuseHarmlessOnFullWrites | motorApp/ArcusSrc/arcusMotorDriver.cpp:371-391 | reusing `nbytesOut` as the write length changes nothing while every write is complete |
| RetryLoop.ShortWriteShrinksRetry | motorApp/ArcusSrc/arcusMotorDriver.cpp:371-391 | a failed attempt that wrote no bytes makes the retry send an empty command |
| RetryLoop.Sends | motorApp/ArcusSrc/arcusMotorDriver.cpp:249-251 | the log of a run answered at once holds each command once, in order |
| RetryLoop.ReliableDialog | motorApp/ArcusSrc/arcusMotorDriver.cpp:249-273 | on a link that answers at once, a run of commands sends exactly its commands, in order, and reports success |
| RetryLoop.DialogSnoc | motorApp/ArcusSrc/arcusMotorDriver.cpp:238-274 | adding a command adds its exchange. The run's status becomes that exchange's, so earlier failures are forgotten |
| RetryLoop.RetrySendsOnly | motorApp/ArcusSrc/arcusMotorDriver.cpp:249-251 | `sendCmd` writes nothing but its own command |
| RetryLoop.DialogSendsOnly | motorApp/ArcusSrc/arcusMotorDriver.cpp:249-251 | a run writes nothing but its own commands |
| RetryLoop.RetryOnTimeoutLink | motorApp/ArcusSrc/arcusMotorDriver.cpp:249-273 | on a link that only times out, the loop ends in a timeout |
| RetryLoop.DialogOnTimeoutLink | motorApp/ArcusSrc/arcusMotorDriver.cpp:249-273 | on such a link, every non-empty run ends in a timeout |
| CText.ScanDecimalOfDecimal | motorApp/ArcusSrc/arcusMotorDriver.cpp:426-430 | `%d` reads back any integer printed in decimal |
| CText.ScanIntegerOfDecimal | motorApp/ArcusSrc/arcusMotorDriver.cpp:297-304 | `%i` reads back any integer printed in decimal |
| CText.ContainsAtOffset | motorApp/ArcusSrc/arcusMotorDriver.cpp:196-223 | `strstr` finds a needle placed at any offset |
| CText.CStringOfNulFree | motorApp/ArcusSrc/arcusMotorDriver.cpp:196-223 | a reply with no NUL in it is read whole as a C string |
| Replies.ParseReply | motorApp/ArcusSrc/arcusMotorDriver.cpp:297-304 | a reply that does not start with ':' gives -1 and assigns nothing. A result other than -1 comes with both an axis and a value. A value is assigned only with an axis, and then the result is the value when the code's first letter is 'E' and 0 otherwise |
| Replies.ParseAckReply | motorApp/ArcusSrc/arcusMotorDriver.cpp:297-304 | an acknowledgement `:<code><axis>,<value>` yields its axis and value, and the value itself when the code starts with 'E' |
| Replies.LetterIsNoNumber | motorApp/ArcusSrc/arcusMotorDriver.cpp:299-300 | `%i` fails on text that starts with an upper-case letter |
| Replies.OverlongCodeFails | motorApp/ArcusSrc/arcusMotorDriver.cpp:299-300 | a code longer than ten letters is cut at ten, the axis number then fails to convert, and the result is -1 |
| Replies.ScanFields | motorApp/ArcusSrc/arcusMotorDriver.cpp:405-407 | `%d:%d:%d:%d` yields at most four fields |
| Replies.DecodeReading | motorApp/ArcusSrc/arcusMotorDriver.cpp:402-431 | an UNKNOWN model decodes nothing. Neither does a PMX-4ET-SA axis outside 0..3 |
| Replies.QuadFields | motorApp/ArcusSrc/arcusMotorDriver.cpp:405-407 | a four-field reply scans back to its four numbers |
| Replies.QuadFieldSelection | motorApp/ArcusSrc/arcusMotorDriver.cpp:402-424 | on a PMX-4ET-SA, axis `k` in 0..3 takes the `k`-th field of the reply |
| Replies.QuadExample | motorApp/ArcusSrc/arcusMotorDriver.cpp:402-424 | axis 2 of "10:20:30:40" reads 30 |
| Replies.SingleReading | motorApp/ArcusSrc/arcusMotorDriver.cpp:426-430 | the DMX models read the reply's one leading integer, whatever the axis |
| Replies.MovingIffMotionState | motorApp/ArcusSrc/arcusMotorDriver.cpp:655-684 | on a known model an axis is moving exactly when its status is accelerating, decelerating or at constant speed (1, 2 or 4). UNKNOWN leaves `*moving_p` unassigned |
| Commands.ChannelLetter | motorApp/ArcusSrc/arcusMotorDriver.cpp:312-321 | channels 0 to 3 are X, Y, Z, U, and any other channel is '?' |
| Commands.ComPrefix | motorApp/ArcusSrc/arcusMotorDriver.cpp:323-326 | only a DMX-K-SA axis gets an address prefix, and it starts with '@' followed by at least two characters |
| Commands.PrefixFits | motorApp/ArcusSrc/arcusMotorDriver.cpp:323-326 | the prefix and its NUL fit `Arcus_Com_Prefix[4]` exactly when the model is not a DMX-K-SA or channel+1 takes at most two characters |
| Commands.PrefixAddressesChannel | motorApp/ArcusSrc/arcusMotorDriver.cpp:323-326 | on a DMX-K-SA, channels 0..98 are addressed as '@' and two digits spelling channel+1 |
| Commands.TruncDiv | motorApp/ArcusSrc/arcusMotorDriver.cpp:739-744 | the quotient is truncated toward zero (C's conversion of a quotient to `long`) |
| Commands.TruncDivVersusEuclidean | motorApp/ArcusSrc/arcusMotorDriver.cpp:739-744 | C's truncating quotient equals the Euclidean one except for a negative dividend that is no multiple of the divisor, where it is one more |
| Commands.LowSpeedFor | motorApp/ArcusSrc/arcusMotorDriver.cpp:838-842 | with `min_vel` of at least 100 the low speed is `min_vel`; below that it is `max_vel` divided by ten, truncated toward zero, with `max_vel`'s sign |
| Commands.LowSpeedForReverseMove | motorApp/ArcusSrc/arcusMotorDriver.cpp:838-842 | for a negative `max_vel` the low speed is one more than the Euclidean tenth unless `max_vel` is a multiple of ten |
| Commands.ForgiveTimeout | motorApp/ArcusSrc/arcusMotorDriver.cpp:716-717 | the status changes only when it is a timeout on a model other than the PMX-4ET-SA, and then becomes success |
| Commands.TargetRoundTrip | motorApp/ArcusSrc/arcusMotorDriver.cpp:704-707 | a target command carries exactly the requested count |
| Commands.NotATarget | motorApp/ArcusSrc/arcusMotorDriver.cpp:704-707 | a command that departs from the target head is not a target command |
| Commands.SpeedCommands | motorApp/ArcusSrc/arcusMotorDriver.cpp:783-810 | a known model gets three speed settings, and UNKNOWN none |
| Commands.SpeedNames | motorApp/ArcusSrc/arcusMotorDriver.cpp:783-810 | there are three distinct setting names. On a PMX-4ET-SA each ends in the axis letter; otherwise each starts with the axis prefix |
| Commands.AssignmentRoundTrip | motorApp/ArcusSrc/arcusMotorDriver.cpp:783-810 | an assignment `<name>=<value>` carries its value when the name holds no '=' |
| Commands.SpeedCommandsCarryValues | motorApp/ArcusSrc/arcusMotorDriver.cpp:783-810 | the three settings carry the high speed, low speed and acceleration, in that order |
| Commands.DefaultSpeedExample | motorApp/ArcusSrc/arcusMotorDriver.cpp:722-745 | `setSpeed(1000)` on PMX axis X sends HSX=1000, LSX=100, ACCX=33 |
| Commands.ConstructedConfigHasNoEquals | motorApp/ArcusSrc/arcusMotorDriver.cpp:312-326 | no letter or prefix the constructor makes contains '=' |
| Commands.DmxCommandsCarryPrefix | motorApp/ArcusSrc/arcusMotorDriver.cpp:368-969 | on a DMX-type controller, the status, encoder, position, target, mode, enable, home, jog and stop commands of an axis all start with its address prefix |
| Commands.DmxSpeedCommandsCarryPrefix | motorApp/ArcusSrc/arcusMotorDriver.cpp:797-810 | on a DMX-type controller the three speed settings start with the axis's address prefix |
| Commands.PmxCommandsNameAxis | motorApp/ArcusSrc/arcusMotorDriver.cpp:448-1072 | on a PMX-4ET-SA the target, home, jog and stop commands name the axis by its letter, while the encoder and position queries (`PE`, `PP`) name none |
| Commands.PmxSpeedCommandsNameAxis | motorApp/ArcusSrc/arcusMotorDriver.cpp:783-796 | on a PMX-4ET-SA each of the three speed settings names the axis by its letter |
| Detection.FirstMatch | motorApp/ArcusSrc/arcusMotorDriver.cpp:196-223 | the model found is one of those searched for, or UNKNOWN |
| Detection.Classify | motorApp/ArcusSrc/arcusMotorDriver.cpp:196-223 | a recognised model's identifier occurs in the reply read as a C string. No model searched for earlier matches. If none matches, the result is UNKNOWN |
| Detection.OnlyMatchWins | motorApp/ArcusSrc/arcusMotorDriver.cpp:196-223 | a text holding exactly one of the identifiers searched for gives that model, in any search order |
| Detection.OwnIdentifierOnly | motorApp/ArcusSrc/arcusMotorDriver.cpp:196-223 | a model's identifier contains its own and no other |
| Detection.IdentifierClassifiesInAnyOrder | motorApp/ArcusSrc/arcusMotorDriver.cpp:196-223 | an identifier is recognised whatever order the checks run in |
| Detection.ClassifiesOwnIdentifier | motorApp/ArcusSrc/arcusMotorDriver.cpp:196-223 | each identifier is recognised as its own model, and "UNKNOWN" as UNKNOWN |
| Detection.DetectRun | motorApp/ArcusSrc/arcusMotorDriver.cpp:181-223 | the driver probes with `ID`, and with `@01ID` only when nothing came back. The model is recognised in the last reply read |
| Detection.DetectsDirectAnswer | motorApp/ArcusSrc/arcusMotorDriver.cpp:181-223 | a controller answering `ID` with its identifier is recognised after one probe, whatever the status |
| Detection.DetectsAddressedAnswer | motorApp/ArcusSrc/arcusMotorDriver.cpp:181-223 | a controller answering only the addressed probe is recognised after the fallback |
| AxisOps.ReadRun | motorApp/ArcusSrc/arcusMotorDriver.cpp:357-434 | a failed reading leaves `*val` unchanged |
| AxisOps.ReadRunLikeExchange | motorApp/ArcusSrc/arcusMotorDriver.cpp:437-516 | while writes are complete, a reading sends like `sendCmd` and, on success, takes the decoded reply |
| AxisOps.ReadAnsweredAtOnce | motorApp/ArcusSrc/arcusMotorDriver.cpp:357-434 | a reading answered at once sends once and decodes the answer |
| AxisOps.PollRun | motorApp/ArcusSrc/arcusMotorDriver.cpp:623-695 | the flags are raised exactly when the encoder or position reading failed. The position is published only after the encoder. "moving" is assigned exactly when the position is published |
| AxisOps.PollStopsOnReadFailure | motorApp/ArcusSrc/arcusMotorDriver.cpp:629-647 | a failed encoder reading raises the flags and returns its status with only its own traffic, publishing nothing. A failed position reading publishes the encoder value, raises the flags and returns before the status query |
| AxisOps.PollOnTimeoutLink | motorApp/ArcusSrc/arcusMotorDriver.cpp:629-635 | on a link that only times out, `poll` writes only its encoder query, raises the flags and reports the timeout |
| AxisOps.PollStatusFailureUsesPosition | motorApp/ArcusSrc/arcusMotorDriver.cpp:653-686 | a failed status reading raises no flag and computes "moving" from the position just read |
| AxisOps.PollAnsweredAtOnce | motorApp/ArcusSrc/arcusMotorDriver.cpp:623-695 | with three immediate answers, each value comes from its own reply, in the order encoder, position, status. A value that does not decode keeps the previous one |
| AxisOps.QuadDataSelects | motorApp/ArcusSrc/arcusMotorDriver.cpp:402-424 | a PMX axis decodes its own field of a four-axis answer |
| AxisOps.PmxPollOnReliableLink | motorApp/ArcusSrc/arcusMotorDriver.cpp:623-695 | with immediate answers, a PMX axis publishes its own encoder and position fields. It is moving exactly when its status field is 1, 2 or 4 |
| AxisOps.MoveCmdRun | motorApp/ArcusSrc/arcusMotorDriver.cpp:697-720 | `moveCmd` never raises the flags, and reports a timeout only on a PMX-4ET-SA |
| AxisOps.MoveCmdOnTimeoutLink | motorApp/ArcusSrc/arcusMotorDriver.cpp:707-717 | on a link that only times out, `moveCmd` makes five attempts at its target command. A DMX-type controller then reports success, a PMX-4ET-SA the timeout |
| AxisOps.MoveCmdOnReliableLink | motorApp/ArcusSrc/arcusMotorDriver.cpp:697-720 | with an immediate answer, `moveCmd` sends its target command once and reports success |
| AxisOps.StopRun | motorApp/ArcusSrc/arcusMotorDriver.cpp:959-989 | `stop` raises the flags exactly when the status it returns is a failure, and reports a timeout only on a PMX-4ET-SA |
| AxisOps.StopOnTimeoutLink | motorApp/ArcusSrc/arcusMotorDriver.cpp:970-986 | on a link that only times out, `stop` makes five attempts at its stop command. A DMX-type controller then reports success without raising the flags; a PMX-4ET-SA reports the timeout and raises them |
| AxisOps.StopOnReliableLink | motorApp/ArcusSrc/arcusMotorDriver.cpp:959-989 | with an immediate answer, `stop` sends its stop command once and reports success |
| AxisOps.SetSpeedRun | motorApp/ArcusSrc/arcusMotorDriver.cpp:774-823 | UNKNOWN sends nothing, reports success and leaves the link alone; otherwise nothing but the three speed settings is written |
| AxisOps.DefaultSpeedRun | motorApp/ArcusSrc/arcusMotorDriver.cpp:722-772 | the one-argument `setSpeed` is the three-argument form with a tenth and a thirtieth of the velocity, truncated |
| AxisOps.SetSpeedStatus | motorApp/ArcusSrc/arcusMotorDriver.cpp:774-823 | UNKNOWN sends nothing and reports success. A known model reports the acceleration setting's status |
| AxisOps.MoveCommands | motorApp/ArcusSrc/arcusMotorDriver.cpp:861-885 | after the speeds, `move` sends the mode command first |
| AxisOps.MoveRun | motorApp/ArcusSrc/arcusMotorDriver.cpp:825-900 | the flags are raised exactly when the speed settings fail, a timeout forgiven for non-PMX models; then their status is returned and nothing else is sent. Otherwise the move commands follow and their last status is returned, a timeout forgiven |
| AxisOps.HomeRun | motorApp/ArcusSrc/arcusMotorDriver.cpp:902-957 | the flags are raised exactly when the speed settings fail, a timeout included; then their status is returned and nothing else is sent. Otherwise enable and home follow and their last status is returned, a timeout forgiven |
| AxisOps.MoveVelocityRun | motorApp/ArcusSrc/arcusMotorDriver.cpp:1044-1098 | as `home`, with top speed `abs(max_vel)` and a jog in place of the home command |
| AxisOps.MoveStopsOnSpeedFailure | motorApp/ArcusSrc/arcusMotorDriver.cpp:842-860 | `move` raises the flags exactly when its speed settings fail after forgiveness; then it returns a failure and has written only speed settings |
| AxisOps.HomeStopsOnSpeedFailure | motorApp/ArcusSrc/arcusMotorDriver.cpp:916-923 | `home` raises the flags exactly when its speed settings fail, timeouts not forgiven; then it returns a failure and has written only speed settings |
| AxisOps.MoveVelocityStopsOnSpeedFailure | motorApp/ArcusSrc/arcusMotorDriver.cpp:1058-1065 | the same for `moveVelocity` |
| AxisOps.HomeOnTimeoutLink | motorApp/ArcusSrc/arcusMotorDriver.cpp:916-923 | on a link that only times out, `home` raises the flags and reports the timeout on every known model, DMX included, after the speed settings alone |
| AxisOps.MoveVelocityOnTimeoutLink | motorApp/ArcusSrc/arcusMotorDriver.cpp:1058-1065 | the same for `moveVelocity` |
| AxisOps.MoveOnTimeoutLink | motorApp/ArcusSrc/arcusMotorDriver.cpp:842-900 | on a link that only times out, a DMX move goes through every command and reports success. A PMX move stops after the speeds and reports the timeout |
| AxisOps.SpeedsOnReliableLink | motorApp/ArcusSrc/arcusMotorDriver.cpp:774-823 | with immediate answers the speed settings are sent once each and succeed |
| AxisOps.MoveOnReliableLink | motorApp/ArcusSrc/arcusMotorDriver.cpp:825-900 | with immediate answers, `move` sends the three speeds, the mode, the enable and the target, in that order, and succeeds |
| AxisOps.HomeOnReliableLink | motorApp/ArcusSrc/arcusMotorDriver.cpp:902-957 | with immediate answers, `home` sends the speeds, the enable and a home command in the direction of `max_vel` |
| AxisOps.MoveVelocityOnReliableLink | motorApp/ArcusSrc/arcusMotorDriver.cpp:1044-1098 | with immediate answers, `moveVelocity` sends the speeds with top speed `abs(max_vel)`, the enable and a jog in its direction |
| AxisOps.SetPositionRun | motorApp/ArcusSrc/arcusMotorDriver.cpp:991-1042 | `setPosition` raises the flags exactly when the status it returns is a failure, and reports a timeout only on a PMX-4ET-SA |
| AxisOps.SetPositionOnTimeoutLink | motorApp/ArcusSrc/arcusMotorDriver.cpp:998-1041 | on a link that only times out, a DMX-type controller's `setPosition` reports success without raising the flags; a PMX-4ET-SA's reports the timeout and raises them |
| AxisOps.SetPositionOnReliableLink | motorApp/ArcusSrc/arcusMotorDriver.cpp:991-1042 | with immediate answers, a known model's `setPosition` sends its three commands in order and reports success, whatever `comStatus_` held |
| AxisOps.SetPositionSendsNoPosition | motorApp/ArcusSrc/arcusMotorDriver.cpp:998-1023 | as written, no command `setPosition` sends is a target command |
| AxisOps.IntendedSetPositionSendsPosition | motorApp/ArcusSrc/arcusMotorDriver.cpp:998-1023 | the intended third command carries exactly the requested position |
| AxisOps.SetPositionUnknown | motorApp/ArcusSrc/arcusMotorDriver.cpp:991-1042 | on UNKNOWN nothing is sent and the previous `comStatus_` is returned, a timeout forgiven |
| Driver.MotorParams.WithFault | motorApp/ArcusSrc/arcusMotorDriver.cpp:851-860 | sets the problem and comms-error flags and changes nothing else |
| Driver.MotorParams.Raise | motorApp/ArcusSrc/arcusMotorDriver.cpp:981-986 | only the two flags can change; each is set afterwards exactly when it was set before or there was a fault, so a command never clears them |
| Driver.MotorParams.Polled | motorApp/ArcusSrc/arcusMotorDriver.cpp:623-695 | `poll` publishes the encoder and motor positions it reached and `done` as the negation of "moving" when that was assigned; the flags are raised on a fault and never cleared; encoder and gain support stay as they were |
| Driver.Controller.constructor | motorApp/ArcusSrc/arcusMotorDriver.cpp:127-230 | the model is the one detection gives, the link sees the probes detection makes, and the controller starts with no axes |
| Driver.Controller.WriteReadRetry | motorApp/ArcusSrc/arcusMotorDriver.cpp:249-273 | the loop's reply, status, log and remaining script are those of `Retry` |
| Driver.Controller.SendCmd | motorApp/ArcusSrc/arcusMotorDriver.cpp:238-274 | `sendCmd`'s status and effect on the link are those of `Exchange` |
| Driver.Axis.constructor | motorApp/ArcusSrc/arcusMotorDriver.cpp:308-351 | the axis registers under its number and gets its letter and prefix. `comStatus_` is the first status reading. An encoder and gain support are declared exactly when that reading succeeds |
| Driver.Axis.GetAxisStatus | motorApp/ArcusSrc/arcusMotorDriver.cpp:357-434 | `getAxisStatus` behaves as `ReadRun` of `<prefix>MST` |
| Driver.Axis.GetEncoderVal | motorApp/ArcusSrc/arcusMotorDriver.cpp:437-516 | `getEncoderVal` behaves as `ReadRun` of the encoder query |
| Driver.Axis.GetPositionVal | motorApp/ArcusSrc/arcusMotorDriver.cpp:518-594 | `getPositionVal` behaves as `ReadRun` of the position query |
| Driver.Axis.Poll | motorApp/ArcusSrc/arcusMotorDriver.cpp:623-695 | `poll`'s status, `comStatus_`, `*moving_p`, published parameters and link effect are those of `PollRun` |
| Driver.Axis.MoveCmd | motorApp/ArcusSrc/arcusMotorDriver.cpp:697-720 | `moveCmd` behaves as `MoveCmdRun` and leaves the parameters alone |
| Driver.Axis.SetSpeedLimits | motorApp/ArcusSrc/arcusMotorDriver.cpp:774-823 | the three-argument `setSpeed` behaves as `SetSpeedRun` |
| Driver.Axis.SetSpeed | motorApp/ArcusSrc/arcusMotorDriver.cpp:722-772 | the one-argument `setSpeed` behaves as `DefaultSpeedRun` |
| Driver.Axis.Move | motorApp/ArcusSrc/arcusMotorDriver.cpp:825-900 | `move`'s status, `comStatus_`, flags and link effect are those of `MoveRun` |
| Driver.Axis.Home | motorApp/ArcusSrc/arcusMotorDriver.cpp:902-957 | `home` behaves as `HomeRun` |
| Driver.Axis.MoveVelocity | motorApp/ArcusSrc/arcusMotorDriver.cpp:1044-1098 | `moveVelocity` behaves as `MoveVelocityRun` |
| Driver.Axis.Stop | motorApp/ArcusSrc/arcusMotorDriver.cpp:959-989 | `stop` behaves as `StopRun` |
| Driver.Axis.SetPosition | motorApp/ArcusSrc/arcusMotorDriver.cpp:991-1042 | `setPosition` as written: enable, absolute mode and absolute mode again, starting from the previous `comStatus_` |
| Driver.CreateAxis | motorApp/ArcusSrc/arcusMotorDriver.cpp:1195-1232 | an unknown port or a taken axis number yields no axis and changes nothing. Otherwise a new axis is registered, its first status reading made, and it is returned |

## Left out

- **asyn.** The link (`pasynOctetSyncIO`, `pasynCommonSyncIO`) is a scripted oracle: a list of `writeRead` outcomes, plus one status that every disconnect and connect returns. Timeouts, EOS handling and the `eomReason` are not modelled. The model assumes `writeRead` NUL-terminates the bytes it read.
- **Junk flush.** The constructor's flush of junk input (cpp:160-167) is not modelled. It is a read whose result is ignored.
- **Connect failure.** The constructor's report when the connection fails (cpp:149-155) only prints, so the model leaves it out.
- **Detection with no reply.** When both detection probes return nothing, the source searches a buffer that nothing wrote. The model classifies the empty reply as UNKNOWN.
- **Poller and parameter library.** The poller thread (`startPoller`), the `asynMotorController`/`asynMotorAxis` base classes and the parameter library are left out. The parameters this driver writes are the `MotorParams` record. `callParamCallbacks` is not modelled.
- **Tracing and output.** `asynPrint` tracing, `THROW_` (which only prints) and the exception constructors that format a message (cpp:108-125) are left out. `arcusException` keeps its type and an empty message.
- **Locking.** `lock`/`unlock` and all concurrency are left out.
- **Floating point.** The motor record's positions and velocities arrive as `double`s; the model takes them as integers. `rint`, `(long)` and `(int)` conversions are therefore identities, apart from the truncating divisions, which use `TruncDiv`. `fabs` is `Abs`.
- **Buffer sizes.** Command and reply buffer sizes (`CMD_LEN`, `REP_LEN`) and overflow of them are left out, including the ten-letter case of `parseReply`'s `cmd[10]` and the `Arcus_Com_Prefix[4]` overflow for a DMX-K-SA channel of 99 or more, where `ComPrefix` yields three digits (`PrefixFits` states when the prefix fits).
- **Integer width.** Integers are unbounded: a `%d`/`%i` conversion out of `int` range, the `(int)position` and `(long)` casts of large values, and `int` overflow of `axis_ + 1` or `channel + 1` are not modelled.
- **Registration.** `arcusCreateController` and the iocsh registration functions (cpp:1111-1249) are left out. They only parse arguments and call constructors.
- **Created in pieces.** `CreateAxis` takes what `findAsynPortDriver` found as its argument. The controller's axis table is a map, so `getAxis`'s index bounds and `numAxes` are not modelled.
- **Arguments not used.** The `forwards` argument of `home` and the acceleration argument of `stop` are unused by the source and ignored here. `ArcusControllerFlag` is unused.
- **`*val` on a partial scan.** A reading whose reply does not convert keeps `*val` unchanged. In the source the local it would scan into is indeterminate.
- **Uninitialised `val`.** The constructor's first status reading passes an uninitialised `val`; the model uses 0. `poll`'s `val` before its first reading is the `stale` parameter.
- Driver.Axis.Poll, Driver.Axis.Stop, Driver.Axis.MoveCmd, Driver.Axis.GetEncoderVal, Driver.Axis.GetPositionVal: they require a known model. For UNKNOWN the source sends a command buffer it never formatted.
- AxisOps.PollRun: its own contract only relates the flags and which values are published. Where `poll` stops on a failed reading, and with what traffic, is stated by `PollStopsOnReadFailure` and `PollOnTimeoutLink`. The values published on a link that answers at once are stated by `PollAnsweredAtOnce` and `PmxPollOnReliableLink`.
- Replies.DecodeReading: its own contract covers only the cases that decode nothing. What a reply decodes to is stated by `QuadFieldSelection` and `SingleReading`, for replies in the controller's format.

## Findings

| source | as written | input that shows it | evidently intended | confidence | as-written member | corrected member |
|---|---|---|---|---|---|---|
| motorApp/ArcusSrc/arcusMotorDriver.cpp:1007, motorApp/ArcusSrc/arcusMotorDriver.cpp:1020 | `setPosition` formats its third command with `printf(cmd, ...)`. This prints to the console and leaves `cmd` holding the absolute-mode command, which is then sent a second time | any known model and axis, any position | `sprintf` (or `snprintf`) of the position command, so that the controller's position is set | high (not executed) | AxisOps.SetPositionSendsNoPosition | AxisOps.IntendedSetPositionSendsPosition |
