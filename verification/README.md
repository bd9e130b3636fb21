# nut-dog: a verified model

nut-dog sheds and recovers loads by what their UPSes report. It is a level-triggered controller: every
tick it polls the UPSes, probes the loads, reads back the shed signals it drives on its own `upsd`,
snapshots the power requests of another controller, decides, holds power-on actions back for a while after
a start, and applies the rest. This project models that program in Dafny and proves what it keeps over whole
runs: with failing reads and writes, restarts, expiring requests and API calls between any two parts of a tick.

## How the model is laid out

| file | what it holds |
|---|---|
| `Control.dfy`, `ControlLaws.dfy` | the decision core; interlock, independence of map order and of other loads, settling |
| `PowerApi.dfy` | the clock and the request server, as classes |
| `Effects.dfy` | the shed signal's writer and reader, the executor |
| `ClosedLoop.dfy` | the closed loop as a state machine: what is fixed, states, events, runs |
| `TickLaws.dfy`, `SignalLaws.dfy`, `RequestLaws.dfy`, `RestartLaws.dfy` | theorems over every run of that machine |
| `App.dfy` | the controller as a class; each of its parts extends a run by one legal event |
| `Metrics.dfy` | the gauge store as a class that equals a function of its poll history |
| `Nut.dfy`, `NutLaws.dfy` | the LIST VAR reader (section 4.2 of RFC 9271) and the `upsc` reader; what they make of what a server prints |
| `Config.dfy`, `Wiring.dfy`, `Startup.dfy` | the configuration check, why a checked configuration dispatches every action, and how a process comes up from one |
| `NutConf.dfy`, `NutConfLaws.dfy` | the renderer of the NUT server's own files, and a section reader that gets them back |
| `Common.dfy`, `Ordering.dfy`, `Text.dfy` | small types, sorted key lists, the string operations the parsers use |

How the code and the theorems meet: the pure core is functions. The code that changes things (tick, request
server, executor, gauge store, renderer) is classes and loops proved against functions of the old state. A
run is a list of states and events; `ClosedLoop.After` says what one event does and `ClosedLoop.Legal` which
interleavings the code allows. The methods of `App.Controller` take the deployment's run so far as a ghost
parameter and hand back the longer one. Each kind of event has the code that extends a run by it:
`Startup.Launch` a `Restart` (a process built from a checked configuration continues any run of that plant,
wherever the one before went down; `Startup.Begin` goes on from there through a first tick), `StartClock` a `Start`, the three parts of `Tick` an `Observe`, a `Snapshot`
and an `Act`, `ServePower` a `Put` and `ServeState` a `Query`; each says exactly what the objects did. So the
theorems about runs apply to whatever sequence of these calls is made, restarts included.

A tick is three atomic events. `Observe` polls, probes, reads the signals and publishes (nothing else
writes what it reads). `Snapshot` takes the requests, with its own clock reading for every entry it
examines. `Act` reads the grace clock, decides, filters and applies. Accepted requests, state reads and
restarts may come between any two of them. A read may fail and is then Unknown; a write may fail and then
leaves the signal alone; which attempts succeed is a parameter of the world. `Restart` is a fresh
controller with a fresh server, whose grace clock starts with a later `Start`.

Where the code and its comments differ, the model follows the code: the shed signal is written as
`OB LB FSD` (several comments say `OB LB`), and a telemetry series takes the first alias that is present
and parses (the comment at the alias table says first present).

## What turned out to need a condition

- A block survives the LIST VAR reader exactly when no value has a quote or a backslash
  (`NutLaws.ListVarRoundTrip`): the reader strips quotes and never undoes escapes.
- A SET VAR command carries a value unchanged exactly when all of it prints (`NutLaws.SetVarIsUnderstood`): Go's
  quoting writes other characters as escapes a NUT server does not know. It stays one line whatever the value
  (`NutLaws.SetVarIsOneLine`).
- ups.conf reads back exactly when no driver option has an equals sign in its name
  (`NutConfLaws.RenderedFilesReadBack`); the configuration check lets such names through
  (`NutConfLaws.OptionsMayBePoor`).
- Section names of ups.conf are distinct exactly when local UPSes have names of their own and none is a shed
  signal's (`NutConfLaws.NamesApartMeans`); the check does not ask for that (`NutConfLaws.NamesMayClash`).
- The settings of a driver's section have distinct keys exactly when its plain and secret options differ by name and
  none is called `driver` or `port` (`NutConfLaws.KeysApartMeans`); the check accepts an option called `port`
  (`NutConfLaws.SettingsMayClash`).
- Section names of upsd.users are distinct exactly when servers have users of their own and none is the named
  admin's (`NutConfLaws.UsersApartMeans`); the check accepts two servers with one user and different passwords
  (`NutConfLaws.UsersMayClash`).

"Reads back" means by the section reader of `NutConfLaws.dfy`, which takes a setting's value as it stands. It is
not the NUT server's own parser: that one's quoting and comment characters are outside this model.

## Model

| member | source | states |
|---|---|---|
| `Control.DesiredFromSources` | internal/control/control.go:151-174 | the three-flag loop computes the verdict of the set of source states: a critical one sheds, all healthy runs, anything else holds |
| `Control.DesiredForLoad` | internal/control/control.go:128-146 | a critical source outranks every request, off is always honoured, on needs every source healthy, hold holds |
| `Control.ClassifyAll` | internal/control/control.go:314-317 | visiting the UPS map in any order classifies every configured UPS |
| `Control.Decide` | internal/control/control.go:306-336 | the loop over sorted names yields each load's reconciliation in name order |
| `ControlLaws.ClassifyMeaning` | internal/control/control.go:63-87 | shed iff polled, on battery and past a floor or LB; healthy iff online, off battery and recharged; unknown iff the poll failed |
| `ControlLaws.UnreadIsUnknown` | internal/control/control.go:63-87 | a configured UPS is unknown iff it has no reading or one that is not ok |
| `ControlLaws.UpsMeaning` | internal/control/control.go:63-87 | recovered and critical, the words of the interlock, are the classes healthy and shed of that UPS's own reading |
| `ControlLaws.Interlock` | internal/control/control.go:124-174 | a load is wanted on iff every governing UPS has recovered and nobody asked for less, and wanted off iff one is critical or off was asked for |
| `ControlLaws.GoverningMoreIsMoreCautious` | internal/control/control.go:151-174 | adding governing UPSes never turns a verdict into on and never takes an off back |
| `ControlLaws.InterlockOfActions` | internal/control/control.go:306-336 | every decided power-on or release has all governing UPSes recovered and no contrary request; every decided shed has a critical one or an off request |
| `ControlLaws.KindsFitTypes` | internal/control/control.go:258-294 | chassis loads get chassis commands only, NUT servers never do |
| `ControlLaws.MapOrderIsIrrelevant` | internal/control/control.go:319-323 | any enumeration of the load map gives the same list |
| `ControlLaws.DecisionsAreOrdered` | internal/control/control.go:302-336 | the list is in name order and never repeats an action |
| `ControlLaws.DecidedIffCalledFor` | internal/control/control.go:251-294 | edge triggering, kind by kind: a chassis command is decided iff the verdict wants a power state the probe contradicts, a signal write iff the verdict wants a position the signal was not read in, a wake iff an on verdict meets a server probed down; an unknown probe calls for no power command |
| `ControlLaws.DecisionsForOneLoad` | internal/control/control.go:326-334 | seen from one load, the list is that load's own reconciliation |
| `ControlLaws.OtherLoadsAreIrrelevant` | internal/control/control.go:326-334 | inputs that agree on what concerns a load decide the same for it |
| `ControlLaws.Settling` | internal/control/control.go:251-294 | once every decided action has taken effect, the same readings decide nothing |
| `PowerApi.Server.HandlePower` | internal/powerapi/powerapi.go:146-175 | an accepted "on", "off" or "hold" becomes the load's entry at that clock reading; unknown loads and any other word change nothing |
| `PowerApi.Server.Desired` | internal/powerapi/powerapi.go:85-99 | in any visiting order, with a TTL an entry is returned and kept iff its age at its own clock reading is below the TTL, and deleted otherwise; without one every entry is returned |
| `PowerApi.Server.PublishActual` | internal/powerapi/powerapi.go:73-79 | every probe result replaces the load's sighting; others stay |
| `PowerApi.Server.HandleState` | internal/powerapi/powerapi.go:118-137 | serves the last sighting with its age in whole seconds, or unknown at age 0 |
| `PowerApi.WholeSeconds` | internal/powerapi/powerapi.go:134-134 | an age is cut to whole seconds toward zero |
| `RequestLaws.TableRefinesLog` | internal/powerapi/powerapi.go:85-99 | in any interleaving the table holds a load's last accepted put, or has dropped it after it outlived the TTL |
| `RequestLaws.SnapshotIsTheLog` | internal/powerapi/powerapi.go:85-99 | a snapshot answers for each load exactly its last put when that is younger than the TTL (always, with the TTL off) and nothing otherwise, inside the allowlist and never "none" |
| `RequestLaws.TableStaysAllowed` | internal/powerapi/powerapi.go:146-168 | no interleaving brings a load outside the allowlist, or a request for nothing, into the table |
| `RequestLaws.NeverWokenAgainstItsCaller` | internal/app/app.go:160-197 | over any stretch of a run, from a process's start say: if a caller's first off or hold lands before the request snapshot of the first tick past the grace, and from then on nothing restarts, it asks for nothing else and its puts are seen fresh, the load is never powered on; what the run was before, restarts included, does not matter |
| `RequestLaws.SeenIsTheLatestProbe` | internal/powerapi/powerapi.go:70-79 | after any events the state endpoint's table holds the latest published probe |
| `Effects.ParseShedStatus` | internal/effects/shedder.go:43-57 | FSD anywhere among the tokens is asserted, else OL is released, else unknown |
| `Effects.WrittenSignalsReadBack` | internal/effects/shedder.go:36-57 | what Assert and Release write reads back as asserted and released |
| `Effects.Executor.SetSignal` | internal/effects/shedder.go:59-65 | one SET of ups.status on the load's own dummy-ups, or an error and no call |
| `Effects.Executor.Do` | internal/effects/effects.go:69-102 | in dryRun nothing; an error without a call exactly on a mis-wiring; otherwise the one effect of the kind on the load's own target, done iff the world accepted that call |
| `Effects.Executor.Apply` | internal/effects/effects.go:56-64 | every action is attempted in order whatever failed before, and counted |
| `Effects.CountersAreExact` | internal/metrics/metrics.go:284-292 | action counters grow by the occurrences applied, failure counters by those that failed, armed or dryRun |
| `Effects.CounterLabels` | internal/metrics/metrics.go:284-292 | label by label, each counter grows by how often that action stands in the list |
| `Effects.OutcomeShows` | internal/effects/effects.go:56-102 | an action failed iff, outside dryRun, it made no call or one that was not accepted |
| `Effects.FailuresShow` | internal/effects/effects.go:56-64 | over a list, the failures are the calls that were not accepted plus, outside dryRun, the actions that made none |
| `Effects.DryRunTouchesNothing` | internal/effects/effects.go:66-73 | in dryRun no effect is called, no signal moves and nothing fails |
| `App.DropPowerOns` | internal/app/app.go:188-196 | compacting the list onto its own front leaves the order-preserving filter |
| `ClosedLoop.FilterKeeps` | internal/app/app.go:188-202 | the filter drops wakes and chassis power-ups and keeps everything else |
| `ClosedLoop.FilterKeepsOrder` | internal/app/app.go:188-196 | what it keeps stays in order |
| `App.Controller.constructor` | internal/app/app.go:95-113 | caches the sorted names and stands at the start of a run |
| `App.Controller.StartClock` | internal/app/app.go:115-118 | starts the grace at that reading and extends the run by a Start |
| `App.Controller.Poll` | cmd/nut-dog/main.go:335-348 | an unknown UPS or a failed fetch is telemetry with ok false, ok otherwise iff ups.status was told; the poll of a known UPS is recorded either way |
| `App.Controller.ReadShed` | cmd/nut-dog/main.go:426-437 | a load without a dummy-ups or a failed read is Unknown, else the served position |
| `App.Controller.HoldStartupWakes` | internal/app/app.go:175-197 | an action is dropped iff it is a wake or a chassis power-up, the grace is on and the check reads less than the grace after the start of the clock; the grace gauge shows it |
| `App.Controller.ObserveAll` | internal/app/app.go:129-159 | polls, probes, reads and publishes as one legal Observe of this world |
| `App.Controller.Requested` | internal/app/app.go:204-209 | the request snapshot is one legal Snapshot; without a server there are no requests |
| `App.Controller.Record` | internal/app/app.go:211-231 | publishes for every UPS its classification and for every load the verdict, request, probe and signal |
| `App.GaugesTell` | internal/app/app.go:223-230 | a recorded load's gauges are hot at the labels of its verdict, request, probe and signal, and at no others |
| `App.LoadLabels` | internal/metrics/metrics.go:247-254 | desired is hot at "on", "off" or "hold" iff that is the verdict, requested iff that is the request |
| `App.ReadingLabels` | internal/metrics/metrics.go:255-258 | actual is hot at "up" or "down" iff the probe said so, a server's signal at "asserted" or "released" iff it was read so |
| `App.SourceGaugeTells` | internal/app/app.go:218-222 | a recorded UPS's gauge is hot at the label of its classification and at no other |
| `App.SourceLabels` | internal/metrics/metrics.go:238-243 | a UPS is hot at "shed", "hold", "healthy" or "unknown" iff that is its class |
| `App.Controller.DecideAndHold` | internal/app/app.go:163-163 | what is left to do is the decided list, less power-ons exactly while the grace lasts |
| `App.Controller.Reconcile` | internal/app/app.go:163-167 | decides, filters and applies as one legal Act; the executor went through exactly what that Act applies, and failed where it says; the grace gauge shows whether power-ons were held back |
| `App.Controller.Tick` | internal/app/app.go:128-169 | one tick extends the run by Observe, Snapshot, Act; its readings are ok exactly where the fetch got through and told the status, and with a failed fetch among a load's governing UPSes it neither powers the load on nor releases it; the gauges show the verdicts the Act was decided by, one hot state a group; the poll history grew by one poll a known UPS; the grace gauge shows whether it held power-ons back; action counters that were the run's stay so |
| `App.Controller.FailedFetchHolds` | cmd/nut-dog/main.go:331-348 | a UPS whose fetch failed is unknown to the tick and not critical; no load it governs is powered on or released |
| `App.Controller.ReadingsMean` | cmd/nut-dog/main.go:335-348 | a reading is ok iff the poller knows the UPS, the fetch got through and it told ups.status; a probe is the load's own |
| `App.ActCounts` | internal/effects/effects.go:56-64 | over a run, each action counter is how often the action was applied and each failure counter how often it failed |
| `App.Controller.ServePower` | internal/powerapi/powerapi.go:140-176 | an accepted request extends the run by a Put between any two parts of a tick; a refused one changes nothing |
| `App.Controller.ServeState` | internal/powerapi/powerapi.go:112-138 | a state read extends the run by a Query and serves the run's sighting with its age |
| `App.Controller.TakesOver` | internal/powerapi/powerapi.go:42-68 | a fresh controller with a fresh server extends any run of its plant by a Restart |
| `Startup.Build` | cmd/nut-dog/main.go:101-163 | what main puts together from a checked configuration is the plant that configuration describes: its grace, its dryRun, its TTL and allowlist, a request server iff one is configured |
| `Startup.Launch` | cmd/nut-dog/main.go:101-163 | a process that starts continues the deployment's run by a Restart, with its action counters at zero |
| `Startup.Begin` | cmd/nut-dog/main.go:129-171 | from a checked configuration to the first tick the run goes on by a Restart, a Start and a tick, and the counters are those since the Restart |
| `App.ExecutorRefinesLoop` | internal/effects/effects.go:56-64 | working a list off moves the signals as the closed loop says, with the failures the executor met |
| `TickLaws.AppliedIffNotHeld` | internal/app/app.go:175-202 | in any run a decided action is applied iff it is not a wake or chassis power-up that a positive grace still holds by the clock readings: check minus start below the grace |
| `TickLaws.ShedsAlwaysPass` | internal/app/app.go:171-197 | every decided chassis shutdown, assert and release is applied, grace or not |
| `TickLaws.AppliedInOrder` | internal/app/app.go:188-196 | what a tick applies stands in the order it was decided in |
| `TickLaws.ChassisEmergency` | internal/control/control.go:258-265 | a tick with a critical governing UPS orders a chassis probed up to shut down, whatever requests, TTL and grace say |
| `TickLaws.TickReads` | internal/app/app.go:129-163 | the telemetry and the probes a tick decides by are those of its own Observe |
| `TickLaws.FailedReadingHolds` | cmd/nut-dog/main.go:331-348 | in any run, a governing UPS without an ok reading is unknown and not critical, and the tick neither powers its load on nor releases it |
| `TickLaws.BlindLoadsHold` | internal/control/control.go:124-174 | a load none of whose governing UPSes could be read gets nothing but a shutdown or an assert, and that only when its caller asked for off |
| `SignalLaws.LatchRefinement` | internal/control/control.go:271-291 | over any stretch in which writes succeed the signal is a set/reset latch of the verdicts, whether or not it could be read |
| `SignalLaws.ActionsAreLatchChanges` | internal/control/control.go:251-291 | with sound reads besides, from between two ticks on, the signal is driven exactly as often as the latch changes |
| `SignalLaws.EmergencyGuarantee` | internal/app/app.go:163-167 | after a tick with a critical governing UPS the signal is asserted iff it was or that tick's write got through, whatever requests, TTL, grace and signal reads say; the write is tried whenever it was not |
| `SignalLaws.EmergencyWindow` | internal/effects/effects.go:56-64 | over a critical window the signal ends asserted iff it began so or one write got through |
| `SignalLaws.RecoveryGuarantee` | internal/control/control.go:280-286 | after a tick that wants the server on the signal is released iff it was or that tick's write got through, whatever grace and signal reads say; the write is tried whenever it was not |
| `SignalLaws.RecoveryWindow` | internal/effects/effects.go:56-64 | over a window of such ticks the signal ends released iff it began so or one write got through |
| `SignalLaws.WakesFindTheSignalReleased` | internal/control/control.go:280-290 | whenever a wake is dispatched and that tick's release did not fail, the server's signal already reads released, sound reads or not |
| `SignalLaws.ListWrites` | internal/config/config.go:139-141 | a list moves a server's signal only through that server's own actions |
| `SignalLaws.InterlockOverRuns` | internal/control/control.go:306-336 | every applied power-on or release, in any run, had all governing UPSes recovered in that tick's own readings and no contrary request; every applied shed a critical one or an off request |
| `SignalLaws.ActsOnLatestReadings` | internal/app/app.go:129-163 | what a tick acts on is its own observation, whatever happened in between |
| `SignalLaws.NeverWantedOn` | internal/control/control.go:79-83 | as long as, from between two ticks on, every successful poll of a governing UPS is below its recover floor, nothing that raises the load is decided |
| `SignalLaws.NoFlapping` | internal/control/control.go:251-294 | over such a stretch with sound reads and successful writes no release and at most one assert is applied |
| `RestartLaws.FilterLeavesSignals` | internal/app/app.go:171-197 | holding power-on actions back changes no shed signal |
| `RestartLaws.RestartTransparency` | internal/app/app.go:128-197 | without requests, a restart between two ticks leaves every later signal and every other action unchanged; power-ons are the original ones minus those inside the new grace |
| `Nut.ParseStatus` | internal/nut/nut.go:55-68 | each flag is set iff its token is in the text |
| `Nut.TelemetryFromVars` | internal/nut/nut.go:19-36 | ok iff ups.status is there, each flag iff its token is; runtime is battery.runtime and charge is battery.charge where they parse, -1 where they are absent or malformed |
| `Nut.ParseUPSC` | internal/nut/nut.go:41-51 | the line loop gives the telemetry of the listed variables |
| `Nut.LineReader.ReadLine` | internal/nut/client.go:179-182 | a line without its end, and whether it was complete |
| `Nut.CollectVars` | internal/nut/client.go:131-152 | the loop reads up to END, fails on ERR or a broken line, and keeps the last value of a name |
| `NutLaws.LineEndsAreDropped` | internal/nut/client.go:179-182 | a line comes without its LF or CRLF, and otherwise whole |
| `NutLaws.ErrIsAnError` | internal/nut/client.go:138-140 | a line that begins with `ERR ` makes the answer an error, wherever it stands |
| `NutLaws.OtherLinesAreSkipped` | internal/nut/client.go:138-151 | a line of none of the four kinds changes nothing |
| `NutLaws.OneVarAnswer` | internal/nut/client.go:131-162 | the answer about one variable, written out, reads as that variable with that value |
| `NutLaws.VarLineReadsBack` | internal/nut/client.go:154-162 | a variable survives its line iff its value has no quote and no backslash; a line for another UPS is ignored |
| `NutLaws.ListVarRoundTrip` | internal/nut/client.go:131-162 | a block printed in any order reads back as the map it was printed from iff no value has a quote or a backslash |
| `NutLaws.ListedValuesAreRead` | internal/nut/nut.go:19-36 | of a printed block, runtime, charge, ok and each flag are what the listed variables say, variable by variable |
| `NutLaws.TruncationIsAnError` | internal/nut/client.go:131-152 | a block cut off anywhere is an error, never a shorter map |
| `NutLaws.ReadersAgree` | internal/nut/nut.go:19-68 | upsc text and a LIST VAR block of the same variables give the same telemetry |
| `NutLaws.SetVarIsUnderstood` | internal/nut/client.go:95-102 | the quoted command carries a value to the server unchanged iff all its characters print |
| `NutLaws.SetVarText` | internal/nut/client.go:101-101 | the command for a value without escapes, written out |
| `NutLaws.SetVarIsOneLine` | internal/nut/client.go:95-102 | whatever the value, the command is one line |
| `NutLaws.SignalSurvivesTheWire` | internal/effects/shedder.go:36-57 | what Assert or Release sends is stored, listed, read back in full and parsed as asserted or released |
| `Metrics.Store.RecordPoll` | internal/metrics/metrics.go:197-220 | after one more poll every series, flag, failure counter, reachability and last-success time is still the function of the poll history |
| `Metrics.Store.LatestPollShows` | internal/metrics/metrics.go:201-205 | reachable is 1 after a successful poll and 0 after a failed one |
| `Metrics.Store.HistoryShows` | internal/metrics/metrics.go:193-220 | each flag is 1 iff it is a token of the last good status, each series is the reading itself, last success is its stamp; without a good poll there are none |
| `Metrics.LastGoodMeans` | internal/metrics/metrics.go:193-206 | a series goes by the latest successful poll of its UPS, if there was one |
| `Metrics.FailedPollsMeans` | internal/metrics/metrics.go:202-205 | the failure counter is the number of failed polls |
| `Metrics.FirstUsableMeans` | internal/metrics/metrics.go:222-235 | the first alias that is present and parses decides, malformed ones before it are passed over |
| `Metrics.SeriesIsReading` | internal/metrics/metrics.go:212-219 | every scale is one, so a series is its reading unchanged |
| `Metrics.MeasuredPowerComesFirst` | internal/metrics/metrics.go:222-235 | apparent power is ups.power where that parses |
| `Metrics.OnePollsReach` | internal/metrics/metrics.go:193-220 | a failed poll, or a poll of another UPS, moves no series; a successful one decides its own UPS's alone |
| `Metrics.Store.FirstFloat` | internal/metrics/metrics.go:222-235 | the first alias that is present and parses |
| `Metrics.SetOneHot` | internal/metrics/metrics.go:294-299 | exactly the active state is 1 |
| `Metrics.HotExactlyAt` | internal/metrics/metrics.go:294-299 | a group is hot at the label it was recorded with and at no other |
| `Metrics.OneHotIsKept` | internal/metrics/metrics.go:294-299 | recording one id leaves one hot state in every group |
| `Metrics.Store.RecordSource` | internal/metrics/metrics.go:238-243 | shows the classification; every group stays one-hot |
| `Metrics.Store.RecordLoad` | internal/metrics/metrics.go:247-259 | shows the load's verdict, request and probe, and a server's signal; every group stays one-hot |
| `Metrics.Store.RecordAction` | internal/metrics/metrics.go:284-292 | one action counted, and one failure if it failed |
| `Metrics.TokenSet` | internal/metrics/metrics.go:302-308 | the presence set of the tokens |
| `Config.Validate` | internal/config/config.go:167-244 | accepts exactly the valid configurations, and an error names a fault that is there |
| `Config.ValidMeansFaultless` | internal/config/config.go:167-244 | a configuration is valid iff none of the faults an error can name is there |
| `Config.ControlUPS` | internal/config/config.go:257-267 | for exactly the configured UPSes, the shed runtime in whole seconds, the shed charge and the recover charge, each in its own place |
| `Config.ControlLoads` | internal/config/config.go:270-280 | for exactly the configured loads, the governing list unchanged, and a server iff the type is `nut-server` |
| `MainWiring.WireLoads` | cmd/nut-dog/main.go:381-411 | visiting the loads in any order gives a chassis its CMC host and probe, a server its MAC, broadcast, probe address and a dummy-ups called `shed-` and its name, and a load of neither type nothing |
| `MainWiring.EveryDecisionDispatches` | internal/effects/effects.go:69-102 | with a checked configuration and the chassis runner ready, every decided action comes to the one effect meant, spelt out by kind, with a real target, or to nothing in dryRun |
| `MainWiring.EveryAppliedActionDispatches` | cmd/nut-dog/main.go:101-138 | the same for every action applied in any run of the deployment |
| `MainWiring.ArmedServersAreWired` | internal/config/config.go:139-141 | every server of an armed deployment drives a dummy-ups of its own |
| `NutConf.ResolveSecret` | internal/nutconf/nutconf.go:142-151 | a secret is taken iff it is not empty and has no CR or LF; the error says which fault it is, empty first, and names the variable |
| `NutConf.RenderUpsConf` | internal/nutconf/nutconf.go:81-109 | succeeds iff every driver's secrets resolve, and is then the text of one section per local driver and per server, in name order |
| `NutConf.DriverText` | internal/nutconf/nutconf.go:88-90 | a driver's section opens with its name in brackets, its driver and its port, line by line |
| `NutConf.DummyText` | internal/nutconf/nutconf.go:104-107 | a shed signal's section, line by line |
| `NutConf.ShedDevText` | internal/nutconf/nutconf.go:22-28 | the state file of a shed signal, line by line |
| `NutConf.RenderUpsdConf` | internal/nutconf/nutconf.go:111-117 | succeeds iff the listen address splits, and is then one LISTEN line with host and port in that order |
| `NutConf.RenderUpsdUsers` | internal/nutconf/nutconf.go:119-137 | succeeds iff every password resolves, and is then the text of the admin's section and one login per server |
| `NutConf.AdminText` | internal/nutconf/nutconf.go:126-126 | the admin's section, line by line |
| `NutConf.LoginText` | internal/nutconf/nutconf.go:134-134 | a server's login, line by line |
| `NutConf.Render` | internal/nutconf/nutconf.go:32-61 | succeeds iff all three do, and then holds these files, one state file per server, and no others; an error names the address, or a variable the configuration uses that is at fault |
| `NutConf.CheckAndRender` | cmd/nut-dog/main.go:50-59 | refuses exactly the invalid configurations, and has what rendering a valid one needs |
| `NutConfLaws.DirectiveReadsBack` | internal/nutconf/nutconf.go:88-101 | a printed directive reads back iff its key has no equals sign, whatever its value |
| `NutConfLaws.RenderedFilesReadBack` | internal/nutconf/nutconf.go:81-137 | from single-line fields, upsd.users reads back section by section, and ups.conf does iff no option name has an equals sign |
| `NutConfLaws.DriverSectionHolds` | internal/nutconf/nutconf.go:88-101 | a driver's section says its type, port, options and resolved secrets, and nothing else |
| `NutConfLaws.KeysApartMeans` | internal/nutconf/nutconf.go:88-101 | no two settings of a driver's section share a key iff its plain and secret options differ by name and none is called like the type or the port |
| `NutConfLaws.NamesApartMeans` | internal/nutconf/nutconf.go:83-107 | no two sections share a name iff local UPSes have names of their own, none a shed signal's |
| `NutConfLaws.OneDriverSectionEach` | internal/nutconf/nutconf.go:83-103 | with names apart, every local driver has the one section of its name |
| `NutConfLaws.OneSignalSectionEach` | internal/nutconf/nutconf.go:104-107 | so has every shed signal |
| `NutConfLaws.NoOtherSections` | internal/nutconf/nutconf.go:81-137 | the sections number the local drivers, the servers and the admin |
| `NutConfLaws.UsersApartMeans` | internal/nutconf/nutconf.go:119-137 | no two sections of upsd.users share a name iff servers have users of their own, none the named admin's |
| `NutConfLaws.OneLoginEach` | internal/nutconf/nutconf.go:128-135 | with users apart, every server has the one login of its user |
| `NutConfLaws.OneAdminSection` | internal/nutconf/nutconf.go:121-127 | so has a named admin |
| `NutConfLaws.LoginAt` | internal/nutconf/nutconf.go:128-135 | every server's login is listed, in name order behind the admin |
| `NutConfLaws.SignalsAreServed` | cmd/nut-dog/main.go:407 | the name the controller writes a signal to is a rendered dummy-ups, whose state file is rendered and starts released |
| `NutConfLaws.NamesMayClash` | internal/config/config.go:190-200 | a configuration the check accepts although two sections would share a name |
| `NutConfLaws.UsersMayClash` | internal/config/config.go:209-219 | a configuration the check accepts although two logins would share a user |
| `NutConfLaws.SettingsMayClash` | internal/config/config.go:190-200 | a configuration the check accepts although a driver's section would set its port twice |
| `NutConfLaws.OptionsMayBePoor` | internal/config/config.go:190-200 | a configuration the check accepts although an option would not read back |
| `Ordering.CollectSortedKeys` | internal/nutconf/nutconf.go:165-172 | collecting a map's keys in any order and sorting them gives the one sorted list |
| `Ordering.LessMeans` | internal/nutconf/nutconf.go:165-172 | one name precedes another iff it is a proper prefix of it or has the smaller character at the first difference |
| `Text.FieldsAreTheTokens` | internal/nut/nut.go:57-57 | splitting a text finds exactly its tokens |
| `Text.WhatPartsWords` | internal/nut/nut.go:57-57 | exactly the six ASCII white-space characters part words |
| `Text.TrimSpaceMeans` | internal/nut/nut.go:26-26 | trimming leaves what stands between the outer white space |

## Left out

- Sockets, deadlines, STARTTLS, dialling, SSH and the wake packet: a read is one that succeeds or is Unknown, an effect one that succeeds or fails.
- Startup.Launch: the flags, the SSH runner (given as ready or not), and the exit when an armed deployment has a chassis but no runner.
- A write that fails is taken to leave the signal unchanged; a SET whose answer is lost after it took effect is not modelled.
- HTTP routing, the bearer token and JSON: a power request starts as a load name and a word.
- Mutexes: each critical section of the request server is one step. A state read's clock reading comes right after its table read.
- App.Controller.Reconcile: an Act is one event, so a request that lands between its two grace-clock readings is placed before or after it; when no Start came first, so that the grace begins at the first of these readings, such a request has no place. main always starts the clock first.
- App.Controller.ObserveAll: polling, probing, reading and publishing are one event, since only an Act writes signals and only an Observe writes sightings.
- PowerApi.Server.Desired: maps are values here, so that the caller gets a map of its own cannot be stated.
- RestartLaws.RestartTransparency: is about the controller process; the container's start script also renders the state files anew, which puts every signal back to OL (container/entrypoint.sh:10-17).
- The reconcile heartbeat, registration and exposition of metrics, and logging: the store is plain maps. The wall clock a poll is stamped with comes with its answer.
- Absent metrics and optional parts other than the request server and the signal reader: the store is always there.
- `strconv` and `net.SplitHostPort`: uninterpreted partial functions given as parameters; the environment is a total one.
- Unicode: white space is the ASCII kind, texts are sequences of characters and order is by character code.
- NutLaws.SetVarIsUnderstood: Go's quoting is modelled over whole characters; bytes that are no valid encoding are not. Which characters beyond ASCII print is a parameter.
- Config.ControlUPS: durations are whole nanoseconds and become seconds by integer division, without the detour through floating point.
- Metrics.Store.RecordPoll: readings and scales are reals, without floating-point rounding.
- YAML, duration parsing and defaults: a configuration starts with its optional durations filled in.
- Command line, preflight, signal handling, file writing, `nut-probe`, the magic packet and the chassis command's output: plumbing or small local functions.
