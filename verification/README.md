# Verified model of VoodooHDA's codec parser, sample kernels and pin table

VoodooHDA is an audio driver for HD Audio codecs.  This project models three
self-contained parts of it in Dafny and proves what they are for.

* **The codec-graph parser** (tranc/Parser.cpp).  A codec is a directed graph of
  widgets.  The parser groups pins into associations, searches a DAC for every
  output pin and an ADC for every input association, prunes the graph, binds
  associations to channels and devices, commits the result to the codec and
  follows the jacks.  `Graph.dfy` holds the state; the other files of this part
  follow the order of the parse: `Configuration`, `DisableUseless`,
  `Associations`, `AssociationFacts`, `TraceDac`, `TraceOut`, `Redirection`,
  `RouteProperties`, `TraceIn`, `TraceExtra`, `Trails`, `InputSelections`,
  `Turns`, `BuildTree`, `PruningPasses`, `SelectionPasses`, `Separation`,
  `RouteSurvival`, `Pipeline`, `SelectedRoutes`, `RecordedRoutes`, `PcmDevices`,
  `Amplifiers`, `Commit`, `JackSwitch`, `MicSwitch`, `SwitchPoll`,
  `RecordSelect`, `JackFacts`, `Driver`, and `ConnectionList` for reading a
  widget's connections.
* **The sample kernels** (tranc/PCMBlitter*): `SimdKernels`, `Pack24`,
  `PipelinedConvert`, `Quantiser`.
* **The pin table** (tools/gen_pinconfigs.py, tools/edit_layout.py,
  tranc/AppleALCPinConfigs.cpp): `PinFields`, `LayoutEditor`, `PinVerbs`,
  `VerbNumbers`, `PinTable`.

## How the state is modelled

A function group is the class `FunctionGroup` with an array of widgets, an array
of controls and an array of associations; the methods update the records in
place as the driver does.  A pointer to a widget is its node id, which is its
index; the slots below `startNode` are the nodes for which the driver finds no
widget.  A sequence mask is the set of its bit numbers, a trace direction a set
of directions.  The verbs sent to the codec are appended to the log of a
`CodecLink`, and what the codec holds is read off the log.  Answers of the codec
(connection list words, pin senses) are parameters.  Addresses in the vector
kernels are numbers; a conversion of one lane is an abstract function.

A pass that changes several records is specified by predicates on the sequences
before and after it, and the theorems are lemmas about those predicates.  What the
predicates mean is proved once more without them, in the fields of the records and
in numbers: paths of the searches in `Trails` and `InputSelections`, the records of
associations in `AssociationFacts`, what the passes leave in `Separation`, what is
heard and recorded in `JackFacts`, configuration data in `VerbNumbers`.

## What is proved of the parser

* The output search is exact.  When it succeeds every pin has a live route to
  its DAC (by selected hops if every cycle of the graph runs through a pin
  complex, as those of retaskable jacks do), routes are disjoint but for a
  redirected jack, and without user patches the assignment is the
  lexicographically least one; when it fails everything is undone and, without
  patches, no assignment by first-choice routes exists.
* So is the tree.  Without user patches an output association stays enabled
  exactly when, in the state its turn finds, its pins can be given DACs with
  real redirection or, having one, with fake redirection; an input association
  exactly when all its pins reach one ADC.
* Two pins of an association share a DAC exactly when redirection is real and
  they are the jack and the pin it shares with; with fake redirection the outcome
  is that of the association without any.
* Marking and undoing are inverse exactly on the states the search starts from.
* The input search finds the least ADC that all pins reach, and a widget carries
  a pin exactly when it lies on one of its walks.  Every selector a walk enters,
  and every widget with several inputs that is no mixer, audio inputs included,
  selects an input on a walk; on an acyclic graph the first pin has a walk that
  follows the selections to the ADC, to the end of the parse and in the codec.
* The extra trace opens what it finds: from every start with a free way to
  playback there is a path whose widgets belong to the pseudo association, whose
  selectors are decided and whose end is a monitor.
* `audioDisableUseless` computes the greatest stable sub-configuration.
* Through all later passes exactly those playback routes survive that run by
  selected hops, and a recording walk survives exactly when no input monitor
  feeds a mixer of several inputs on it.  Said of the state before the extra
  trace: what becomes a monitor on a recording walk is a mixer that leads to an
  output, and every one that does so within ten hops.
* Every widget left is bound to an enabled association of the table or to the
  pseudo association, which no pin is.  No enabled connection of a selecting widget
  and no enabled control joins widgets of different associations or without a
  common pin, input monitoring and the pseudo association aside.
* The association table is the record of the pins, field by field - count,
  direction, digital kind, jack, default pin and redirection - with one record for
  each association in use; the overflow exit is dead.
* First-fit packing needs exactly the devices it allocates.
* Over any run of jack polls the pin that fired last in an association decides:
  an output pin is heard exactly when it is plugged, the other pins exactly when
  it is not; an input pin has set every mixer input of its association, and
  moved every selector that has a connection wanted.
* After the commit every channel of an enabled control's amplifier stands unmuted
  at 0 dB, or at its highest gain if that is less, unless the mixer sets it or it is
  forced mute.  The codec mirrors the tables throughout; a disabled control is silent in its
  record, and in the codec but for the amplifiers the commit opens, through
  commits, record selection and jack events.
* Record selection switches every widget it reaches, and answers exactly the
  sources of the channels it ends at.

## What turned out false, and the exact condition

* On a cyclic graph the search can leave a selector that does not lead to the
  DAC (`RouteProperties.CycleLosesSelection`), and `audioDisableNonSelected`
  then cuts the only way.  Some route by selected hops reaches the DAC if and
  only if, in the graph before the marking, the connections by which the marked
  walk first leaves its selecting widgets lead from the pin to the DAC
  (`OutputAssociation.PinSelectedIff`; for a whole association and to the end of
  the parse: `SelectedRoutes.PlaybackSelectedIff`).  The marked walk itself runs by
  selected hops if and only if it leaves every selecting widget by one connection
  (`OutputAssociation.MarkedRoute`); that is sufficient, as it is when every cycle
  runs through a pin complex, but not necessary
  (`RouteProperties.CycleKeepsSelection`).
* A selection preset by a user patch is lost by a failed trace
  (`RouteProperties.PresetSelectionLost`; `OutputAssociation.UndoMarkIff` says when it is kept).
* A favourite DAC overrides the smallest one
  (`OutputTrace.FavouriteOverridesLeast`).  From a pin on the probe answers the
  smallest DAC everywhere exactly when no widget's favourite is the smallest DAC
  behind one of its connections and larger than one behind another
  (`OutputTrace.ProbeLeastIff`).
* A jack that is itself the pin to share with is never traced by real
  redirection (`RouteProperties.RedirectToSelfFails`; a pin of which a DAC can be
  reached: `RouteProperties.RedirectToSelf`).
* Recording walks can be cut by the monitor rule of
  `audioDisableCrossAssociations` (`RouteSurvival.WalkThroughCross`; a traced tree
  whose recording pin loses its only walk: `RouteSurvival.MonitorCutsPin`).
* A disabled control is silent in its record, but the commit opens the output
  amplifiers of disabled controls on line-out, speaker and headphone pins
  (`CodecCommit.DisabledAmpSilent`; a speaker pin: `CodecCommit.DisabledAmpHeard`).
* The amplifier verb of an input from the seventeenth on reaches the amplifier
  of sixteen inputs less, and a verb for the left channel sets both
  (`Amplifiers.PayloadFields`).
* The quantiser's error exceeds half a step near full scale
  (`Quantiser.ErrorBound`; full scale at 24 bits: `Quantiser.FullScaleError`).
* The non-swapping arm of `SwapInt24ToFloat32_Portable`, which the define at
  tranc/PCMBlitterLib.cpp:14-15 selects on x86, misreads the samples after the
  last group of four (`Pack24.OtherArm`).

## Model

| member | source | states |
|---|---|---|
| `Configuration.PrunedSilent` | tranc/Parser.cpp:1222-1238 | what is disabled before a pass is unchanged and silent after it |
| `UselessPass.AudioDisableUseless` | tranc/Parser.cpp:880-1002 | the result is stable, contained in the input, and contains every stable sub-configuration of the input; it terminates |
| `UselessPass.StableMeans` | tranc/Parser.cpp:880-1002 | what stable means in the fields: which widgets, connections and controls may be enabled |
| `PruningPasses.AudioCtlAmpGet` | tranc/Parser.cpp:3937-3960 | the control found is the cnt-th enabled match, none is found exactly when there are fewer |
| `PruningPasses.AudioDisableNonAudio` | tranc/Parser.cpp:865-878 | a widget stays enabled exactly when it is no power widget or volume knob |
| `PruningPasses.AudioDisableUnassociated` | tranc/Parser.cpp:1188-1263 | exactly the unbound widgets are disabled, exactly the inputs of input pins and the connections from output pins are cut; their amplifiers are silenced, and no other control is touched |
| `SelectionPasses.AudioDisableNonSelected` | tranc/Parser.cpp:1265-1293 | exactly this is cut: the other connections of an enabled playback widget that has several inputs, is no mixer and has selected one; the counts agree |
| `SelectionPasses.IsFirstPin` | tranc/Parser.cpp:1295-1311 | true exactly when the mask holds the redirection pin or its lowest bit is the lowest present pin |
| `SelectionPasses.AudioDisableCrossAssociations` | tranc/Parser.cpp:1313-1418 | which connections and controls remain, said of the state before the pass; `Separation.CrossedExactly` says it in the fields |
| `Separation.UnassociatedExactly` | tranc/Parser.cpp:1188-1263 | in the fields: a widget stays enabled exactly when it is bound, a connection exactly when it goes into no recording pin and comes from no playback pin |
| `Separation.UnassociatedSilences` | tranc/Parser.cpp:1188-1263 | which control is silenced with them: the first of each side or connection, and no control for another reason |
| `Separation.CrossedExactly` | tranc/Parser.cpp:1313-1418 | in the fields: exactly which connections and controls audioDisableCrossAssociations leaves |
| `Separation.CrossedSeparates` | tranc/Parser.cpp:1363-1416 | after it no connection and no control joins widgets of different associations or without a common bit, but for the exceptions of the code |
| `Separation.StillOneWay` | tranc/Parser.cpp:1188-1293 | to the end nothing goes into a recording pin or comes from a playback pin, and playback takes what it selected |
| `AssociationParser.CountAssociations` | tranc/Parser.cpp:1009-1026 | the counting pass yields the number of records |
| `AssociationParser.FillShared` | tranc/Parser.cpp:1049-1149 | the record of a shared association after its last pin, or nothing used |
| `AssociationParser.FillSingles` | tranc/Parser.cpp:1049-1149 | every pin of association 15 gets its own record and the overflow exit is never taken |
| `AssociationParser.AudioAssociationParse` | tranc/Parser.cpp:1004-1149 | the count is the number of associations; there is a table exactly for 1 to 50, and the filling pass agrees with the counting pass |
| `AssociationFacts.ConsistentIff` | tranc/Parser.cpp:1085-1120 | an association stays enabled exactly when its pins have distinct sequences and one direction |
| `AssociationFacts.SharedRecord` | tranc/Parser.cpp:1049-1149 | a record holds exactly its pins, and says of them field by field: count, direction, digital kind, jack (the last pin with an even Misc field), default pin (the last with an odd one, else the lowest); it redirects exactly when there are two pins or more and the jack has headphones or the direction is In, and then to the lowest sequence |
| `AssociationFacts.SingleRecord` | tranc/Parser.cpp:1049-1149 | a pin of association 15 forms a proper association of its own |
| `AssociationFacts.TableMeaning` | tranc/Parser.cpp:1004-1149 | every record is that of its pins, in the same fields, and every associated pin has a record |
| `AssociationFacts.TableLength` | tranc/Parser.cpp:1009-1026 | one record for each of the associations 1 to 14 in use and one for each pin of association 15 |
| `AssociationFacts.TableOrder` | tranc/Parser.cpp:1049-1149 | the records are in the order of their associations, those of association 15 in the order of their pins |
| `AssociationFacts.HeadphonesRedirected` | tranc/Parser.cpp:1109-1129 | a fixed speaker and a headphone jack of one association: the headphones share with the speaker |
| `AssociationFacts.FieldsAgree` | tools/edit_layout.py:57-68 | the driver reads the fields of a configuration that the layout editor writes |
| `OutputTrace.AudioTraceDac` | tranc/Parser.cpp:1423-1520 | a probe changes nothing and returns the specified DAC; a marking call marks exactly the first-choice route |
| `OutputTrace.FirstChoiceUnique` | tranc/Parser.cpp:1466-1517 | the marked walk is determined by its ends |
| `OutputTrace.ProbeSound` | tranc/Parser.cpp:1423-1520 | a probed DAC can be reached |
| `OutputTrace.ProbeComplete` | tranc/Parser.cpp:1423-1520 | when some DAC can be reached the probe finds one |
| `OutputTrace.ProbeThenMark` | tranc/Parser.cpp:1638-1656 | marking with the probed DAC returns that DAC and marks its route |
| `OutputTrace.ProbeLeastIff` | tranc/Parser.cpp:1480-1505 | from a widget on, the probe answers the smallest reachable DAC everywhere exactly when no favourite there is smallest behind one connection and not behind all |
| `OutputTrace.ProbeWithoutFavourites` | tranc/Parser.cpp:1480-1505 | without favourites the probe is the smallest reachable DAC |
| `OutputTrace.FavouriteOverridesLeast` | tranc/Parser.cpp:1493-1497 | an input on which a favourite wins over a smaller DAC |
| `Trails.ReachIff` | tranc/Parser.cpp:1423-1520 | a DAC can be reached exactly over a path of enabled, unbound or own widgets of at most ten hops, said in their fields |
| `Trails.FirstChoiceIff` | tranc/Parser.cpp:1466-1517 | what makes a walk the first choice, said of such paths |
| `Trails.ChoiceIff` | tranc/Parser.cpp:1629-1640 | a pin can be given a DAC exactly when such a path leads there, to the DAC of pin hpredir for a jack that is really redirected |
| `Trails.MarkedFields` | tranc/Parser.cpp:1506-1517 | what marking a walk does to each widget on it, by its kind |
| `Trails.SelectedIff` | tranc/Parser.cpp:1506-1509 | a route runs by selected hops exactly when its selectors, and its widgets with several inputs that are no mixers, have selected its hops |
| `OutputAssociation.AudioUndoTrace` | tranc/Parser.cpp:1588-1610 | exactly the widgets of that pin give it up |
| `OutputAssociation.UndoMark` | tranc/Parser.cpp:1588-1610 | undoing a marked route gives the state back, erasing only what unbound widgets had preset |
| `OutputAssociation.UndoMarkIff` | tranc/Parser.cpp:1588-1610 | the state is restored exactly when the unbound widgets of the route were as they are first parsed |
| `OutputAssociation.MarkedRoute` | tranc/Parser.cpp:1506-1517 | a marked walk is live; it runs by selected hops exactly when it leaves every selecting widget by one connection |
| `OutputAssociation.MarkedSelected` | tranc/Parser.cpp:1506-1517 | which routes run by selected hops after a marking, said of the graph before it |
| `OutputAssociation.PinSelectedIff` | tranc/Parser.cpp:1506-1517 | the pin has a route by selected hops to its DAC exactly when the first exits of the marked walk lead there |
| `OutputAssociation.AcyclicExitsAgree` | tranc/Parser.cpp:1466-1517 | it always does when every cycle of enabled connections runs through a pin complex |
| `OutputAssociation.TracePin` | tranc/Parser.cpp:1638-1656 | one pin traced from a minimum on |
| `OutputAssociation.TryPin` | tranc/Parser.cpp:1632-1664 | the outcome for one minimum, everything undone on failure |
| `OutputAssociation.AudioTraceAssociationOut` | tranc/Parser.cpp:1615-1666 | success: all pins routed, nothing foreign touched, least assignment; failure: everything undone and no assignment; redirection is said in the fields by `RouteProperties.DacsDistinct` and `Redirection.DecidedByRetry` |
| `OutputAssociation.LeastIsAssignable` | tranc/Parser.cpp:1615-1666 | the least assignment is an assignment |
| `Redirection.AssignableUnredirected` | tranc/Parser.cpp:1629-1631 | with fakeredir set an association can be given DACs exactly when it could with hpredir -1 |
| `Redirection.LeastUnredirected` | tranc/Parser.cpp:1629-1631 | and its least assignment is the one it would get then |
| `Redirection.DecidedByRetry` | tranc/Parser.cpp:1160-1169 | the outcome of a turn: real redirection, else the association without redirection, and failure exactly when neither can be traced |
| `Redirection.RealRedirectionFails` | tranc/Parser.cpp:1629-1631 | a speaker and a headphone jack with a DAC each, which real redirection cannot trace |
| `Redirection.RetryNeeded` | tranc/Parser.cpp:1160-1169 | their turn succeeds by the retry, and each keeps its own DAC |
| `OutputAssociation.GrownAllRouted` | tranc/Parser.cpp:1447-1452 | tracing one association keeps the routes of the others |
| `RouteProperties.RoutesDisjoint` | tranc/Parser.cpp:1447-1475 | routes of two pins share no widget unless redirection is real and they are jackPin and hpredir |
| `RouteProperties.AssociationsDisjoint` | tranc/Parser.cpp:1447-1452 | routes of two associations share no widget |
| `RouteProperties.DacsDistinct` | tranc/Parser.cpp:1468-1480 | two present pins share a DAC exactly when fakeredir is not set, hpredir is not negative and they are jackPin and hpredir |
| `RouteProperties.MarkKeepsRoute` | tranc/Parser.cpp:1447-1475 | tracing another pin leaves a pin's routes by selected hops as they are |
| `RouteProperties.AllSelectedIff` | tranc/Parser.cpp:1615-1666 | all pins of the least assignment have routes by selected hops exactly when the selections of the chosen walks lead to their DACs |
| `RouteProperties.RedirectToSelfFails` | tranc/Parser.cpp:1629-1631 | a jack redirected to itself or to a later pin is never traced |
| `RouteProperties.RedirectToSelf` | tranc/Parser.cpp:1109-1129 | such an association of two pins, whose jack does reach a DAC |
| `RouteProperties.CycleLosesSelection` | tranc/Parser.cpp:1506-1509 | a cyclic graph on which no selected route remains after a successful trace |
| `RouteProperties.CycleKeepsSelection` | tranc/Parser.cpp:1506-1509 | a cyclic graph on which the marked walk is not selected but another route is |
| `RouteProperties.RetaskableJackAcyclic` | tranc/Parser.cpp:1478-1481 | a jack that takes the mixer it feeds closes no cycle for the traces |
| `RouteProperties.PresetSelectionLost` | tranc/Parser.cpp:1588-1610 | a preset selection that undo does not restore |
| `InputTrace.AudioTraceAdc` | tranc/Parser.cpp:1525-1583 | succeeds exactly when a walk to the ADC exists and marks exactly the widgets on such walks; where every choice is open and the graph acyclic, the selections lead from the pin to the ADC |
| `InputTrace.OnWalkIff` | tranc/Parser.cpp:1525-1583 | a widget is met exactly when it lies on a walk |
| `InputTrace.AudioTraceAssociationIn` | tranc/Parser.cpp:1671-1713 | the least ADC all pins reach, or failure exactly when there is none with everything undone; the selections are said in the fields by `InputSelections.SelectionsMade` |
| `Trails.WalkIff` | tranc/Parser.cpp:1525-1583 | the walks of an input trace are the paths of at most ten hops over enabled, unbound or own widgets, said in their fields |
| `InputSelections.LeastCommonAdc` | tranc/Parser.cpp:1671-1713 | the search succeeds exactly when one enabled, free audio input has such a path from every pin, and takes the least |
| `InputSelections.SelectionsMade` | tranc/Parser.cpp:1561-1569 | every undecided selector that a path enters, and every such widget with several inputs that is no mixer, audio inputs included, selects an enabled connection from a widget on a path |
| `InputSelections.SelectionsKept` | tranc/Parser.cpp:1561-1569 | no other widget is given a selection |
| `InputSelections.FirstPinSelected` | tranc/Parser.cpp:1561-1569 | on an acyclic graph the first pin has a live walk to the ADC on which every hop into such a widget is its selection |
| `MonitorTrace.AudioTraceToOut` | tranc/Parser.cpp:1718-1779 | it succeeds when a walk to an output association was open from the start, and only for widgets that lead to one, and leaves an open walk behind; what it may change of a widget, and only of widgets a trace meets |
| `MonitorTrace.ReachesOutIff` | tranc/Parser.cpp:1718-1779 | the two bounds of its answer differ in the length of the walk only |
| `MonitorTrace.AudioTraceAssociationExtra` | tranc/Parser.cpp:1783-1841 | a new monitor is a widget of an output association that a trace met or an input mixer that leads out, and every input mixer that reaches out is one; from every start that reaches out, and every widget that has joined the pseudo association, an open walk leads out; only unbound widgets that lead out, and beep generators, join it, and no pin does |
| `Trails.MonitorsMade` | tranc/Parser.cpp:1783-1841 | which mixers become monitors, said of paths in the fields |
| `Trails.TrailsOpened` | tranc/Parser.cpp:1718-1841 | from mixers and pins of recording associations and beep generators with a free path to playback, and from every widget that has joined the pseudo association, an open path leads to playback; only undecided selectors are given a selection |
| `TreeBuilder.JoinedTree` | tranc/Parser.cpp:1671-1713 | after an input search every pin has a live walk to the one ADC |
| `TreeBuilder.ExtraKeepsRoute` | tranc/Parser.cpp:1820-1841 | the extra trace keeps a route exactly when no beep generator lies on it |
| `TreeBuilder.BuildOut` | tranc/Parser.cpp:1160-1169 | without patches: the least assignment by real redirection, else by fake redirection, and failure exactly when there is neither |
| `AssociationTurns.TurnTraceable` | tranc/Parser.cpp:1157-1180 | an association keeps its flag in its turn exactly when it can be traced then |
| `AssociationTurns.TurnLasts` | tranc/Parser.cpp:1157-1180 | no later turn changes an association |
| `TreeBuilder.AudioBuildTree` | tranc/Parser.cpp:1151-1186 | the turns of the associations one by one, each decided exactly, then the extra trace; every association still enabled is fully routed or joined, bindings name enabled associations, no pin is bound to -2 |
| `RouteSurvival.ConfineStable` | tranc/Parser.cpp:880-1002 | what is sustained within a set of widgets is a stable sub-configuration |
| `RouteSurvival.RouteThroughUnassociated` | tranc/Parser.cpp:1188-1263 | exactly the live playback routes are live after the pass |
| `RouteSurvival.RouteThroughNonSelected` | tranc/Parser.cpp:1265-1293 | exactly the routes by selected hops are live after the pass |
| `RouteSurvival.RouteThroughUseless` | tranc/Parser.cpp:880-1002 | exactly the live routes of a wanted pin are live after the pass |
| `RouteSurvival.SharedEdgeKept` | tranc/Parser.cpp:1333-1410 | a connection between widgets of a common pin is cut exactly from a monitor into a recording mixer |
| `RouteSurvival.RouteThroughCross` | tranc/Parser.cpp:1313-1418 | exactly the live playback routes are live after the pass |
| `RouteSurvival.WalkThroughCross` | tranc/Parser.cpp:1313-1418 | a recording walk survives exactly when no monitor feeds a mixer on it |
| `RouteSurvival.MonitorCutsPin` | tranc/Parser.cpp:1333-1410 | a traced tree whose recording pin has a walk before the pass and none after it |
| `ParsePipeline.TrimmedKeeps` | tranc/Parser.cpp:243-252 | routes and walks through the five passes together: exactly the selected routes, exactly the unmonitored walks |
| `ParsePipeline.PruneTree` | tranc/Parser.cpp:243-252 | the five passes in order, each as specified, leave a stable configuration that keeps the tree and in which nothing crosses |
| `ParsePipeline.TrimmedOneWay` | tranc/Parser.cpp:243-252 | the connections the five passes leave run one way |
| `ParsePipeline.ParseAudioGroup` | tranc/Parser.cpp:233-252 | the whole parse in order: the greatest stable part, the table of its pins, the turns, the extra trace, the five passes |
| `ParsePipeline.TracedExactly` | tranc/Parser.cpp:1151-1186 | without patches an association is in use at the end exactly when the parse left it enabled and its turn could trace it |
| `ParsePipeline.PlaybackComplete` | tranc/Parser.cpp:233-252 | at the end the live routes of a playback pin are exactly those of the tree by selected hops; there is one to its DAC if every cycle runs through a pin complex |
| `ParsePipeline.RecordingComplete` | tranc/Parser.cpp:233-252 | all pins of a recording association share one ADC, and which walks of the tree are left |
| `ParsePipeline.RecordingWalk` | tranc/Parser.cpp:233-252 | which walks are left, said of the state before the extra trace |
| `ParsePipeline.BindingsSafe` | tranc/Parser.cpp:4641-4644 | every pin left is bound to an enabled association in range |
| `ParsePipeline.ControlsSilenced` | tranc/Parser.cpp:233-252 | every disabled control is silent, every enabled one amplifies something live |
| `ParsePipeline.EndSeparated` | tranc/Parser.cpp:233-252 | at the end an enabled connection of a widget of several inputs that is no mixer joins widgets of one association with a common pin, but for the pseudo association and what a monitor takes from a recording association |
| `ParsePipeline.EndAssociated` | tranc/Parser.cpp:233-252 | at the end only widgets that are bound and are no power widgets or volume knobs are enabled |
| `SelectedRoutes.LaterTurns` | tranc/Parser.cpp:1157-1180 | the turns of other associations leave the routes of an association as they are |
| `SelectedRoutes.PlaybackSelectedIff` | tranc/Parser.cpp:233-252 | on any graph: which playback associations end with a route by selected hops for every pin |
| `RecordedRoutes.FirstPinRecorded` | tranc/Parser.cpp:233-252 | on an acyclic graph without patches the first pin of a recording association has a walk to its ADC that follows the selections to the end of the parse, connected then unless a monitor feeds a mixer on it |
| `RecordedRoutes.SelectedInCodec` | tranc/Parser.cpp:2394-2449 | after the commit the codec has selected the hops of such a walk |
| `PcmDevices.AudioBindAssociation` | tranc/Parser.cpp:1846-1895 | enabled associations get consecutive channels in their order |
| `PcmDevices.BoundChannelsOk` | tranc/Parser.cpp:1884-1894 | no two associations share a channel |
| `PcmDevices.NewChannelOwned` | tranc/Parser.cpp:1884-1894 | every new channel belongs to an association |
| `PcmDevices.ClaimedExactly` | tranc/Parser.cpp:4358-4399 | a class has claimed exactly the larger of its recording and playback counts |
| `PcmDevices.SomeDeviceFits` | tranc/Parser.cpp:4376-4399 | first-fit never runs out of devices |
| `PcmDevices.PackedNext` | tranc/Parser.cpp:4376-4399 | placing an association keeps the packing |
| `PcmDevices.PcmsDone` | tranc/Parser.cpp:4339-4399 | no device ends empty, none mixes analog with digital |
| `PcmDevices.CreatePcms` | tranc/Parser.cpp:4339-4399 | every enabled association is in the device its channel names, nobody else is |
| `PcmDevices.DevicesCounted` | tranc/Parser.cpp:4339-4374 | the number of devices, as sizes of sets of associations |
| `PcmDevices.DevicesMean` | tranc/Parser.cpp:4376-4399 | which channel each device plays and records, in the fields |
| `PcmDevices.ChannelMeans` | tranc/Parser.cpp:4376-4399 | the device of each channel, in the fields |
| `Amplifiers.PayloadFields` | tranc/Parser.cpp:3962-3975 | the codec reads an amplifier payload as it was composed, but an index from 16 on as 16 less and for the right channel too |
| `Amplifiers.PayloadNumbers` | tranc/Parser.cpp:3962-3975 | payloads in the numbers of the HD Audio specification |
| `Amplifiers.AudioCtlAmpSetInternal` | tranc/Parser.cpp:3962-3975 | both channels of the amplifier the index reaches are set, no other |
| `Amplifiers.AudioCtlAmpSet` | tranc/Parser.cpp:3977-4012 | the codec holds what the control asks for |
| `CodecCommit.AudioCtlCommit` | tranc/Parser.cpp:2374-2392 | every control is committed and mirrored; `CodecCommit.AudioCommit` says what that is |
| `CodecCommit.WidgetConnectionSelect` | tranc/Parser.cpp:4071-4078 | a selection in range is sent and recorded |
| `CodecCommit.AudioCommit` | tranc/Parser.cpp:2394-2449 | amplifiers on both channels: an enabled control unmuted at the lesser of offset and step, muted at 0 if the mixer sets it or it is forced mute; a disabled one muted at 0, but opened if it is the output amplifier of a line-out, speaker or headphone pin; pin controls and selections as in the tables, an undecided one 0 |
| `CodecCommit.CommittedAmps` | tranc/Parser.cpp:2374-2429 | what the mirrored tables say of every amplifier, in numbers |
| `CodecCommit.CommitSilent` | tranc/Parser.cpp:2374-2392 | the records of disabled controls stay silent |
| `CodecCommit.DisabledAmpSilent` | tranc/Parser.cpp:2408-2429 | a disabled amplifier is silent in the codec exactly when it is not the output amplifier of a line-out, speaker or headphone pin |
| `CodecCommit.DisabledAmpHeard` | tranc/Parser.cpp:2408-2429 | a silenced speaker amplifier that is open at 0 dB |
| `JackSwitch.SetPinAudible` | tranc/Parser.cpp:4567-4588 | a pin is heard as asked, other control bits and other pins are untouched |
| `JackSwitch.HpSwitchHandler` | tranc/Parser.cpp:4546-4618 | the sensed pin is heard exactly when plugged, the other pins exactly when not |
| `MicSwitch.EnableWidget` | tranc/Parser.cpp:4405-4429 | one input of a mixer or selector is switched |
| `MicSwitch.LastWantedMeans` | tranc/Parser.cpp:4509-4526 | a selector ends on the last connection wanted |
| `MicSwitch.MicSwitchHandler` | tranc/Parser.cpp:4475-4542 | which mixer inputs are mute and where selectors stand after an input jack event |
| `SwitchPoll.EventFollows` | tranc/Parser.cpp:4633-4671 | an event of one association does not disturb what is heard or recorded in the others |
| `SwitchPoll.SwitchHandler` | tranc/Parser.cpp:4620-4676 | which pins fire, what is heard, what is recorded after one poll |
| `SwitchPoll.RunPolls` | tranc/Parser.cpp:4620-4676 | the same after any run of polls |
| `SwitchPoll.LastPinDecides` | tranc/Parser.cpp:4475-4676 | after any run the pin that fired last decides what is heard, and an input pin where mixers and selectors stand |
| `SwitchPoll.OneJackFollowed` | tranc/Parser.cpp:4546-4676 | with one sensing pin what is heard is what the jack says after every poll |
| `SwitchPoll.RunSilent` | tranc/Parser.cpp:4546-4676 | disabled controls are unchanged by any run, and their amplifiers silent in the codec exactly outside the opened ones |
| `JackFacts.HeardByMute` | tranc/Parser.cpp:4567-4588 | what being heard means for a pin whose first input control can mute, in the codec |
| `JackFacts.HeardByOutput` | tranc/Parser.cpp:4567-4588 | and for any other pin: bit 6 of its control word |
| `JackFacts.LastInRunIs` | tranc/Parser.cpp:4633-4671 | which pin fired last in a run, said of what was sensed |
| `JackFacts.RecordedMixer` | tranc/Parser.cpp:4475-4542 | when the input amplifier of a mixer is mute after an input jack event |
| `JackFacts.RecordedSelector` | tranc/Parser.cpp:4475-4542 | where a selector stands after it |
| `RecordSelect.AudioCtlRecSelComm` | tranc/Parser.cpp:4083-4147 | of every widget reached, a mixer's inputs are mute exactly where they carry no requested source, a selector stands on the first connection that does; nothing else changes; the answer is the sources of the channels it ends at |
| `RecordSelect.WidgetStaysDone` | tranc/Parser.cpp:4083-4147 | switching further paths leaves a switched widget as it is |
| `RecordSelect.MixerStaysDone` | tranc/Parser.cpp:4104-4124 | switching deeper paths, even back to the same mixer, does not undo what was asked |
| `RecordSelect.SelectionSilent` | tranc/Parser.cpp:4083-4147 | disabled controls are unchanged by record selection, their amplifiers as the commit left them |
| `JackFacts.RecReachesIff` | tranc/Parser.cpp:4083-4147 | record selection reaches a widget exactly over a path of connections taken, of at most ten hops |
| `JackFacts.SelectedMixer` | tranc/Parser.cpp:4104-4124 | the inputs of a mixer it reaches |
| `JackFacts.SelectedSelector` | tranc/Parser.cpp:4104-4124 | the connection a selector it reaches stands on |
| `JackFacts.AnswerIs` | tranc/Parser.cpp:4083-4147 | the answer: the sources of the mixer channels at the ends of such paths |
| `Driver.ParsedAssocsReady` | tranc/Parser.cpp:4641-4644 | the associations the parse leaves are what jack events index safely |
| `Driver.BindAndCreate` | tranc/Parser.cpp:1846-1895 | channels and devices of whatever the parse leaves |
| `Driver.Launch` | tranc/Parser.cpp:227-295 | from the nodes as read to any run of polls; devices are created exactly when the channels suffice and there is a device to create; the amplifiers as committed stand literally until the jacks move |
| `ConnectionList.NeverOverrun` | tranc/Parser.cpp:3333-3341 | no answer of the codec makes more than 32 connections |
| `ConnectionList.DecodeInvertsEncode` | tranc/Parser.cpp:3305-3343 | a short or long list with ranges is read as what it stands for, in order |
| `ConnectionList.WordsNotZero` | tranc/Parser.cpp:3306-3310 | the Intel patch never touches a word of a list of nonzero entries |
| `ConnectionList.ParsesEncoded` | tranc/Parser.cpp:3266-3354 | the same end to end, from the length answer to the connections |
| `ConnectionList.WidgetConnectionParse` | tranc/Parser.cpp:3266-3354 | the connections are those of the answers, all enabled and counted |
| `ConnectionList.ShortList` | tranc/Parser.cpp:3305-3343 | three node ids in one word, the first in the lowest byte, are read as these |
| `ConnectionList.ShortRange` | tranc/Parser.cpp:3318-3331 | an entry with bit 7 set is read as every node after the entry before it |
| `ConnectionList.LongList` | tranc/Parser.cpp:3305-3343 | three node ids of fifteen bits in two words are read as these |
| `SimdKernels.VectorLoop` | tranc/PCMBlitterLibX86.cpp:82-106 | whole vectors, aligned stores on 16-byte boundaries only |
| `SimdKernels.AdvanceAligns` | tranc/PCMBlitterLibX86.cpp:74-78 | the head steers the stores to a boundary and skips no more than it wrote |
| `SimdKernels.Kernel` | tranc/PCMBlitterLibX86.cpp:34-133 | for every length and natural alignment the output is the per-lane map and nothing else is written |
| `SimdKernels.Pack32ToLE24` | tranc/PCMBlitterLibX86.cpp:429-447 | bytes 1 to 3 of four words become twelve bytes |
| `SimdKernels.Kernel24` | tranc/PCMBlitterLibX86.cpp:450-549 | the same for the 24-bit kernel with its sixteen-byte stores |
| `SimdKernels.TriplesLaid` | tranc/PCMBlitterLibX86.cpp:450-549 | three bytes a sample, in order: the upper three of its result |
| `Pack24.FourPacked` | tranc/PCMBlitterLib.cpp:114-119 | three words in memory are four samples of three bytes |
| `Pack24.Pack` | tranc/PCMBlitterLib.cpp:90-190 | for every count the buffer holds the three-byte forms |
| `Pack24.FourSamples` | tranc/PCMBlitterLib.cpp:201-275 | three words are unpacked as the bytes read one by one |
| `Pack24.Unpack` | tranc/PCMBlitterLib.cpp:194-280 | how every sample is read, in both arms of the tail |
| `Pack24.RoundTrip` | tranc/PCMBlitterLib.cpp:90-280 | unpacking returns every packed sample in its endianness |
| `Pack24.OtherArm` | tranc/PCMBlitterLib.cpp:270-274 | the other arm reads right exactly when the outer bytes of the tail samples are equal |
| `Pack24.OtherArmFails` | tranc/PCMBlitterLib.cpp:14-15 | an input it misreads |
| `PipelinedConvert.FloatToInt` | tranc/PCMBlitterLib.h:192-274 | the pipelined loop is the one-sample loop for every count |
| `PipelinedConvert.IntToFloat` | tranc/PCMBlitterLib.h:304-388 | the same for the other direction |
| `Quantiser.CodeMonotone` | tranc/PCMBlitterLib.h:38-42 | a larger sample never gets a smaller code |
| `Quantiser.CodeUnclamped` | tranc/PCMBlitterLib.h:192-201 | the early clamp changes no code |
| `Quantiser.CodeRange` | tranc/PCMBlitterLib.h:38-42 | samples from -1 up get codes of the bit depth |
| `Quantiser.ErrorBound` | tranc/PCMBlitterLib.h:168-173 | the error is within half a step and one unit exactly up to the highest code |
| `Quantiser.FullScaleError` | tranc/PCMBlitterLib.h:168-173 | full scale at 24 bits is off by a whole step |
| `PinFields.DecodeInvertsEncode` | tools/edit_layout.py:57-80 | encoding masks every field and loses nothing else |
| `PinFields.EncodeInvertsDecode` | tools/edit_layout.py:57-80 | decoding loses nothing of a 32-bit value |
| `LayoutEditor.SetFieldSets` | tools/edit_layout.py:259-295 | the field is set, every other field stays |
| `LayoutEditor.CmdMove` | tools/edit_layout.py:207-256 | the pins with the moved pin at its place, or unchanged |
| `LayoutEditor.MovedPin` | tools/edit_layout.py:207-256 | a moved pin takes the sequence asked for or the lowest free one |
| `LayoutEditor.CmdSwap` | tools/edit_layout.py:326-369 | both pins change places, or nothing changes |
| `LayoutEditor.SwapTwice` | tools/edit_layout.py:326-369 | swapping twice gives the layout back |
| `LayoutEditor.DisabledPin` | tools/edit_layout.py:298-323 | a disabled pin has connectivity 1 and association and sequence 0, and keeps the rest |
| `LayoutEditor.SwappedPlaces` | tools/edit_layout.py:326-369 | swapped pins exchange association and sequence and keep the rest; every other pin stays |
| `LayoutEditor.SessionKeepsNodes` | tools/edit_layout.py:207-398 | no run of commands adds, drops or reorders a node |
| `PinVerbs.ParseVerbs` | tools/gen_pinconfigs.py:100-142 | the pins whose four bytes are present, by the last word for each byte, ascending; and the other verbs |
| `PinVerbs.EncodeConfigData` | tools/edit_layout.py:125-137 | four words a pin and the extra verbs, as bytes |
| `PinVerbs.ParseInvertsEncode` | tools/edit_layout.py:100-137 | parsing inverts encoding for ascending nodes at any codec address |
| `PinVerbs.ParsedPinsOk` | tools/gen_pinconfigs.py:130-141 | parsed pins are in ascending order of their nodes |
| `PinVerbs.SaveThenLoad` | tools/edit_layout.py:469-550 | what is loaded, edited and saved is loaded again as edited |
| `VerbNumbers.PinParsed` | tools/gen_pinconfigs.py:100-142 | a node is listed exactly when words with verbs 0x71C to 0x71F set its four bytes, with the last setting of each, in numbers |
| `VerbNumbers.ExtrasAre` | tools/gen_pinconfigs.py:100-142 | which other verbs are kept |
| `VerbNumbers.FourWordsRead` | tools/gen_pinconfigs.py:100-142 | the four words of one pin, in numbers, are read as that pin |
| `VerbNumbers.BytesRead` | tools/gen_pinconfigs.py:100-142 | so are its sixteen bytes |
| `VerbNumbers.FieldNumbers` | tools/edit_layout.py:57-80 | what the set command does to a configuration, by the places of its fields in the word |
| `PinTable.Flatten` | tools/gen_pinconfigs.py:176-222 | every index entry names the slice of its layout's pins |
| `PinTable.SortSorts` | tools/gen_pinconfigs.py:225-226 | the index is sorted and a permutation |
| `PinTable.AlcLookupPinConfig` | tranc/AppleALCPinConfigs.cpp:5199-5218 | an entry with the key, or none exactly when there is none |
| `PinTable.ScanSlice` | tranc/Parser.cpp:3498-3507 | the first pin of the slice with the node id |
| `PinTable.TablePinConfig` | tranc/Parser.cpp:3494-3508 | for unique keys the answer is what the layouts say |
| `PinTable.GenerateAndLookUp` | tools/gen_pinconfigs.py:176-226 | from the property list to the driver's answer |
| `PinTable.FirstPinIs` | tranc/Parser.cpp:3498-3507 | in a layout in ascending order the first pin with a node id is the pin |

## Left out

- Verb transport, interrupts, DMA, locking and memory: foreign code; verbs are a log, answers are parameters.
- Everything that only prints, logs or names: dumps, `SwitchHandlerRename`, the `dirty` and `activeNid` fields it uses.
- HDMI and DisplayPort handling, `switchInit` and the EAPD, GPIO and unsolicited-response verbs of the commit.
- `adjustPinAssociationsForSwitching`: it rewrites association and sequence of up to two pins; the parse is proved for any such rewriting of the low eight bits.
- `audioAssignMixers` and the mixer masks: the commit takes one flag a control that says whether the mixer will set it.
- `audioPreparePinCtrl`: the control words it chooses are parameters of `Driver.PreparePinCtrl`.
- ParsePipeline.ParseAudioGroup: with more than fifty associations the driver keeps the count but no table, and its later passes go by the count; in the model they go by the table, which is empty then.
- OutputAssociation.AudioTraceAssociationOut: one first-choice route is tried for each DAC, so failure means that no assignment by such routes exists, not that none exists at all.
- AssociationTurns.TurnTraceable: exactness is stated for groups without user patches; with a preset favourite or selection only soundness is.
- InputSelections.FirstPinSelected: on a graph with a cycle, and for the pins after the first, which of several walks the selections follow depends on the order of the traces and is left open.
- MonitorTrace.AudioTraceAssociationExtra: which of the mixers that lead out in more than ten hops become monitors depends on the order of the traces and is left open.
- ParsePipeline.PlaybackComplete: beep generators have no inputs, as the HD Audio specification has it.
- SwitchPoll.RunPolls: amplifier indices are below 32, the length of the connection table, and gains below 128, the width of the verb's field; no two controls reach the same amplifier of the codec.
- MicSwitch.MicSwitchHandler: the final state of a mixer input (in RecordSelect too) is stated for controls of one connection (`dir` In), the only ones audioCtlParse makes for mixers.
- SimdKernels.Kernel: rounding is not modelled, so nothing is said about scalar and vector paths agreeing; the two main loops that differ in the load instruction are one loop with a flag.
- Quantiser.Code: exact reals instead of doubles; samples below -1 overflow the conversion and get no range.
- PinTable.TablePinConfig: keys are unique and starts and counts fit the index fields; names of pins are left out.
- tranc/AppleAudioClip.cpp and tranc/AudioClip.cpp: other architectures and dead code.
