/** The codec graph: widgets, amplifier controls and pin associations of one
    audio function group, as the structures of tranc/Private.h hold them.

    The tables are arrays, as in the driver.  A pointer to a widget is that
    widget's node id.  Slot n of the widget table is node n; the slots below
    `startNode` stand for the nodes widgetGet answers NULL for, and every
    traversal treats NULL exactly like a disabled widget. */
module HdaGraph {

  /** HDA_PARSE_MAXDEPTH */
  const MAX_DEPTH: nat := 10

  /** HDA_MAX_CONNS */
  const MAX_CONNS: nat := 32

  /** Number of sequence slots in an association. */
  const PINS: nat := 16

  datatype Kind =
    | AudioOutput | AudioInput | Mixer | Selector | PinComplex
    | PowerWidget | VolumeKnob | BeepGenerator | VendorDefined

  /** HDA_CTL_IN and HDA_CTL_OUT; also the two bits of traceDir. */
  datatype Dir = In | Out

  /** A widget record.  `bindSeqMask` is the set of bit numbers that are set,
      `traceDir` the set of trace directions, `monitor` the HDA_ADC_MONITOR
      bit of pflags, `config` the 32-bit pin configuration default, `ctrl`
      the pin widget control word. */
  datatype Widget = Widget(
    kind: Kind,
    enable: bool,
    conns: seq<int>,
    connsenable: seq<bool>,
    connsenabled: int,
    selconn: int,
    bindAssoc: int,
    bindSeqMask: set<int>,
    traceDir: set<Dir>,
    monitor: bool,
    favoritDAC: int,
    config: nat,
    digitalCap: nat,
    senseCap: bool,
    ctrl: bv32,
    sense: int)

  /** An amplifier control.  `child` is the node id of childWidget, -1 for
      NULL; `mute` tells whether the amplifier can mute, `muted` is the pair of
      mute bits (left, right); `step` is the highest gain, `offset` the gain of
      0 dB. */
  datatype Control = Control(
    widget: nat,
    child: int,
    enable: bool,
    index: nat,
    dir: Dir,
    ndir: Dir,
    mute: bool,
    step: nat,
    offset: nat,
    forcemute: bool,
    muted: (bool, bool),
    left: int,
    right: int)

  /** An association of pins; pins and dacs have sixteen slots, 0 is "none". */
  datatype Assoc = Assoc(
    enable: bool,
    index: nat,
    dir: Dir,
    pincnt: nat,
    fakeredir: bool,
    digital: nat,
    hpredir: int,
    pins: seq<int>,
    dacs: seq<int>,
    chan: int,
    defaultPin: int,
    jackPin: int)

  // ----- Pin configuration default (HDA_CONFIG_DEFAULTCONF_*) -----

  function Sequence(config: nat): nat { config % 16 }

  function Association(config: nat): nat { config / 0x10 % 16 }

  function Misc(config: nat): nat { config / 0x100 % 16 }

  function Device(config: nat): nat { config / 0x10_0000 % 16 }

  function Connectivity(config: nat): nat { config / 0x4000_0000 % 4 }

  const CONNECTIVITY_NONE: nat := 1

  /** Line out, speaker, headphones, S/PDIF out, other digital out. */
  predicate IsOutputDevice(config: nat)
  {
    Device(config) in {0, 1, 2, 4, 5}
  }

  predicate IsHeadphones(config: nat)
  {
    Device(config) == 2
  }

  // ----- Reading the graph -----

  /** widgetGet(n) is not NULL and the widget is enabled. */
  predicate Live(ws: seq<Widget>, n: int)
  {
    0 <= n < |ws| && ws[n].enable
  }

  /** Connection i of w is in the list and enabled. */
  predicate Enabled(w: Widget, i: int)
  {
    0 <= i < |w.conns| && i < |w.connsenable| && w.connsenable[i]
  }

  function CountTrue(bs: seq<bool>): nat
  {
    if bs == [] then 0 else (if bs[0] then 1 else 0) + CountTrue(bs[1..])
  }

  lemma {:induction false} CountTrueClear(bs: seq<bool>, i: nat)
    requires i < |bs| && bs[i]
    ensures CountTrue(bs[i := false]) == CountTrue(bs) - 1
  {
    if i == 0 {
      assert bs[i := false][1..] == bs[1..];
    } else {
      assert bs[i := false][1..] == bs[1..][i - 1 := false];
      CountTrueClear(bs[1..], i - 1);
    }
  }

  lemma {:induction false} CountTruePositive(bs: seq<bool>)
    ensures CountTrue(bs) > 0 <==> exists i :: 0 <= i < |bs| && bs[i]
  {
    if bs != [] {
      CountTruePositive(bs[1..]);
      if i :| 0 <= i < |bs[1..]| && bs[1..][i] {
        assert bs[i + 1];
      }
      if i :| 0 <= i < |bs| && bs[i] {
        assert i == 0 || bs[1..][i - 1];
      }
    }
  }

  predicate WidgetOk(w: Widget)
  {
    && |w.conns| == |w.connsenable| <= MAX_CONNS
    && w.connsenabled == CountTrue(w.connsenable)
  }

  /** Node 0 is the root node, so a function group's nodes start later. */
  ghost predicate WidgetsOk(startNode: nat, ws: seq<Widget>)
  {
    && 1 <= startNode <= |ws|
    && (forall n :: 0 <= n < startNode ==> !ws[n].enable)
    && (forall n :: 0 <= n < |ws| ==> WidgetOk(ws[n]))
  }

  /** Only binding fields differ. */
  predicate SameStructure(w: Widget, w': Widget)
  {
    w' == w.(selconn := w'.selconn, traceDir := w'.traceDir, bindAssoc := w'.bindAssoc, bindSeqMask := w'.bindSeqMask)
  }

  predicate AllSameStructure(ws: seq<Widget>, ws': seq<Widget>)
  {
    |ws'| == |ws| && forall n :: 0 <= n < |ws| ==> SameStructure(ws[n], ws'[n])
  }

  lemma SameStructureOk(startNode: nat, ws: seq<Widget>, ws': seq<Widget>)
    requires WidgetsOk(startNode, ws) && AllSameStructure(ws, ws')
    ensures WidgetsOk(startNode, ws')
  {
  }

  /** What audioCtlParse establishes: a control that names a child amplifies
      the connection to that child. */
  predicate ControlOk(ws: seq<Widget>, c: Control)
  {
    && c.widget < |ws|
    && (c.child != -1 ==>
          && 0 <= c.child < |ws|
          && c.index < |ws[c.widget].conns|
          && ws[c.widget].conns[c.index] == c.child)
  }

  predicate AssocOk(a: Assoc)
  {
    |a.pins| == PINS && |a.dacs| == PINS
  }

  /** A function group after its nodes and controls have been read. */
  class FunctionGroup {
    const startNode: nat
    const widgets: array<Widget>
    const controls: array<Control>
    var assocs: array<Assoc>

    ghost predicate ValidWidgets()
      reads this, widgets
    {
      WidgetsOk(startNode, widgets[..])
    }

    ghost predicate ValidControls()
      reads this, widgets, controls
    {
      forall c :: 0 <= c < controls.Length ==> ControlOk(widgets[..], controls[c])
    }

    ghost predicate ValidAssocs()
      reads this, assocs
    {
      forall a :: 0 <= a < assocs.Length ==> AssocOk(assocs[a])
    }

    constructor (startNode: nat, widgets: array<Widget>, controls: array<Control>)
      ensures this.startNode == startNode && this.widgets == widgets && this.controls == controls
      ensures fresh(assocs) && assocs.Length == 0
    {
      this.startNode := startNode;
      this.widgets := widgets;
      this.controls := controls;
      this.assocs := new Assoc[0];
    }
  }
}
