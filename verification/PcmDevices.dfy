/** Channels and PCM devices: audioBindAssociation gives every enabled
    association a channel, createPcms packs the channels first-fit into
    devices of one playback and one recording channel. */
module PcmDevices {
  import opened HdaGraph

  /** A channel: its association, its direction, the device it ended in. */
  datatype Channel = Channel(assocNum: int, play: bool, pcmDevice: int)

  const UNCLAIMED: nat := 255

  /** A device; -1 is "no channel". */
  datatype PcmDevice = PcmDevice(digital: nat, playChan: int, recChan: int)

  // ----- Counting -----

  /** Enabled associations below n. */
  function EnabledBelow(assocs: seq<Assoc>, n: nat): nat
    requires n <= |assocs|
  {
    if n == 0 then 0 else EnabledBelow(assocs, n - 1) + if assocs[n - 1].enable then 1 else 0
  }

  predicate InClass(a: Assoc, digital: bool, dir: Dir)
  {
    a.enable && (a.digital != 0) == digital && a.dir == dir
  }

  /** Enabled associations below n of that class and direction. */
  function ClassBelow(assocs: seq<Assoc>, digital: bool, dir: Dir, n: nat): nat
    requires n <= |assocs|
  {
    if n == 0 then 0
    else ClassBelow(assocs, digital, dir, n - 1) + if InClass(assocs[n - 1], digital, dir) then 1 else 0
  }

  lemma {:induction false} ClassBelowGrows(assocs: seq<Assoc>, digital: bool, dir: Dir, n: nat, m: nat)
    requires n <= m <= |assocs|
    ensures ClassBelow(assocs, digital, dir, n) <= ClassBelow(assocs, digital, dir, m)
  {
    if n < m {
      ClassBelowGrows(assocs, digital, dir, n, m - 1);
    }
  }

  function Max(a: int, b: int): int { if a > b then a else b }

  /** Devices a class needs when it has seen the associations below n. */
  function ClassDevices(assocs: seq<Assoc>, digital: bool, n: nat): int
    requires n <= |assocs|
  {
    Max(ClassBelow(assocs, digital, In, n), ClassBelow(assocs, digital, Out, n))
  }

  predicate Claimed(d: PcmDevice, digital: bool)
  {
    d.digital != UNCLAIMED && (d.digital != 0) == digital
  }

  function ChanOf(d: PcmDevice, dir: Dir): int
  {
    if dir == In then d.recChan else d.playChan
  }

  predicate Occupied(d: PcmDevice, digital: bool, dir: Dir)
  {
    Claimed(d, digital) && ChanOf(d, dir) >= 0
  }

  function ClaimedCount(ds: seq<PcmDevice>, digital: bool): nat
  {
    if ds == [] then 0 else ClaimedCount(ds[1..], digital) + if Claimed(ds[0], digital) then 1 else 0
  }

  function OccupiedCount(ds: seq<PcmDevice>, digital: bool, dir: Dir): nat
  {
    if ds == [] then 0 else OccupiedCount(ds[1..], digital, dir) + if Occupied(ds[0], digital, dir) then 1 else 0
  }

  lemma {:induction false} CountsAfter(ds: seq<PcmDevice>, digital: bool, dir: Dir, j: nat, d: PcmDevice)
    requires j < |ds|
    ensures OccupiedCount(ds[j := d], digital, dir) + (if Occupied(ds[j], digital, dir) then 1 else 0)
            == OccupiedCount(ds, digital, dir) + if Occupied(d, digital, dir) then 1 else 0
  {
    if j == 0 {
      assert ds[j := d][1..] == ds[1..];
    } else {
      assert ds[j := d][1..] == ds[1..][j - 1 := d];
      CountsAfter(ds[1..], digital, dir, j - 1, d);
    }
  }

  lemma {:induction false} OccupiedIsClaimed(ds: seq<PcmDevice>, digital: bool, dir: Dir)
    ensures OccupiedCount(ds, digital, dir) <= ClaimedCount(ds, digital)
    ensures (forall j :: 0 <= j < |ds| && Claimed(ds[j], digital) ==> ChanOf(ds[j], dir) >= 0) ==>
              OccupiedCount(ds, digital, dir) == ClaimedCount(ds, digital)
  {
    if ds != [] {
      OccupiedIsClaimed(ds[1..], digital, dir);
      if forall j :: 0 <= j < |ds| && Claimed(ds[j], digital) ==> ChanOf(ds[j], dir) >= 0 {
        assert forall j :: 0 <= j < |ds[1..]| ==> ds[1..][j] == ds[j + 1];
      }
    }
  }

  lemma {:induction false} AllClaimed(ds: seq<PcmDevice>)
    ensures ClaimedCount(ds, false) + ClaimedCount(ds, true) <= |ds|
    ensures ClaimedCount(ds, false) + ClaimedCount(ds, true) == |ds| <==>
            forall j :: 0 <= j < |ds| ==> ds[j].digital != UNCLAIMED
  {
    if ds != [] {
      AllClaimed(ds[1..]);
      assert forall j :: 0 <= j < |ds| ==> j == 0 || ds[j] == ds[1..][j - 1];
      assert forall j :: 0 <= j < |ds[1..]| ==> ds[1..][j] == ds[j + 1];
    }
  }

  // ----- First fit -----

  /** No device of the class waits for a recording channel, or none waits for a
      playback channel. */
  predicate Balanced(ds: seq<PcmDevice>, digital: bool)
  {
    || (forall j :: 0 <= j < |ds| && Claimed(ds[j], digital) ==> ds[j].recChan >= 0)
    || (forall j :: 0 <= j < |ds| && Claimed(ds[j], digital) ==> ds[j].playChan >= 0)
  }

  predicate Tidy(d: PcmDevice)
  {
    if d.digital == UNCLAIMED then d.recChan == -1 && d.playChan == -1
    else d.recChan >= 0 || d.playChan >= 0
  }

  /** The devices after the associations below n. */
  ghost predicate Packed(assocs: seq<Assoc>, ds: seq<PcmDevice>, n: nat)
    requires n <= |assocs|
  {
    && (forall j :: 0 <= j < |ds| ==> Tidy(ds[j]))
    && (forall j, k :: 0 <= j < k < |ds| && ds[k].digital != UNCLAIMED ==> ds[j].digital != UNCLAIMED)
    && (forall digital :: Balanced(ds, digital))
    && (forall digital, dir :: OccupiedCount(ds, digital, dir) == ClassBelow(assocs, digital, dir, n))
  }

  /** A class has claimed exactly the devices it needs. */
  lemma ClaimedExactly(assocs: seq<Assoc>, ds: seq<PcmDevice>, n: nat, digital: bool)
    requires n <= |assocs| && Packed(assocs, ds, n)
    ensures ClaimedCount(ds, digital) == ClassDevices(assocs, digital, n)
  {
    OccupiedIsClaimed(ds, digital, In);
    OccupiedIsClaimed(ds, digital, Out);
    assert Balanced(ds, digital);
    assert OccupiedCount(ds, digital, In) == ClassBelow(assocs, digital, In, n);
    assert OccupiedCount(ds, digital, Out) == ClassBelow(assocs, digital, Out, n);
  }

  predicate Fits(d: PcmDevice, a: Assoc)
  {
    && !(d.digital != UNCLAIMED && (d.digital == 0) != (a.digital == 0))
    && ChanOf(d, a.dir) < 0
  }

  /** With as many devices as createPcms allocates there is always a fit. */
  lemma SomeDeviceFits(assocs: seq<Assoc>, ds: seq<PcmDevice>, n: nat)
    requires n < |assocs| && assocs[n].enable && Packed(assocs, ds, n)
    requires |ds| == ClassDevices(assocs, false, |assocs|) + ClassDevices(assocs, true, |assocs|)
    ensures exists j :: 0 <= j < |ds| && Fits(ds[j], assocs[n])
  {
    if forall j :: 0 <= j < |ds| ==> !Fits(ds[j], assocs[n]) {
      var mine, dir := assocs[n].digital != 0, assocs[n].dir;
      forall j | 0 <= j < |ds|
        ensures ds[j].digital != UNCLAIMED && (Claimed(ds[j], mine) ==> ChanOf(ds[j], dir) >= 0)
      {
        assert Tidy(ds[j]);
      }
      AllClaimed(ds);
      OccupiedIsClaimed(ds, mine, dir);
      assert OccupiedCount(ds, mine, dir) == ClassBelow(assocs, mine, dir, n);
      ClassBelowGrows(assocs, mine, dir, n + 1, |assocs|);
      ClaimedExactly(assocs, ds, n, !mine);
      ClassBelowGrows(assocs, !mine, In, n, |assocs|);
      ClassBelowGrows(assocs, !mine, Out, n, |assocs|);
      assert false;
    }
  }

  function Take(d: PcmDevice, a: Assoc): PcmDevice
  {
    if a.dir == In then d.(recChan := a.chan, digital := a.digital) else d.(playChan := a.chan, digital := a.digital)
  }

  lemma PackedNext(assocs: seq<Assoc>, ds: seq<PcmDevice>, n: nat, j: nat, next: nat)
    requires n < |assocs| && next == n + 1 && assocs[n].enable && assocs[n].digital != UNCLAIMED && assocs[n].chan >= 0
    requires Packed(assocs, ds, n) && j < |ds| && Fits(ds[j], assocs[n])
    requires forall k :: 0 <= k < j ==> !Fits(ds[k], assocs[n])
    ensures Packed(assocs, ds[j := Take(ds[j], assocs[n])], next)
  {
    var a := assocs[n];
    var ds' := ds[j := Take(ds[j], a)];
    forall k | 0 <= k < j ensures ds[k].digital != UNCLAIMED {
      assert Tidy(ds[k]) && !Fits(ds[k], a);
    }
    assert Tidy(ds[j]);
    forall digital ensures Balanced(ds', digital) {
      assert Balanced(ds, digital);
    }
    forall digital, dir ensures OccupiedCount(ds', digital, dir) == ClassBelow(assocs, digital, dir, next) {
      CountsAfter(ds, digital, dir, j, Take(ds[j], a));
    }
  }

  // ----- Who is where -----

  /** Association a sits in the device its channel names. */
  predicate PlacedAt(a: Assoc, ds: seq<PcmDevice>, chs: seq<Channel>)
  {
    && 0 <= a.chan < |chs| && 0 <= chs[a.chan].pcmDevice < |ds|
    && Claimed(ds[chs[a.chan].pcmDevice], a.digital != 0)
    && ChanOf(ds[chs[a.chan].pcmDevice], a.dir) == a.chan
  }

  /** Association number k is the one whose channel device d has for dir. */
  predicate Occupant(assocs: seq<Assoc>, n: nat, d: PcmDevice, dir: Dir, k: nat)
    requires n <= |assocs|
  {
    k < n && InClass(assocs[k], d.digital != 0, dir) && assocs[k].chan == ChanOf(d, dir)
  }

  /** The enabled associations below n have their places, and nobody else. */
  ghost predicate Placed(assocs: seq<Assoc>, ds: seq<PcmDevice>, chs: seq<Channel>, n: nat)
    requires n <= |assocs|
  {
    && (forall a :: 0 <= a < n && assocs[a].enable ==> PlacedAt(assocs[a], ds, chs))
    && (forall j, dir :: 0 <= j < |ds| && ChanOf(ds[j], dir) >= 0 ==> exists k :: Occupant(assocs, n, ds[j], dir, k))
  }

  /** The enabled associations have channels of their own. */
  predicate ChannelsOk(assocs: seq<Assoc>, channels: nat)
  {
    && (forall a :: 0 <= a < |assocs| && assocs[a].enable ==>
         0 <= assocs[a].chan < channels && assocs[a].digital != UNCLAIMED)
    && (forall a, b :: 0 <= a < b < |assocs| && assocs[a].enable && assocs[b].enable ==>
         assocs[a].chan != assocs[b].chan)
  }

  lemma PlacedNext(assocs: seq<Assoc>, ds: seq<PcmDevice>, chs: seq<Channel>, n: nat, j: nat, next: nat)
    requires n < |assocs| && next == n + 1 && assocs[n].enable && ChannelsOk(assocs, |chs|)
    requires Placed(assocs, ds, chs, n) && j < |ds| && Fits(ds[j], assocs[n])
    requires forall k :: 0 <= k < |ds| ==> Tidy(ds[k])
    ensures Placed(assocs, ds[j := Take(ds[j], assocs[n])],
                   chs[assocs[n].chan := chs[assocs[n].chan].(pcmDevice := j)], next)
  {
    var a := assocs[n];
    var ds', chs' := ds[j := Take(ds[j], a)], chs[a.chan := chs[a.chan].(pcmDevice := j)];
    assert Tidy(ds[j]);
    forall b | 0 <= b < next && assocs[b].enable ensures PlacedAt(assocs[b], ds', chs') {
      if b < n {
        assert PlacedAt(assocs[b], ds, chs);
      }
    }
    forall k, dir | 0 <= k < |ds'| && ChanOf(ds'[k], dir) >= 0
      ensures exists b :: Occupant(assocs, next, ds'[k], dir, b)
    {
      if k == j && dir == a.dir {
        assert Occupant(assocs, next, ds'[k], dir, n);
      } else {
        assert ChanOf(ds[k], dir) >= 0;
        var b :| Occupant(assocs, n, ds[k], dir, b);
        assert Occupant(assocs, next, ds'[k], dir, b);
      }
    }
  }

  // ----- The tables of the driver -----

  class PcmTables {
    var channels: array<Channel>
    var devices: array<PcmDevice>

    constructor ()
      ensures fresh(channels) && fresh(devices) && channels.Length == 0 && devices.Length == 0
    {
      channels := new Channel[0];
      devices := new PcmDevice[0];
    }
  }

  const MAX_CHANNELS: nat := 50

  /** Association j with its channel. */
  function WithChannel(assocs: seq<Assoc>, channels: nat, j: nat): Assoc
    requires j < |assocs|
  {
    if assocs[j].enable then assocs[j].(chan := channels + EnabledBelow(assocs, j)) else assocs[j]
  }

  /** What audioBindAssociation does: the enabled associations get, in their
      order, the channels after those already there. */
  ghost predicate ChannelsBound(as0: seq<Assoc>, as1: seq<Assoc>, chs0: seq<Channel>, chs1: seq<Channel>, n: nat)
    requires n <= |as0|
  {
    && |as1| == |as0| && |chs1| == |chs0| + EnabledBelow(as0, |as0|)
    && chs1[..|chs0|] == chs0
    && (forall j :: 0 <= j < n ==> as1[j] == WithChannel(as0, |chs0|, j))
    && (forall j :: n <= j < |as0| ==> as1[j] == as0[j])
    && (forall j :: 0 <= j < n && as0[j].enable ==>
          0 <= as1[j].chan < |chs1| && chs1[as1[j].chan] == Channel(j, as0[j].dir == Out, -1))
  }

  lemma {:induction false} EnabledBelowGrows(assocs: seq<Assoc>, n: nat, m: nat)
    requires n <= m <= |assocs|
    ensures EnabledBelow(assocs, n) <= EnabledBelow(assocs, m)
    ensures n < m && assocs[n].enable ==> EnabledBelow(assocs, n) < EnabledBelow(assocs, m)
  {
    if n < m {
      EnabledBelowGrows(assocs, n, m - 1);
    }
  }

  method CountEnabledAssocs(fg: FunctionGroup) returns (cnt: nat)
    ensures cnt == EnabledBelow(fg.assocs[..], fg.assocs.Length)
  {
    cnt := 0;
    var j := 0;
    while j < fg.assocs.Length
      invariant 0 <= j <= fg.assocs.Length
      invariant cnt == EnabledBelow(fg.assocs[..], j)
    {
      if fg.assocs[j].enable {
        cnt := cnt + 1;
      }
      j := j + 1;
    }
  }

  lemma ChannelBound(as0: seq<Assoc>, as1: seq<Assoc>, chs0: seq<Channel>, chs1: seq<Channel>, n: nat, chan: int,
                     next: nat)
    requires n < |as0| && next == n + 1 && ChannelsBound(as0, as1, chs0, chs1, n)
    requires chan == |chs0| + EnabledBelow(as0, n)
    ensures !as0[n].enable ==> ChannelsBound(as0, as1, chs0, chs1, next)
    ensures as0[n].enable ==> chan < |chs1|
    ensures as0[n].enable ==>
              ChannelsBound(as0, as1[n := as1[n].(chan := chan)], chs0, chs1[chan := Channel(n, as0[n].dir == Out, -1)],
                            next)
  {
    if as0[n].enable {
      EnabledBelowGrows(as0, n, |as0|);
      ChannelTaken(as0, as1, chs0, chs1, n, chan, next);
    }
  }

  lemma ChannelTaken(as0: seq<Assoc>, as1: seq<Assoc>, chs0: seq<Channel>, chs1: seq<Channel>, n: nat, chan: int,
                     next: nat)
    requires n < |as0| && next == n + 1 && ChannelsBound(as0, as1, chs0, chs1, n) && as0[n].enable
    requires chan == |chs0| + EnabledBelow(as0, n) && chan < |chs1|
    ensures ChannelsBound(as0, as1[n := as1[n].(chan := chan)], chs0,
                          chs1[chan := Channel(n, as0[n].dir == Out, -1)], next)
  {
    var as2, chs2 := as1[n := as1[n].(chan := chan)], chs1[chan := Channel(n, as0[n].dir == Out, -1)];
    StartKept(chs0, chs1, chan, Channel(n, as0[n].dir == Out, -1));
    forall j | 0 <= j < n && as0[j].enable
      ensures 0 <= as2[j].chan < |chs2| && chs2[as2[j].chan] == Channel(j, as0[j].dir == Out, -1)
    {
      EnabledBelowGrows(as0, j, n);
      assert as1[j] == WithChannel(as0, |chs0|, j);
    }
  }

  lemma StartKept(chs0: seq<Channel>, chs1: seq<Channel>, chan: int, c: Channel)
    requires |chs0| <= chan < |chs1| && chs1[..|chs0|] == chs0
    ensures chs1[chan := c][..|chs0|] == chs0
  {
  }

  /** audioBindAssociation. */
  method AudioBindAssociation(fg: FunctionGroup, tables: PcmTables) returns (ok: bool)
    modifies fg.assocs, tables
    ensures ok <==> EnabledBelow(old(fg.assocs[..]), fg.assocs.Length) <= MAX_CHANNELS
    ensures !ok ==> fg.assocs[..] == old(fg.assocs[..]) && tables.channels == old(tables.channels)
    ensures tables.devices == old(tables.devices)
    ensures ok ==> fresh(tables.channels)
    ensures ok ==>
              ChannelsBound(old(fg.assocs[..]), fg.assocs[..], old(tables.channels[..]), tables.channels[..],
                            fg.assocs.Length)
  {
    ghost var as0, chs0 := fg.assocs[..], tables.channels[..];
    var cnt := CountEnabledAssocs(fg);
    if cnt > MAX_CHANNELS {
      return false;
    }
    var first := tables.channels.Length;
    var before := tables.channels;
    var channels := new Channel[first + cnt](i requires 0 <= i < first + cnt reads before =>
      if i < before.Length then before[i] else Channel(-1, false, -1));
    assert channels[..first] == chs0;
    var j := 0;
    while j < fg.assocs.Length
      invariant 0 <= j <= fg.assocs.Length
      invariant ChannelsBound(as0, fg.assocs[..], chs0, channels[..], j)
      invariant first == |chs0| + EnabledBelow(as0, j)
      invariant tables.devices == old(tables.devices)
    {
      ghost var as1, chs1, k, chan := fg.assocs[..], channels[..], j, first;
      if fg.assocs[j].enable {
        EnabledBelowGrows(as0, j, |as0|);
        fg.assocs[j] := fg.assocs[j].(chan := first);
        channels[first] := Channel(j, fg.assocs[j].dir == Out, -1);
        first := first + 1;
      }
      j := j + 1;
      ChannelBound(as0, as1, chs0, chs1, k, chan, j);
    }
    tables.channels := channels;
    return true;
  }

  /** The channels bound are distinct. */
  lemma BoundChannelsOk(as0: seq<Assoc>, as1: seq<Assoc>, chs0: seq<Channel>, chs1: seq<Channel>)
    requires ChannelsBound(as0, as1, chs0, chs1, |as0|)
    requires forall a :: 0 <= a < |as0| ==> as0[a].digital != UNCLAIMED
    ensures ChannelsOk(as1, |chs1|)
  {
    forall a, b | 0 <= a < b < |as0| && as0[a].enable && as0[b].enable ensures as1[a].chan != as1[b].chan {
      EnabledBelowGrows(as0, a, b);
    }
  }

  /** Every new channel has its owner. */
  lemma NewChannelOwned(as0: seq<Assoc>, as1: seq<Assoc>, chs0: seq<Channel>, chs1: seq<Channel>, c: nat)
    returns (j: nat)
    requires ChannelsBound(as0, as1, chs0, chs1, |as0|) && |chs0| <= c < |chs1|
    ensures j < |as1| && as1[j].enable && as1[j].chan == c && chs1[c].assocNum == j
  {
    j := OwnerOf(as0, c - |chs0|, |as0|);
    assert as1[j] == WithChannel(as0, |chs0|, j);
  }

  lemma {:induction false} OwnerOf(assocs: seq<Assoc>, k: nat, n: nat) returns (j: nat)
    requires n <= |assocs| && k < EnabledBelow(assocs, n)
    ensures j < n && assocs[j].enable && EnabledBelow(assocs, j) == k
  {
    if k < EnabledBelow(assocs, n - 1) {
      j := OwnerOf(assocs, k, n - 1);
    } else {
      j := n - 1;
    }
  }

  // ----- createPcms -----

  function NumPcmDevices(assocs: seq<Assoc>): nat
  {
    ClassDevices(assocs, false, |assocs|) + ClassDevices(assocs, true, |assocs|)
  }

  method CountClasses(fg: FunctionGroup) returns (analogPlay: nat, analogRec: nat, digitalPlay: nat, digitalRec: nat)
    ensures analogPlay == ClassBelow(fg.assocs[..], false, Out, fg.assocs.Length)
    ensures analogRec == ClassBelow(fg.assocs[..], false, In, fg.assocs.Length)
    ensures digitalPlay == ClassBelow(fg.assocs[..], true, Out, fg.assocs.Length)
    ensures digitalRec == ClassBelow(fg.assocs[..], true, In, fg.assocs.Length)
  {
    analogPlay, analogRec, digitalPlay, digitalRec := 0, 0, 0, 0;
    var i := 0;
    while i < fg.assocs.Length
      invariant 0 <= i <= fg.assocs.Length
      invariant analogPlay == ClassBelow(fg.assocs[..], false, Out, i)
      invariant analogRec == ClassBelow(fg.assocs[..], false, In, i)
      invariant digitalPlay == ClassBelow(fg.assocs[..], true, Out, i)
      invariant digitalRec == ClassBelow(fg.assocs[..], true, In, i)
    {
      if fg.assocs[i].enable {
        if fg.assocs[i].dir == In {
          if fg.assocs[i].digital != 0 {
            digitalRec := digitalRec + 1;
          } else {
            analogRec := analogRec + 1;
          }
        } else {
          if fg.assocs[i].digital != 0 {
            digitalPlay := digitalPlay + 1;
          } else {
            analogPlay := analogPlay + 1;
          }
        }
      }
      i := i + 1;
    }
  }

  /** The inner loop: the first device that fits, if any, takes the channel. */
  method PlaceChannel(a: Assoc, devices: array<PcmDevice>, channels: array<Channel>) returns (j: nat)
    requires 0 <= a.chan < channels.Length
    modifies devices, channels
    ensures j <= devices.Length
    ensures forall k :: 0 <= k < j ==> !Fits(old(devices[k]), a)
    ensures j == devices.Length ==> devices[..] == old(devices[..]) && channels[..] == old(channels[..])
    ensures j < devices.Length ==> Fits(old(devices[j]), a)
    ensures j < devices.Length ==> devices[..] == old(devices[..])[j := Take(old(devices[j]), a)]
    ensures j < devices.Length ==> channels[..] == old(channels[..])[a.chan := old(channels[a.chan]).(pcmDevice := j)]
  {
    j := 0;
    while j < devices.Length
      invariant 0 <= j <= devices.Length
      invariant forall k :: 0 <= k < j ==> !Fits(devices[k], a)
      invariant devices[..] == old(devices[..]) && channels[..] == old(channels[..])
    {
      var d := devices[j];
      if !(d.digital != UNCLAIMED && (d.digital == 0) != (a.digital == 0)) {
        if a.dir == In && d.recChan < 0 {
          devices[j] := d.(recChan := a.chan, digital := a.digital);
          channels[a.chan] := channels[a.chan].(pcmDevice := j);
          return;
        }
        if a.dir == Out && d.playChan < 0 {
          devices[j] := d.(playChan := a.chan, digital := a.digital);
          channels[a.chan] := channels[a.chan].(pcmDevice := j);
          return;
        }
      }
      j := j + 1;
    }
  }

  /** createPcms has packed and placed the associations below n. */
  ghost predicate PcmsUpTo(assocs: seq<Assoc>, ds: seq<PcmDevice>, chs: seq<Channel>, n: nat)
  {
    n <= |assocs| && |ds| == NumPcmDevices(assocs) && Packed(assocs, ds, n) && Placed(assocs, ds, chs, n)
  }

  lemma PcmsStart(assocs: seq<Assoc>, ds: seq<PcmDevice>, chs: seq<Channel>)
    requires |ds| == NumPcmDevices(assocs)
    requires forall j :: 0 <= j < |ds| ==> ds[j] == PcmDevice(UNCLAIMED, -1, -1)
    ensures PcmsUpTo(assocs, ds, chs, 0)
  {
    forall digital, dir ensures OccupiedCount(ds, digital, dir) == 0 {
      NoneOccupied(ds, digital, dir);
    }
  }

  lemma {:induction false} NoneOccupied(ds: seq<PcmDevice>, digital: bool, dir: Dir)
    requires forall j :: 0 <= j < |ds| ==> ds[j] == PcmDevice(UNCLAIMED, -1, -1)
    ensures OccupiedCount(ds, digital, dir) == 0
  {
    if ds != [] {
      NoneOccupied(ds[1..], digital, dir);
    }
  }

  lemma PcmsSkip(assocs: seq<Assoc>, ds: seq<PcmDevice>, chs: seq<Channel>, n: nat, next: nat)
    requires PcmsUpTo(assocs, ds, chs, n) && n < |assocs| && next == n + 1 && !assocs[n].enable
    ensures PcmsUpTo(assocs, ds, chs, next)
  {
    forall j, dir | 0 <= j < |ds| && ChanOf(ds[j], dir) >= 0 ensures exists k :: Occupant(assocs, next, ds[j], dir, k) {
      var k :| Occupant(assocs, n, ds[j], dir, k);
      assert Occupant(assocs, next, ds[j], dir, k);
    }
  }

  lemma PcmsStep(assocs: seq<Assoc>, ds: seq<PcmDevice>, chs: seq<Channel>, n: nat, j: nat, ds': seq<PcmDevice>,
                 chs': seq<Channel>, next: nat)
    requires PcmsUpTo(assocs, ds, chs, n) && n < |assocs| && next == n + 1
    requires assocs[n].enable && ChannelsOk(assocs, |chs|)
    requires j <= |ds| && (forall k :: 0 <= k < j ==> !Fits(ds[k], assocs[n]))
    requires j < |ds| ==> Fits(ds[j], assocs[n]) && ds' == ds[j := Take(ds[j], assocs[n])]
    requires j < |ds| ==> chs' == chs[assocs[n].chan := chs[assocs[n].chan].(pcmDevice := j)]
    ensures j < |ds| && PcmsUpTo(assocs, ds', chs', next)
  {
    SomeDeviceFits(assocs, ds, n);
    PackedNext(assocs, ds, n, j, next);
    PlacedNext(assocs, ds, chs, n, j, next);
  }

  /** What createPcms leaves: every enabled association is in the device its
      channel names, no device has a channel of anybody else, mixes analog
      with digital, or stays empty. */
  ghost predicate PcmsCreated(assocs: seq<Assoc>, ds: seq<PcmDevice>, chs: seq<Channel>)
  {
    && |ds| == NumPcmDevices(assocs)
    && Placed(assocs, ds, chs, |assocs|)
    && (forall j :: 0 <= j < |ds| ==> ds[j].digital != UNCLAIMED && (ds[j].recChan >= 0 || ds[j].playChan >= 0))
    && (forall digital :: ClaimedCount(ds, digital) == ClassDevices(assocs, digital, |assocs|))
  }

  lemma PcmsDone(assocs: seq<Assoc>, ds: seq<PcmDevice>, chs: seq<Channel>)
    requires PcmsUpTo(assocs, ds, chs, |assocs|)
    ensures PcmsCreated(assocs, ds, chs)
  {
    ClaimedExactly(assocs, ds, |assocs|, false);
    ClaimedExactly(assocs, ds, |assocs|, true);
    AllClaimed(ds);
    forall digital ensures ClaimedCount(ds, digital) == ClassDevices(assocs, digital, |assocs|) {
      ClaimedExactly(assocs, ds, |assocs|, digital);
    }
    forall j | 0 <= j < |ds| ensures ds[j].digital != UNCLAIMED && (ds[j].recChan >= 0 || ds[j].playChan >= 0) {
      assert Tidy(ds[j]);
    }
  }

  /** createPcms. */
  method CreatePcms(fg: FunctionGroup, tables: PcmTables) returns (ok: bool)
    requires ChannelsOk(fg.assocs[..], tables.channels.Length)
    modifies tables`devices, tables.channels
    ensures ok <==> NumPcmDevices(fg.assocs[..]) > 0
    ensures !ok ==> tables.devices == old(tables.devices) && tables.channels[..] == old(tables.channels[..])
    ensures ok ==> fresh(tables.devices) && PcmsCreated(fg.assocs[..], tables.devices[..], tables.channels[..])
    ensures forall c :: 0 <= c < tables.channels.Length ==>
              tables.channels[c] == old(tables.channels[c]).(pcmDevice := tables.channels[c].pcmDevice)
  {
    ghost var assocs := fg.assocs[..];
    var analogPlay, analogRec, digitalPlay, digitalRec := CountClasses(fg);
    var num := Max(analogRec, analogPlay) + Max(digitalRec, digitalPlay);
    if num == 0 {
      return false;
    }
    var devices := new PcmDevice[num](_ => PcmDevice(UNCLAIMED, -1, -1));
    PcmsStart(assocs, devices[..], tables.channels[..]);
    PlaceAll(fg, devices, tables.channels);
    tables.devices := devices;
    PcmsDone(assocs, devices[..], tables.channels[..]);
    return true;
  }

  method PlaceAll(fg: FunctionGroup, devices: array<PcmDevice>, channels: array<Channel>)
    requires ChannelsOk(fg.assocs[..], channels.Length)
    requires PcmsUpTo(fg.assocs[..], devices[..], channels[..], 0)
    modifies devices, channels
    ensures PcmsUpTo(fg.assocs[..], devices[..], channels[..], fg.assocs.Length)
    ensures forall c :: 0 <= c < channels.Length ==>
              channels[c] == old(channels[c]).(pcmDevice := channels[c].pcmDevice)
  {
    ghost var assocs := fg.assocs[..];
    var i := 0;
    while i < fg.assocs.Length
      invariant 0 <= i <= fg.assocs.Length
      invariant PcmsUpTo(assocs, devices[..], channels[..], i)
      invariant forall c :: 0 <= c < channels.Length ==>
                channels[c] == old(channels[c]).(pcmDevice := channels[c].pcmDevice)
    {
      ghost var ds, chs, k := devices[..], channels[..], i;
      if fg.assocs[i].enable {
        var j := PlaceChannel(fg.assocs[i], devices, channels);
        i := i + 1;
        PcmsStep(assocs, ds, chs, k, j, devices[..], channels[..], i);
      } else {
        i := i + 1;
        PcmsSkip(assocs, ds, chs, k, i);
      }
    }
  }

  // ----- Devices and channels in the fields -----

  /** The enabled associations below n, analog or not, of one direction. */
  ghost function Members(assocs: seq<Assoc>, analog: bool, dir: Dir, n: nat): set<int>
    requires n <= |assocs|
  {
    set a | 0 <= a < n && assocs[a].enable && (assocs[a].digital == 0) == analog && assocs[a].dir == dir
  }

  lemma {:induction false} MembersCounted(assocs: seq<Assoc>, analog: bool, dir: Dir, n: nat)
    requires n <= |assocs|
    ensures |Members(assocs, analog, dir, n)| == ClassBelow(assocs, !analog, dir, n)
  {
    if n == 0 {
      assert Members(assocs, analog, dir, n) == {};
    } else {
      MembersCounted(assocs, analog, dir, n - 1);
      MembersNext(assocs, analog, dir, n - 1, n);
    }
  }

  lemma MembersNext(assocs: seq<Assoc>, analog: bool, dir: Dir, n: nat, next: nat)
    requires n < |assocs| && next == n + 1
    ensures n !in Members(assocs, analog, dir, n)
    ensures Members(assocs, analog, dir, next) ==
            Members(assocs, analog, dir, n) + if InClass(assocs[n], !analog, dir) then {n} else {}
  {
  }

  /** There are as many devices as the larger of the playback and the recording
      associations, counted for analog and for digital ones. */
  lemma DevicesCounted(assocs: seq<Assoc>)
    ensures var n := |assocs|;
            var ap, ar := |Members(assocs, true, Out, n)|, |Members(assocs, true, In, n)|;
            var dp, dr := |Members(assocs, false, Out, n)|, |Members(assocs, false, In, n)|;
            NumPcmDevices(assocs) == (if ap > ar then ap else ar) + if dp > dr then dp else dr
  {
    MembersCounted(assocs, true, Out, |assocs|);
    MembersCounted(assocs, true, In, |assocs|);
    MembersCounted(assocs, false, Out, |assocs|);
    MembersCounted(assocs, false, In, |assocs|);
  }

  /** The channel is that of the device for the direction of the association, and
      both are analog or neither is. */
  predicate SitsIn(a: Assoc, d: PcmDevice)
  {
    (if a.dir == In then d.recChan == a.chan else d.playChan == a.chan) && d.digital != 255
    && (d.digital == 0 <==> a.digital == 0)
  }

  /** Who sits where: every enabled association in the device its channel names,
      and in every channel of a device an enabled association of its direction. */
  lemma DevicesMean(assocs: seq<Assoc>, ds: seq<PcmDevice>, chs: seq<Channel>)
    requires PcmsCreated(assocs, ds, chs)
    ensures forall a :: 0 <= a < |assocs| && assocs[a].enable ==>
              && 0 <= assocs[a].chan < |chs| && 0 <= chs[assocs[a].chan].pcmDevice < |ds|
              && SitsIn(assocs[a], ds[chs[assocs[a].chan].pcmDevice])
    ensures forall j :: 0 <= j < |ds| ==> ds[j].recChan >= 0 || ds[j].playChan >= 0
    ensures forall j :: 0 <= j < |ds| && ds[j].recChan >= 0 ==>
              exists a :: 0 <= a < |assocs| && assocs[a].enable && assocs[a].dir == In && SitsIn(assocs[a], ds[j])
    ensures forall j :: 0 <= j < |ds| && ds[j].playChan >= 0 ==>
              exists a :: 0 <= a < |assocs| && assocs[a].enable && assocs[a].dir == Out && SitsIn(assocs[a], ds[j])
  {
    forall j | 0 <= j < |ds| && ds[j].recChan >= 0
      ensures exists a :: 0 <= a < |assocs| && assocs[a].enable && assocs[a].dir == In && SitsIn(assocs[a], ds[j])
    {
      assert ChanOf(ds[j], In) >= 0;
      var k :| Occupant(assocs, |assocs|, ds[j], In, k);
    }
    forall j | 0 <= j < |ds| && ds[j].playChan >= 0
      ensures exists a :: 0 <= a < |assocs| && assocs[a].enable && assocs[a].dir == Out && SitsIn(assocs[a], ds[j])
    {
      assert ChanOf(ds[j], Out) >= 0;
      var k :| Occupant(assocs, |assocs|, ds[j], Out, k);
    }
  }

  /** The channel of an association is the number of enabled ones before it, after
      the channels there were; and its record says playback exactly for output. */
  lemma ChannelMeans(as0: seq<Assoc>, as1: seq<Assoc>, chs0: seq<Channel>, chs1: seq<Channel>, a: nat)
    requires ChannelsBound(as0, as1, chs0, chs1, |as0|) && a < |as0| && as0[a].enable
    ensures |as1| == |as0| && as1[a] == as0[a].(chan := |chs0| + |set k | 0 <= k < a && as0[k].enable|)
    ensures 0 <= as1[a].chan < |chs1| && chs1[as1[a].chan] == Channel(a, as0[a].dir == Out, -1)
  {
    EnabledCounted(as0, a);
  }

  lemma {:induction false} EnabledCounted(assocs: seq<Assoc>, n: nat)
    requires n <= |assocs|
    ensures |set k | 0 <= k < n && assocs[k].enable| == EnabledBelow(assocs, n)
  {
    var below := set k | 0 <= k < n && assocs[k].enable;
    if n == 0 {
      assert below == {};
    } else {
      EnabledCounted(assocs, n - 1);
      assert below == (set k | 0 <= k < n - 1 && assocs[k].enable) + if assocs[n - 1].enable then {n - 1} else {};
    }
  }
}
