/** `SSNManageModule` (SSNManageModule.cpp): a supernode fetches its channel
    list once a minute and keeps every listed channel open through the pool.
    The model covers the configuration URL it fetches from and the
    replacement of the open handles by those of a freshly fetched list: the
    new channels are started before the old handles are given back. */
module SsnManage {
  import opened Common
  import opened Decimal
  import opened LiveManagerTypes
  import opened PoolModel
  import opened PoolInvariant
  import opened PoolOps
  import opened SsnChannel
  import LiveManager

  // ----- the configuration URL -------------------------------------------

  const DefaultSncUrl: string := "http://snc2.synacast.com/sn/channel_list.aspx"
  const DefaultServiceIp: string := "0.0.0.0"
  const DefaultSnType: string := "1"

  lemma AtoiOne()
    ensures Atoi(DefaultSnType) == 1
  {
    assert DefaultSnType == NatToString(1);
    AtoiNatToString(1);
  }

  /** The configured `sn_type`, replaced by "1" when `atoi` of it is outside [1, 2]. */
  function NormalizeSnType(snType: string): (r: string)
    ensures 1 <= Atoi(r) <= 2
    ensures 1 <= Atoi(snType) <= 2 ==> r == snType
    ensures !(1 <= Atoi(snType) <= 2) ==> r == DefaultSnType
  {
    if Atoi(snType) < 1 || Atoi(snType) > 2 then AtoiOne(); DefaultSnType else snType
  }

  const IpKey: string := "?ip="
  const TypeKey: string := "&type="

  /** `snc_url_`: the configured base with the service address and the
      checked type appended as query parameters. */
  function SncUrl(base: string, serviceIp: string, snType: string): (u: string)
    ensures |u| > |base| + |IpKey| + |serviceIp| + |TypeKey|
  {
    base + IpKey + serviceIp + TypeKey + NormalizeSnType(snType)
  }

  /** The base, the service address and a valid type can be read back from
      the URL at fixed offsets. */
  lemma SncUrlParts(base: string, serviceIp: string, snType: string)
    ensures var u := SncUrl(base, serviceIp, snType);
      var a := |base| + |IpKey|;
      var b := a + |serviceIp| + |TypeKey|;
      && u[..|base|] == base
      && u[|base|..a] == IpKey
      && u[a..a + |serviceIp|] == serviceIp
      && u[a + |serviceIp|..b] == TypeKey
      && 1 <= Atoi(u[b..]) <= 2
      && (1 <= Atoi(snType) <= 2 ==> u[b..] == snType)
  {
    var u := SncUrl(base, serviceIp, snType);
    var t := NormalizeSnType(snType);
    assert u == base + IpKey + serviceIp + TypeKey + t;
    var a := |base| + |IpKey|;
    var b := a + |serviceIp| + |TypeKey|;
    assert u[b..] == t;
  }

  // ----- handles held by the list -------------------------------------------

  /** The cancel tokens of the handles in hs that refer to channel id. */
  ghost function TokensFor(hs: seq<ChannelHandle>, id: Id): multiset<nat>
  {
    if hs == [] then multiset{}
    else (if hs[0].channel == Some(id) then multiset{hs[0].cancelToken} else multiset{}) + TokensFor(hs[1..], id)
  }

  /** Every handle in hs is one the pool has handed out and not yet taken
      back, counting repeated tokens. */
  ghost predicate Covered(hs: seq<ChannelHandle>, h: Held)
  {
    forall id {:trigger TokensFor(hs, id)} :: TokensFor(hs, id) <= HeldOf(h, id)
  }

  /** The handles in hs that refer to a channel (`NULL != chandle.channel`), in order. */
  function NonNull(hs: seq<ChannelHandle>): (r: seq<ChannelHandle>)
    ensures forall k :: 0 <= k < |r| ==> r[k].channel.Some?
  {
    if hs == [] then [] else (if hs[0].channel.Some? then [hs[0]] else []) + NonNull(hs[1..])
  }

  /** The pool's bookkeeping after each handle of hs is given back in turn. */
  function DropAll(h: Held, hs: seq<ChannelHandle>): Held
    decreases |hs|
  {
    if hs == [] then h else DropAll(DropHeld(h, hs[0]), hs[1..])
  }

  /** The pool's bookkeeping after each handle of hs is handed out in turn. */
  function AddAll(h: Held, hs: seq<ChannelHandle>): Held
    decreases |hs|
  {
    if hs == [] then h else AddAll(AddHeld(h, hs[0]), hs[1..])
  }

  /** n starts with the same callback. */
  function Repeat(cb: CallbackId, n: nat): (r: seq<CallbackId>)
    ensures |r| == n
  {
    if n == 0 then [] else Repeat(cb, n - 1) + [cb]
  }

  lemma RepeatSnoc(a: seq<CallbackId>, cb: CallbackId, n: nat)
    ensures a + Repeat(cb, n + 1) == a + Repeat(cb, n) + [cb]
  {
    assert Repeat(cb, n + 1) == Repeat(cb, n) + [cb];
    assert a + (Repeat(cb, n) + [cb]) == a + Repeat(cb, n) + [cb];
  }

  /** Every non-null handle of hs refers to a live channel that is still referenced. */
  ghost predicate KeptLive(hs: seq<ChannelHandle>, m: map<Id, Channel>)
  {
    forall k :: 0 <= k < |hs| && hs[k].channel.Some? ==>
      hs[k].channel.value in m && m[hs[k].channel.value].nref > 0
  }

  lemma {:induction false} TokensForAppend(a: seq<ChannelHandle>, b: seq<ChannelHandle>, id: Id)
    ensures TokensFor(a + b, id) == TokensFor(a, id) + TokensFor(b, id)
  {
    if a == [] {
      assert a + b == b;
    } else {
      assert (a + b)[1..] == a[1..] + b;
      TokensForAppend(a[1..], b, id);
    }
  }

  lemma {:induction false} DropAllSnoc(h: Held, hs: seq<ChannelHandle>, i: nat)
    requires i < |hs|
    ensures DropAll(h, hs[..i + 1]) == DropHeld(DropAll(h, hs[..i]), hs[i])
    decreases i
  {
    if i == 0 {
      assert hs[..1][1..] == [];
    } else {
      assert hs[..i + 1][1..] == hs[1..][..i];
      assert hs[..i][1..] == hs[1..][..i - 1];
      DropAllSnoc(DropHeld(h, hs[0]), hs[1..], i - 1);
    }
  }

  lemma {:induction false} AddAllSnoc(h: Held, hs: seq<ChannelHandle>, hd: ChannelHandle)
    ensures AddAll(h, hs + [hd]) == AddHeld(AddAll(h, hs), hd)
    decreases |hs|
  {
    if hs == [] {
      assert hs + [hd] == [hd];
    } else {
      assert (hs + [hd])[1..] == hs[1..] + [hd];
      AddAllSnoc(AddHeld(h, hs[0]), hs[1..], hd);
    }
  }

  lemma {:induction false} NonNullSnoc(hs: seq<ChannelHandle>, hd: ChannelHandle)
    ensures NonNull(hs + [hd]) == NonNull(hs) + (if hd.channel.Some? then [hd] else [])
  {
    if hs == [] {
      assert hs + [hd] == [hd];
      assert NonNull([hd][1..]) == [];
    } else {
      assert (hs + [hd])[1..] == hs[1..] + [hd];
      NonNullSnoc(hs[1..], hd);
    }
  }

  /** The first handle of a covered list is owned, and the rest stays covered
      once it is given back. */
  lemma CoveredHead(hs: seq<ChannelHandle>, h: Held)
    requires hs != [] && Covered(hs, h)
    ensures Owns(h, hs[0]) && Covered(hs[1..], DropHeld(h, hs[0]))
  {
    var hd := hs[0];
    forall id
      ensures TokensFor(hs[1..], id) <= HeldOf(DropHeld(h, hd), id)
    {
      assert TokensFor(hs, id) <= HeldOf(h, id);
    }
    if hd.channel.Some? {
      assert TokensFor(hs, hd.channel.value) <= HeldOf(h, hd.channel.value);
    }
  }

  /** A handle the pool hands out can join a covered list. */
  lemma CoveredAdd(hs: seq<ChannelHandle>, h: Held, hd: ChannelHandle)
    requires Covered(hs, h)
    ensures Covered(hs + [hd], AddHeld(h, hd))
  {
    forall id
      ensures TokensFor(hs + [hd], id) <= HeldOf(AddHeld(h, hd), id)
    {
      TokensForAppend(hs, [hd], id);
      assert TokensFor([hd][1..], id) == multiset{};
    }
  }

  /** A part of a covered list is covered. */
  lemma CoveredParts(a: seq<ChannelHandle>, b: seq<ChannelHandle>, h: Held)
    requires Covered(a + b, h)
    ensures Covered(a, h) && Covered(b, h)
  {
    forall id
      ensures TokensFor(a, id) <= HeldOf(h, id) && TokensFor(b, id) <= HeldOf(h, id)
    {
      TokensForAppend(a, b, id);
    }
  }

  /** Under the pool's invariant a covered handle keeps its channel alive. */
  lemma CoveredLive(p: Pool, h: Held, accepted: seq<CallbackId>, hs: seq<ChannelHandle>)
    requires PoolInvariant.Valid(p, h, accepted) && Covered(hs, h)
    ensures KeptLive(hs, p.chans)
  {
    forall k | 0 <= k < |hs| && hs[k].channel.Some?
      ensures hs[k].channel.value in p.chans && p.chans[hs[k].channel.value].nref > 0
    {
      var id := hs[k].channel.value;
      assert hs == hs[..k] + hs[k..];
      TokensForAppend(hs[..k], hs[k..], id);
      assert hs[k..][0] == hs[k];
      assert hs[k].cancelToken in TokensFor(hs, id);
      assert hs[k].cancelToken in HeldOf(h, id);
    }
  }

  /** The index of the first list entry whose URL is empty once the engine
      prefix is stripped (`|raws|` when there is none): the entry whose
      start throws. */
  function FirstEmptyUrl(raws: seq<RawChannel>): (n: nat)
    ensures n <= |raws|
    ensures forall k :: 0 <= k < n ==> StripHead(raws[k].url) != []
    ensures n < |raws| ==> StripHead(raws[n].url) == []
  {
    if raws == [] then 0
    else if StripHead(raws[0].url) == [] then 0
    else 1 + FirstEmptyUrl(raws[1..])
  }

  /** The pool and the handles after the entries of raws are started in
      turn through `start_channel(url, tcp_port, udp_port, ready)` of `mgr`,
      up to the first entry with an empty URL, whose start throws: the k-th
      start gets the engine's answer `engines[k]` and names a new channel
      `n + k`. `start_channel` needs a pool whose torn-down channels have no
      rid, which the pool's invariant gives (`PoolOps.StartValid`), so the
      fold of a valid pool never ends at that test. */
  ghost function StartList(mgr: LiveManager.Manager, p: Pool, raws: seq<RawChannel>, ready: CallbackId,
                           engines: seq<Option<EngineHandle>>, n: Id, maxParallel: nat): (r: (Pool, seq<ChannelHandle>))
    requires |engines| == |raws|
    decreases |raws|
  {
    if raws == [] || ParseChannel(raws[0]).url == [] || !StoppedHaveNoRid(p) then (p, [])
    else
      var e := ParseChannel(raws[0]);
      var (q, hd) := Start(p, e.url, mgr.RidOf(e.url), e.tcpPort, e.udpPort, ready, engines[0], n, maxParallel);
      var (q', hs) := StartList(mgr, q, raws[1..], ready, engines[1..], n + 1, maxParallel);
      (q', [hd] + hs)
  }

  /** The fold's first start, split off: once the first entry is started,
      the rest of the fold starts from the pool that start left, and the
      handle it returned comes first. */
  lemma StartListStep(mgr: LiveManager.Manager, p: Pool, raws: seq<RawChannel>, ready: CallbackId,
                      engines: seq<Option<EngineHandle>>, n: Id, maxParallel: nat, q: Pool, hd: ChannelHandle)
    requires raws != [] && |engines| == |raws| && ParseChannel(raws[0]).url != [] && StoppedHaveNoRid(p)
    requires var e := ParseChannel(raws[0]);
      (q, hd) == Start(p, e.url, mgr.RidOf(e.url), e.tcpPort, e.udpPort, ready, engines[0], n, maxParallel)
    ensures var r := StartList(mgr, p, raws, ready, engines, n, maxParallel);
      var rest := StartList(mgr, q, raws[1..], ready, engines[1..], n + 1, maxParallel);
      r.0 == rest.0 && r.1 == [hd] + rest.1
  {
  }

  /** The fold stops at the end of the list and at an entry with an empty URL. */
  lemma StartListDone(mgr: LiveManager.Manager, p: Pool, raws: seq<RawChannel>, ready: CallbackId,
                      engines: seq<Option<EngineHandle>>, n: Id, maxParallel: nat, i: nat)
    requires i <= |raws| && |engines| == |raws| && (i < |raws| ==> ParseChannel(raws[i]).url == [])
    ensures StartList(mgr, p, raws[i..], ready, engines[i..], n, maxParallel) == (p, [])
  {
    if i < |raws| {
      assert raws[i..][0] == raws[i];
    }
  }

  /** Where the loop over the list stops, the fold is complete: what remains
      of it starts nothing. */
  lemma StartListEnds(mgr: LiveManager.Manager, p: Pool, raws: seq<RawChannel>, ready: CallbackId,
                      engines: seq<Option<EngineHandle>>, n: Id, maxParallel: nat, i: nat,
                      goal: (Pool, seq<ChannelHandle>), started: seq<ChannelHandle>)
    requires i <= |raws| && |engines| == |raws| && (i < |raws| ==> ParseChannel(raws[i]).url == [])
    requires i <= |goal.1| && started == goal.1[..i]
    requires StartList(mgr, p, raws[i..], ready, engines[i..], n, maxParallel) == (goal.0, goal.1[i..])
    ensures goal == (p, started)
  {
    StartListDone(mgr, p, raws, ready, engines, n, maxParallel, i);
    assert goal.0 == p && goal.1[i..] == [];
    assert |goal.1| == i;
    assert goal.1[..i] == goal.1;
  }

  /** A split point of a sequence. */
  lemma SplitAt<T>(s: seq<T>, i: nat)
    requires i < |s|
    ensures s[i..] == [s[i]] + s[i + 1..] && s[..i + 1] == s[..i] + [s[i]]
  {
  }

  /** The pool after each handle of hs is given back in turn through
      `stop_channel(handle)`. The bookkeeping h and acc only carry the
      invariant that each stop needs. */
  ghost function GiveBackList(p: Pool, h: Held, acc: seq<CallbackId>, hs: seq<ChannelHandle>, maxParallel: nat): (r: Pool)
    requires PoolInvariant.Valid(p, h, acc) && Covered(hs, h)
    decreases |hs|
  {
    if hs == [] then p
    else
      CoveredHead(hs, h);
      StopHandleValid(p, hs[0], maxParallel, h, acc);
      GiveBackList(StopHandle(p, hs[0], maxParallel).0, DropHeld(h, hs[0]), acc, hs[1..], maxParallel)
  }

  /** The first stop of the fold, split off: the rest of the stops start
      from the pool that stop left, with the handle no longer held. */
  lemma GiveBackListStep(p: Pool, h: Held, acc: seq<CallbackId>, hs: seq<ChannelHandle>, maxParallel: nat)
    requires PoolInvariant.Valid(p, h, acc) && Covered(hs, h) && hs != []
    ensures Owns(h, hs[0]) && Covered(hs[1..], DropHeld(h, hs[0]))
    ensures PoolInvariant.Valid(StopHandle(p, hs[0], maxParallel).0, DropHeld(h, hs[0]), acc)
    ensures GiveBackList(p, h, acc, hs, maxParallel) ==
      GiveBackList(StopHandle(p, hs[0], maxParallel).0, DropHeld(h, hs[0]), acc, hs[1..], maxParallel)
  {
    CoveredHead(hs, h);
    StopHandleValid(p, hs[0], maxParallel, h, acc);
  }

  /** The list being built stays covered when the pool hands out one more
      handle, and the bookkeeping stays that of all the starts so far. */
  lemma StartStep(chan: seq<ChannelHandle>, tempList: seq<ChannelHandle>, started: seq<ChannelHandle>,
                  h0: Held, h1: Held, hd: ChannelHandle)
    requires Covered(chan + tempList, h1) && tempList == NonNull(started) && h1 == AddAll(h0, started)
    ensures NonNull(started + [hd]) == tempList + (if hd.channel.Some? then [hd] else [])
    ensures Covered(chan + NonNull(started + [hd]), AddHeld(h1, hd))
    ensures AddHeld(h1, hd) == AddAll(h0, started + [hd])
  {
    CoveredAdd(chan + tempList, h1, hd);
    AddAllSnoc(h0, started, hd);
    NonNullSnoc(started, hd);
    if hd.channel.Some? {
      assert chan + (tempList + [hd]) == chan + tempList + [hd];
    } else {
      assert tempList + [] == tempList;
      CoveredParts(chan + tempList, [hd], AddHeld(h1, hd));
    }
  }

  class Ssn {
    /** `_mgr`: the pool the supernode opens its channels through. */
    const mgr: LiveManager.Manager
    /** `snc_url_`. */
    const sncUrl: string
    /** `channel_`: the handles of the channels currently kept open. */
    var channel: seq<ChannelHandle>

    ghost predicate Valid()
      reads this, mgr
    {
      mgr.Valid() && Covered(channel, mgr.held)
    }

    /** The constructor: the fetch URL from the configured base, service
        address and type. */
    constructor (mgr: LiveManager.Manager, base: string, serviceIp: string, snType: string)
      requires mgr.Valid()
      ensures Valid()
      ensures this.mgr == mgr && channel == []
      ensures sncUrl == SncUrl(base, serviceIp, snType)
    {
      this.mgr := mgr;
      sncUrl := SncUrl(base, serviceIp, snType);
      channel := [];
    }

    /** `_mgr.stop_channel(hd)`, seen from the list: the pool takes the
        handle back as `stop_channel(handle)` does, and keeps its invariant
        and its limit. */
    method GiveBack(hd: ChannelHandle)
      requires mgr.Valid() && Owns(mgr.held, hd)
      modifies mgr
      ensures mgr.Valid()
      ensures mgr.Abs() == StopHandle(old(mgr.Abs()), hd, old(mgr.maxParallel)).0
      ensures mgr.maxParallel == old(mgr.maxParallel) && mgr.nextId == old(mgr.nextId)
      ensures mgr.held == DropHeld(old(mgr.held), hd) && mgr.accepted == old(mgr.accepted)
    {
      var _ := mgr.StopChannel(hd);
    }

    /** `_mgr.start_channel(url, tcp, udp, ready)`, seen from the list: the
        pool does what `start_channel` does, hands out the returned handle
        and accepts the callback. */
    method Open(url: string, tcp: nat, udp: nat, ready: CallbackId, engine: Option<EngineHandle>)
        returns (hd: ChannelHandle)
      requires mgr.Valid() && |url| >= 1
      modifies mgr
      ensures mgr.Valid()
      ensures StoppedHaveNoRid(old(mgr.Abs()))
      ensures (mgr.Abs(), hd) ==
        Start(old(mgr.Abs()), url, mgr.RidOf(url), tcp, udp, ready, engine, old(mgr.nextId), old(mgr.maxParallel))
      ensures mgr.maxParallel == old(mgr.maxParallel) && mgr.nextId == old(mgr.nextId) + 1
      ensures mgr.held == AddHeld(old(mgr.held), hd) && mgr.accepted == old(mgr.accepted) + [ready]
    {
      hd := mgr.StartChannel(url, tcp, udp, ready, engine);
    }

    /** One turn of `ClearOldChannel`'s loop: the i-th stored handle is
        given back, and the rest of the stops now start from the pool that
        stop left. */
    method GiveBackAt(i: nat, ghost keep: seq<ChannelHandle>, ghost h0: Held, ghost goal: Pool)
      requires i < |channel| && mgr.Valid() && Covered(channel[i..] + keep, mgr.held)
      requires Covered(channel[i..], mgr.held) && mgr.held == DropAll(h0, channel[..i])
      requires GiveBackList(mgr.Abs(), mgr.held, mgr.accepted, channel[i..], mgr.maxParallel) == goal
      modifies mgr
      ensures mgr.Valid() && Covered(channel[i + 1..] + keep, mgr.held) && Covered(channel[i + 1..], mgr.held)
      ensures mgr.maxParallel == old(mgr.maxParallel) && mgr.nextId == old(mgr.nextId)
      ensures mgr.held == DropAll(h0, channel[..i + 1]) && mgr.accepted == old(mgr.accepted)
      ensures GiveBackList(mgr.Abs(), mgr.held, mgr.accepted, channel[i + 1..], mgr.maxParallel) == goal
    {
      assert (channel[i..] + keep)[1..] == channel[i + 1..] + keep;
      assert channel[i..][0] == channel[i] && channel[i..][1..] == channel[i + 1..];
      CoveredHead(channel[i..] + keep, mgr.held);
      DropAllSnoc(h0, channel, i);
      GiveBackListStep(mgr.Abs(), mgr.held, mgr.accepted, channel[i..], mgr.maxParallel);
      GiveBack(channel[i]);
      CoveredParts(channel[i + 1..], keep, mgr.held);
    }

    /** `ClearOldChannel`: give every stored handle back to the pool, each
        once and in order, then empty the list. `keep` are handles held
        elsewhere (the new list being built); they stay covered, so their
        channels stay referenced. */
    method ClearOldChannel(ghost keep: seq<ChannelHandle>)
      requires mgr.Valid() && Covered(channel + keep, mgr.held) && Covered(channel, mgr.held)
      modifies this, mgr
      ensures mgr.Valid() && Covered(keep, mgr.held)
      ensures channel == []
      ensures mgr.Abs() == GiveBackList(old(mgr.Abs()), old(mgr.held), old(mgr.accepted), old(channel), old(mgr.maxParallel))
      ensures mgr.maxParallel == old(mgr.maxParallel) && mgr.nextId == old(mgr.nextId)
      ensures mgr.held == DropAll(old(mgr.held), old(channel))
      ensures mgr.accepted == old(mgr.accepted)
    {
      ghost var h0 := mgr.held;
      ghost var goal := GiveBackList(mgr.Abs(), mgr.held, mgr.accepted, channel, mgr.maxParallel);
      assert channel[..0] == [] && channel[0..] == channel;
      var i := 0;
      while i < |channel|
        invariant i <= |channel| && channel == old(channel)
        invariant mgr.Valid() && Covered(channel[i..] + keep, mgr.held) && Covered(channel[i..], mgr.held)
        invariant mgr.held == DropAll(h0, channel[..i])
        invariant mgr.accepted == old(mgr.accepted)
        invariant mgr.maxParallel == old(mgr.maxParallel) && mgr.nextId == old(mgr.nextId)
        invariant GiveBackList(mgr.Abs(), mgr.held, mgr.accepted, channel[i..], mgr.maxParallel) == goal
      {
        GiveBackAt(i, keep, h0, goal);
        i := i + 1;
      }
      assert channel[..i] == channel;
      assert channel[i..] + keep == keep && channel[i..] == [];
      channel := [];
    }

    /** `shutdown`: every stored handle is given back, in order, and the list
        emptied; the pool's limit stays. */
    method Shutdown()
      requires Valid()
      modifies this, mgr
      ensures Valid() && channel == []
      ensures mgr.Abs() == GiveBackList(old(mgr.Abs()), old(mgr.held), old(mgr.accepted), old(channel), old(mgr.maxParallel))
      ensures mgr.maxParallel == old(mgr.maxParallel) && mgr.nextId == old(mgr.nextId)
      ensures mgr.held == DropAll(old(mgr.held), old(channel))
      ensures mgr.accepted == old(mgr.accepted)
    {
      assert channel + [] == channel;
      ClearOldChannel([]);
    }

    /** One turn of the start loop of `on_fetch_channels`: the entry is
        started, and its handle joins `tempList` when it is not null. */
    method StartOne(e: Entry, ready: CallbackId, engine: Option<EngineHandle>,
                    tempList: seq<ChannelHandle>, ghost started: seq<ChannelHandle>, ghost h0: Held)
        returns (hd: ChannelHandle, tempList': seq<ChannelHandle>)
      requires |e.url| >= 1 && mgr.Valid() && Covered(channel + tempList, mgr.held)
      requires tempList == NonNull(started) && mgr.held == AddAll(h0, started)
      modifies mgr
      ensures mgr.Valid() && Covered(channel + tempList', mgr.held)
      ensures StoppedHaveNoRid(old(mgr.Abs()))
      ensures (mgr.Abs(), hd) ==
        Start(old(mgr.Abs()), e.url, mgr.RidOf(e.url), e.tcpPort, e.udpPort, ready, engine, old(mgr.nextId), old(mgr.maxParallel))
      ensures mgr.maxParallel == old(mgr.maxParallel) && mgr.nextId == old(mgr.nextId) + 1
      ensures tempList' == NonNull(started + [hd]) && mgr.held == AddAll(h0, started + [hd])
      ensures mgr.held == AddHeld(old(mgr.held), hd) && mgr.accepted == old(mgr.accepted) + [ready]
    {
      ghost var h1 := mgr.held;
      hd := Open(e.url, e.tcpPort, e.udpPort, ready, engine);
      StartStep(channel, tempList, started, h0, h1, hd);
      tempList' := if hd.channel.Some? then tempList + [hd] else tempList;
    }

    /** One turn of the start loop of `on_fetch_channels`, with the fold of
        the starts that remain: the i-th entry is started, and the rest of
        the fold now starts from the pool this start left. */
    method StartEntry(raws: seq<RawChannel>, i: nat, ready: CallbackId, engines: seq<Option<EngineHandle>>,
                      tempList: seq<ChannelHandle>, ghost started: seq<ChannelHandle>, ghost h0: Held,
                      ghost goal: (Pool, seq<ChannelHandle>))
        returns (hd: ChannelHandle, tempList': seq<ChannelHandle>)
      requires i < |raws| && |engines| == |raws| && ParseChannel(raws[i]).url != []
      requires mgr.Valid() && Covered(channel + tempList, mgr.held)
      requires tempList == NonNull(started) && mgr.held == AddAll(h0, started)
      requires i <= |goal.1|
      requires StartList(mgr, mgr.Abs(), raws[i..], ready, engines[i..], mgr.nextId,
                         mgr.maxParallel) == (goal.0, goal.1[i..])
      modifies mgr
      ensures mgr.Valid() && Covered(channel + tempList', mgr.held)
      ensures tempList' == NonNull(started + [hd]) && mgr.held == AddAll(h0, started + [hd])
      ensures mgr.accepted == old(mgr.accepted) + [ready] && mgr.maxParallel == old(mgr.maxParallel)
      ensures i < |goal.1| && goal.1[..i + 1] == goal.1[..i] + [hd]
      ensures StartList(mgr, mgr.Abs(), raws[i + 1..], ready, engines[i + 1..], mgr.nextId,
                        mgr.maxParallel) == (goal.0, goal.1[i + 1..])
    {
      ghost var p0, h1, a1, n0 := mgr.Abs(), mgr.held, mgr.accepted, mgr.nextId;
      hd, tempList' := StartOne(ParseChannel(raws[i]), ready, engines[i], tempList, started, h0);
      assert raws[i..][0] == raws[i] && raws[i..][1..] == raws[i + 1..];
      assert engines[i..][0] == engines[i] && engines[i..][1..] == engines[i + 1..];
      StartListStep(mgr, p0, raws[i..], ready, engines[i..], n0, mgr.maxParallel, mgr.Abs(), hd);
      assert i < |goal.1|;
      SplitAt(goal.1, i);
      ghost var rest := StartList(mgr, mgr.Abs(), raws[i + 1..], ready, engines[i + 1..],
                                  mgr.nextId, mgr.maxParallel);
      assert [hd] + rest.1 == [goal.1[i]] + goal.1[i + 1..];
      assert rest.1 == ([hd] + rest.1)[1..];
    }

    /** The start loop of `on_fetch_channels`: the entries are started in
        order until one has an empty URL, whose `url.substr(1)` throws.
        `started` are the handles the starts returned; the pool ends as the
        starts of those entries, in order, leave it. */
    method StartAll(raws: seq<RawChannel>, ready: CallbackId, engines: seq<Option<EngineHandle>>)
        returns (thrown: bool, tempList: seq<ChannelHandle>, ghost started: seq<ChannelHandle>)
      requires mgr.Valid() && Covered(channel, mgr.held) && |engines| == |raws|
      modifies mgr
      ensures mgr.Valid() && Covered(channel + tempList, mgr.held)
      ensures |started| == FirstEmptyUrl(raws) && tempList == NonNull(started)
      ensures thrown <==> |started| < |raws|
      ensures (mgr.Abs(), started) ==
        StartList(mgr, old(mgr.Abs()), raws, ready, engines, old(mgr.nextId), old(mgr.maxParallel))
      ensures mgr.maxParallel == old(mgr.maxParallel)
      ensures mgr.held == AddAll(old(mgr.held), started)
      ensures mgr.accepted == old(mgr.accepted) + Repeat(ready, |started|)
    {
      ghost var m := FirstEmptyUrl(raws);
      ghost var goal := StartList(mgr, mgr.Abs(), raws, ready, engines, mgr.nextId, mgr.maxParallel);
      assert raws[0..] == raws && engines[0..] == engines && goal.1[0..] == goal.1;
      tempList := [];
      started := [];
      assert channel + tempList == channel;
      var i := 0;
      while i < |raws| && ParseChannel(raws[i]).url != []
        invariant i <= |raws| && |started| == i
        invariant mgr.Valid() && Covered(channel + tempList, mgr.held)
        invariant tempList == NonNull(started)
        invariant mgr.held == AddAll(old(mgr.held), started)
        invariant mgr.accepted == old(mgr.accepted) + Repeat(ready, i)
        invariant i <= m
        invariant mgr.maxParallel == old(mgr.maxParallel)
        invariant i <= |goal.1| && started == goal.1[..i]
        invariant StartList(mgr, mgr.Abs(), raws[i..], ready, engines[i..], mgr.nextId,
                            mgr.maxParallel) == (goal.0, goal.1[i..])
      {
        assert ParseChannel(raws[i]).url == StripHead(raws[i].url);
        assert i < m;
        var hd;
        hd, tempList := StartEntry(raws, i, ready, engines, tempList, started, old(mgr.held), goal);
        RepeatSnoc(old(mgr.accepted), ready, i);
        started := started + [hd];
        i := i + 1;
      }
      thrown := i < |raws|;
      StartListEnds(mgr, mgr.Abs(), raws, ready, engines, mgr.nextId, mgr.maxParallel, i, goal, started);
    }

    /** `on_fetch_channels(ec, client)`: `fetched` is whether the fetch
        succeeded, `raws` the entries of the fetched list, `ready` the
        `on_channel_ready` callback every start is given, and `engines` the
        engine's answer for each start. Every entry is started in order and
        the non-null handles are collected; then the old handles are given
        back and the new list is stored. An entry with an empty URL makes
        `start_channel` throw (`url.substr(1)`), which leaves the stored list
        as it was while the channels started before it stay referenced.
        Returns whether that happened, and (as a ghost) the handles the
        starts returned. The pool ends as those starts and then the stops of
        the old handles leave it. */
    method OnFetchChannels(fetched: bool, raws: seq<RawChannel>, ready: CallbackId, engines: seq<Option<EngineHandle>>)
        returns (thrown: bool, ghost started: seq<ChannelHandle>)
      requires Valid() && |engines| == |raws|
      modifies this, mgr
      ensures Valid()
      ensures thrown <==> fetched && exists k :: 0 <= k < |raws| && StripHead(raws[k].url) == []
      ensures mgr.accepted == old(mgr.accepted) + Repeat(ready, |started|)
      ensures thrown ==> channel == old(channel) && mgr.held == AddAll(old(mgr.held), started)
      ensures !thrown ==> |started| == (if fetched then |raws| else 0)
      ensures !thrown ==> channel == NonNull(started) && KeptLive(channel, mgr.chans)
      ensures !thrown ==> mgr.held == DropAll(AddAll(old(mgr.held), started), old(channel))
      ensures mgr.maxParallel == old(mgr.maxParallel)
      ensures var (mid, hs) := if fetched then
          StartList(mgr, old(mgr.Abs()), raws, ready, engines, old(mgr.nextId), old(mgr.maxParallel))
        else (old(mgr.Abs()), []);
        var h1 := AddAll(old(mgr.held), hs);
        var a1 := old(mgr.accepted) + Repeat(ready, |hs|);
        && started == hs
        && (thrown ==> mgr.Abs() == mid)
        && (!thrown ==> PoolInvariant.Valid(mid, h1, a1) && Covered(old(channel), h1)
                        && mgr.Abs() == GiveBackList(mid, h1, a1, old(channel), old(mgr.maxParallel)))
    {
      var tempList: seq<ChannelHandle> := [];
      started := [];
      thrown := false;
      assert channel + tempList == channel;
      if fetched {
        thrown, tempList, started := StartAll(raws, ready, engines);
        if thrown {
          CoveredParts(channel, tempList, mgr.held);
          return;
        }
      }
      CoveredParts(channel, tempList, mgr.held);
      ClearOldChannel(tempList);
      channel := tempList;
      CoveredLive(mgr.Abs(), mgr.held, mgr.accepted, channel);
    }
  }
}
