/** `LiveManager` (LiveManager.cpp) as a class whose fields are the pool's
    state. Each method changes the fields step by step as the source does
    and is proved to produce the pool the matching `PoolModel` function
    describes; the invariant of `PoolInvariant` (reference counts match the
    outstanding handles, every accepted callback is posted exactly once,
    torn-down channels have no rid) is kept by every public method. */
module LiveManager {
  import opened Common
  import opened LiveManagerTypes
  import opened PoolModel
  import opened PoolInvariant
  import opened PoolCheck
  import opened PoolOps
  import opened PoolProps

  lemma {:induction false} FlushAppend(a: seq<Option<CallbackId>>, b: seq<Option<CallbackId>>, ec: ErrorCode, url: string)
    ensures Flush(a + b, ec, url) == Flush(a, ec, url) + Flush(b, ec, url)
  {
    if a == [] {
      assert a + b == b;
    } else {
      assert (a + b)[1..] == a[1..] + b;
      FlushAppend(a[1..], b, ec, url);
    }
  }

  /** One step of `response_channel`'s loop. */
  lemma FlushStep(cbs: seq<Option<CallbackId>>, k: nat, ec: ErrorCode, url: string)
    requires k < |cbs|
    ensures Flush(cbs[..k + 1], ec, url) ==
      Flush(cbs[..k], ec, url) + (if cbs[k].Some? then [Post(cbs[k].value, ec, url)] else [])
  {
    assert cbs[..k + 1] == cbs[..k] + [cbs[k]];
    FlushAppend(cbs[..k], [cbs[k]], ec, url);
  }

  /** The internal stop of a live slot, by status, without the case split
      of its definition. */
  lemma StopAtCases(p: Pool, i: nat)
    requires LiveSlot(p, i)
    ensures var c := ChanAt(p, i);
      var id := p.slots[i].value;
      && (c.status == Started ==>
            StopAt(p, i) ==
            Pool(p.slots, p.chans[id := Respond(c.(status := Cancel), OperationAborted, "").(handle := None, rid := "")],
                 p.posted + Flush(c.callBacks, OperationAborted, ""), p.stops + OptSeq(c.handle)))
      && (c.status == Working ==>
            StopAt(p, i) ==
            Reap(p.(stops := p.stops + OptSeq(c.handle)), i, c.(status := Stopped, handle := None, rid := "")))
      && (c.status == Cancel ==> StopAt(p, i) == p)
      && (c.status == Stopped ==> StopAt(p, i) == Reap(p, i, c))
  {
  }

  /** Under the invariant every entry of the list names a live channel. */
  lemma ValidListed(p: Pool, h: Held, accepted: seq<CallbackId>)
    requires PoolInvariant.Valid(p, h, accepted)
    ensures forall k :: 0 <= k < |p.slots| ==> p.slots[k].Some? && p.slots[k].value in p.chans
  {
    forall k | 0 <= k < |p.slots|
      ensures p.slots[k].Some? && p.slots[k].value in p.chans
    {
      assert p.slots[k] in p.slots;
    }
  }

  /** `start_channel` keeps the invariant, and the one channel it may
      create is the one named `newId`. */
  lemma StartKeeps(p: Pool, url: string, rid: string, tcp: nat, udp: nat, cb: CallbackId,
                   engine: Option<EngineHandle>, newId: Id, maxParallel: nat, h: Held, accepted: seq<CallbackId>)
    requires PoolInvariant.Valid(p, h, accepted) && forall id :: id in p.chans ==> id < newId
    ensures StoppedHaveNoRid(p)
    ensures var (q, hd) := Start(p, url, rid, tcp, udp, cb, engine, newId, maxParallel);
      PoolInvariant.Valid(q, AddHeld(h, hd), accepted + [cb]) && forall id :: id in q.chans ==> id < newId + 1
  {
    StartValid(p, url, rid, tcp, udp, cb, engine, newId, maxParallel, h, accepted);
    StartKeys(p, url, rid, tcp, udp, cb, engine, newId, maxParallel, h, accepted);
  }

  /** The reconnection step keeps the invariant and creates no channel. */
  lemma ReconnectKeeps(p: Pool, i: nat, newId: Id, h: Held, accepted: seq<CallbackId>)
    requires PoolInvariant.Valid(p, h, accepted) && LiveSlot(p, i) && forall id :: id in p.chans ==> id < newId
    ensures PoolInvariant.Valid(Reconnected(p, i), h, accepted)
    ensures forall id :: id in Reconnected(p, i).chans ==> id < newId
  {
    ReconnectValid(p, i, newId, h, accepted);
    StopAtKeys(p.(chans := p.chans[p.slots[i].value := ChanAt(p, i).(expire := 0)]), i);
  }

  /** `stop_channel(handle)` keeps the invariant once the handle is given up,
      and creates no channel. */
  lemma StopKeeps(p: Pool, hd: ChannelHandle, maxParallel: nat, h: Held, accepted: seq<CallbackId>, newId: Id)
    requires PoolInvariant.Valid(p, h, accepted) && Owns(h, hd) && forall id :: id in p.chans ==> id < newId
    ensures hd.channel.Some? ==> hd.channel.value in p.chans && p.chans[hd.channel.value].nref > 0
    ensures var q := StopHandle(p, hd, maxParallel).0;
      PoolInvariant.Valid(q, DropHeld(h, hd), accepted) && forall id :: id in q.chans ==> id < newId
  {
    StopHandleValid(p, hd, maxParallel, h, accepted);
    StopHandleKeys(p, hd, maxParallel);
  }

  /** The engine's completion keeps the invariant and creates no channel. */
  lemma HandleStartKeeps(p: Pool, id: Id, ec: ErrorCode, url: string, h: Held, accepted: seq<CallbackId>, newId: Id)
    requires PoolInvariant.Valid(p, h, accepted) && AwaitsEngine(p, id) && forall k :: k in p.chans ==> k < newId
    ensures var q := HandleStart(p, id, ec, url);
      PoolInvariant.Valid(q, h, accepted) && forall k :: k in q.chans ==> k < newId
  {
    HandleStartValid(p, id, ec, url, h, accepted);
    HandleStartKeys(p, id, ec, url);
  }

  /** `handle_timer` keeps the invariant and creates no channel. */
  lemma HandleTimerKeeps(p: Pool, daemonStarted: bool, failed: seq<EngineHandle>, h: Held, accepted: seq<CallbackId>, newId: Id)
    requires PoolInvariant.Valid(p, h, accepted) && forall k :: k in p.chans ==> k < newId
    ensures var q := HandleTimer(p, daemonStarted, failed).0;
      PoolInvariant.Valid(q, h, accepted) && forall k :: k in q.chans ==> k < newId
  {
    HandleTimerValid(p, daemonStarted, failed, h, accepted);
    HandleTimerKeys(p, daemonStarted, failed);
  }

  /** `shutdown` keeps the invariant and creates no channel. */
  lemma ShutdownKeeps(p: Pool, h: Held, accepted: seq<CallbackId>, newId: Id)
    requires PoolInvariant.Valid(p, h, accepted) && forall k :: k in p.chans ==> k < newId
    ensures var q := Shutdown(p);
      PoolInvariant.Valid(q, h, accepted) && forall k :: k in q.chans ==> k < newId
  {
    ShutdownValid(p, h, accepted);
    ShutdownKeys(p);
  }

  /** `set_max_parallel` keeps the invariant and creates no channel. */
  lemma SetMaxParallelKeeps(p: Pool, oldMax: nat, newMax: nat, h: Held, accepted: seq<CallbackId>, newId: Id)
    requires PoolInvariant.Valid(p, h, accepted) && forall k :: k in p.chans ==> k < newId
    ensures var q := SetMaxParallel(p, oldMax, newMax).0;
      PoolInvariant.Valid(q, h, accepted) && forall k :: k in q.chans ==> k < newId
  {
    SetMaxParallelValid(p, oldMax, newMax, h, accepted);
    SetMaxParallelKeys(p, oldMax, newMax);
  }

  class Manager {
    /** `channels_`, with nulled entries as `None`. */
    var slots: seq<Option<Id>>
    /** The channels not yet deleted. */
    var chans: map<Id, Channel>
    /** Every callback invocation posted onto the event loop, in order. */
    var posted: seq<Post>
    /** Every engine handle passed to `live_module_.stop_channel`, in order. */
    var stops: seq<EngineHandle>
    /** `max_parallel_`. */
    var maxParallel: nat
    /** The name the next `new Channel` gets; names are never reused. */
    var nextId: Id
    /** `pptv::base64_decode(_, PPBOX_LIVE_KEY)`. */
    const decodeToken: string -> string
    /** `map_find(_, "channel", _, "&")`: the value of the `channel` parameter, or "". */
    const channelParam: string -> string
    /** The cancel tokens of the handles callers hold, per channel. */
    ghost var held: Held
    /** Every callback `start_channel` has accepted, in order. */
    ghost var accepted: seq<CallbackId>

    ghost function Abs(): Pool
      reads this
    {
      Pool(slots, chans, posted, stops)
    }

    ghost predicate Valid()
      reads this
    {
      && PoolInvariant.Valid(Abs(), held, accepted)
      && (forall id :: id in chans ==> id < nextId)
    }

    /** The rid a play URL names: the `channel` parameter of the decoded
        token after the leading character; empty when decoding gives nothing. */
    function RidOf(url: string): string
      requires |url| >= 1
    {
      var decoded := decodeToken(url[1..]);
      if decoded == "" then "" else channelParam(decoded)
    }

    /** The pool starts empty, with the configured `max_parallel`. */
    constructor (maxParallel: nat, decodeToken: string -> string, channelParam: string -> string)
      ensures Valid()
      ensures Abs() == Pool([], map[], [], []) && this.maxParallel == maxParallel
      ensures this.decodeToken == decodeToken && this.channelParam == channelParam
    {
      slots := [];
      chans := map[];
      posted := [];
      stops := [];
      this.maxParallel := maxParallel;
      nextId := 0;
      this.decodeToken := decodeToken;
      this.channelParam := channelParam;
      held := map[];
      accepted := [];
    }

    // ----- response_channel and the internal stop_channel ---------------

    /** `response_channel`: cache the result, swap out the callbacks and post
        each non-empty one with it, in order. */
    method ResponseChannel(id: Id, ec: ErrorCode, url: string)
      requires id in chans
      modifies this
      ensures chans == old(chans)[id := Respond(old(chans)[id], ec, url)]
      ensures posted == old(posted) + Flush(old(chans)[id].callBacks, ec, url)
      ensures slots == old(slots) && stops == old(stops)
      ensures maxParallel == old(maxParallel) && nextId == old(nextId)
      ensures held == old(held) && accepted == old(accepted)
    {
      chans := chans[id := chans[id].(ec := ec, url2 := url)];
      var callBacks := chans[id].callBacks;
      chans := chans[id := chans[id].(callBacks := [])];
      ghost var chans1 := chans;
      var k := 0;
      while k < |callBacks|
        invariant 0 <= k <= |callBacks|
        invariant posted == old(posted) + Flush(callBacks[..k], ec, url)
        invariant chans == chans1
        invariant slots == old(slots) && stops == old(stops)
        invariant maxParallel == old(maxParallel) && nextId == old(nextId)
        invariant held == old(held) && accepted == old(accepted)
      {
        FlushStep(callBacks, k, ec, url);
        if callBacks[k].Some? {
          posted := posted + [Post(callBacks[k].value, ec, url)];
        }
        k := k + 1;
      }
      assert callBacks[..k] == callBacks;
    }

    /** The internal `stop_channel(channels_[i])`. */
    method StopChannelAt(i: nat)
      requires i < |slots|
      modifies this
      ensures Abs() == StopAt(old(Abs()), i)
      ensures maxParallel == old(maxParallel) && nextId == old(nextId)
      ensures held == old(held) && accepted == old(accepted)
    {
      if slots[i].None? || slots[i].value !in chans {
        return;
      }
      ghost var p0 := Abs();
      var id := slots[i].value;
      var c := chans[id];
      StopAtCases(p0, i);
      if c.status == Started {
        chans := chans[id := c.(status := Cancel)];
        ResponseChannel(id, OperationAborted, "");
        stops := stops + OptSeq(c.handle);
        chans := chans[id := chans[id].(handle := None, rid := "")];
        return;
      } else if c.status == Working {
        chans := chans[id := c.(status := Stopped)];
        stops := stops + OptSeq(c.handle);
        chans := chans[id := chans[id].(handle := None, rid := "")];
      } else if c.status == Cancel {
        return;
      }
      if chans[id].nref == 0 {
        chans := chans - {id};
        slots := slots[i := None];
      }
    }

    // ----- check_parallel -----------------------------------------------

    /** `check_parallel`: one pass over the list, deleting idle stopped and
        cancelled channels and stopping idle started/working channels beyond
        the budget, then the compaction. */
    method CheckParallel()
      modifies this
      ensures Abs() == PoolModel.CheckParallel(old(Abs()), maxParallel)
      ensures maxParallel == old(maxParallel) && nextId == old(nextId)
      ensures held == old(held) && accepted == old(accepted)
    {
      ghost var p0 := Abs();
      var userSize := CountWorking(slots, chans);
      var leftSize := LeftSize(maxParallel, userSize);
      var findCount := 0;
      var i := 0;
      while i < |slots|
        invariant 0 <= i <= |slots| == |p0.slots|
        invariant CheckFrom(Abs(), i, leftSize, findCount) == CheckFrom(p0, 0, leftSize, 0)
        invariant maxParallel == old(maxParallel) && nextId == old(nextId)
        invariant held == old(held) && accepted == old(accepted)
      {
        CheckFromStep(Abs(), i, leftSize, findCount);
        if slots[i].Some? && slots[i].value in chans && chans[slots[i].value].nref == 0 {
          var c := chans[slots[i].value];
          if c.status == Cancel || c.status == Stopped {
            StopChannelAt(i);
          } else {
            findCount := findCount + 1;
            if findCount > leftSize {
              StopChannelAt(i);
            }
          }
        }
        i := i + 1;
      }
      slots := Compact(slots);
    }

    // ----- start_channel ------------------------------------------------

    /** The rid search of `start_channel`: the first listed channel with
        this rid, or the list's length. */
    method FindChannel(rid: string) returns (i: nat)
      requires forall k :: 0 <= k < |slots| ==> slots[k].Some? && slots[k].value in chans
      ensures i == FindRid(Abs(), rid)
    {
      i := 0;
      while i < |slots| && chans[slots[i].value].rid != rid
        invariant i <= |slots|
        invariant FindRidFrom(Abs(), rid, i) == FindRid(Abs(), rid)
      {
        i := i + 1;
      }
    }

    /** The end of `start_channel`: take a reference, answer at once from
        the cache of a working channel or queue the callback, then
        `check_parallel`. */
    method Subscribe(id: Id, cb: CallbackId) returns (hd: ChannelHandle)
      requires id in chans
      modifies this
      ensures (Abs(), hd) == PoolModel.Subscribe(old(Abs()), id, cb, maxParallel)
      ensures maxParallel == old(maxParallel) && nextId == old(nextId)
      ensures held == old(held) && accepted == old(accepted)
    {
      ghost var join := Join(Abs(), id, cb);
      chans := chans[id := chans[id].(nref := chans[id].nref + 1)];
      hd := MakeHandle(Some(id));
      var c := chans[id];
      if c.status == Working {
        posted := posted + [Post(cb, c.ec, c.url2)];
      } else {
        chans := chans[id := c.(callBacks := c.callBacks + [Some(cb)])];
        hd := hd.(cancelToken := |chans[id].callBacks|);
      }
      assert Abs() == join.0 && hd == join.1;
      CheckParallel();
    }

    /** `start_channel(url, tcp_port, udp_port, call_back)`. `engine` is what
        `live_module_.start_channel` answers when it is called. */
    method StartChannel(url: string, tcp: nat, udp: nat, cb: CallbackId, engine: Option<EngineHandle>)
        returns (hd: ChannelHandle)
      requires Valid() && |url| >= 1
      modifies this
      ensures Valid()
      ensures StoppedHaveNoRid(old(Abs()))
      ensures (Abs(), hd) == Start(old(Abs()), url, RidOf(url), tcp, udp, cb, engine, old(nextId), old(maxParallel))
      ensures held == AddHeld(old(held), hd) && accepted == old(accepted) + [cb]
      ensures maxParallel == old(maxParallel) && nextId == old(nextId) + 1
    {
      ghost var p0 := Abs();
      StartKeeps(p0, url, RidOf(url), tcp, udp, cb, engine, nextId, maxParallel, held, accepted);
      hd := StartFrom(url, tcp, udp, cb, engine);
    }

    /** The body of `start_channel`, which the reconnection re-enters. */
    method StartFrom(url: string, tcp: nat, udp: nat, cb: CallbackId, engine: Option<EngineHandle>)
        returns (hd: ChannelHandle)
      requires Valid() && |url| >= 1
      modifies this
      ensures StoppedHaveNoRid(old(Abs()))
      ensures (Abs(), hd) == Start(old(Abs()), url, RidOf(url), tcp, udp, cb, engine, old(nextId), old(maxParallel))
      ensures held == AddHeld(old(held), hd) && accepted == old(accepted) + [cb]
      ensures maxParallel == old(maxParallel) && nextId == old(nextId) + 1
      decreases |Findable(Abs())|, 2
    {
      ghost var p0 := Abs();
      ShapeNoRid(p0);
      ValidListed(p0, held, accepted);
      var rid := RidOf(url);
      if rid == "" {
        ghost var r := StartIsNew(p0, url, rid, tcp, udp, cb, engine, nextId, maxParallel);
        posted := posted + [Post(cb, FailedSome, "")];
        hd := MakeHandle(None);
        held := AddHeld(held, hd);
        accepted := accepted + [cb];
        nextId := nextId + 1;
      } else {
        var i := FindChannel(rid);
        if i < |slots| && WantsReconnect(tcp, udp, chans[slots[i].value].tcpPort, chans[slots[i].value].udpPort) {
          hd := StartReconnect(url, rid, tcp, udp, cb, engine, i);
        } else if i < |slots| {
          hd := StartReuse(url, rid, tcp, udp, cb, engine, i);
        } else {
          hd := StartNew(url, rid, tcp, udp, cb, engine);
        }
      }
    }

    /** `start_channel` when a listed channel has the rid and the port hints
        differ from its own: stop it and start over. */
    method StartReconnect(url: string, rid: string, tcp: nat, udp: nat, cb: CallbackId, engine: Option<EngineHandle>, i: nat)
        returns (hd: ChannelHandle)
      requires Valid() && |url| >= 1 && rid == RidOf(url) != "" && i == FindRid(Abs(), rid) < |slots|
      requires WantsReconnect(tcp, udp, ChanAt(Abs(), i).tcpPort, ChanAt(Abs(), i).udpPort)
      modifies this
      ensures StoppedHaveNoRid(old(Abs()))
      ensures (Abs(), hd) == Start(old(Abs()), url, rid, tcp, udp, cb, engine, old(nextId), old(maxParallel))
      ensures held == AddHeld(old(held), hd) && accepted == old(accepted) + [cb]
      ensures maxParallel == old(maxParallel) && nextId == old(nextId) + 1
      decreases |Findable(Abs())|, 1
    {
      ghost var p0 := Abs();
      ShapeNoRid(p0);
      ghost var r := StartIsReconnect(p0, url, rid, tcp, udp, cb, engine, nextId, maxParallel, i);
      ReconnectKeeps(p0, i, nextId, held, accepted);
      Reconnect(i);
      hd := StartFrom(url, tcp, udp, cb, engine);
    }

    /** `start_channel` when a listed channel has the rid and no reconnection
        is asked for: reuse it with its expiry reset. */
    method StartReuse(url: string, rid: string, tcp: nat, udp: nat, cb: CallbackId, engine: Option<EngineHandle>, i: nat)
        returns (hd: ChannelHandle)
      requires Shape(Abs()) && |url| >= 1 && rid == RidOf(url) != "" && i == FindRid(Abs(), rid) < |slots|
      requires !WantsReconnect(tcp, udp, ChanAt(Abs(), i).tcpPort, ChanAt(Abs(), i).udpPort)
      modifies this
      ensures StoppedHaveNoRid(old(Abs()))
      ensures (Abs(), hd) == Start(old(Abs()), url, rid, tcp, udp, cb, engine, old(nextId), old(maxParallel))
      ensures held == AddHeld(old(held), hd) && accepted == old(accepted) + [cb]
      ensures maxParallel == old(maxParallel) && nextId == old(nextId) + 1
    {
      ghost var p0 := Abs();
      ShapeNoRid(p0);
      ghost var r := StartIsReuse(p0, url, rid, tcp, udp, cb, engine, nextId, maxParallel, i);
      hd := Reuse(i, cb);
      held := AddHeld(held, hd);
      accepted := accepted + [cb];
      nextId := nextId + 1;
    }

    /** The reconnection branch of `start_channel`: reset the expiry of the
        channel in slot i, stop it, and drop the nulled entries. */
    method Reconnect(i: nat)
      requires LiveSlot(Abs(), i)
      modifies this
      ensures Abs() == Reconnected(old(Abs()), i)
      ensures maxParallel == old(maxParallel) && nextId == old(nextId)
      ensures held == old(held) && accepted == old(accepted)
    {
      var id := slots[i].value;
      chans := chans[id := chans[id].(expire := 0)];
      StopChannelAt(i);
      slots := Compact(slots);
    }

    /** The reuse branch of `start_channel`: reset the expiry of the channel
        in slot i and subscribe the caller to it. */
    method Reuse(i: nat, cb: CallbackId) returns (hd: ChannelHandle)
      requires LiveSlot(Abs(), i)
      modifies this
      ensures var id := old(slots[i]).value;
        (Abs(), hd) == PoolModel.Subscribe(old(Abs()).(chans := old(chans)[id := old(chans)[id].(expire := 0)]), id, cb, maxParallel)
      ensures maxParallel == old(maxParallel) && nextId == old(nextId)
      ensures held == old(held) && accepted == old(accepted)
    {
      var id := slots[i].value;
      chans := chans[id := chans[id].(expire := 0)];
      hd := Subscribe(id, cb);
    }

    /** `start_channel` when no listed channel has the rid: ask the engine,
        and list a new channel at the back when it answers. */
    method StartNew(url: string, rid: string, tcp: nat, udp: nat, cb: CallbackId, engine: Option<EngineHandle>)
        returns (hd: ChannelHandle)
      requires Shape(Abs()) && rid != "" && FindRid(Abs(), rid) == |slots| && nextId !in chans
      modifies this
      ensures StoppedHaveNoRid(old(Abs()))
      ensures (Abs(), hd) == Start(old(Abs()), url, rid, tcp, udp, cb, engine, old(nextId), old(maxParallel))
      ensures held == AddHeld(old(held), hd) && accepted == old(accepted) + [cb]
      ensures maxParallel == old(maxParallel) && nextId == old(nextId) + 1
    {
      ghost var p0 := Abs();
      ShapeNoRid(p0);
      ghost var r := StartIsNew(p0, url, rid, tcp, udp, cb, engine, nextId, maxParallel);
      if engine.None? {
        posted := posted + [Post(cb, FailedSome, "")];
        hd := MakeHandle(None);
      } else {
        var id := nextId;
        chans := chans[id := Channel(url, rid, tcp, udp, 0, 0, engine, Started, Success, "", [])];
        slots := slots + [Some(id)];
        hd := Subscribe(id, cb);
      }
      held := AddHeld(held, hd);
      accepted := accepted + [cb];
      nextId := nextId + 1;
    }

    // ----- stop_channel(ChannelHandle &) ------------------------------------

    /** `stop_channel(ChannelHandle & handle)`: the caller gives its handle
        back; the handle comes back nulled. */
    method StopChannel(hd: ChannelHandle) returns (hd': ChannelHandle)
      requires Valid() && Owns(held, hd)
      modifies this
      ensures Valid()
      ensures (Abs(), hd') == StopHandle(old(Abs()), hd, old(maxParallel))
      ensures held == DropHeld(old(held), hd) && accepted == old(accepted)
      ensures maxParallel == old(maxParallel) && nextId == old(nextId)
    {
      ghost var p0 := Abs();
      StopKeeps(p0, hd, maxParallel, held, accepted, nextId);
      ghost var q := StopHandle(p0, hd, maxParallel).0;
      hd' := ReleaseHandle(hd);
      assert Abs() == q;
    }

    /** The body of `stop_channel(handle)`: abort the caller's own callback
        slot, drop the reference, move a channel that became idle to the
        front with a fresh grace period, then `check_parallel`. */
    method ReleaseHandle(hd: ChannelHandle) returns (hd': ChannelHandle)
      requires hd.channel.Some? ==> hd.channel.value in chans && chans[hd.channel.value].nref > 0
      modifies this
      ensures (Abs(), hd') == StopHandle(old(Abs()), hd, maxParallel)
      ensures maxParallel == old(maxParallel) && nextId == old(nextId)
      ensures held == DropHeld(old(held), hd) && accepted == old(accepted)
    {
      held := DropHeld(held, hd);
      hd' := hd.(channel := None);
      if hd.channel.None? {
        return;
      }
      Unref(hd.channel.value, hd.cancelToken);
      CheckParallel();
    }

    /** `stop_channel(handle)` up to `check_parallel`, for channel id and
        cancel token t. */
    method Unref(id: Id, t: nat)
      requires id in chans && chans[id].nref > 0
      modifies this
      ensures Abs() == Release(old(Abs()), id, t)
      ensures maxParallel == old(maxParallel) && nextId == old(nextId)
      ensures held == old(held) && accepted == old(accepted)
    {
      var c := chans[id];
      if t != 0 && t < |c.callBacks| + 1 {
        var slot := c.callBacks[t - 1];
        chans := chans[id := c.(callBacks := c.callBacks[t - 1 := None])];
        posted := posted + AbortPost(slot);
      }
      chans := chans[id := chans[id].(nref := chans[id].nref - 1)];
      if chans[id].nref == 0 && !IsStopped(chans[id]) {
        chans := chans[id := chans[id].(expire := GracePeriod)];
        slots := MoveToFront(slots, id);
      }
    }

    // ----- handle_start_channel -------------------------------------------

    /** `handle_start_channel(channel, ec, url)`: the engine answers the
        start of channel id. */
    method HandleStartChannel(id: Id, ec: ErrorCode, url: string)
      requires Valid() && AwaitsEngine(Abs(), id)
      modifies this
      ensures Valid()
      ensures Abs() == HandleStart(old(Abs()), id, ec, url)
      ensures maxParallel == old(maxParallel) && nextId == old(nextId)
      ensures held == old(held) && accepted == old(accepted)
    {
      HandleStartKeeps(Abs(), id, ec, url, held, accepted, nextId);
      Answer(id, ec, url);
    }

    /** The body of `handle_start_channel`: ignore a channel no longer
        listed; tear down one cancelled meanwhile; otherwise mark it working
        and answer its callbacks. */
    method Answer(id: Id, ec: ErrorCode, url: string)
      modifies this
      ensures Abs() == HandleStart(old(Abs()), id, ec, url)
      ensures maxParallel == old(maxParallel) && nextId == old(nextId)
      ensures held == old(held) && accepted == old(accepted)
    {
      var i := IndexOf(slots, Some(id));
      if i == |slots| || id !in chans {
        return;
      }
      if chans[id].status == Cancel {
        chans := chans[id := chans[id].(status := Stopped)];
        StopChannelAt(i);
        slots := Compact(slots);
      } else {
        chans := chans[id := chans[id].(status := Working)];
        ResponseChannel(id, ec, url);
      }
    }

    // ----- handle_timer -----------------------------------------------------

    /** `handle_timer`, once a second while the daemon runs. `failed` is what
        `live_module_.check_channels` reports. Returns whether the timer is
        re-armed. */
    method HandleTimer(daemonStarted: bool, failed: seq<EngineHandle>) returns (rearmed: bool)
      requires Valid()
      modifies this
      ensures Valid()
      ensures (Abs(), rearmed) == PoolModel.HandleTimer(old(Abs()), daemonStarted, failed)
      ensures maxParallel == old(maxParallel) && nextId == old(nextId)
      ensures held == old(held) && accepted == old(accepted)
    {
      HandleTimerKeeps(Abs(), daemonStarted, failed, held, accepted, nextId);
      rearmed := Tick(daemonStarted, failed);
    }

    /** The body of `handle_timer`. */
    method Tick(daemonStarted: bool, failed: seq<EngineHandle>) returns (rearmed: bool)
      modifies this
      ensures (Abs(), rearmed) == PoolModel.HandleTimer(old(Abs()), daemonStarted, failed)
      ensures maxParallel == old(maxParallel) && nextId == old(nextId)
      ensures held == old(held) && accepted == old(accepted)
    {
      if !daemonStarted {
        return false;
      }
      if |failed| != 0 {
        StopFailed(failed);
      }
      ExpireIdle();
      slots := Compact(slots);
      rearmed := true;
    }

    /** The failure scan of `handle_timer`: partition the channels before the
        first cancelled/stopped one, not-failed first, and stop the failed ones. */
    method StopFailed(failed: seq<EngineHandle>)
      modifies this
      ensures Abs() == FailScan(old(Abs()), failed)
      ensures maxParallel == old(maxParallel) && nextId == old(nextId)
      ensures held == old(held) && accepted == old(accepted)
    {
      ghost var p0 := Abs();
      var we := FirstStopped(Pool(slots, chans, posted, stops));
      var kept := SelectFailed(slots[..we], chans, failed, false);
      var bad := SelectFailed(slots[..we], chans, failed, true);
      SelectFailedSplit(slots[..we], chans, failed);
      slots := kept + bad + slots[we..];
      ghost var q := Abs();
      var k := |kept|;
      while k < we
        invariant |kept| <= k <= we <= |slots| == |q.slots|
        invariant StopRange(Abs(), k, we) == StopRange(q, |kept|, we)
        invariant maxParallel == old(maxParallel) && nextId == old(nextId)
        invariant held == old(held) && accepted == old(accepted)
      {
        StopChannelAt(k);
        k := k + 1;
      }
    }

    /** The expiry loop of `handle_timer`: an unreferenced channel loses a
        second of its grace period and is stopped when it reaches 0. */
    method ExpireIdle()
      modifies this
      ensures Abs() == ExpireFrom(old(Abs()), 0)
      ensures maxParallel == old(maxParallel) && nextId == old(nextId)
      ensures held == old(held) && accepted == old(accepted)
    {
      ghost var p0 := Abs();
      var i := 0;
      while i < |slots|
        invariant i <= |slots| == |p0.slots|
        invariant ExpireFrom(Abs(), i) == ExpireFrom(p0, 0)
        invariant maxParallel == old(maxParallel) && nextId == old(nextId)
        invariant held == old(held) && accepted == old(accepted)
      {
        if slots[i].Some? && slots[i].value in chans && chans[slots[i].value].nref == 0 {
          var id := slots[i].value;
          var e := Dec32(chans[id].expire);
          chans := chans[id := chans[id].(expire := e)];
          if e == 0 {
            StopChannelAt(i);
          }
        }
        i := i + 1;
      }
    }

    // ----- shutdown / set_max_parallel --------------------------------------

    /** `shutdown`: stop every channel, then drop the nulled entries. */
    method Shutdown()
      requires Valid()
      modifies this
      ensures Valid()
      ensures Abs() == PoolModel.Shutdown(old(Abs()))
      ensures maxParallel == old(maxParallel) && nextId == old(nextId)
      ensures held == old(held) && accepted == old(accepted)
    {
      ShutdownKeeps(Abs(), held, accepted, nextId);
      StopAll();
    }

    /** The body of `shutdown`. */
    method StopAll()
      modifies this
      ensures Abs() == PoolModel.Shutdown(old(Abs()))
      ensures maxParallel == old(maxParallel) && nextId == old(nextId)
      ensures held == old(held) && accepted == old(accepted)
    {
      ghost var p0 := Abs();
      var i := 0;
      while i < |slots|
        invariant i <= |slots| == |p0.slots|
        invariant StopRange(Abs(), i, |slots|) == StopRange(p0, 0, |p0.slots|)
        invariant maxParallel == old(maxParallel) && nextId == old(nextId)
        invariant held == old(held) && accepted == old(accepted)
      {
        StopChannelAt(i);
        i := i + 1;
      }
      slots := Compact(slots);
    }

    /** `set_max_parallel(max_parallel)`: a changed limit re-runs `check_parallel`. */
    method SetMaxParallel(m: nat)
      requires Valid()
      modifies this
      ensures Valid()
      ensures (Abs(), maxParallel) == PoolModel.SetMaxParallel(old(Abs()), old(maxParallel), m)
      ensures nextId == old(nextId) && held == old(held) && accepted == old(accepted)
    {
      SetMaxParallelKeeps(Abs(), maxParallel, m, held, accepted, nextId);
      if maxParallel != m {
        maxParallel := m;
        CheckParallel();
      }
    }
  }
}
