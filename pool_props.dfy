/** What each pool operation does, stated against the source's promises:
    the branches of `start_channel`, the consumption of a handle by
    `stop_channel`, the state machine of the internal stop and of the engine's
    completion, the timer sweep and `shutdown`. */
module PoolProps {
  import opened Common
  import opened LiveManagerTypes
  import opened PoolModel
  import opened PoolInvariant
  import opened PoolCheck
  import opened PoolOps

  // ----- the queue and the engine stops only grow --------------------------

  lemma StopAtGrows(p: Pool, i: nat)
    requires i < |p.slots|
    ensures p.posted <= StopAt(p, i).posted && p.stops <= StopAt(p, i).stops
  {
    if LiveSlot(p, i) && ChanAt(p, i).status == Started {
      StopAtStarted(p, i);
    }
  }

  lemma {:induction false} CheckFromGrows(p: Pool, i: nat, left: int, found: int)
    requires i <= |p.slots|
    ensures p.posted <= CheckFrom(p, i, left, found).posted
    ensures p.stops <= CheckFrom(p, i, left, found).stops
    decreases |p.slots| - i
  {
    if i < |p.slots| {
      CheckFromStep(p, i, left, found);
      var q := if StepStops(p, i, left, found) then StopAt(p, i) else p;
      if StepStops(p, i, left, found) {
        StopAtGrows(p, i);
      }
      CheckFromGrows(q, i + 1, left, StepFound(p, i, found));
    }
  }

  /** `check_parallel` only adds to the queue and to the engine stops. */
  lemma CheckParallelGrows(p: Pool, maxParallel: nat)
    ensures p.posted <= CheckParallel(p, maxParallel).posted
    ensures p.stops <= CheckParallel(p, maxParallel).stops
  {
    CheckFromGrows(p, 0, LeftSize(maxParallel, CountWorking(p.slots, p.chans)), 0);
  }

  // ----- start_channel ---------------------------------------------------

  /** An empty rid: `failed_some` with an empty url is posted, a null handle
      returned, and the list and the channels are left alone. */
  lemma StartEmptyRid(p: Pool, url: string, tcp: nat, udp: nat, cb: CallbackId,
                      engine: Option<EngineHandle>, newId: Id, maxParallel: nat)
    requires StoppedHaveNoRid(p)
    ensures var (q, hd) := Start(p, url, "", tcp, udp, cb, engine, newId, maxParallel);
      && hd.channel.None? && hd.cancelToken == 0
      && q.slots == p.slots && q.chans == p.chans && q.stops == p.stops
      && q.posted == p.posted + [Post(cb, FailedSome, "")]
  {
  }

  /** A rid that names no channel and an engine that refuses to start:
      `failed_some` is posted and nothing is inserted. */
  lemma StartRefused(p: Pool, url: string, rid: string, tcp: nat, udp: nat, cb: CallbackId,
                     newId: Id, maxParallel: nat)
    requires StoppedHaveNoRid(p) && rid != "" && FindRid(p, rid) == |p.slots|
    ensures var (q, hd) := Start(p, url, rid, tcp, udp, cb, None, newId, maxParallel);
      && hd.channel.None? && hd.cancelToken == 0
      && q.slots == p.slots && q.chans == p.chans && q.stops == p.stops
      && q.posted == p.posted + [Post(cb, FailedSome, "")]
  {
    var r := StartIsNew(p, url, rid, tcp, udp, cb, None, newId, maxParallel);
  }

  /** A lookup by a non-empty rid only ever finds a started or working
      channel: cancelled and stopped ones have given up their rid. */
  lemma FindRidLive(p: Pool, rid: string)
    requires Shape(p) && rid != "" && FindRid(p, rid) < |p.slots|
    ensures ChanAt(p, FindRid(p, rid)).status == Started || ChanAt(p, FindRid(p, rid)).status == Working
  {
    assert ChannelOk(ChanAt(p, FindRid(p, rid)));
  }

  /** Subscribing to a channel: the handle names it with the token `Join`
      hands out, and `check_parallel` leaves the channel as `Join` made it,
      since it is now held; the post of a working channel is in the queue. */
  lemma SubscribeHeld(p: Pool, id: Id, cb: CallbackId, maxParallel: nat)
    requires Distinct(p.slots) && id in p.chans
    ensures var (q, hd) := Subscribe(p, id, cb, maxParallel);
      && hd == ChannelHandle(Some(id), JoinToken(p.chans[id]))
      && id in q.chans && q.chans[id] == Joined(p.chans[id], cb)
      && p.posted + JoinPost(p.chans[id], cb) <= q.posted
  {
    var q0 := Join(p, id, cb).0;
    assert q0.slots == p.slots && q0.chans[id] == Joined(p.chans[id], cb);
    assert q0.posted == p.posted + JoinPost(p.chans[id], cb);
    CheckParallelKeeps(q0, maxParallel);
    CheckParallelGrows(q0, maxParallel);
  }

  /** Reuse of the first channel answering to the rid: its expiry is reset,
      it gains exactly one reference, a working channel answers at once with
      its cached result (token 0), any other queues the callback and hands out
      the 1-based position of its slot; `check_parallel` leaves the channel
      alone since it is now held. */
  lemma StartReuse(p: Pool, url: string, rid: string, tcp: nat, udp: nat, cb: CallbackId,
                   engine: Option<EngineHandle>, newId: Id, maxParallel: nat)
    requires Shape(p) && rid != "" && FindRid(p, rid) < |p.slots|
    requires !WantsReconnect(tcp, udp, ChanAt(p, FindRid(p, rid)).tcpPort, ChanAt(p, FindRid(p, rid)).udpPort)
    ensures StoppedHaveNoRid(p)
    ensures var id := p.slots[FindRid(p, rid)].value;
      var c := p.chans[id];
      var (q, hd) := Start(p, url, rid, tcp, udp, cb, engine, newId, maxParallel);
      && hd.channel == Some(id) && id in q.chans
      && q.chans[id].nref == c.nref + 1 && q.chans[id].expire == 0
      && q.chans[id].status == c.status && q.chans[id].rid == rid
      && (c.status == Working ==>
            hd.cancelToken == 0 && q.chans[id].callBacks == c.callBacks
            && p.posted + [Post(cb, c.ec, c.url2)] <= q.posted)
      && (c.status != Working ==>
            hd.cancelToken == |c.callBacks| + 1 && q.chans[id].callBacks == c.callBacks + [Some(cb)]
            && q.chans[id].callBacks[hd.cancelToken - 1] == Some(cb) && p.posted <= q.posted)
  {
    ShapeNoRid(p);
    var i := FindRid(p, rid);
    var id := p.slots[i].value;
    var r := StartIsReuse(p, url, rid, tcp, udp, cb, engine, newId, maxParallel, i);
    var p1 := p.(chans := p.chans[id := p.chans[id].(expire := 0)]);
    SubscribeHeld(p1, id, cb, maxParallel);
  }

  /** A rid that names no channel, and an engine that starts one: a new
      started channel holding only the caller's callback (token 1) is appended
      at the back; what `check_parallel` then keeps of the list stays in order. */
  lemma StartCreate(p: Pool, url: string, rid: string, tcp: nat, udp: nat, cb: CallbackId,
                    eh: EngineHandle, newId: Id, maxParallel: nat)
    requires Shape(p) && newId !in p.chans && rid != "" && FindRid(p, rid) == |p.slots|
    ensures StoppedHaveNoRid(p)
    ensures var (q, hd) := Start(p, url, rid, tcp, udp, cb, Some(eh), newId, maxParallel);
      && hd == ChannelHandle(Some(newId), 1)
      && newId in q.chans
      && q.chans[newId] == Channel(url, rid, tcp, udp, 1, 0, Some(eh), Started, Success, "", [Some(cb)])
      && Some(newId) in q.slots && Subseq(q.slots, p.slots + [Some(newId)])
      && p.posted <= q.posted
  {
    ShapeNoRid(p);
    var r := StartIsNew(p, url, rid, tcp, udp, cb, Some(eh), newId, maxParallel);
    var c := Channel(url, rid, tcp, udp, 0, 0, Some(eh), Started, Success, "", []);
    var p1 := p.(chans := p.chans[newId := c], slots := p.slots + [Some(newId)]);
    CreateOrder(p, c, newId, cb, maxParallel);
  }

  lemma CreateOrder(p: Pool, c: Channel, newId: Id, cb: CallbackId, maxParallel: nat)
    requires Distinct(p.slots) && Some(newId) !in p.slots
    ensures var p1 := p.(chans := p.chans[newId := c], slots := p.slots + [Some(newId)]);
      var (q, hd) := Subscribe(p1, newId, cb, maxParallel);
      && hd == ChannelHandle(Some(newId), JoinToken(c))
      && newId in q.chans && q.chans[newId] == Joined(c, cb)
      && Some(newId) in q.slots && Subseq(q.slots, p1.slots) && p.posted <= q.posted
  {
    var p1 := p.(chans := p.chans[newId := c], slots := p.slots + [Some(newId)]);
    assert Distinct(p1.slots) by {
      DistinctConcat(p.slots, [Some(newId)]);
    }
    SubscribeHeld(p1, newId, cb, maxParallel);
    CheckParallelKeeps(Join(p1, newId, cb).0, maxParallel);
  }

  /** After the reconnection step no live channel answers to the rid: the
      old channel gave it up and rids were unique. */
  lemma ReconnectForgetsRid(p: Pool, i: nat)
    requires Shape(p) && LiveSlot(p, i) && ChanAt(p, i).rid != ""
    ensures FindRid(Reconnected(p, i), ChanAt(p, i).rid) == |Reconnected(p, i).slots|
  {
    var id := p.slots[i].value;
    var rid := ChanAt(p, i).rid;
    var p1 := p.(chans := p.chans[id := p.chans[id].(expire := 0)]);
    assert ChannelOk(p.chans[id]) && !IsStopped(p.chans[id]);
    StopAtOthers(p1, i);
    StopAtSelf(p1, i);
  }

  /** The old channel of a reconnection: cancelled when it was started,
      stopped (and deleted when nobody holds it) when it was working, its rid
      cleared and its references kept. */
  lemma ReconnectOldChannel(p: Pool, i: nat)
    requires Shape(p) && LiveSlot(p, i) && ChanAt(p, i).rid != ""
    ensures var id := p.slots[i].value;
      var c := p.chans[id];
      var r := Reconnected(p, i);
      && (c.nref > 0 || c.status == Started ==> id in r.chans)
      && (c.nref == 0 && c.status == Working ==> id !in r.chans)
      && (id in r.chans ==> IsStopped(r.chans[id]) && r.chans[id].rid == "" && r.chans[id].nref == c.nref)
  {
    var id := p.slots[i].value;
    var p1 := p.(chans := p.chans[id := p.chans[id].(expire := 0)]);
    assert ChannelOk(p.chans[id]) && !IsStopped(p.chans[id]);
    assert LiveSlot(p1, i) && ChanAt(p1, i) == p.chans[id].(expire := 0);
    StopAtSelf(p1, i);
  }

  /** The reconnection path: the call starts over with a brand-new channel
      for the same rid; the handle is null only when the engine refuses. */
  lemma StartReconnect(p: Pool, url: string, rid: string, tcp: nat, udp: nat, cb: CallbackId,
                       engine: Option<EngineHandle>, newId: Id, maxParallel: nat, h: Held, accepted: seq<CallbackId>)
    requires Valid(p, h, accepted) && newId !in p.chans && rid != "" && FindRid(p, rid) < |p.slots|
    requires WantsReconnect(tcp, udp, ChanAt(p, FindRid(p, rid)).tcpPort, ChanAt(p, FindRid(p, rid)).udpPort)
    ensures StoppedHaveNoRid(p)
    ensures var (q, hd) := Start(p, url, rid, tcp, udp, cb, engine, newId, maxParallel);
      && (engine.Some? ==> hd == ChannelHandle(Some(newId), 1) && newId in q.chans && q.chans[newId].rid == rid)
      && (engine.None? ==> hd.channel.None?)
  {
    ShapeNoRid(p);
    var i := FindRid(p, rid);
    var r := StartIsReconnect(p, url, rid, tcp, udp, cb, engine, newId, maxParallel, i);
    var p3 := Reconnected(p, i);
    ReconnectForgetsRid(p, i);
    ReconnectValid(p, i, newId, h, accepted);
    if engine.Some? {
      StartCreate(p3, url, rid, tcp, udp, cb, engine.value, newId, maxParallel);
    } else {
      StartRefused(p3, url, rid, tcp, udp, cb, newId, maxParallel);
    }
  }
  // ----- stop_channel(ChannelHandle &) ----------------------------------

  lemma {:induction false} RemoveAllSubseq<T(!new)>(s: seq<T>, x: T)
    ensures Subseq(RemoveAll(s, x), s)
  {
    if s != [] {
      RemoveAllSubseq(s[1..], x);
      if s[0] == x {
        assert RemoveAll(s, x) == RemoveAll(s[1..], x);
        SubseqSkip(RemoveAll(s, x), s);
      } else {
        assert RemoveAll(s, x) == [s[0]] + RemoveAll(s[1..], x);
        assert RemoveAll(s, x)[1..] == RemoveAll(s[1..], x);
      }
    }
  }

  /** Dropping a handle on channel id with token t: only slot t - 1 is
      emptied, and only when 1 <= t <= the number of slots; its callback, when
      there was one, is posted with `operation_aborted`; `nref` drops by one;
      a channel that becomes idle and is not being torn down gets a fresh grace
      period and moves to the front, the other entries keeping their order;
      nothing else changes. */
  lemma ReleaseEffect(p: Pool, id: Id, t: nat)
    requires id in p.chans && p.chans[id].nref > 0
    ensures var c := p.chans[id];
      var r := Release(p, id, t);
      var mine := 1 <= t <= |c.callBacks|;
      && r.chans.Keys == p.chans.Keys && r.stops == p.stops
      && (forall x :: x in p.chans && x != id ==> r.chans[x] == p.chans[x])
      && r.chans[id].nref == c.nref - 1
      && r.chans[id].status == c.status && r.chans[id].rid == c.rid && r.chans[id].handle == c.handle
      && |r.chans[id].callBacks| == |c.callBacks|
      && (forall k :: 0 <= k < |c.callBacks| ==>
            r.chans[id].callBacks[k] == if k + 1 == t then None else c.callBacks[k])
      && r.posted == p.posted + (if mine && c.callBacks[t - 1].Some?
                                 then [Post(c.callBacks[t - 1].value, OperationAborted, "")] else [])
      && (c.nref == 1 && !IsStopped(c) ==>
            && r.chans[id].expire == GracePeriod
            && r.slots[0] == Some(id) && Subseq(r.slots[1..], p.slots)
            && (forall y :: y in r.slots[1..] <==> y in p.slots && y != Some(id)))
      && (!(c.nref == 1 && !IsStopped(c)) ==> r.slots == p.slots && r.chans[id].expire == c.expire)
  {
    var c := p.chans[id];
    if c.nref == 1 && !IsStopped(c) {
      var r := Release(p, id, t);
      assert r.slots == MoveToFront(p.slots, id);
      assert r.slots[1..] == RemoveAll(p.slots, Some(id));
      RemoveAllSubseq(p.slots, Some(id));
    }
  }

  /** `stop_channel` consumes the handle: it comes back null, so a second
      call with it changes nothing. */
  lemma StopHandleConsumes(p: Pool, hd: ChannelHandle, maxParallel: nat)
    requires hd.channel.Some? ==> hd.channel.value in p.chans && p.chans[hd.channel.value].nref > 0
    ensures var (q, hd') := StopHandle(p, hd, maxParallel);
      && hd'.channel.None?
      && StopHandle(q, hd', maxParallel) == (q, hd')
      && (hd.channel.None? ==> q == p)
  {
  }

  // ----- the internal stop_channel and handle_start_channel --------------

  /** The internal stop, by status: a started channel is cancelled (not
      stopped), its pending callbacks posted with `operation_aborted` in order
      and its engine session stopped; a working one is stopped, its session
      released and deleted exactly when nobody holds it; a cancelled one is
      left alone; a stopped one is deleted when nobody holds it. */
  lemma StopAtEffect(p: Pool, i: nat)
    requires Shape(p) && LiveSlot(p, i)
    ensures var c := ChanAt(p, i);
      var id := p.slots[i].value;
      var r := StopAt(p, i);
      && (c.status == Started ==>
            && id in r.chans
            && r.chans[id] == c.(status := Cancel, ec := OperationAborted, url2 := "", callBacks := [], handle := None, rid := "")
            && r.posted == p.posted + Flush(c.callBacks, OperationAborted, "")
            && r.stops == p.stops + [c.handle.value])
      && (c.status == Working ==>
            && r.posted == p.posted && r.stops == p.stops + [c.handle.value]
            && (id in r.chans <==> c.nref > 0)
            && (id in r.chans ==> r.chans[id] == c.(status := Stopped, handle := None, rid := "")))
      && (c.status == Cancel ==> r == p)
      && (c.status == Stopped ==>
            && r.posted == p.posted && r.stops == p.stops
            && (id in r.chans <==> c.nref > 0)
            && (id in r.chans ==> r.chans[id] == c))
  {
    var c := ChanAt(p, i);
    assert ChannelOk(c);
    StopAtSelf(p, i);
    if c.status == Started {
      StopAtStarted(p, i);
    }
  }

  /** The engine's answer for a channel that was cancelled meanwhile: it is
      stopped, and deleted exactly when nobody holds it; nothing is posted. */
  lemma HandleStartCancelled(p: Pool, id: Id, ec: ErrorCode, url: string)
    requires Shape(p) && id in p.chans && p.chans[id].status == Cancel
    ensures var c := p.chans[id];
      var r := HandleStart(p, id, ec, url);
      && (id in r.chans <==> c.nref > 0)
      && (id in r.chans ==> r.chans[id] == c.(status := Stopped))
      && r.posted == p.posted && r.stops == p.stops
  {
    var c := p.chans[id];
    var i := IndexOf(p.slots, Some(id));
    assert ChannelOk(c);
    var p1 := p.(chans := p.chans[id := c.(status := Stopped)]);
    assert LiveSlot(p1, i) && ChanAt(p1, i) == c.(status := Stopped);
    StopAtSelf(p1, i);
  }

  /** The engine's answer for a started channel: it becomes working whatever
      the error code, caches the result, and posts every pending callback with
      that result, once and in order; the list is unchanged. */
  lemma HandleStartWorking(p: Pool, id: Id, ec: ErrorCode, url: string)
    requires Shape(p) && id in p.chans && p.chans[id].status == Started
    ensures var c := p.chans[id];
      var r := HandleStart(p, id, ec, url);
      && id in r.chans
      && r.chans[id] == c.(status := Working, ec := ec, url2 := url, callBacks := [])
      && r.posted == p.posted + Flush(c.callBacks, ec, url)
      && CallbacksOf(r.posted[|p.posted|..]) == Somes(c.callBacks)
      && r.slots == p.slots && r.stops == p.stops
  {
    var c := p.chans[id];
    var r := HandleStart(p, id, ec, url);
    assert IndexOf(p.slots, Some(id)) < |p.slots|;
    assert r.posted[|p.posted|..] == Flush(c.callBacks, ec, url);
    FlushCallbacks(c.callBacks, ec, url);
  }

  /** An answer for a channel that is gone changes nothing. */
  lemma HandleStartGone(p: Pool, id: Id, ec: ErrorCode, url: string)
    requires id !in p.chans
    ensures HandleStart(p, id, ec, url) == p
  {
  }

  // ----- handle_timer ---------------------------------------------------

  /** With the daemon not started the tick does nothing and the timer is not re-armed. */
  lemma TimerNotStarted(p: Pool, failed: seq<EngineHandle>)
    ensures HandleTimer(p, false, failed) == (p, false)
  {
  }

  /** With the daemon started the timer is re-armed and no nulled entry is left. */
  lemma TimerRearms(p: Pool, failed: seq<EngineHandle>)
    ensures HandleTimer(p, true, failed).1 && None !in HandleTimer(p, true, failed).0.slots
  {
  }

  lemma DistinctAfter(s: seq<Option<Id>>, i: nat, x: Id)
    requires Distinct(s) && i < |s| && s[i] == Some(x)
    ensures Some(x) !in s[i + 1..]
  {
    forall j | i + 1 <= j < |s|
      ensures s[j] != Some(x)
    {
      DistinctAt(s, i, j);
    }
  }

  lemma {:induction false} ExpireFromKeys(p: Pool, i: nat)
    requires i <= |p.slots|
    ensures ExpireFrom(p, i).chans.Keys <= p.chans.Keys
    decreases |p.slots| - i
  {
    if i < |p.slots| {
      if LiveSlot(p, i) && ChanAt(p, i).nref == 0 {
        var id := p.slots[i].value;
        var e := Dec32(p.chans[id].expire);
        var p1 := p.(chans := p.chans[id := p.chans[id].(expire := e)]);
        if e == 0 {
          StopAtKeys(p1, i);
          ExpireFromKeys(StopAt(p1, i), i + 1);
        } else {
          ExpireFromKeys(p1, i + 1);
        }
      } else {
        ExpireFromKeys(p, i + 1);
      }
    }
  }

  lemma StopAtKeys(p: Pool, i: nat)
    requires i < |p.slots|
    ensures StopAt(p, i).chans.Keys <= p.chans.Keys && StopAt(p, i).slots[..i] == p.slots[..i]
    ensures forall j :: i < j < |p.slots| ==> StopAt(p, i).slots[j] == p.slots[j]
  {
    if LiveSlot(p, i) && ChanAt(p, i).status == Started {
      StopAtStarted(p, i);
    }
  }

  /** What the expiry sweep from index i does to channel x: a held channel,
      or one not listed from i on, is untouched; an idle one has its 32-bit
      expiry decremented and, when that reaches 0, goes through the internal
      stop, after which it is either gone or cancelled. */
  ghost predicate ExpiredAs(p: Pool, i: nat, x: Id, r: Pool)
    requires i <= |p.slots| && x in p.chans
  {
    var c := p.chans[x];
    && (Some(x) !in p.slots[i..] || c.nref > 0 ==> x in r.chans && r.chans[x] == c)
    && (Some(x) in p.slots[i..] && c.nref == 0 && Dec32(c.expire) != 0 ==>
          x in r.chans && r.chans[x] == c.(expire := Dec32(c.expire)))
    && (Some(x) in p.slots[i..] && c.nref == 0 && Dec32(c.expire) == 0 ==>
          x !in r.chans || r.chans[x].status == Cancel)
  }

  /** The expiry sweep, for one channel x. */
  lemma {:induction false} ExpireFromOne(p: Pool, i: nat, x: Id)
    requires i <= |p.slots| && Distinct(p.slots) && x in p.chans
    ensures ExpiredAs(p, i, x, ExpireFrom(p, i))
    decreases |p.slots| - i, 1
  {
    if i < |p.slots| {
      assert p.slots[i..] == [p.slots[i]] + p.slots[i + 1..];
      if !LiveSlot(p, i) || ChanAt(p, i).nref != 0 {
        ExpireFromOne(p, i + 1, x);
      } else if p.slots[i] == Some(x) {
        ExpireHit(p, i, x);
      } else {
        ExpireMiss(p, i, x);
      }
    }
  }

  /** The sweep reaching x's own entry: x is not listed again later. */
  lemma {:induction false} ExpireHit(p: Pool, i: nat, x: Id)
    requires i < |p.slots| && Distinct(p.slots) && x in p.chans
    requires p.slots[i] == Some(x) && p.chans[x].nref == 0
    ensures ExpiredAs(p, i, x, ExpireFrom(p, i))
    decreases |p.slots| - i, 0
  {
    assert p.slots[i..] == [p.slots[i]] + p.slots[i + 1..];
    var e := Dec32(p.chans[x].expire);
    var p1 := p.(chans := p.chans[x := p.chans[x].(expire := e)]);
    assert LiveSlot(p1, i) && ChanAt(p1, i) == p.chans[x].(expire := e);
    DistinctAfter(p.slots, i, x);
    if e == 0 {
      var p2 := StopAt(p1, i);
      StopAtOthers(p1, i);
      StopAtSelf(p1, i);
      if x in p2.chans {
        ExpireFromOne(p2, i + 1, x);
      } else {
        ExpireFromKeys(p2, i + 1);
      }
    } else {
      ExpireFromOne(p1, i + 1, x);
    }
  }

  /** The sweep expiring some other idle channel at index i. */
  lemma {:induction false} ExpireMiss(p: Pool, i: nat, x: Id)
    requires i < |p.slots| && Distinct(p.slots) && x in p.chans
    requires LiveSlot(p, i) && ChanAt(p, i).nref == 0 && p.slots[i] != Some(x)
    ensures ExpiredAs(p, i, x, ExpireFrom(p, i))
    decreases |p.slots| - i, 0
  {
    assert p.slots[i..] == [p.slots[i]] + p.slots[i + 1..];
    var id := p.slots[i].value;
    var e := Dec32(p.chans[id].expire);
    var p1 := p.(chans := p.chans[id := p.chans[id].(expire := e)]);
    if e == 0 {
      var p2 := StopAt(p1, i);
      StopAtOthers(p1, i);
      assert p2.slots[i + 1..] == p.slots[i + 1..];
      ExpireFromOne(p2, i + 1, x);
    } else {
      ExpireFromOne(p1, i + 1, x);
    }
  }

  lemma {:induction false} StopRangeKeys(p: Pool, a: nat, b: nat)
    requires a <= b <= |p.slots|
    ensures StopRange(p, a, b).chans.Keys <= p.chans.Keys
    ensures forall j :: 0 <= j < |p.slots| && (j < a || j >= b) ==> StopRange(p, a, b).slots[j] == p.slots[j]
    decreases b - a
  {
    if a < b {
      StopAtKeys(p, a);
      StopRangeKeys(StopAt(p, a), a + 1, b);
    }
  }

  /** The internal stop of the entries a .. b - 1, for one channel x: one not
      listed there is untouched; one listed there ends cancelled or stopped,
      or deleted, and never deleted while held. */
  lemma {:induction false} StopRangeOne(p: Pool, a: nat, b: nat, x: Id)
    requires a <= b <= |p.slots| && Distinct(p.slots) && x in p.chans
    ensures var r := StopRange(p, a, b);
      && (Some(x) !in p.slots[a..b] ==> x in r.chans && r.chans[x] == p.chans[x])
      && (Some(x) in p.slots[a..b] && x in r.chans ==> IsStopped(r.chans[x]))
      && (Some(x) in p.slots[a..b] && p.chans[x].nref > 0 ==> x in r.chans)
    decreases b - a
  {
    if a < b {
      var p2 := StopAt(p, a);
      assert p.slots[a..b] == [p.slots[a]] + p.slots[a + 1..b];
      StopAtOthers(p, a);
      if p.slots[a] == Some(x) {
        StopAtSelf(p, a);
        assert Some(x) !in p2.slots[a + 1..b] by {
          assert p2.slots[a + 1..b] == p.slots[a + 1..b];
          forall j | a + 1 <= j < b
            ensures p.slots[j] != Some(x)
          {
            DistinctAt(p.slots, a, j);
          }
        }
        if x in p2.chans {
          StopRangeOne(p2, a + 1, b, x);
        } else {
          StopRangeKeys(p2, a + 1, b);
        }
      } else {
        assert p2.slots[a + 1..b] == p.slots[a + 1..b];
        StopRangeOne(p2, a + 1, b, x);
      }
    }
  }

  /** The failure scan as the internal stop of the failed block of the
      reordered list. */
  lemma FailScanIs(p: Pool, failed: seq<EngineHandle>)
    ensures var we := FirstStopped(p);
      var pre := p.slots[..we];
      var kept := SelectFailed(pre, p.chans, failed, false);
      var bad := SelectFailed(pre, p.chans, failed, true);
      && |kept| + |bad| == we
      && FailScan(p, failed) == StopRange(p.(slots := kept + bad + p.slots[we..]), |kept|, we)
  {
    SelectFailedSplit(p.slots[..FirstStopped(p)], p.chans, failed);
  }

  /** The failure scan's list: the prefix before the first cancelled/stopped
      channel is split into its not-failed entries, then its failed ones,
      each group in its old order; the rest is unchanged; no channel is
      added. */
  lemma FailScanSlots(p: Pool, failed: seq<EngineHandle>)
    ensures var we := FirstStopped(p);
      var kept := SelectFailed(p.slots[..we], p.chans, failed, false);
      var r := FailScan(p, failed);
      && |r.slots| == |p.slots| && |kept| <= we
      && r.chans.Keys <= p.chans.Keys
      && r.slots[..|kept|] == kept
      && r.slots[we..] == p.slots[we..]
  {
    var we := FirstStopped(p);
    var pre := p.slots[..we];
    var kept := SelectFailed(pre, p.chans, failed, false);
    var bad := SelectFailed(pre, p.chans, failed, true);
    FailScanIs(p, failed);
    var q := p.(slots := kept + bad + p.slots[we..]);
    FailScanSlotsOf(q, kept, p.slots[we..], we);
  }

  lemma FailScanSlotsOf(q: Pool, kept: seq<Option<Id>>, rest: seq<Option<Id>>, we: nat)
    requires |kept| <= we <= |q.slots| && q.slots[..|kept|] == kept && q.slots[we..] == rest
    ensures var r := StopRange(q, |kept|, we);
      r.chans.Keys <= q.chans.Keys && r.slots[..|kept|] == kept && r.slots[we..] == rest
  {
    StopRangeKeys(q, |kept|, we);
    var r := StopRange(q, |kept|, we);
    assert r.slots[..|kept|] == kept by {
      forall k | 0 <= k < |kept| ensures r.slots[k] == kept[k] {
        assert q.slots[k] == kept[k];
      }
    }
    assert r.slots[we..] == rest by {
      forall k | we <= k < |q.slots| ensures r.slots[k] == q.slots[k] {
      }
    }
  }

  /** The failure scan, for one channel x: one that is not failed, or not in
      the prefix before the first cancelled/stopped channel, is untouched; a
      failed one in that prefix ends cancelled, stopped or deleted, and is
      not deleted while held. */
  lemma FailScanOne(p: Pool, failed: seq<EngineHandle>, x: Id)
    requires Shape(p) && x in p.chans
    ensures var pre := p.slots[..FirstStopped(p)];
      var r := FailScan(p, failed);
      && (!(Some(x) in pre && FailedSlot(Some(x), p.chans, failed)) ==> x in r.chans && r.chans[x] == p.chans[x])
      && (Some(x) in pre && FailedSlot(Some(x), p.chans, failed) ==>
            (x in r.chans ==> IsStopped(r.chans[x])) && (p.chans[x].nref > 0 ==> x in r.chans))
  {
    var we := FirstStopped(p);
    var pre := p.slots[..we];
    var kept := SelectFailed(pre, p.chans, failed, false);
    var bad := SelectFailed(pre, p.chans, failed, true);
    FailScanIs(p, failed);
    var q := p.(slots := kept + bad + p.slots[we..]);
    PartitionShape(p, failed, we, q);
    assert q.slots[|kept|..we] == bad;
    StopRangeOne(q, |kept|, we, x);
  }

  // ----- shutdown / set_max_parallel ------------------------------------

  /** After `shutdown` every remaining channel is cancelled or stopped, none
      that is held has been deleted, and no nulled entry is left. */
  lemma ShutdownStops(p: Pool)
    requires Shape(p)
    ensures var r := Shutdown(p);
      && None !in r.slots
      && (forall x :: x in r.chans ==> IsStopped(r.chans[x]))
      && (forall x :: x in p.chans && p.chans[x].nref > 0 ==> x in r.chans)
  {
    var q := StopRange(p, 0, |p.slots|);
    assert p.slots[0..|p.slots|] == p.slots;
    StopRangeKeys(p, 0, |p.slots|);
    forall x | x in p.chans
      ensures x in q.chans ==> IsStopped(q.chans[x])
      ensures p.chans[x].nref > 0 ==> x in q.chans
    {
      StopRangeOne(p, 0, |p.slots|, x);
    }
  }

  /** `set_max_parallel` with an unchanged limit does nothing; with a new one
      it re-runs `check_parallel`, which then respects the new budget. */
  lemma SetMaxParallelEffect(p: Pool, oldMax: nat, newMax: nat)
    requires Distinct(p.slots) && newMax < 0x8000_0000 && |p.slots| < 0x8000_0000
    ensures oldMax == newMax ==> SetMaxParallel(p, oldMax, newMax) == (p, oldMax)
    ensures var (r, m) := SetMaxParallel(p, oldMax, newMax);
      && m == newMax
      && (oldMax != newMax ==> CountIdleLive(r.slots, r.chans) <= Max0(newMax - CountWorking(r.slots, r.chans)))
  {
    if oldMax != newMax {
      CheckParallelBound(p, newMax);
    }
  }

  // ----- no channel appears from nowhere --------------------------------

  /** `start_channel` creates at most the one channel it was given a name for. */
  lemma {:induction false} StartKeys(p: Pool, url: string, rid: string, tcp: nat, udp: nat, cb: CallbackId,
                   engine: Option<EngineHandle>, newId: Id, maxParallel: nat, h: Held, accepted: seq<CallbackId>)
    requires Valid(p, h, accepted) && newId !in p.chans
    ensures StoppedHaveNoRid(p)
    ensures Start(p, url, rid, tcp, udp, cb, engine, newId, maxParallel).0.chans.Keys <= p.chans.Keys + {newId}
    decreases |Findable(p)|, 1
  {
    ShapeNoRid(p);
    if rid != "" && FindRid(p, rid) < |p.slots| {
      StartFoundKeys(p, url, rid, tcp, udp, cb, engine, newId, maxParallel, h, accepted);
    } else {
      var r := StartIsNew(p, url, rid, tcp, udp, cb, engine, newId, maxParallel);
      if rid != "" && engine.Some? {
        var c := Channel(url, rid, tcp, udp, 0, 0, Some(engine.value), Started, Success, "", []);
        var q := p.(chans := p.chans[newId := c], slots := p.slots + [Some(newId)]);
        DistinctConcat(p.slots, [Some(newId)]);
        SubscribeKeys(q, newId, cb, maxParallel);
      }
    }
  }

  lemma {:induction false} StartFoundKeys(p: Pool, url: string, rid: string, tcp: nat, udp: nat, cb: CallbackId,
                   engine: Option<EngineHandle>, newId: Id, maxParallel: nat, h: Held, accepted: seq<CallbackId>)
    requires Valid(p, h, accepted) && newId !in p.chans && StoppedHaveNoRid(p)
    requires rid != "" && FindRid(p, rid) < |p.slots|
    ensures Start(p, url, rid, tcp, udp, cb, engine, newId, maxParallel).0.chans.Keys <= p.chans.Keys + {newId}
    decreases |Findable(p)|, 0
  {
    var i := FindRid(p, rid);
    var id := p.slots[i].value;
    var p1 := p.(chans := p.chans[id := p.chans[id].(expire := 0)]);
    if WantsReconnect(tcp, udp, ChanAt(p, i).tcpPort, ChanAt(p, i).udpPort) {
      var r := StartIsReconnect(p, url, rid, tcp, udp, cb, engine, newId, maxParallel, i);
      ReconnectValid(p, i, newId, h, accepted);
      StopAtKeys(p1, i);
      StartKeys(Reconnected(p, i), url, rid, tcp, udp, cb, engine, newId, maxParallel, h, accepted);
    } else {
      var r := StartIsReuse(p, url, rid, tcp, udp, cb, engine, newId, maxParallel, i);
      SubscribeKeys(p1, id, cb, maxParallel);
    }
  }

  lemma SubscribeKeys(p: Pool, id: Id, cb: CallbackId, maxParallel: nat)
    requires Distinct(p.slots) && id in p.chans
    ensures Subscribe(p, id, cb, maxParallel).0.chans.Keys <= p.chans.Keys
  {
    CheckParallelKeeps(Join(p, id, cb).0, maxParallel);
  }

  /** `stop_channel(handle)` creates no channel. */
  lemma StopHandleKeys(p: Pool, hd: ChannelHandle, maxParallel: nat)
    requires Distinct(p.slots)
    requires hd.channel.Some? ==> hd.channel.value in p.chans && p.chans[hd.channel.value].nref > 0
    ensures StopHandle(p, hd, maxParallel).0.chans.Keys <= p.chans.Keys
  {
    if hd.channel.Some? {
      var r := Release(p, hd.channel.value, hd.cancelToken);
      MoveToFrontDistinct(p.slots, hd.channel.value);
      CheckParallelKeeps(r, maxParallel);
    }
  }

  /** `handle_start_channel` creates no channel. */
  lemma HandleStartKeys(p: Pool, id: Id, ec: ErrorCode, url: string)
    ensures HandleStart(p, id, ec, url).chans.Keys <= p.chans.Keys
  {
    var i := IndexOf(p.slots, Some(id));
    if i < |p.slots| && id in p.chans && p.chans[id].status == Cancel {
      StopAtKeys(p.(chans := p.chans[id := p.chans[id].(status := Stopped)]), i);
    }
  }

  /** `handle_timer` creates no channel. */
  lemma HandleTimerKeys(p: Pool, daemonStarted: bool, failed: seq<EngineHandle>)
    ensures HandleTimer(p, daemonStarted, failed).0.chans.Keys <= p.chans.Keys
  {
    if |failed| != 0 {
      FailScanSlots(p, failed);
    }
    var p1 := if |failed| != 0 then FailScan(p, failed) else p;
    ExpireFromKeys(p1, 0);
  }

  /** `shutdown` creates no channel. */
  lemma ShutdownKeys(p: Pool)
    ensures Shutdown(p).chans.Keys <= p.chans.Keys
  {
    StopRangeKeys(p, 0, |p.slots|);
  }

  /** `set_max_parallel` creates no channel. */
  lemma SetMaxParallelKeys(p: Pool, oldMax: nat, newMax: nat)
    requires Distinct(p.slots)
    ensures SetMaxParallel(p, oldMax, newMax).0.chans.Keys <= p.chans.Keys
  {
    if oldMax != newMax {
      CheckParallelKeeps(p, newMax);
    }
  }
}
