/** Every operation of the pool keeps the invariant of PoolInvariant, with
    the ghost bookkeeping updated the way the operation changes it: a
    `start_channel` adds its callback to `accepted` and, when it returns a
    handle, that handle's token to `held`; a `stop_channel` removes the
    token it consumes. */
module PoolOps {
  import opened Common
  import opened LiveManagerTypes
  import opened PoolModel
  import opened PoolInvariant
  import opened PoolCheck

  /** The bookkeeping after a handle is handed out. */
  function AddHeld(h: Held, hd: ChannelHandle): Held
  {
    if hd.channel.Some? then h[hd.channel.value := HeldOf(h, hd.channel.value) + multiset{hd.cancelToken}] else h
  }

  /** The bookkeeping after a handle is consumed. */
  function DropHeld(h: Held, hd: ChannelHandle): Held
  {
    if hd.channel.Some? then h[hd.channel.value := HeldOf(h, hd.channel.value) - multiset{hd.cancelToken}] else h
  }

  /** The caller owns the handle it passes: it was handed out and not yet consumed. */
  ghost predicate Owns(h: Held, hd: ChannelHandle)
  {
    hd.channel.Some? ==> hd.cancelToken in HeldOf(h, hd.channel.value)
  }

  // ----- callback slots ---------------------------------------------------

  lemma {:induction false} SomesClear(s: seq<Option<CallbackId>>, k: nat)
    requires k < |s| && s[k].Some?
    ensures multiset(Somes(s[k := None])) + multiset{s[k].value} == multiset(Somes(s))
  {
    if k == 0 {
      assert s[k := None][1..] == s[1..];
    } else {
      assert s[k := None][1..] == s[1..][k - 1 := None];
      SomesClear(s[1..], k - 1);
    }
  }

  lemma PendingAppend(c: Channel, cb: CallbackId)
    ensures PendingOf(c.(nref := c.nref + 1, callBacks := c.callBacks + [Some(cb)])) == PendingOf(c) + multiset{cb}
  {
    SomesAppend(c.callBacks, [Some(cb)]);
    assert Somes([Some(cb)]) == [cb];
  }

  /** A new callback slot for a started channel, with its 1-based position
      as the new holder's token. */
  lemma TokensAppend(c: Channel, c1: Channel, hs: multiset<nat>, cb: CallbackId)
    requires TokensOk(c, hs) && c.status == Started
    requires c1.status == Started && c1.callBacks == c.callBacks + [Some(cb)]
    ensures TokensOk(c1, hs + multiset{|c1.callBacks|})
  {
    var t := |c1.callBacks|;
    assert t !in hs;
    forall k | 0 <= k < |c1.callBacks|
      ensures (c1.callBacks[k].Some? <==> (k + 1) in hs + multiset{t}) && (hs + multiset{t})[k + 1] <= 1
    {
      if k < |c.callBacks| {
        assert c1.callBacks[k] == c.callBacks[k];
      }
    }
  }

  // ----- one channel changes ---------------------------------------------

  /** The common step of the caller-facing operations: one channel replaced,
      its outstanding tokens replaced, callbacks posted and accepted; the
      callbacks leaving the channel are exactly the ones posted, and the ones
      entering it are the ones accepted. */
  lemma ChannelStepInv(p: Pool, q: Pool, h: Held, accepted: seq<CallbackId>, accepted': seq<CallbackId>,
                       id: Id, c1: Channel, hs: multiset<nat>, posted: multiset<CallbackId>, added: multiset<CallbackId>)
    requires Inv(p, h, accepted) && id in p.chans
    requires q.chans == p.chans[id := c1] && q.slots == p.slots
    requires multiset(CallbacksOf(q.posted)) == multiset(CallbacksOf(p.posted)) + posted
    requires multiset(accepted') == multiset(accepted) + added
    requires ChannelOk(c1) && (c1.rid == "" || c1.rid == p.chans[id].rid)
    requires c1.nref == |hs| && TokensOk(c1, hs)
    requires PendingOf(p.chans[id]) + added == PendingOf(c1) + posted
    ensures Inv(q, h[id := hs], accepted')
  {
    ShapeUpdate(p, id, c1, q);
    RefsStep(p, h, id, c1, hs, q);
    ConservedStep(p, q, accepted, accepted', id, c1, posted, added);
  }

  lemma RefsStep(p: Pool, h: Held, id: Id, c1: Channel, hs: multiset<nat>, q: Pool)
    requires Refs(p, h) && id in p.chans && c1.nref == |hs| && TokensOk(c1, hs)
    requires q.chans == p.chans[id := c1]
    ensures Refs(q, h[id := hs])
  {
    var h' := h[id := hs];
    assert HeldOf(h', id) == hs;
    assert forall x :: x != id ==> HeldOf(h', x) == HeldOf(h, x);
  }

  lemma ConservedStep(p: Pool, q: Pool, accepted: seq<CallbackId>, accepted': seq<CallbackId>,
                      id: Id, c1: Channel, posted: multiset<CallbackId>, added: multiset<CallbackId>)
    requires Conserved(p, accepted) && id in p.chans && q.chans == p.chans[id := c1]
    requires multiset(CallbacksOf(q.posted)) == multiset(CallbacksOf(p.posted)) + posted
    requires multiset(accepted') == multiset(accepted) + added
    requires PendingOf(p.chans[id]) + added == PendingOf(c1) + posted
    ensures Conserved(q, accepted')
  {
    var rest := PendingReplace(p.chans, id, c1);
    Rebalance(multiset(CallbacksOf(p.posted)), PendingOf(p.chans[id]), rest, added, PendingOf(c1), posted);
  }

  /** The pending callbacks of the other channels, before and after one is replaced. */
  lemma PendingReplace(m: map<Id, Channel>, id: Id, c1: Channel) returns (rest: multiset<CallbackId>)
    requires id in m
    ensures PendingAll(m) == PendingOf(m[id]) + rest
    ensures PendingAll(m[id := c1]) == PendingOf(c1) + rest
  {
    var m': map<Id, Channel> := m[id := c1];
    rest := PendingAll(m - {id});
    PendingAllPick(m, id);
    PendingAllPick(m', id);
    assert m' - {id} == m - {id};
  }

  /** Moving callbacks from a channel to the queue keeps the total. */
  lemma Rebalance<T>(q: multiset<T>, o: multiset<T>, r: multiset<T>, ad: multiset<T>, c: multiset<T>, n: multiset<T>)
    requires o + ad == c + n
    ensures (q + o + r) + ad == (q + n) + (c + r)
  {
    calc {
      (q + o + r) + ad;
      q + r + (o + ad);
      q + r + (c + n);
      (q + n) + (c + r);
    }
  }

  // ----- start_channel's subscription -------------------------------------

  /** The subscription step on one channel: one more reference, one more
      outstanding token, and the callback either posted or pending. */
  lemma JoinedOk(c: Channel, hs: multiset<nat>, cb: CallbackId)
    requires ChannelOk(c) && !IsStopped(c) && TokensOk(c, hs) && c.nref == |hs|
    ensures var c1 := Joined(c, cb);
      && ChannelOk(c1) && c1.rid == c.rid
      && c1.nref == |hs + multiset{JoinToken(c)}| && TokensOk(c1, hs + multiset{JoinToken(c)})
      && PendingOf(c) + multiset{cb} == PendingOf(c1) + multiset(CallbacksOf(JoinPost(c, cb)))
  {
    if c.status == Working {
      assert CallbacksOf(JoinPost(c, cb)) == [cb];
    } else {
      TokensAppend(c, Joined(c, cb), hs, cb);
      PendingAppend(c, cb);
      assert CallbacksOf(JoinPost(c, cb)) == [];
    }
  }

  lemma JoinInv(p: Pool, id: Id, cb: CallbackId, h: Held, accepted: seq<CallbackId>)
    requires Inv(p, h, accepted) && id in p.chans && !IsStopped(p.chans[id])
    ensures var (q, hd) := Join(p, id, cb);
      hd.channel == Some(id) && Inv(q, AddHeld(h, hd), accepted + [cb])
  {
    var c := p.chans[id];
    var hs := HeldOf(h, id);
    assert ChannelOk(c) && TokensOk(c, hs) && c.nref == |hs|;
    JoinedOk(c, hs, cb);
    var q := p.(chans := p.chans[id := Joined(c, cb)], posted := p.posted + JoinPost(c, cb));
    CallbacksOfAppend(p.posted, JoinPost(c, cb));
    AcceptOne(accepted, cb);
    ChannelStepInv(p, q, h, accepted, accepted + [cb], id, Joined(c, cb), hs + multiset{JoinToken(c)},
                   multiset(CallbacksOf(JoinPost(c, cb))), multiset{cb});
  }

  lemma AcceptOne(accepted: seq<CallbackId>, cb: CallbackId)
    ensures multiset(accepted + [cb]) == multiset(accepted) + multiset{cb}
  {
  }

  lemma SubscribeValid(p: Pool, id: Id, cb: CallbackId, maxParallel: nat, h: Held, accepted: seq<CallbackId>)
    requires Inv(p, h, accepted) && id in p.chans && !IsStopped(p.chans[id])
    ensures var (q, hd) := Subscribe(p, id, cb, maxParallel);
      hd.channel == Some(id) && Valid(q, AddHeld(h, hd), accepted + [cb])
  {
    var (q, hd) := Join(p, id, cb);
    JoinInv(p, id, cb, h, accepted);
    CheckParallelValid(q, maxParallel, AddHeld(h, hd), accepted + [cb]);
  }

  // ----- stop_channel(ChannelHandle &) ------------------------------------

  /** Dropping one token: the caller's own slot is emptied when the token
      addresses one, and its callback is the one aborted. */
  lemma DropRefOk(c: Channel, hs: multiset<nat>, t: nat)
    requires ChannelOk(c) && TokensOk(c, hs) && c.nref == |hs| && t in hs
    ensures c.nref > 0
    ensures var c2 := DropRef(c, t);
      && ChannelOk(c2) && c2.rid == c.rid && c2.status == c.status
      && c2.nref == |hs - multiset{t}| && TokensOk(c2, hs - multiset{t})
      && PendingOf(c) + multiset{} == PendingOf(c2) + multiset(CallbacksOf(OwnAbort(c, t)))
  {
    var own := OwnsSlot(c, t);
    var c2 := DropRef(c, t);
    var hs' := hs - multiset{t};
    if own {
      assert (t - 1) + 1 in hs;
      SomesClear(c.callBacks, t - 1);
      assert CallbacksOf(OwnAbort(c, t)) == [c.callBacks[t - 1].value];
    } else {
      assert CallbacksOf(OwnAbort(c, t)) == [];
    }
    forall u | u in hs'
      ensures u in hs
    {
    }
    forall k | 0 <= k < |c2.callBacks|
      ensures (c2.callBacks[k].Some? <==> (k + 1) in hs') && hs'[k + 1] <= 1
    {
      if k + 1 == t {
        assert hs[t] <= 1;
      } else {
        assert hs'[k + 1] == hs[k + 1];
      }
    }
  }

  lemma ReleaseInv(p: Pool, id: Id, t: nat, h: Held, accepted: seq<CallbackId>)
    requires Inv(p, h, accepted) && t in HeldOf(h, id)
    ensures id in p.chans && p.chans[id].nref > 0
    ensures Inv(Release(p, id, t), h[id := HeldOf(h, id) - multiset{t}], accepted)
  {
    var c := p.chans[id];
    var hs := HeldOf(h, id);
    assert ChannelOk(c) && TokensOk(c, hs) && c.nref == |hs|;
    DropRefOk(c, hs, t);
    var c2 := DropRef(c, t);
    var posts := OwnAbort(c, t);
    var p1 := p.(chans := p.chans[id := c2], posted := p.posted + posts);
    CallbacksOfAppend(p.posted, posts);
    var h' := h[id := hs - multiset{t}];
    ChannelStepInv(p, p1, h, accepted, accepted, id, c2, hs - multiset{t}, multiset(CallbacksOf(posts)), multiset{});
    var r := ReleaseIs(p, id, t);
    if c2.nref == 0 && !IsStopped(c2) {
      MoveToFrontLive(p1, id, c2.(expire := GracePeriod), h', accepted);
      InvSame(p1.(chans := p1.chans[id := c2.(expire := GracePeriod)], slots := MoveToFront(p1.slots, id)), r, h', accepted);
    } else {
      InvSame(p1, r, h', accepted);
    }
  }

  /** `Release` in terms of its channel-level pieces. */
  lemma ReleaseIs(p: Pool, id: Id, t: nat) returns (r: Pool)
    requires id in p.chans && p.chans[id].nref > 0
    ensures r == Release(p, id, t)
    ensures var c2 := DropRef(p.chans[id], t);
      var p1 := p.(chans := p.chans[id := c2], posted := p.posted + OwnAbort(p.chans[id], t));
      r == if c2.nref == 0 && !IsStopped(c2)
           then p1.(chans := p1.chans[id := c2.(expire := GracePeriod)], slots := MoveToFront(p1.slots, id))
           else p1
  {
    r := Release(p, id, t);
  }

  lemma InvSame(q: Pool, r: Pool, h: Held, accepted: seq<CallbackId>)
    requires Inv(q, h, accepted) && q == r
    ensures Inv(r, h, accepted)
  {
  }

  /** The idle branch: a fresh grace period and a move to the front. */
  lemma MoveToFrontLive(p: Pool, id: Id, c: Channel, h: Held, accepted: seq<CallbackId>)
    requires Inv(p, h, accepted) && id in p.chans && c == p.chans[id].(expire := c.expire)
    ensures Inv(p.(chans := p.chans[id := c], slots := MoveToFront(p.slots, id)), h, accepted)
  {
    var q := p.(chans := p.chans[id := c], slots := MoveToFront(p.slots, id));
    ShapeUpdate(p, id, c, p.(chans := p.chans[id := c]));
    MoveToFrontDistinct(p.slots, id);
    assert Shape(q) by {
      assert Shape(p.(chans := p.chans[id := c]));
      assert forall x :: Some(x) in q.slots <==> Some(x) in p.slots;
    }
    RefsUpdate(p, h, id, c, q);
    PendingAllSame(p.chans, id, c);
  }

  lemma StopHandleValid(p: Pool, hd: ChannelHandle, maxParallel: nat, h: Held, accepted: seq<CallbackId>)
    requires Valid(p, h, accepted) && Owns(h, hd)
    ensures hd.channel.Some? ==> hd.channel.value in p.chans && p.chans[hd.channel.value].nref > 0
    ensures Valid(StopHandle(p, hd, maxParallel).0, DropHeld(h, hd), accepted)
  {
    if hd.channel.Some? {
      var id := hd.channel.value;
      ReleaseInv(p, id, hd.cancelToken, h, accepted);
      CheckParallelValid(Release(p, id, hd.cancelToken), maxParallel, DropHeld(h, hd), accepted);
    }
  }
  // ----- start_channel --------------------------------------------------

  lemma ShapeNoRid(p: Pool)
    requires Shape(p)
    ensures StoppedHaveNoRid(p)
  {
    forall id | id in p.chans && IsStopped(p.chans[id])
      ensures p.chans[id].rid == ""
    {
      assert ChannelOk(p.chans[id]);
    }
  }

  /** A failure answered at once: the callback goes straight to the queue. */
  lemma PostFailValid(p: Pool, cb: CallbackId, h: Held, accepted: seq<CallbackId>)
    requires Valid(p, h, accepted)
    ensures Valid(p.(posted := p.posted + [Post(cb, FailedSome, "")]), h, accepted + [cb])
  {
    PostOne(p.posted, Post(cb, FailedSome, ""));
    AcceptOne(accepted, cb);
  }

  lemma PostOne(posted: seq<Post>, x: Post)
    ensures multiset(CallbacksOf(posted + [x])) == multiset(CallbacksOf(posted)) + multiset{x.callback}
  {
    CallbacksOfAppend(posted, [x]);
  }

  /** Only the expiry of one channel changes. */
  lemma SetExpireInv(p: Pool, id: Id, e: nat, h: Held, accepted: seq<CallbackId>)
    requires Inv(p, h, accepted) && id in p.chans
    ensures Inv(p.(chans := p.chans[id := p.chans[id].(expire := e)]), h, accepted)
  {
    var c := p.chans[id].(expire := e);
    assert ChannelOk(p.chans[id]) && TokensOk(p.chans[id], HeldOf(h, id));
    ShapeUpdate(p, id, c, p.(chans := p.chans[id := c]));
    RefsUpdate(p, h, id, c, p.(chans := p.chans[id := c]));
    PendingAllSame(p.chans, id, c);
  }

  /** A freshly started channel, appended at the back, keeps the invariant
      when no live channel answers to its rid. */
  lemma AddChannelInv(p: Pool, newId: Id, c: Channel, h: Held, accepted: seq<CallbackId>)
    requires Inv(p, h, accepted) && newId !in p.chans
    requires ChannelOk(c) && c.nref == 0 && c.callBacks == [] && c.rid != ""
    requires forall id :: id in p.chans ==> p.chans[id].rid != c.rid
    ensures Inv(p.(chans := p.chans[newId := c], slots := p.slots + [Some(newId)]), h, accepted)
  {
    var q := p.(chans := p.chans[newId := c], slots := p.slots + [Some(newId)]);
    AddChannelShape(p, newId, c, q);
    AddChannelRefs(p, h, newId, c, q);
    AddChannelConserved(p, accepted, newId, c, q);
  }

  lemma AddChannelConserved(p: Pool, accepted: seq<CallbackId>, newId: Id, c: Channel, q: Pool)
    requires Conserved(p, accepted) && newId !in p.chans && c.callBacks == []
    requires q.chans == p.chans[newId := c] && q.posted == p.posted
    ensures Conserved(q, accepted)
  {
    PendingAllUpdate(p.chans, newId, c);
    assert PendingOf(c) == multiset{};
  }

  lemma AddChannelShape(p: Pool, newId: Id, c: Channel, q: Pool)
    requires Shape(p) && newId !in p.chans && ChannelOk(c)
    requires forall id :: id in p.chans ==> p.chans[id].rid != c.rid
    requires q.chans == p.chans[newId := c] && q.slots == p.slots + [Some(newId)]
    ensures Shape(q)
  {
    assert Some(newId) !in p.slots;
    forall a, b | 0 <= a < b < |q.slots| && q.slots[a].Some?
      ensures q.slots[a] != q.slots[b]
    {
      assert q.slots[a] == p.slots[a];
      if b < |p.slots| {
        assert q.slots[b] == p.slots[b];
      }
    }
    forall id
      ensures id in q.chans <==> Some(id) in q.slots
    {
      assert Some(id) in q.slots <==> Some(id) in p.slots || id == newId;
    }
    forall a, b | a in q.chans && b in q.chans && a != b && q.chans[a].rid == q.chans[b].rid
      ensures q.chans[a].rid == ""
    {
      if a != newId && b != newId {
        assert q.chans[a] == p.chans[a] && q.chans[b] == p.chans[b];
      }
    }
  }

  lemma AddChannelRefs(p: Pool, h: Held, newId: Id, c: Channel, q: Pool)
    requires Refs(p, h) && newId !in p.chans && c.nref == 0 && c.callBacks == []
    requires q.chans == p.chans[newId := c]
    ensures Refs(q, h)
  {
    assert HeldOf(h, newId) == multiset{};
  }

  /** No live channel answers to a rid that `FindRid` did not find. */
  lemma NotFoundNowhere(p: Pool, rid: string)
    requires Covers(p) && FindRid(p, rid) == |p.slots|
    ensures forall id :: id in p.chans ==> p.chans[id].rid != rid
  {
    forall id | id in p.chans
      ensures p.chans[id].rid != rid
    {
      var j :| 0 <= j < |p.slots| && p.slots[j] == Some(id);
      assert LiveSlot(p, j);
    }
  }

  /** The creation branch of `start_channel`. */
  lemma CreateValid(p: Pool, url: string, rid: string, tcp: nat, udp: nat, cb: CallbackId, eh: EngineHandle,
                    newId: Id, maxParallel: nat, h: Held, accepted: seq<CallbackId>)
    requires Valid(p, h, accepted) && newId !in p.chans && rid != "" && FindRid(p, rid) == |p.slots|
    ensures var c := Channel(url, rid, tcp, udp, 0, 0, Some(eh), Started, Success, "", []);
      var (q, hd) := Subscribe(p.(chans := p.chans[newId := c], slots := p.slots + [Some(newId)]), newId, cb, maxParallel);
      Valid(q, AddHeld(h, hd), accepted + [cb])
  {
    var c := Channel(url, rid, tcp, udp, 0, 0, Some(eh), Started, Success, "", []);
    NotFoundNowhere(p, rid);
    AddChannelInv(p, newId, c, h, accepted);
    SubscribeValid(p.(chans := p.chans[newId := c], slots := p.slots + [Some(newId)]), newId, cb, maxParallel, h, accepted);
  }

  /** The reuse branch of `start_channel`. */
  lemma ReuseValid(p: Pool, i: nat, cb: CallbackId, maxParallel: nat, h: Held, accepted: seq<CallbackId>)
    requires Valid(p, h, accepted) && LiveSlot(p, i) && ChanAt(p, i).rid != ""
    ensures var id := p.slots[i].value;
      var (q, hd) := Subscribe(p.(chans := p.chans[id := p.chans[id].(expire := 0)]), id, cb, maxParallel);
      Valid(q, AddHeld(h, hd), accepted + [cb])
  {
    var id := p.slots[i].value;
    assert ChannelOk(p.chans[id]);
    SetExpireInv(p, id, 0, h, accepted);
    SubscribeValid(p.(chans := p.chans[id := p.chans[id].(expire := 0)]), id, cb, maxParallel, h, accepted);
  }

  /** The first half of the reconnection branch: stop the old channel and compact. */
  lemma ReconnectValid(p: Pool, i: nat, newId: Id, h: Held, accepted: seq<CallbackId>)
    requires Valid(p, h, accepted) && LiveSlot(p, i) && newId !in p.chans
    ensures Valid(Reconnected(p, i), h, accepted) && newId !in Reconnected(p, i).chans
  {
    var id := p.slots[i].value;
    var p1 := p.(chans := p.chans[id := p.chans[id].(expire := 0)]);
    SetExpireInv(p, id, 0, h, accepted);
    StopAtInv(p1, i, h, accepted);
    StopAtOthers(p1, i);
    CompactInv(StopAt(p1, i), h, accepted);
  }

  /** `Start` when the rid is empty or names no live channel. */
  lemma StartIsNew(p: Pool, url: string, rid: string, tcp: nat, udp: nat, cb: CallbackId,
                   engine: Option<EngineHandle>, newId: Id, maxParallel: nat) returns (r: (Pool, ChannelHandle))
    requires StoppedHaveNoRid(p) && (rid == "" || FindRid(p, rid) == |p.slots|)
    ensures r == Start(p, url, rid, tcp, udp, cb, engine, newId, maxParallel)
    ensures rid == "" || engine.None? ==> r == (p.(posted := p.posted + [Post(cb, FailedSome, "")]), MakeHandle(None))
    ensures rid != "" && engine.Some? ==>
      var c := Channel(url, rid, tcp, udp, 0, 0, Some(engine.value), Started, Success, "", []);
      r == Subscribe(p.(chans := p.chans[newId := c], slots := p.slots + [Some(newId)]), newId, cb, maxParallel)
  {
    r := Start(p, url, rid, tcp, udp, cb, engine, newId, maxParallel);
  }

  /** `Start` when the rid names the channel in slot i and the port hints
      ask for no reconnection. */
  lemma StartIsReuse(p: Pool, url: string, rid: string, tcp: nat, udp: nat, cb: CallbackId,
                     engine: Option<EngineHandle>, newId: Id, maxParallel: nat, i: nat) returns (r: (Pool, ChannelHandle))
    requires StoppedHaveNoRid(p) && rid != "" && i == FindRid(p, rid) < |p.slots|
    requires !WantsReconnect(tcp, udp, ChanAt(p, i).tcpPort, ChanAt(p, i).udpPort)
    ensures r == Start(p, url, rid, tcp, udp, cb, engine, newId, maxParallel)
    ensures var id := p.slots[i].value;
      r == Subscribe(p.(chans := p.chans[id := p.chans[id].(expire := 0)]), id, cb, maxParallel)
  {
    r := Start(p, url, rid, tcp, udp, cb, engine, newId, maxParallel);
  }

  /** `Start` when the rid names the channel in slot i and the port hints
      ask for a reconnection: it starts over on the stopped, compacted pool. */
  lemma StartIsReconnect(p: Pool, url: string, rid: string, tcp: nat, udp: nat, cb: CallbackId,
                         engine: Option<EngineHandle>, newId: Id, maxParallel: nat, i: nat) returns (r: (Pool, ChannelHandle))
    requires StoppedHaveNoRid(p) && rid != "" && i == FindRid(p, rid) < |p.slots|
    requires WantsReconnect(tcp, udp, ChanAt(p, i).tcpPort, ChanAt(p, i).udpPort)
    ensures r == Start(p, url, rid, tcp, udp, cb, engine, newId, maxParallel)
    ensures StoppedHaveNoRid(Reconnected(p, i)) && |Findable(Reconnected(p, i))| < |Findable(p)|
    ensures r == Start(Reconnected(p, i), url, rid, tcp, udp, cb, engine, newId, maxParallel)
  {
    r := Start(p, url, rid, tcp, udp, cb, engine, newId, maxParallel);
    var id := p.slots[i].value;
    var p1 := p.(chans := p.chans[id := p.chans[id].(expire := 0)]);
    ReconnectShrinks(p, p1, i);
  }

  lemma ValidSame(x: (Pool, ChannelHandle), y: (Pool, ChannelHandle), h: Held, accepted: seq<CallbackId>)
    requires Valid(x.0, AddHeld(h, x.1), accepted) && x == y
    ensures Valid(y.0, AddHeld(h, y.1), accepted)
  {
  }

  /** `start_channel` keeps the invariant; the caller now holds the handle it
      got back, and its callback has been accepted. */
  lemma {:induction false} StartValid(p: Pool, url: string, rid: string, tcp: nat, udp: nat, cb: CallbackId,
                   engine: Option<EngineHandle>, newId: Id, maxParallel: nat, h: Held, accepted: seq<CallbackId>)
    requires Valid(p, h, accepted) && newId !in p.chans
    ensures StoppedHaveNoRid(p)
    ensures var (q, hd) := Start(p, url, rid, tcp, udp, cb, engine, newId, maxParallel);
      Valid(q, AddHeld(h, hd), accepted + [cb])
    decreases |Findable(p)|, 1
  {
    ShapeNoRid(p);
    if rid != "" && FindRid(p, rid) < |p.slots| {
      StartFoundValid(p, url, rid, tcp, udp, cb, engine, newId, maxParallel, h, accepted);
    } else {
      var r := StartIsNew(p, url, rid, tcp, udp, cb, engine, newId, maxParallel);
      if rid == "" || engine.None? {
        PostFailValid(p, cb, h, accepted);
        ValidSame((p.(posted := p.posted + [Post(cb, FailedSome, "")]), MakeHandle(None)), r, h, accepted + [cb]);
      } else {
        var c := Channel(url, rid, tcp, udp, 0, 0, Some(engine.value), Started, Success, "", []);
        CreateValid(p, url, rid, tcp, udp, cb, engine.value, newId, maxParallel, h, accepted);
        ValidSame(Subscribe(p.(chans := p.chans[newId := c], slots := p.slots + [Some(newId)]), newId, cb, maxParallel), r, h, accepted + [cb]);
      }
    }
  }

  lemma {:induction false} StartFoundValid(p: Pool, url: string, rid: string, tcp: nat, udp: nat, cb: CallbackId,
                   engine: Option<EngineHandle>, newId: Id, maxParallel: nat, h: Held, accepted: seq<CallbackId>)
    requires Valid(p, h, accepted) && newId !in p.chans && StoppedHaveNoRid(p)
    requires rid != "" && FindRid(p, rid) < |p.slots|
    ensures var (q, hd) := Start(p, url, rid, tcp, udp, cb, engine, newId, maxParallel);
      Valid(q, AddHeld(h, hd), accepted + [cb])
    decreases |Findable(p)|, 0
  {
    var i := FindRid(p, rid);
    var id := p.slots[i].value;
    if WantsReconnect(tcp, udp, ChanAt(p, i).tcpPort, ChanAt(p, i).udpPort) {
      var r := StartIsReconnect(p, url, rid, tcp, udp, cb, engine, newId, maxParallel, i);
      var p3 := Reconnected(p, i);
      ReconnectValid(p, i, newId, h, accepted);
      StartValid(p3, url, rid, tcp, udp, cb, engine, newId, maxParallel, h, accepted);
      ValidSame(Start(p3, url, rid, tcp, udp, cb, engine, newId, maxParallel), r, h, accepted + [cb]);
    } else {
      var r := StartIsReuse(p, url, rid, tcp, udp, cb, engine, newId, maxParallel, i);
      ReuseValid(p, i, cb, maxParallel, h, accepted);
      ValidSame(Subscribe(p.(chans := p.chans[id := p.chans[id].(expire := 0)]), id, cb, maxParallel), r, h, accepted + [cb]);
    }
  }
  // ----- handle_start_channel ------------------------------------------

  /** The engine completes each start once: a channel it answers for is
      still started, or was cancelled meanwhile. */
  ghost predicate AwaitsEngine(p: Pool, id: Id)
  {
    id in p.chans ==> p.chans[id].status == Started || p.chans[id].status == Cancel
  }

  /** `HandleStart` by branch, evaluated away from the invariant. */
  lemma HandleStartIs(p: Pool, id: Id, ec: ErrorCode, url: string) returns (r: Pool)
    ensures r == HandleStart(p, id, ec, url)
    ensures var i := IndexOf(p.slots, Some(id));
      && (i == |p.slots| || id !in p.chans ==> r == p)
      && (i < |p.slots| && id in p.chans ==> LiveSlot(p, i) && p.slots[i].value == id)
      && (i < |p.slots| && id in p.chans && p.chans[id].status == Cancel ==>
            var q := StopAt(p.(chans := p.chans[id := p.chans[id].(status := Stopped)]), i);
            r == q.(slots := Compact(q.slots)))
      && (i < |p.slots| && id in p.chans && p.chans[id].status != Cancel ==>
            r == p.(chans := p.chans[id := Respond(p.chans[id].(status := Working), ec, url)],
                    posted := p.posted + Flush(p.chans[id].callBacks, ec, url)))
  {
    r := HandleStart(p, id, ec, url);
  }

  lemma ValidSamePool(q: Pool, r: Pool, h: Held, accepted: seq<CallbackId>)
    requires Valid(q, h, accepted) && q == r
    ensures Valid(r, h, accepted)
  {
  }

  lemma HandleStartValid(p: Pool, id: Id, ec: ErrorCode, url: string, h: Held, accepted: seq<CallbackId>)
    requires Valid(p, h, accepted) && AwaitsEngine(p, id)
    ensures Valid(HandleStart(p, id, ec, url), h, accepted)
  {
    var r := HandleStartIs(p, id, ec, url);
    var i := IndexOf(p.slots, Some(id));
    if i < |p.slots| && id in p.chans {
      if p.chans[id].status == Cancel {
        HandleCancelledValid(p, i, h, accepted);
        var q := StopAt(p.(chans := p.chans[id := p.chans[id].(status := Stopped)]), i);
        ValidSamePool(q.(slots := Compact(q.slots)), r, h, accepted);
      } else {
        HandleStartedValid(p, id, ec, url, h, accepted);
        ValidSamePool(p.(chans := p.chans[id := Respond(p.chans[id].(status := Working), ec, url)],
                         posted := p.posted + Flush(p.chans[id].callBacks, ec, url)), r, h, accepted);
      }
    }
  }

  /** A start that completes after its channel was cancelled: the channel is
      stopped for good and compacted away once nobody holds it. */
  lemma HandleCancelledValid(p: Pool, i: nat, h: Held, accepted: seq<CallbackId>)
    requires Valid(p, h, accepted) && LiveSlot(p, i) && ChanAt(p, i).status == Cancel
    ensures var id := p.slots[i].value;
      var q := StopAt(p.(chans := p.chans[id := p.chans[id].(status := Stopped)]), i);
      Valid(q.(slots := Compact(q.slots)), h, accepted)
  {
    var id := p.slots[i].value;
    var c := p.chans[id];
    assert ChannelOk(c) && TokensOk(c, HeldOf(h, id));
    var c1 := c.(status := Stopped);
    var p1 := p.(chans := p.chans[id := c1]);
    ShapeUpdate(p, id, c1, p1);
    RefsUpdate(p, h, id, c1, p1);
    PendingAllSame(p.chans, id, c1);
    assert Inv(p1, h, accepted);
    StopAtInv(p1, i, h, accepted);
    CompactInv(StopAt(p1, i), h, accepted);
  }

  /** A start that completes on a started channel: it becomes working and
      its pending callbacks move to the queue. */
  lemma HandleStartedValid(p: Pool, id: Id, ec: ErrorCode, url: string, h: Held, accepted: seq<CallbackId>)
    requires Valid(p, h, accepted) && id in p.chans && p.chans[id].status == Started
    ensures Valid(p.(chans := p.chans[id := Respond(p.chans[id].(status := Working), ec, url)],
                     posted := p.posted + Flush(p.chans[id].callBacks, ec, url)), h, accepted)
  {
    var c := p.chans[id];
    assert ChannelOk(c) && TokensOk(c, HeldOf(h, id));
    var c1 := Respond(c.(status := Working), ec, url);
    var q := p.(chans := p.chans[id := c1], posted := p.posted + Flush(c.callBacks, ec, url));
    ShapeUpdate(p, id, c1, q);
    RefsUpdate(p, h, id, c1, q);
    FlushCallbacks(c.callBacks, ec, url);
    FlushConserved(p, accepted, id, c1, Flush(c.callBacks, ec, url));
  }

  // ----- handle_timer ---------------------------------------------------

  lemma {:induction false} SelectFailedDistinct(s: seq<Option<Id>>, m: map<Id, Channel>, failed: seq<EngineHandle>, want: bool)
    requires Distinct(s)
    ensures Distinct(SelectFailed(s, m, failed, want))
  {
    if s != [] {
      SelectFailedDistinct(s[1..], m, failed, want);
      var r := SelectFailed(s[1..], m, failed, want);
      if s[0].Some? {
        assert s[0] !in s[1..] by {
          forall j | 0 <= j < |s[1..]| ensures s[1..][j] != s[0] {
            assert s[j + 1] == s[1..][j];
          }
        }
      }
      DistinctConcat(if FailedSlot(s[0], m, failed) == want then [s[0]] else [], r);
    }
  }

  lemma DistinctConcat(a: seq<Option<Id>>, b: seq<Option<Id>>)
    requires Distinct(a) && Distinct(b)
    requires forall x :: x in a && x.Some? ==> x !in b
    ensures Distinct(a + b)
  {
    var s := a + b;
    forall i, j | 0 <= i < j < |s| && s[i].Some?
      ensures s[i] != s[j]
    {
      if j < |a| {
        assert s[i] == a[i] && s[j] == a[j];
      } else if i >= |a| {
        assert s[i] == b[i - |a|] && s[j] == b[j - |a|];
      } else {
        assert s[i] == a[i] && s[j] == b[j - |a|];
      }
    }
  }

  /** Both halves of a list without repeats are without repeats, and share nothing. */
  lemma SplitDistinct(s: seq<Option<Id>>, k: nat)
    requires Distinct(s) && k <= |s|
    ensures Distinct(s[..k]) && Distinct(s[k..])
    ensures forall x :: x in s[..k] && x.Some? ==> x !in s[k..]
  {
    var pre := s[..k];
    var suf := s[k..];
    forall i, j | 0 <= i < j < |pre| && pre[i].Some? ensures pre[i] != pre[j] {
      assert pre[i] == s[i] && pre[j] == s[j];
    }
    forall i, j | 0 <= i < j < |suf| && suf[i].Some? ensures suf[i] != suf[j] {
      assert suf[i] == s[k + i] && suf[j] == s[k + j];
    }
    forall x | x in pre && x.Some?
      ensures x !in suf
    {
      var i :| 0 <= i < |pre| && pre[i] == x;
      assert s[i] == x;
      forall j | 0 <= j < |suf|
        ensures suf[j] != x
      {
        assert suf[j] == s[k + j];
      }
    }
  }

  /** The list reordered by the failure scan is a rearrangement of the
      old one, so the shape is kept. */
  lemma PartitionShape(p: Pool, failed: seq<EngineHandle>, we: nat, q: Pool)
    requires Shape(p) && we <= |p.slots|
    requires q.chans == p.chans
    requires q.slots == SelectFailed(p.slots[..we], p.chans, failed, false)
                        + SelectFailed(p.slots[..we], p.chans, failed, true) + p.slots[we..]
    ensures Shape(q)
  {
    var pre := p.slots[..we];
    var suf := p.slots[we..];
    var kept := SelectFailed(pre, p.chans, failed, false);
    var bad := SelectFailed(pre, p.chans, failed, true);
    SplitDistinct(p.slots, we);
    SelectFailedDistinct(pre, p.chans, failed, false);
    SelectFailedDistinct(pre, p.chans, failed, true);
    DistinctConcat(kept, bad);
    DistinctConcat(kept + bad, suf);
    assert p.slots == pre + suf;
    forall x
      ensures x in q.slots <==> x in p.slots
    {
      assert x in q.slots <==> x in kept || x in bad || x in suf;
    }
  }

  lemma FailScanInv(p: Pool, failed: seq<EngineHandle>, h: Held, accepted: seq<CallbackId>)
    requires Inv(p, h, accepted)
    ensures Inv(FailScan(p, failed), h, accepted)
  {
    var we := FirstStopped(p);
    var pre := p.slots[..we];
    var kept := SelectFailed(pre, p.chans, failed, false);
    var bad := SelectFailed(pre, p.chans, failed, true);
    SelectFailedSplit(pre, p.chans, failed);
    var q := p.(slots := kept + bad + p.slots[we..]);
    PartitionShape(p, failed, we, q);
    assert Inv(q, h, accepted);
    StopRangeInv(q, |kept|, we, h, accepted);
  }

  lemma {:induction false} ExpireFromInv(p: Pool, i: nat, h: Held, accepted: seq<CallbackId>)
    requires i <= |p.slots| && Inv(p, h, accepted)
    ensures Inv(ExpireFrom(p, i), h, accepted)
    decreases |p.slots| - i
  {
    if i < |p.slots| {
      if LiveSlot(p, i) && ChanAt(p, i).nref == 0 {
        var id := p.slots[i].value;
        var e := Dec32(p.chans[id].expire);
        var p1 := p.(chans := p.chans[id := p.chans[id].(expire := e)]);
        SetExpireInv(p, id, e, h, accepted);
        if e == 0 {
          StopAtInv(p1, i, h, accepted);
          ExpireFromInv(StopAt(p1, i), i + 1, h, accepted);
        } else {
          ExpireFromInv(p1, i + 1, h, accepted);
        }
      } else {
        ExpireFromInv(p, i + 1, h, accepted);
      }
    }
  }

  lemma HandleTimerValid(p: Pool, daemonStarted: bool, failed: seq<EngineHandle>, h: Held, accepted: seq<CallbackId>)
    requires Valid(p, h, accepted)
    ensures Valid(HandleTimer(p, daemonStarted, failed).0, h, accepted)
  {
    if daemonStarted {
      var p1 := if |failed| != 0 then FailScan(p, failed) else p;
      if |failed| != 0 {
        FailScanInv(p, failed, h, accepted);
      }
      ExpireFromInv(p1, 0, h, accepted);
      CompactInv(ExpireFrom(p1, 0), h, accepted);
    }
  }

  // ----- shutdown / set_max_parallel ------------------------------------

  lemma ShutdownValid(p: Pool, h: Held, accepted: seq<CallbackId>)
    requires Valid(p, h, accepted)
    ensures Valid(Shutdown(p), h, accepted)
  {
    StopRangeInv(p, 0, |p.slots|, h, accepted);
    CompactInv(StopRange(p, 0, |p.slots|), h, accepted);
  }

  lemma SetMaxParallelValid(p: Pool, oldMax: nat, newMax: nat, h: Held, accepted: seq<CallbackId>)
    requires Valid(p, h, accepted)
    ensures Valid(SetMaxParallel(p, oldMax, newMax).0, h, accepted)
  {
    if oldMax != newMax {
      CheckParallelValid(p, newMax, h, accepted);
    }
  }
}
