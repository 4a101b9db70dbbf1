/** The channel pool of LiveManager.cpp as functions over a value.

    `Pool.slots` is `channels_`: entries are nulled by the internal
    `stop_channel(Channel *&)` and squeezed out later by the
    `erase(remove(..., NULL))` idiom, so a slot is an `Option<Id>`.
    `Pool.chans` holds every channel that has not been deleted, under a fresh
    identifier. `posted` is the event loop's queue of callback invocations
    (every `io_svc().post`), `stops` the engine handles passed to
    `live_module_.stop_channel`, in order. */
module PoolModel {
  import opened Common
  import opened LiveManagerTypes

  datatype Status = Started | Working | Cancel | Stopped

  /** `LiveManager::Channel`. `handle` is the engine handle (`NULL` is `None`),
      `ec`/`url2` the cached result, `callBacks` the one-shot callback slots
      (an emptied `boost::function` is `None`). */
  datatype Channel = Channel(
    url: string,
    rid: string,
    tcpPort: nat,
    udpPort: nat,
    nref: nat,
    expire: nat,
    handle: Option<EngineHandle>,
    status: Status,
    ec: ErrorCode,
    url2: string,
    callBacks: seq<Option<CallbackId>>)

  datatype Pool = Pool(
    slots: seq<Option<Id>>,
    chans: map<Id, Channel>,
    posted: seq<Post>,
    stops: seq<EngineHandle>)

  /** The number of timer ticks an idle channel is kept. */
  const GracePeriod: nat := 10

  const Uint32Modulus: nat := 0x1_0000_0000

  // ----- the three predicate structs --------------------------------------

  /** `find_channel_not_active` (declared, used only in code that is commented out). */
  predicate NotActive(c: Channel) {
    c.nref == 0 || c.status == Cancel || c.status == Stopped
  }

  /** `find_channel_stopped`. */
  predicate IsStopped(c: Channel) {
    c.status == Cancel || c.status == Stopped
  }

  /** `find_channel_working`: a started or working channel somebody holds. */
  predicate IsWorking(c: Channel) {
    (c.status == Working || c.status == Started) && c.nref > 0
  }

  /** An idle channel that still owns (or waits for) an engine session:
      the candidates `check_parallel` counts against the budget. */
  predicate IdleLive(c: Channel) {
    c.nref == 0 && (c.status == Started || c.status == Working)
  }

  // ----- sequences of slots -----------------------------------------------

  /** The first index holding x, or |s| when there is none (`std::find`). */
  function IndexOf<T(==)>(s: seq<T>, x: T): (k: nat)
    ensures k <= |s|
    ensures k < |s| ==> s[k] == x
    ensures forall j :: 0 <= j < k ==> s[j] != x
    ensures k == |s| <==> x !in s
  {
    if s == [] then 0 else if s[0] == x then 0 else 1 + IndexOf(s[1..], x)
  }

  /** Squeeze out the nulled entries. */
  function Compact(s: seq<Option<Id>>): seq<Option<Id>>
  {
    RemoveAll(s, None)
  }

  /** Erase the channel wherever it is and insert it at the front. */
  function MoveToFront(s: seq<Option<Id>>, id: Id): seq<Option<Id>>
  {
    [Some(id)] + RemoveAll(s, Some(id))
  }

  /** The channel a slot refers to, when it refers to a live one. */
  predicate LiveSlot(p: Pool, i: nat)
  {
    i < |p.slots| && p.slots[i].Some? && p.slots[i].value in p.chans
  }

  function ChanAt(p: Pool, i: nat): Channel
    requires LiveSlot(p, i)
  {
    p.chans[p.slots[i].value]
  }

  /** `count_if(..., find_channel_working())`. */
  function CountWorking(s: seq<Option<Id>>, m: map<Id, Channel>): nat
  {
    if s == [] then 0
    else (if s[0].Some? && s[0].value in m && IsWorking(m[s[0].value]) then 1 else 0)
         + CountWorking(s[1..], m)
  }

  /** The number of idle started/working channels listed in s. */
  function CountIdleLive(s: seq<Option<Id>>, m: map<Id, Channel>): nat
  {
    if s == [] then 0
    else (if s[0].Some? && s[0].value in m && IdleLive(m[s[0].value]) then 1 else 0)
         + CountIdleLive(s[1..], m)
  }

  // ----- response_channel and the internal stop_channel -------------------

  /** The posts of `response_channel`'s loop: one per non-empty slot, in order. */
  function Flush(cbs: seq<Option<CallbackId>>, ec: ErrorCode, url: string): (r: seq<Post>)
    ensures forall k :: 0 <= k < |r| ==> r[k].ec == ec && r[k].url == url
  {
    if cbs == [] then []
    else (if cbs[0].Some? then [Post(cbs[0].value, ec, url)] else []) + Flush(cbs[1..], ec, url)
  }

  /** The posts go to exactly the non-empty slots' callbacks, in order. */
  lemma {:induction false} FlushCallbacks(cbs: seq<Option<CallbackId>>, ec: ErrorCode, url: string)
    ensures CallbacksOf(Flush(cbs, ec, url)) == Somes(cbs)
  {
    if cbs != [] {
      FlushCallbacks(cbs[1..], ec, url);
      CallbacksOfAppend(if cbs[0].Some? then [Post(cbs[0].value, ec, url)] else [], Flush(cbs[1..], ec, url));
    }
  }

  /** `response_channel`'s effect on the channel: the result is cached and
      the callback vector is swapped out for an empty one. */
  function Respond(c: Channel, ec: ErrorCode, url: string): Channel
  {
    c.(ec := ec, url2 := url, callBacks := [])
  }

  /** The deletion step at the end of the internal `stop_channel`:
      `delete channel; channel = NULL;` when `nref` is 0, else the update. */
  function Reap(p: Pool, i: nat, c: Channel): (r: Pool)
    requires i < |p.slots| && p.slots[i].Some?
    ensures |r.slots| == |p.slots|
  {
    var id := p.slots[i].value;
    if c.nref == 0 then p.(chans := p.chans - {id}, slots := p.slots[i := None])
    else p.(chans := p.chans[id := c])
  }

  /** `stop_channel(Channel *& channel)` applied to `channels_[i]`. */
  function StopAt(p: Pool, i: nat): (r: Pool)
    requires i < |p.slots|
    ensures |r.slots| == |p.slots|
  {
    if !LiveSlot(p, i) then p
    else
      var c := ChanAt(p, i);
      match c.status
      case Started =>
        var c1 := Respond(c.(status := Cancel), OperationAborted, "").(handle := None, rid := "");
        Pool(p.slots, p.chans[p.slots[i].value := c1],
             p.posted + Flush(c.callBacks, OperationAborted, ""),
             p.stops + OptSeq(c.handle))
      case Working =>
        Reap(p.(stops := p.stops + OptSeq(c.handle)), i, c.(status := Stopped, handle := None, rid := ""))
      case Cancel => p
      case Stopped => Reap(p, i, c)
  }

  /** The internal stop applied to indices i, i+1, ..., j-1 in turn. */
  function StopRange(p: Pool, i: nat, j: nat): (r: Pool)
    requires i <= j <= |p.slots|
    ensures |r.slots| == |p.slots|
    decreases j - i
  {
    if i == j then p else StopRange(StopAt(p, i), i + 1, j)
  }

  // ----- check_parallel ---------------------------------------------------

  /** Conversion of an integer to a 32-bit `int` (two's complement). */
  function Int32Of(x: int): (r: int)
    ensures -0x8000_0000 <= r < 0x8000_0000
  {
    var y := x % Uint32Modulus;
    if y >= 0x8000_0000 then y - Uint32Modulus else y
  }

  /** The budget of `check_parallel`: the difference is computed on `size_t`,
      so its "below zero" test never holds, and it is then stored into an
      `int`. */
  function LeftSize(maxParallel: nat, active: nat): int
  {
    Int32Of((maxParallel - active) % SizeModulus)
  }

  /** The loop of `check_parallel` from index i on, with `iFindCount == found`. */
  function CheckFrom(p: Pool, i: nat, left: int, found: int): (r: Pool)
    requires i <= |p.slots|
    ensures |r.slots| == |p.slots|
    decreases |p.slots| - i
  {
    if i == |p.slots| then p
    else if !LiveSlot(p, i) || ChanAt(p, i).nref != 0 then CheckFrom(p, i + 1, left, found)
    else if IsStopped(ChanAt(p, i)) then CheckFrom(StopAt(p, i), i + 1, left, found)
    else if found + 1 > left then CheckFrom(StopAt(p, i), i + 1, left, found + 1)
    else CheckFrom(p, i + 1, left, found + 1)
  }

  /** `check_parallel`: evict idle channels beyond the budget, then compact. */
  function CheckParallel(p: Pool, maxParallel: nat): Pool
  {
    var q := CheckFrom(p, 0, LeftSize(maxParallel, CountWorking(p.slots, p.chans)), 0);
    q.(slots := Compact(q.slots))
  }

  // ----- start_channel ----------------------------------------------------

  /** The first channel whose rid equals the requested one, or |slots|. */
  function FindRid(p: Pool, rid: string): (k: nat)
    ensures k <= |p.slots|
    ensures k < |p.slots| ==> LiveSlot(p, k) && ChanAt(p, k).rid == rid
    ensures forall j :: 0 <= j < k && LiveSlot(p, j) ==> ChanAt(p, j).rid != rid
  {
    FindRidFrom(p, rid, 0)
  }

  function FindRidFrom(p: Pool, rid: string, i: nat): (k: nat)
    requires i <= |p.slots|
    ensures i <= k <= |p.slots|
    ensures k < |p.slots| ==> LiveSlot(p, k) && ChanAt(p, k).rid == rid
    ensures forall j :: i <= j < k && LiveSlot(p, j) ==> ChanAt(p, j).rid != rid
    decreases |p.slots| - i
  {
    if i == |p.slots| then i
    else if LiveSlot(p, i) && ChanAt(p, i).rid == rid then i
    else FindRidFrom(p, rid, i + 1)
  }

  /** The set of live channels that can still be found by rid. */
  ghost function Findable(p: Pool): set<Id>
  {
    set id | id in p.chans && p.chans[id].rid != ""
  }

  /** Channels being torn down have given up their rid (`rid.clear()`). */
  ghost predicate StoppedHaveNoRid(p: Pool)
  {
    forall id :: id in p.chans && IsStopped(p.chans[id]) ==> p.chans[id].rid == ""
  }

  /** Step 3 of `start_channel` on the channel: take a reference and, unless
      it is working, queue the callback in a new slot. */
  function Joined(c: Channel, cb: CallbackId): Channel
  {
    if c.status == Working then c.(nref := c.nref + 1)
    else c.(nref := c.nref + 1, callBacks := c.callBacks + [Some(cb)])
  }

  /** A working channel answers at once with its cached result. */
  function JoinPost(c: Channel, cb: CallbackId): seq<Post>
  {
    if c.status == Working then [Post(cb, c.ec, c.url2)] else []
  }

  /** The cancel token handed out: 0 for a working channel, else the
      1-based position of the new slot. */
  function JoinToken(c: Channel): nat
  {
    if c.status == Working then 0 else |c.callBacks| + 1
  }

  /** Step 3 of `start_channel` up to `check_parallel`. */
  function Join(p: Pool, id: Id, cb: CallbackId): (Pool, ChannelHandle)
    requires id in p.chans
  {
    var c := p.chans[id];
    (p.(chans := p.chans[id := Joined(c, cb)], posted := p.posted + JoinPost(c, cb)),
     ChannelHandle(Some(id), JoinToken(c)))
  }

  /** Step 3 of `start_channel`, with the closing `check_parallel`. */
  function Subscribe(p: Pool, id: Id, cb: CallbackId, maxParallel: nat): (Pool, ChannelHandle)
    requires id in p.chans
  {
    var (q, hd) := Join(p, id, cb);
    (CheckParallel(q, maxParallel), hd)
  }

  /** `start_channel(url, tcp_port, udp_port, call_back)` once the rid has
      been decoded. `engine` is what `live_module_.start_channel` answers if
      it is called (`None` for `NULL`); `newId` names the channel it would
      create. The reconnection branch stops the old channel, compacts, and
      starts over. */
  function Start(p: Pool, url: string, rid: string, tcp: nat, udp: nat, cb: CallbackId,
                 engine: Option<EngineHandle>, newId: Id, maxParallel: nat): (Pool, ChannelHandle)
    requires StoppedHaveNoRid(p)
    decreases |Findable(p)|
  {
    if rid == "" then
      (p.(posted := p.posted + [Post(cb, FailedSome, "")]), MakeHandle(None))
    else
      var i := FindRid(p, rid);
      if i < |p.slots| then
        var id := p.slots[i].value;
        var c := p.chans[id].(expire := 0);
        var p1 := p.(chans := p.chans[id := c]);
        if WantsReconnect(tcp, udp, c.tcpPort, c.udpPort) then
          ReconnectShrinks(p, p1, i);
          Start(Reconnected(p, i), url, rid, tcp, udp, cb, engine, newId, maxParallel)
        else
          Subscribe(p1, id, cb, maxParallel)
      else
        match engine
        case None =>
          (p.(posted := p.posted + [Post(cb, FailedSome, "")]), MakeHandle(None))
        case Some(h) =>
          var c := Channel(url, rid, tcp, udp, 0, 0, Some(h), Started, Success, "", []);
          Subscribe(p.(chans := p.chans[newId := c], slots := p.slots + [Some(newId)]), newId, cb, maxParallel)
  }

  /** The reconnection step: the old channel (its expiry already reset) goes
      through the internal stop, and the list is compacted. */
  function Reconnected(p: Pool, i: nat): Pool
    requires LiveSlot(p, i)
  {
    var id := p.slots[i].value;
    var p2 := StopAt(p.(chans := p.chans[id := p.chans[id].(expire := 0)]), i);
    p2.(slots := Compact(p2.slots))
  }

  /** Stopping the channel found by rid removes it from the findable set, so
      the reconnection recursion runs at most once more. */
  lemma ReconnectShrinks(p: Pool, p1: Pool, i: nat)
    requires StoppedHaveNoRid(p)
    requires LiveSlot(p, i) && ChanAt(p, i).rid != ""
    requires p1.slots == p.slots && p1.chans.Keys == p.chans.Keys
    requires forall id :: id in p.chans ==> p1.chans[id].rid == p.chans[id].rid && p1.chans[id].status == p.chans[id].status
    requires forall id :: id in p.chans && id != p.slots[i].value ==> p1.chans[id] == p.chans[id]
    ensures StoppedHaveNoRid(StopAt(p1, i))
    ensures |Findable(StopAt(p1, i))| < |Findable(p)|
  {
    var id := p.slots[i].value;
    var q := StopAt(p1, i);
    assert LiveSlot(p1, i) && ChanAt(p1, i).rid != "";
    assert !IsStopped(ChanAt(p1, i));
    assert id !in q.chans || q.chans[id].rid == "";
    forall x | x in q.chans
      ensures x != id ==> x in p.chans && q.chans[x] == p.chans[x]
    {
    }
    assert Findable(q) <= Findable(p) - {id};
    assert id in Findable(p);
    SubsetSmaller(Findable(q), Findable(p), id);
  }

  lemma SubsetSmaller<T>(a: set<T>, b: set<T>, x: T)
    requires a <= b - {x} && x in b
    ensures |a| < |b|
  {
    var c := b - {x};
    assert |c| == |b| - 1;
    assert |a| <= |c| by {
      assert c == a + (c - a);
      assert |c| == |a| + |c - a|;
    }
  }

  // ----- stop_channel(ChannelHandle &) ------------------------------------

  /** The abort post for the caller's own slot (nothing when it is empty). */
  function AbortPost(slot: Option<CallbackId>): seq<Post>
  {
    match slot
    case None => []
    case Some(cb) => [Post(cb, OperationAborted, "")]
  }

  /** Whether cancel token t addresses one of the channel's callback slots. */
  predicate OwnsSlot(c: Channel, t: nat)
  {
    0 < t < |c.callBacks| + 1
  }

  /** The abort posted for the caller's own slot: nothing when the token
      addresses no slot or the slot is already empty. */
  function OwnAbort(c: Channel, t: nat): seq<Post>
  {
    if OwnsSlot(c, t) then AbortPost(c.callBacks[t - 1]) else []
  }

  /** The channel after the caller's own slot is emptied and its reference dropped. */
  function DropRef(c: Channel, t: nat): Channel
    requires c.nref > 0
  {
    var c1 := if OwnsSlot(c, t) then c.(callBacks := c.callBacks[t - 1 := None]) else c;
    c1.(nref := c.nref - 1)
  }

  /** `stop_channel(ChannelHandle & handle)` up to `check_parallel`, for a
      handle on channel id with cancel token t: abort the caller's own slot,
      drop the reference, and move a channel that became idle (and is not
      being torn down) to the front with a fresh grace period. The source
      asserts `nref > 0`. */
  function Release(p: Pool, id: Id, t: nat): Pool
    requires id in p.chans && p.chans[id].nref > 0
  {
    var c2 := DropRef(p.chans[id], t);
    var p1 := p.(posted := p.posted + OwnAbort(p.chans[id], t));
    if c2.nref == 0 && !IsStopped(c2) then
      p1.(chans := p.chans[id := c2.(expire := GracePeriod)], slots := MoveToFront(p.slots, id))
    else
      p1.(chans := p.chans[id := c2])
  }

  /** `stop_channel(ChannelHandle & handle)`: returns the new pool and the
      consumed (nulled) handle; a null handle changes nothing. */
  function StopHandle(p: Pool, h: ChannelHandle, maxParallel: nat): (Pool, ChannelHandle)
    requires h.channel.Some? ==> h.channel.value in p.chans && p.chans[h.channel.value].nref > 0
  {
    var h' := h.(channel := None);
    if h.channel.None? then (p, h')
    else (CheckParallel(Release(p, h.channel.value, h.cancelToken), maxParallel), h')
  }

  // ----- handle_start_channel ---------------------------------------------

  /** `handle_start_channel(channel, ec, url)`: the engine's completion. */
  function HandleStart(p: Pool, id: Id, ec: ErrorCode, url: string): Pool
  {
    var i := IndexOf(p.slots, Some(id));
    if i == |p.slots| || id !in p.chans then p
    else
      var c := p.chans[id];
      if c.status == Cancel then
        var q := StopAt(p.(chans := p.chans[id := c.(status := Stopped)]), i);
        q.(slots := Compact(q.slots))
      else
        p.(chans := p.chans[id := Respond(c.(status := Working), ec, url)],
           posted := p.posted + Flush(c.callBacks, ec, url))
  }

  // ----- handle_timer -----------------------------------------------------

  /** `find_channel_not_failed` negated: the channel's engine handle is in the
      list `check_channels` filled. */
  predicate FailedSlot(o: Option<Id>, m: map<Id, Channel>, failed: seq<EngineHandle>)
  {
    o.Some? && o.value in m && m[o.value].handle.Some? && m[o.value].handle.value in failed
  }

  /** The entries of s whose failed-ness is `want`, in their order. */
  function SelectFailed(s: seq<Option<Id>>, m: map<Id, Channel>, failed: seq<EngineHandle>, want: bool): (r: seq<Option<Id>>)
    ensures |r| <= |s|
    ensures forall x :: x in r <==> x in s && FailedSlot(x, m, failed) == want
  {
    if s == [] then []
    else (if FailedSlot(s[0], m, failed) == want then [s[0]] else []) + SelectFailed(s[1..], m, failed, want)
  }

  lemma {:induction false} SelectFailedSplit(s: seq<Option<Id>>, m: map<Id, Channel>, failed: seq<EngineHandle>)
    ensures |SelectFailed(s, m, failed, false)| + |SelectFailed(s, m, failed, true)| == |s|
  {
    if s != [] {
      SelectFailedSplit(s[1..], m, failed);
    }
  }

  /** `find_if(begin, end, find_channel_stopped())`. */
  function FirstStopped(p: Pool): (k: nat)
    ensures k <= |p.slots|
    ensures k < |p.slots| ==> LiveSlot(p, k) && IsStopped(ChanAt(p, k))
    ensures forall j :: 0 <= j < k ==> !(LiveSlot(p, j) && IsStopped(ChanAt(p, j)))
  {
    FirstStoppedFrom(p, 0)
  }

  function FirstStoppedFrom(p: Pool, i: nat): (k: nat)
    requires i <= |p.slots|
    ensures i <= k <= |p.slots|
    ensures k < |p.slots| ==> LiveSlot(p, k) && IsStopped(ChanAt(p, k))
    ensures forall j :: i <= j < k ==> !(LiveSlot(p, j) && IsStopped(ChanAt(p, j)))
    decreases |p.slots| - i
  {
    if i == |p.slots| then i
    else if LiveSlot(p, i) && IsStopped(ChanAt(p, i)) then i
    else FirstStoppedFrom(p, i + 1)
  }

  /** The failure scan: `stable_partition` of the prefix before the first
      cancelled/stopped channel (not-failed first), then the internal stop of
      every failed channel of that prefix. */
  function FailScan(p: Pool, failed: seq<EngineHandle>): Pool
  {
    var we := FirstStopped(p);
    var pre := p.slots[..we];
    var kept := SelectFailed(pre, p.chans, failed, false);
    var bad := SelectFailed(pre, p.chans, failed, true);
    SelectFailedSplit(pre, p.chans, failed);
    var q := p.(slots := kept + bad + p.slots[we..]);
    StopRange(q, |kept|, we)
  }

  /** `--expire` on a `uint32_t`. */
  function Dec32(e: nat): nat
  {
    (e + Uint32Modulus - 1) % Uint32Modulus
  }

  /** The expiry loop of `handle_timer` from index i on. */
  function ExpireFrom(p: Pool, i: nat): (r: Pool)
    requires i <= |p.slots|
    ensures |r.slots| == |p.slots|
    decreases |p.slots| - i
  {
    if i == |p.slots| then p
    else if !LiveSlot(p, i) || ChanAt(p, i).nref != 0 then ExpireFrom(p, i + 1)
    else
      var id := p.slots[i].value;
      var e := Dec32(p.chans[id].expire);
      var p1 := p.(chans := p.chans[id := p.chans[id].(expire := e)]);
      if e == 0 then ExpireFrom(StopAt(p1, i), i + 1) else ExpireFrom(p1, i + 1)
  }

  /** `handle_timer`: `failed` is what `check_channels` put into the finder's
      (initially empty) vector, so its return value is `|failed|`. Returns the
      new pool and whether the timer was re-armed. */
  function HandleTimer(p: Pool, daemonStarted: bool, failed: seq<EngineHandle>): (Pool, bool)
  {
    if !daemonStarted then (p, false)
    else
      var p1 := if |failed| != 0 then FailScan(p, failed) else p;
      var p2 := ExpireFrom(p1, 0);
      (p2.(slots := Compact(p2.slots)), true)
  }

  // ----- shutdown / set_max_parallel --------------------------------------

  /** `shutdown`: the internal stop of every channel, then compaction. */
  function Shutdown(p: Pool): Pool
  {
    var q := StopRange(p, 0, |p.slots|);
    q.(slots := Compact(q.slots))
  }

  /** `set_max_parallel`: re-run `check_parallel` on any change. Returns the
      pool and the new limit. */
  function SetMaxParallel(p: Pool, oldMax: nat, newMax: nat): (Pool, nat)
  {
    if oldMax != newMax then (CheckParallel(p, newMax), newMax) else (p, oldMax)
  }
}
