/** What the pool keeps true between (and, without density, during) its
    operations, and that each single step keeps it.

    The ghost bookkeeping is:
    - `held`: for each channel, the multiset of cancel tokens of the handles
      callers hold and have not yet passed to `stop_channel`;
    - `accepted`: every callback ever passed to `start_channel`, in order. */
module PoolInvariant {
  import opened Common
  import opened LiveManagerTypes
  import opened PoolModel

  type Held = map<Id, multiset<nat>>

  /** The tokens outstanding for a channel (none when the map says nothing). */
  function HeldOf(h: Held, id: Id): multiset<nat>
  {
    if id in h then h[id] else multiset{}
  }

  ghost predicate Distinct(s: seq<Option<Id>>)
  {
    forall i, j :: 0 <= i < j < |s| && s[i].Some? ==> s[i] != s[j]
  }

  /** Every live channel is listed in `channels_`, and only live ones. */
  ghost predicate Covers(p: Pool)
  {
    forall id :: id in p.chans <==> Some(id) in p.slots
  }

  /** The shape a channel keeps in each status: an engine handle exactly while
      started or working; no rid once cancelled or stopped; pending callbacks
      only while started. */
  ghost predicate ChannelOk(c: Channel)
  {
    && ((c.status == Started || c.status == Working) <==> c.handle.Some?)
    && (IsStopped(c) ==> c.rid == "")
    && (c.status != Started ==> c.callBacks == [])
  }

  /** Only one live channel answers to any non-empty rid. */
  ghost predicate RidsUnique(m: map<Id, Channel>)
  {
    forall a, b :: a in m && b in m && a != b && m[a].rid == m[b].rid ==> m[a].rid == ""
  }

  ghost predicate Shape(p: Pool)
  {
    && Distinct(p.slots)
    && Covers(p)
    && (forall id :: id in p.chans ==> ChannelOk(p.chans[id]))
    && RidsUnique(p.chans)
  }

  /** The outstanding handles of one channel against its callback slots:
      slot k is non-empty exactly when the handle with token k + 1 is still
      outstanding, and that token is held at most once; while started every
      outstanding token addresses a slot. */
  ghost predicate TokensOk(c: Channel, hs: multiset<nat>)
  {
    && (forall k :: 0 <= k < |c.callBacks| ==> (c.callBacks[k].Some? <==> (k + 1) in hs) && hs[k + 1] <= 1)
    && (c.status == Started ==> forall t :: t in hs ==> 1 <= t <= |c.callBacks|)
  }

  /** `nref` counts the outstanding handles; no handle refers to a deleted channel. */
  ghost predicate Refs(p: Pool, h: Held)
  {
    && (forall id :: id in p.chans ==> p.chans[id].nref == |HeldOf(h, id)| && TokensOk(p.chans[id], HeldOf(h, id)))
    && (forall id :: id !in p.chans ==> HeldOf(h, id) == multiset{})
  }

  /** The callbacks still waiting in a channel's slots. */
  function PendingOf(c: Channel): multiset<CallbackId>
  {
    multiset(Somes(c.callBacks))
  }

  /** The callbacks waiting in all live channels. */
  ghost function PendingAll(m: map<Id, Channel>): multiset<CallbackId>
    decreases |m|
  {
    if m == map[] then multiset{}
    else
      var k: Id :| k in m;
      PendingOf(m[k]) + PendingAll(m - {k})
  }

  /** Every callback passed to `start_channel` has been posted or is still
      pending, and exactly once: none dropped, none duplicated. */
  ghost predicate Conserved(p: Pool, accepted: seq<CallbackId>)
  {
    multiset(accepted) == multiset(CallbacksOf(p.posted)) + PendingAll(p.chans)
  }

  ghost predicate Inv(p: Pool, h: Held, accepted: seq<CallbackId>)
  {
    Shape(p) && Refs(p, h) && Conserved(p, accepted)
  }

  /** The invariant between operations: also no nulled entry is left. */
  ghost predicate Valid(p: Pool, h: Held, accepted: seq<CallbackId>)
  {
    Inv(p, h, accepted) && None !in p.slots
  }

  // ----- PendingAll under map updates -------------------------------------

  lemma {:induction false} PendingAllPick(m: map<Id, Channel>, k: Id)
    requires k in m
    ensures PendingAll(m) == PendingOf(m[k]) + PendingAll(m - {k})
    decreases |m|
  {
    assert m != map[];
    var j: Id :| j in m && PendingAll(m) == PendingOf(m[j]) + PendingAll(m - {j});
    if j != k {
      var mj := m - {j};
      var mk := m - {k};
      assert k in mj && mj[k] == m[k];
      assert j in mk && mk[j] == m[j];
      PendingAllPick(mj, k);
      PendingAllPick(mk, j);
      assert mj - {k} == mk - {j};
      SwapPick(PendingOf(m[j]), PendingOf(m[k]), PendingAll(mj - {k}), PendingAll(m), PendingAll(mj), PendingAll(mk));
    }
  }

  /** Multiset arithmetic behind PendingAllPick: taking j then k out gives
      what taking k then j out gives. */
  lemma SwapPick<T>(a: multiset<T>, b: multiset<T>, rest: multiset<T>, all: multiset<T>, noA: multiset<T>, noB: multiset<T>)
    requires all == a + noA && noA == b + rest && noB == a + rest
    ensures all == b + noB
  {
  }

  lemma PendingAllRemove(m: map<Id, Channel>, k: Id)
    requires k in m
    ensures PendingAll(m - {k}) == PendingAll(m) - PendingOf(m[k])
  {
    PendingAllPick(m, k);
  }

  lemma PendingAllUpdate(m: map<Id, Channel>, k: Id, c: Channel)
    ensures k in m ==> PendingAll(m[k := c]) == PendingAll(m) - PendingOf(m[k]) + PendingOf(c)
    ensures k !in m ==> PendingAll(m[k := c]) == PendingAll(m) + PendingOf(c)
  {
    var m' := m[k := c];
    PendingAllPick(m', k);
    assert m' - {k} == m - {k};
    if k in m {
      PendingAllPick(m, k);
    } else {
      assert m - {k} == m;
    }
  }

  /** Updating a channel without touching its callbacks leaves the pending
      multiset as it was. */
  lemma PendingAllSame(m: map<Id, Channel>, k: Id, c: Channel)
    requires k in m && c.callBacks == m[k].callBacks
    ensures PendingAll(m[k := c]) == PendingAll(m)
  {
    PendingAllUpdate(m, k, c);
    PendingAllPick(m, k);
    assert PendingOf(c) == PendingOf(m[k]);
  }

  // ----- slot sequences --------------------------------------------------

  lemma {:induction false} RemoveAllDistinct(s: seq<Option<Id>>, x: Option<Id>)
    requires Distinct(s)
    ensures Distinct(RemoveAll(s, x))
  {
    if s != [] {
      RemoveAllDistinct(s[1..], x);
      var r := RemoveAll(s[1..], x);
      if s[0] != x && s[0].Some? {
        assert s[0] !in s[1..] by {
          forall j | 0 <= j < |s[1..]| ensures s[1..][j] != s[0] {
            assert s[j + 1] == s[1..][j];
          }
        }
        assert s[0] !in r;
      }
      assert RemoveAll(s, x) == (if s[0] == x then [] else [s[0]]) + r;
    }
  }

  lemma CompactShape(p: Pool)
    requires Shape(p)
    ensures Shape(p.(slots := Compact(p.slots)))
    ensures None !in Compact(p.slots)
  {
    RemoveAllDistinct(p.slots, None);
  }

  lemma CompactInv(p: Pool, h: Held, accepted: seq<CallbackId>)
    requires Inv(p, h, accepted)
    ensures Valid(p.(slots := Compact(p.slots)), h, accepted)
  {
    CompactShape(p);
  }

  lemma MoveToFrontDistinct(s: seq<Option<Id>>, id: Id)
    requires Distinct(s)
    ensures Distinct(MoveToFront(s, id))
    ensures forall x :: x in MoveToFront(s, id) <==> x in s || x == Some(id)
  {
    RemoveAllDistinct(s, Some(id));
    var r := RemoveAll(s, Some(id));
    assert Some(id) !in r;
  }

  /** A slot's channel appears in no other slot. */
  lemma DistinctAt(s: seq<Option<Id>>, i: nat, j: nat)
    requires Distinct(s) && i < |s| && j < |s| && i != j && s[i].Some?
    ensures s[i] != s[j]
  {
    if j < i {
      assert s[j].Some? ==> s[j] != s[i];
    }
  }

  lemma NullingCovers(p: Pool, i: nat)
    requires Distinct(p.slots) && Covers(p) && i < |p.slots| && p.slots[i].Some?
    ensures Distinct(p.slots[i := None])
    ensures forall id :: id in p.chans - {p.slots[i].value} <==> Some(id) in p.slots[i := None]
  {
    var s := p.slots;
    var s' := s[i := None];
    var id0 := s[i].value;
    forall id ensures id in p.chans - {id0} <==> Some(id) in s' {
      if id in p.chans - {id0} {
        var j :| 0 <= j < |s| && s[j] == Some(id);
        assert j != i;
        assert s'[j] == Some(id);
      }
      if Some(id) in s' {
        var j :| 0 <= j < |s'| && s'[j] == Some(id);
        assert j != i && s[j] == Some(id);
        DistinctAt(s, i, j);
      }
    }
  }

  // ----- one internal stop -----------------------------------------------

  // ----- single-channel updates ------------------------------------------

  /** One channel replaced by c1 in q, the list unchanged. */
  lemma ShapeUpdate(p: Pool, id: Id, c1: Channel, q: Pool)
    requires Shape(p) && id in p.chans && ChannelOk(c1)
    requires c1.rid == "" || c1.rid == p.chans[id].rid
    requires q.chans == p.chans[id := c1] && q.slots == p.slots
    ensures Shape(q)
  {
    var m := q.chans;
    forall a, b | a in m && b in m && a != b && m[a].rid == m[b].rid
      ensures m[a].rid == ""
    {
      if a != id && b != id {
        assert m[a] == p.chans[a] && m[b] == p.chans[b];
      }
    }
  }

  lemma RefsUpdate(p: Pool, h: Held, id: Id, c1: Channel, q: Pool)
    requires Refs(p, h) && id in p.chans
    requires c1.nref == p.chans[id].nref && TokensOk(c1, HeldOf(h, id))
    requires q.chans == p.chans[id := c1]
    ensures Refs(q, h)
  {
  }

  lemma ShapeDelete(p: Pool, i: nat)
    requires Shape(p) && LiveSlot(p, i)
    ensures Shape(p.(chans := p.chans - {p.slots[i].value}, slots := p.slots[i := None]))
  {
    NullingCovers(p, i);
  }

  lemma RefsDelete(p: Pool, h: Held, id: Id)
    requires Refs(p, h) && id in p.chans && p.chans[id].nref == 0
    ensures Refs(p.(chans := p.chans - {id}), h)
  {
    assert |HeldOf(h, id)| == 0;
  }

  /** The internal stop touches only the channel in slot i. */
  lemma StopAtOthers(p: Pool, i: nat)
    requires i < |p.slots| && Distinct(p.slots)
    ensures Distinct(StopAt(p, i).slots)
    ensures forall j :: 0 <= j < |p.slots| && j != i ==> StopAt(p, i).slots[j] == p.slots[j]
    ensures StopAt(p, i).slots[i] == p.slots[i] || StopAt(p, i).slots[i] == None
    ensures StopAt(p, i).chans.Keys <= p.chans.Keys
    ensures forall x :: x in p.chans && (!LiveSlot(p, i) || x != p.slots[i].value) ==>
              x in StopAt(p, i).chans && StopAt(p, i).chans[x] == p.chans[x]
  {
    var q := StopAt(p, i);
    if LiveSlot(p, i) {
      var c := ChanAt(p, i);
      match c.status
      case Started => StopAtStarted(p, i);
      case Working =>
      case Cancel =>
      case Stopped =>
    }
    forall a, b | 0 <= a < b < |q.slots| && q.slots[a].Some?
      ensures q.slots[a] != q.slots[b]
    {
      assert q.slots[a] == p.slots[a];
      assert q.slots[b] == p.slots[b] || q.slots[b] == None;
    }
  }

  /** What the internal stop does to the channel in slot i, by status. */
  lemma StopAtSelf(p: Pool, i: nat)
    requires LiveSlot(p, i)
    ensures var c := ChanAt(p, i); var id := p.slots[i].value; var q := StopAt(p, i);
      && (c.status == Started ==> LiveSlot(q, i) && ChanAt(q, i) == c.(status := Cancel, ec := OperationAborted, url2 := "", callBacks := [], handle := None, rid := ""))
      && (c.status == Working && c.nref == 0 ==> q.slots[i] == None && id !in q.chans)
      && (c.status == Working && c.nref > 0 ==> LiveSlot(q, i) && ChanAt(q, i) == c.(status := Stopped, handle := None, rid := ""))
      && (c.status == Cancel ==> q == p)
      && (c.status == Stopped && c.nref == 0 ==> q.slots[i] == None && id !in q.chans)
      && (c.status == Stopped && c.nref > 0 ==> q == p.(chans := p.chans[id := c]))
  {
    if ChanAt(p, i).status == Started {
      StopAtStarted(p, i);
    }
  }

  /** What the internal stop does to a started channel. */
  lemma StopAtStarted(p: Pool, i: nat)
    requires LiveSlot(p, i) && ChanAt(p, i).status == Started
    ensures StopAt(p, i) == Pool(p.slots,
      p.chans[p.slots[i].value := ChanAt(p, i).(status := Cancel, ec := OperationAborted, url2 := "", callBacks := [], handle := None, rid := "")],
      p.posted + Flush(ChanAt(p, i).callBacks, OperationAborted, ""),
      p.stops + OptSeq(ChanAt(p, i).handle))
  {
  }

  /** Cancelling a started channel: its rid, engine handle and callbacks go,
      the callbacks into the queue. */
  lemma StopStartedInv(p: Pool, i: nat, h: Held, accepted: seq<CallbackId>)
    requires LiveSlot(p, i) && ChanAt(p, i).status == Started && Inv(p, h, accepted)
    ensures Inv(StopAt(p, i), h, accepted)
  {
    var id := p.slots[i].value;
    var c := p.chans[id];
    var c1 := c.(status := Cancel, ec := OperationAborted, url2 := "", callBacks := [], handle := None, rid := "");
    var fl := Flush(c.callBacks, OperationAborted, "");
    FlushCallbacks(c.callBacks, OperationAborted, "");
    StopAtStarted(p, i);
    assert ChannelOk(c1);
    ShapeUpdate(p, id, c1, StopAt(p, i));
    RefsUpdate(p, h, id, c1, StopAt(p, i));
    FlushConserved(p, accepted, id, c1, fl);
  }

  lemma FlushConserved(p: Pool, accepted: seq<CallbackId>, id: Id, c1: Channel, fl: seq<Post>)
    requires Conserved(p, accepted) && id in p.chans && c1.callBacks == []
    requires CallbacksOf(fl) == Somes(p.chans[id].callBacks)
    ensures Conserved(p.(chans := p.chans[id := c1], posted := p.posted + fl), accepted)
  {
    PendingAllUpdate(p.chans, id, c1);
    PendingAllPick(p.chans, id);
    assert PendingOf(c1) == multiset{};
    CallbacksOfAppend(p.posted, fl);
  }

  /** The deletion step: a channel with no callbacks left is updated, or
      deleted and its slot nulled when nobody holds it. */
  lemma ReapInv(p: Pool, i: nat, c: Channel, h: Held, accepted: seq<CallbackId>)
    requires LiveSlot(p, i) && Inv(p, h, accepted)
    requires ChanAt(p, i).callBacks == [] && c.callBacks == [] && c.nref == ChanAt(p, i).nref
    requires c.status == Stopped && c.handle.None? && c.rid == ""
    ensures Inv(Reap(p, i, c), h, accepted)
  {
    var id := p.slots[i].value;
    if c.nref == 0 {
      ShapeDelete(p, i);
      RefsDelete(p, h, id);
      PendingAllRemove(p.chans, id);
    } else {
      ShapeUpdate(p, id, c, p.(chans := p.chans[id := c]));
      RefsUpdate(p, h, id, c, p.(chans := p.chans[id := c]));
      PendingAllSame(p.chans, id, c);
    }
  }

  /** The internal stop keeps the invariant, whatever it does. */
  lemma StopAtInv(p: Pool, i: nat, h: Held, accepted: seq<CallbackId>)
    requires i < |p.slots| && Inv(p, h, accepted)
    ensures Inv(StopAt(p, i), h, accepted)
  {
    if LiveSlot(p, i) {
      var c := ChanAt(p, i);
      match c.status
      case Started =>
        StopStartedInv(p, i, h, accepted);
      case Working =>
        var p1 := p.(stops := p.stops + OptSeq(c.handle));
        assert LiveSlot(p1, i) && ChanAt(p1, i) == c;
        ReapInv(p1, i, c.(status := Stopped, handle := None, rid := ""), h, accepted);
      case Cancel =>
      case Stopped =>
        ReapInv(p, i, c, h, accepted);
    }
  }

  lemma {:induction false} StopRangeInv(p: Pool, i: nat, j: nat, h: Held, accepted: seq<CallbackId>)
    requires i <= j <= |p.slots| && Inv(p, h, accepted)
    ensures Inv(StopRange(p, i, j), h, accepted)
    decreases j - i
  {
    if i < j {
      var q := StopAt(p, i);
      StopAtInv(p, i, h, accepted);
      StopRangeInv(q, i + 1, j, h, accepted);
      assert StopRange(p, i, j) == StopRange(q, i + 1, j);
    }
  }
}
