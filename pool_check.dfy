/** What `check_parallel` (LiveManager.cpp) does to the pool: it keeps the
    invariant, leaves every held or cancelled channel alone, deletes the idle
    stopped ones, keeps exactly the first idle channels that fit the budget,
    evicts the rest, and keeps the survivors in their order. */
module PoolCheck {
  import opened Common
  import opened LiveManagerTypes
  import opened PoolModel
  import opened PoolInvariant

  // ----- counting over index ranges ---------------------------------------

  predicate IdleSlot(o: Option<Id>, m: map<Id, Channel>)
  {
    o.Some? && o.value in m && IdleLive(m[o.value])
  }

  predicate WorkingSlot(o: Option<Id>, m: map<Id, Channel>)
  {
    o.Some? && o.value in m && IsWorking(m[o.value])
  }

  /** The idle started/working channels listed at indices a .. b-1. */
  function CountIdleRange(s: seq<Option<Id>>, m: map<Id, Channel>, a: nat, b: nat): nat
    requires a <= b <= |s|
    decreases b - a
  {
    if a == b then 0 else (if IdleSlot(s[a], m) then 1 else 0) + CountIdleRange(s, m, a + 1, b)
  }

  lemma {:induction false} CountIdleRangeSlice(s: seq<Option<Id>>, m: map<Id, Channel>, a: nat, b: nat)
    requires a <= b <= |s|
    ensures CountIdleLive(s[a..b], m) == CountIdleRange(s, m, a, b)
    decreases b - a
  {
    if a < b {
      assert s[a..b][0] == s[a];
      assert s[a..b][1..] == s[a + 1..b];
      CountIdleRangeSlice(s, m, a + 1, b);
    }
  }

  /** Two listings that agree index by index on idleness count the same. */
  lemma {:induction false} CountIdleRangeSame(s1: seq<Option<Id>>, m1: map<Id, Channel>,
                                             s2: seq<Option<Id>>, m2: map<Id, Channel>, a: nat, b: nat)
    requires a <= b <= |s1| && |s1| == |s2|
    requires forall k :: a <= k < b ==> (IdleSlot(s1[k], m1) <==> IdleSlot(s2[k], m2))
    ensures CountIdleRange(s1, m1, a, b) == CountIdleRange(s2, m2, a, b)
    decreases b - a
  {
    if a < b {
      CountIdleRangeSame(s1, m1, s2, m2, a + 1, b);
    }
  }

  lemma {:induction false} CountWorkingSame(s1: seq<Option<Id>>, m1: map<Id, Channel>,
                                           s2: seq<Option<Id>>, m2: map<Id, Channel>)
    requires |s1| == |s2|
    requires forall k :: 0 <= k < |s1| ==> (WorkingSlot(s1[k], m1) <==> WorkingSlot(s2[k], m2))
    ensures CountWorking(s1, m1) == CountWorking(s2, m2)
  {
    if s1 != [] {
      assert WorkingSlot(s1[0], m1) <==> WorkingSlot(s2[0], m2);
      CountWorkingSame(s1[1..], m1, s2[1..], m2);
    }
  }

  lemma {:induction false} CountWorkingBound(s: seq<Option<Id>>, m: map<Id, Channel>)
    ensures CountWorking(s, m) <= |s|
  {
    if s != [] {
      CountWorkingBound(s[1..], m);
    }
  }

  lemma {:induction false} CountsAppend(a: seq<Option<Id>>, b: seq<Option<Id>>, m: map<Id, Channel>)
    ensures CountIdleLive(a + b, m) == CountIdleLive(a, m) + CountIdleLive(b, m)
    ensures CountWorking(a + b, m) == CountWorking(a, m) + CountWorking(b, m)
  {
    if a == [] {
      assert a + b == b;
    } else {
      assert (a + b)[0] == a[0];
      assert (a + b)[1..] == a[1..] + b;
      CountsAppend(a[1..], b, m);
    }
  }

  /** Squeezing out nulled entries changes no count. */
  lemma {:induction false} CompactCounts(s: seq<Option<Id>>, m: map<Id, Channel>)
    ensures CountIdleLive(Compact(s), m) == CountIdleLive(s, m)
    ensures CountWorking(Compact(s), m) == CountWorking(s, m)
  {
    if s != [] {
      var head := if s[0] == None then [] else [s[0]];
      assert Compact(s) == head + Compact(s[1..]);
      CountsAppend(head, Compact(s[1..]), m);
      CompactCounts(s[1..], m);
    }
  }

  // ----- survivors keep their order ---------------------------------------

  /** a is b with some entries left out, the rest in their order. */
  predicate Subseq<T(==)>(a: seq<T>, b: seq<T>)
    decreases |b|
  {
    a == [] || (b != [] && ((a[0] == b[0] && Subseq(a[1..], b[1..])) || Subseq(a, b[1..])))
  }

  /** z is s with some entries nulled. */
  predicate NulledFrom(z: seq<Option<Id>>, s: seq<Option<Id>>)
  {
    |z| == |s| && forall j :: 0 <= j < |z| ==> z[j] == s[j] || z[j] == None
  }

  lemma {:induction false} CompactNulledSubseq(z: seq<Option<Id>>, s: seq<Option<Id>>)
    requires NulledFrom(z, s)
    ensures Subseq(Compact(z), s)
  {
    if z != [] {
      assert NulledFrom(z[1..], s[1..]);
      CompactNulledSubseq(z[1..], s[1..]);
      if z[0] == None {
        assert Compact(z) == Compact(z[1..]);
        SubseqSkip(Compact(z), s);
      } else {
        assert Compact(z) == [z[0]] + Compact(z[1..]);
        assert Compact(z)[1..] == Compact(z[1..]);
      }
    }
  }

  lemma SubseqSkip<T>(a: seq<T>, s: seq<T>)
    requires s != [] && Subseq(a, s[1..])
    ensures Subseq(a, s)
  {
  }

  // ----- the loop, one index at a time ------------------------------------

  /** What the loop of `check_parallel` leaves alone and what it deletes. */
  lemma CheckFromFrame(p: Pool, i: nat, left: int, found: int)
    requires i <= |p.slots| && Distinct(p.slots)
    ensures var r := CheckFrom(p, i, left, found);
      && Distinct(r.slots)
      && r.chans.Keys <= p.chans.Keys
      && NulledFrom(r.slots, p.slots)
      && (forall j :: 0 <= j < |p.slots| && r.slots[j] == None && p.slots[j].Some? ==> p.slots[j].value !in r.chans)
      && (forall j :: 0 <= j < i ==> r.slots[j] == p.slots[j])
      && (forall x :: x in p.chans && (Some(x) !in p.slots[i..] || p.chans[x].nref > 0 || p.chans[x].status == Cancel) ==>
            x in r.chans && r.chans[x] == p.chans[x])
      && (forall x :: x in r.chans ==> r.chans[x] == p.chans[x] || IsStopped(r.chans[x]))
      && (forall j :: i <= j < |p.slots| && LiveSlot(p, j) && ChanAt(p, j).nref == 0 && ChanAt(p, j).status == Stopped ==>
            r.slots[j] == None && p.slots[j].value !in r.chans)
  {
    CheckFromSlots(p, i, left, found);
    CheckFromChans(p, i, left, found);
    CheckFromDeletes(p, i, left, found);
  }

  /** The loop only nulls entries, and none before index i. */
  lemma {:induction false} CheckFromSlots(p: Pool, i: nat, left: int, found: int)
    requires i <= |p.slots| && Distinct(p.slots)
    ensures var r := CheckFrom(p, i, left, found);
      && Distinct(r.slots)
      && NulledFrom(r.slots, p.slots)
      && (forall j :: 0 <= j < i ==> r.slots[j] == p.slots[j])
    decreases |p.slots| - i
  {
    if i < |p.slots| {
      var stop := StepStops(p, i, left, found);
      var q := if stop then StopAt(p, i) else p;
      var f := StepFound(p, i, found);
      CheckFromStep(p, i, left, found);
      StepFacts(p, i, stop);
      CheckFromSlots(q, i + 1, left, f);
    }
  }

  /** The loop deletes channels and marks some stopped, and leaves alone
      every channel not listed from index i on, held, or cancelled. */
  lemma {:induction false} CheckFromChans(p: Pool, i: nat, left: int, found: int)
    requires i <= |p.slots| && Distinct(p.slots)
    ensures var r := CheckFrom(p, i, left, found);
      && r.chans.Keys <= p.chans.Keys
      && (forall x :: x in p.chans && (Some(x) !in p.slots[i..] || p.chans[x].nref > 0 || p.chans[x].status == Cancel) ==>
            x in r.chans && r.chans[x] == p.chans[x])
      && (forall x :: x in r.chans ==> r.chans[x] == p.chans[x] || IsStopped(r.chans[x]))
    decreases |p.slots| - i
  {
    if i < |p.slots| {
      var stop := StepStops(p, i, left, found);
      var q := if stop then StopAt(p, i) else p;
      var f := StepFound(p, i, found);
      CheckFromStep(p, i, left, found);
      StepFacts(p, i, stop);
      CheckFromChans(q, i + 1, left, f);
      var r := CheckFrom(q, i + 1, left, f);
      assert q.slots[i + 1..] == p.slots[i + 1..];
      forall x | x in p.chans && (Some(x) !in p.slots[i..] || p.chans[x].nref > 0 || p.chans[x].status == Cancel)
        ensures x in r.chans && r.chans[x] == p.chans[x]
      {
        assert x in q.chans && q.chans[x] == p.chans[x];
      }
      forall x | x in r.chans
        ensures r.chans[x] == p.chans[x] || IsStopped(r.chans[x])
      {
        assert x in q.chans;
      }
    }
  }

  /** A nulled entry's channel is gone, and every idle stopped channel listed
      from index i on is deleted and its entry nulled. */
  lemma {:induction false} CheckFromDeletes(p: Pool, i: nat, left: int, found: int)
    requires i <= |p.slots| && Distinct(p.slots)
    ensures var r := CheckFrom(p, i, left, found);
      && (forall j :: 0 <= j < |p.slots| && r.slots[j] == None && p.slots[j].Some? ==> p.slots[j].value !in r.chans)
      && (forall j :: i <= j < |p.slots| && LiveSlot(p, j) && ChanAt(p, j).nref == 0 && ChanAt(p, j).status == Stopped ==>
            r.slots[j] == None && p.slots[j].value !in r.chans)
    decreases |p.slots| - i
  {
    if i < |p.slots| {
      var stop := StepStops(p, i, left, found);
      var q := if stop then StopAt(p, i) else p;
      var f := StepFound(p, i, found);
      CheckFromStep(p, i, left, found);
      StepFacts(p, i, stop);
      CheckFromDeletes(q, i + 1, left, f);
      CheckFromSlots(q, i + 1, left, f);
      CheckFromChans(q, i + 1, left, f);
      var r := CheckFrom(q, i + 1, left, f);
      forall j | 0 <= j < |p.slots| && r.slots[j] == None && p.slots[j].Some?
        ensures p.slots[j].value !in r.chans
      {
        if q.slots[j] == None {
          assert j == i;
        } else {
          assert q.slots[j] == p.slots[j];
        }
      }
      forall j | i <= j < |p.slots| && LiveSlot(p, j) && ChanAt(p, j).nref == 0 && ChanAt(p, j).status == Stopped
        ensures r.slots[j] == None && p.slots[j].value !in r.chans
      {
        if j == i {
          assert stop;
        } else {
          DistinctAt(p.slots, j, i);
          assert q.slots[j] == p.slots[j];
        }
      }
    }
  }

  /** What one step of the loop (no stop, or the internal stop of slot i)
      keeps: the facts the frame lemma needs, for either step. */
  lemma StepFacts(p: Pool, i: nat, stop: bool)
    requires i < |p.slots| && Distinct(p.slots)
    requires stop ==> LiveSlot(p, i) && ChanAt(p, i).nref == 0
    ensures var q := if stop then StopAt(p, i) else p;
      && Distinct(q.slots)
      && q.chans.Keys <= p.chans.Keys
      && NulledFrom(q.slots, p.slots)
      && (forall j :: 0 <= j < |p.slots| && j != i ==> q.slots[j] == p.slots[j])
      && (q.slots[i] == None && p.slots[i].Some? ==> p.slots[i].value !in q.chans)
      && (forall x :: x in p.chans && (Some(x) !in p.slots[i..] || p.chans[x].nref > 0 || p.chans[x].status == Cancel) ==>
            x in q.chans && q.chans[x] == p.chans[x])
      && (forall x :: x in q.chans ==> q.chans[x] == p.chans[x] || IsStopped(q.chans[x]))
      && (stop && ChanAt(p, i).status == Stopped ==> q.slots[i] == None && p.slots[i].value !in q.chans)
      && (stop ==> !IdleSlot(q.slots[i], q.chans))
      && (stop && IdleLive(ChanAt(p, i)) ==>
            p.slots[i].value !in q.chans || q.chans[p.slots[i].value].status == Cancel)
      && (forall x :: x in p.chans && Some(x) != p.slots[i] ==> x in q.chans && q.chans[x] == p.chans[x])
  {
    if stop {
      StopAtOthers(p, i);
      StopAtSelf(p, i);
      var q := StopAt(p, i);
      var id := p.slots[i].value;
      forall x | x in p.chans && (Some(x) !in p.slots[i..] || p.chans[x].nref > 0 || p.chans[x].status == Cancel)
        ensures x in q.chans && q.chans[x] == p.chans[x]
      {
        if x == id {
          assert p.slots[i..][0] == Some(x);
        }
      }
    }
  }

  /** A slot's channel is listed nowhere after it. */
  lemma NotLater(s: seq<Option<Id>>, j: nat)
    requires Distinct(s) && j < |s| && s[j].Some?
    ensures s[j] !in s[j + 1..]
  {
    forall k | j + 1 <= k < |s|
      ensures s[k] != s[j]
    {
      DistinctAt(s, j, k);
    }
  }

  /** The rest of the loop leaves slot i as the step left it. */
  lemma CheckFromHeadIdle(q: Pool, i: nat, left: int, f: int)
    requires i < |q.slots| && Distinct(q.slots)
    ensures var r := CheckFrom(q, i + 1, left, f);
      IdleSlot(r.slots[i], r.chans) <==> IdleSlot(q.slots[i], q.chans)
  {
    CheckFromFrame(q, i + 1, left, f);
    if q.slots[i].Some? {
      NotLater(q.slots, i);
    }
  }

  function Max0(x: int): nat
  {
    if x < 0 then 0 else x
  }

  /** Once `iFindCount` is `found`, the loop leaves at most `left - found`
      idle started/working channels from index i on. */
  lemma {:induction false} CheckFromBound(p: Pool, i: nat, left: int, found: int)
    requires i <= |p.slots| && Distinct(p.slots)
    ensures var r := CheckFrom(p, i, left, found);
      CountIdleRange(r.slots, r.chans, i, |p.slots|) <= Max0(left - found)
    decreases |p.slots| - i
  {
    if i < |p.slots| {
      var stop := StepStops(p, i, left, found);
      var q := if stop then StopAt(p, i) else p;
      var f := StepFound(p, i, found);
      CheckFromStep(p, i, left, found);
      StepFacts(p, i, stop);
      CheckFromBound(q, i + 1, left, f);
      CheckFromHeadIdle(q, i, left, f);
    }
  }

  /** Where idle channel j stands: it survives untouched exactly when fewer
      than `left` idle channels came before it (counting from `found`);
      otherwise it is cancelled or deleted. */
  lemma {:induction false} CheckFromRank(p: Pool, i: nat, left: int, found: int, j: nat)
    requires Distinct(p.slots) && i <= j && LiveSlot(p, j) && IdleLive(ChanAt(p, j))
    ensures var r := CheckFrom(p, i, left, found);
      var x := p.slots[j].value;
      var k := found + CountIdleRange(p.slots, p.chans, i, j);
      && (k + 1 <= left ==> x in r.chans && r.chans[x] == p.chans[x])
      && (k + 1 > left ==> x !in r.chans || r.chans[x].status == Cancel)
    decreases |p.slots| - i
  {
    var stop := StepStops(p, i, left, found);
    var q := if stop then StopAt(p, i) else p;
    var f := StepFound(p, i, found);
    CheckFromStep(p, i, left, found);
    StepFacts(p, i, stop);
    var x := p.slots[j].value;
    if i == j {
      CheckFromFrame(q, j + 1, left, f);
      NotLater(p.slots, j);
    } else {
      DistinctAt(p.slots, j, i);
      assert LiveSlot(q, j) && ChanAt(q, j) == ChanAt(p, j);
      forall k | i + 1 <= k < j
        ensures IdleSlot(q.slots[k], q.chans) <==> IdleSlot(p.slots[k], p.chans)
      {
        if p.slots[k].Some? {
          DistinctAt(p.slots, k, i);
        }
      }
      CountIdleRangeSame(q.slots, q.chans, p.slots, p.chans, i + 1, j);
      CheckFromRank(q, i + 1, left, f, j);
    }
  }

  /** The loop keeps the invariant. */
  lemma {:induction false} CheckFromInv(p: Pool, i: nat, left: int, found: int, h: Held, accepted: seq<CallbackId>)
    requires i <= |p.slots| && Inv(p, h, accepted)
    ensures Inv(CheckFrom(p, i, left, found), h, accepted)
    decreases |p.slots| - i
  {
    if i < |p.slots| {
      var stop := StepStops(p, i, left, found);
      var q := if stop then StopAt(p, i) else p;
      CheckFromStep(p, i, left, found);
      StepInv(p, i, stop, h, accepted);
      CheckFromInv(q, i + 1, left, StepFound(p, i, found), h, accepted);
    }
  }

  /** Whether the loop stops slot i, and its count after slot i. */
  predicate StepStops(p: Pool, i: nat, left: int, found: int)
  {
    LiveSlot(p, i) && ChanAt(p, i).nref == 0 && (IsStopped(ChanAt(p, i)) || found + 1 > left)
  }

  function StepFound(p: Pool, i: nat, found: int): int
  {
    if !LiveSlot(p, i) || ChanAt(p, i).nref != 0 || IsStopped(ChanAt(p, i)) then found else found + 1
  }

  lemma CheckFromStep(p: Pool, i: nat, left: int, found: int)
    requires i < |p.slots|
    ensures CheckFrom(p, i, left, found) ==
      CheckFrom(if StepStops(p, i, left, found) then StopAt(p, i) else p, i + 1, left, StepFound(p, i, found))
  {
  }

  lemma StepInv(p: Pool, i: nat, stop: bool, h: Held, accepted: seq<CallbackId>)
    requires i < |p.slots| && Inv(p, h, accepted)
    ensures Inv(if stop then StopAt(p, i) else p, h, accepted)
  {
    if stop {
      StopAtInv(p, i, h, accepted);
    }
  }

  // ----- check_parallel ---------------------------------------------------

  /** `check_parallel` keeps the invariant and leaves no nulled entry. */
  lemma CheckParallelValid(p: Pool, maxParallel: nat, h: Held, accepted: seq<CallbackId>)
    requires Inv(p, h, accepted)
    ensures Valid(CheckParallel(p, maxParallel), h, accepted)
  {
    var q := CheckFrom(p, 0, LeftSize(maxParallel, CountWorking(p.slots, p.chans)), 0);
    CheckFromInv(p, 0, LeftSize(maxParallel, CountWorking(p.slots, p.chans)), 0, h, accepted);
    CompactInv(q, h, accepted);
  }

  /** `check_parallel` leaves held and cancelled channels alone, deletes the
      idle stopped ones, only ever stops the others, keeps the survivors in
      their order and does not change the number of active channels. */
  lemma CheckParallelKeeps(p: Pool, maxParallel: nat)
    requires Distinct(p.slots)
    ensures var r := CheckParallel(p, maxParallel);
      && Subseq(r.slots, p.slots)
      && None !in r.slots
      && r.chans.Keys <= p.chans.Keys
      && (forall x :: x in p.chans && (p.chans[x].nref > 0 || p.chans[x].status == Cancel) ==>
            x in r.chans && r.chans[x] == p.chans[x])
      && (forall x :: x in p.chans && Some(x) in p.slots && p.chans[x].nref == 0 && p.chans[x].status == Stopped ==>
            x !in r.chans)
      && (forall x :: x in r.chans ==> r.chans[x] == p.chans[x] || IsStopped(r.chans[x]))
      && (forall x :: x in r.chans && Some(x) in p.slots ==> Some(x) in r.slots)
      && CountWorking(r.slots, r.chans) == CountWorking(p.slots, p.chans)
  {
    var left := LeftSize(maxParallel, CountWorking(p.slots, p.chans));
    var q := CheckFrom(p, 0, left, 0);
    CheckFromFrame(p, 0, left, 0);
    assert p.slots[0..] == p.slots;
    CompactNulledSubseq(q.slots, p.slots);
    forall x | x in p.chans && Some(x) in p.slots && p.chans[x].nref == 0 && p.chans[x].status == Stopped
      ensures x !in q.chans
    {
      var j :| 0 <= j < |p.slots| && p.slots[j] == Some(x);
      assert LiveSlot(p, j);
    }
    forall k | 0 <= k < |p.slots|
      ensures WorkingSlot(q.slots[k], q.chans) <==> WorkingSlot(p.slots[k], p.chans)
    {
    }
    forall x | x in q.chans && Some(x) in p.slots
      ensures Some(x) in Compact(q.slots)
    {
      var j :| 0 <= j < |p.slots| && p.slots[j] == Some(x);
      assert q.slots[j] == Some(x);
    }
    CountWorkingSame(q.slots, q.chans, p.slots, p.chans);
    CompactCounts(q.slots, q.chans);
  }

  /** The idle channel in slot j survives `check_parallel` untouched exactly
      when fewer idle started/working channels than the budget precede it;
      otherwise it ends cancelled or deleted. */
  lemma CheckParallelRank(p: Pool, maxParallel: nat, j: nat)
    requires Distinct(p.slots) && LiveSlot(p, j) && IdleLive(ChanAt(p, j))
    ensures var r := CheckParallel(p, maxParallel);
      var x := p.slots[j].value;
      var rank := CountIdleLive(p.slots[..j], p.chans);
      var left := LeftSize(maxParallel, CountWorking(p.slots, p.chans));
      && ((x in r.chans && r.chans[x] == p.chans[x]) <==> rank < left)
      && (rank >= left ==> x !in r.chans || r.chans[x].status == Cancel)
  {
    var left := LeftSize(maxParallel, CountWorking(p.slots, p.chans));
    CheckFromRank(p, 0, left, 0, j);
    CountIdleRangeSlice(p.slots, p.chans, 0, j);
    assert p.slots[0..j] == p.slots[..j];
  }

  /** At most the budget's worth of idle started/working channels is left. */
  lemma CheckParallelBudget(p: Pool, maxParallel: nat)
    requires Distinct(p.slots)
    ensures var r := CheckParallel(p, maxParallel);
      CountIdleLive(r.slots, r.chans) <= Max0(LeftSize(maxParallel, CountWorking(p.slots, p.chans)))
  {
    var left := LeftSize(maxParallel, CountWorking(p.slots, p.chans));
    var q := CheckFrom(p, 0, left, 0);
    CheckFromBound(p, 0, left, 0);
    CountIdleRangeSlice(q.slots, q.chans, 0, |q.slots|);
    assert q.slots[0..|q.slots|] == q.slots;
    CompactCounts(q.slots, q.chans);
  }

  /** With both operands below 2^31 the wrapped budget is the plain
      difference when it is not negative, and negative otherwise. */
  lemma LeftSizeClamp(maxParallel: nat, active: nat)
    requires maxParallel < 0x8000_0000 && active < 0x8000_0000
    ensures maxParallel >= active ==> LeftSize(maxParallel, active) == maxParallel - active
    ensures maxParallel < active ==> LeftSize(maxParallel, active) < 0
    ensures Max0(LeftSize(maxParallel, active)) == Max0(maxParallel - active)
  {
    var d := maxParallel - active;
    if d >= 0 {
      assert d % SizeModulus == d;
      assert d % Uint32Modulus == d;
    } else {
      assert d % SizeModulus == SizeModulus + d;
      assert (SizeModulus + d) % Uint32Modulus == Uint32Modulus + d;
    }
  }

  /** After `check_parallel` the idle started/working channels number at most
      `max_parallel` minus the channels in use (none when that is negative),
      and the channels in use are not touched. */
  lemma CheckParallelBound(p: Pool, maxParallel: nat)
    requires Distinct(p.slots) && maxParallel < 0x8000_0000 && |p.slots| < 0x8000_0000
    ensures var r := CheckParallel(p, maxParallel);
      && CountWorking(r.slots, r.chans) == CountWorking(p.slots, p.chans)
      && CountIdleLive(r.slots, r.chans) <= Max0(maxParallel - CountWorking(r.slots, r.chans))
  {
    CountWorkingBound(p.slots, p.chans);
    CheckParallelKeeps(p, maxParallel);
    CheckParallelBudget(p, maxParallel);
    LeftSizeClamp(maxParallel, CountWorking(p.slots, p.chans));
  }
}
