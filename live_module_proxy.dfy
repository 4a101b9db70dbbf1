/** The parent side of `LiveModuleProxy` (LiveModuleProxy.cpp), the
    process-per-channel build: each started channel is a forked child that
    runs the engine and reports its result over a socket pair. The parent
    keeps the child's pid and the caller's one-shot callback, answers the
    callback once from the child's report or from a stop, and matches
    exited children to channels when asked. */
module LiveModuleProxy {
  import opened Common
  import opened Handshake

  /** A child process id as `fork` returns it to the parent. */
  type Pid = x: int | x > 0 witness 1

  /** What `fork` gives the parent: the child's pid, or a failure. */
  datatype ForkResult = Forked(child: Pid) | ForkFailed

  /** `LiveModuleProxy::Channel` as the parent sees it. */
  datatype ProxyChannel = ProxyChannel(callBack: Option<CallbackId>, pid: Pid)

  // ----- the (ec, string) messages -----------------------------------------

  /** One value written by `TextOArchive` and read back by `TextIArchive`;
      the text form of each value is library code and is not modelled. */
  datatype Field = EcField(ec: ErrorCode) | StrField(s: string)

  /** `oa << ec << url`: what both the child's report and the parent's stop
      message put on the socket. */
  function Encode(ec: ErrorCode, url: string): (fs: seq<Field>)
    ensures |fs| == 2
  {
    [EcField(ec), StrField(url)]
  }

  /** `ia >> ec >> url`: read an error code, then a string; `None` when the
      buffer does not hold them in that order (where the source asserts). */
  function Decode(fs: seq<Field>): (r: Option<(ErrorCode, string)>)
    ensures r.Some? ==> |fs| >= 2 && fs[0] == EcField(r.value.0) && fs[1] == StrField(r.value.1)
    ensures |fs| >= 2 && fs[0].EcField? && fs[1].StrField? ==> r.Some?
  {
    if |fs| >= 2 && fs[0].EcField? && fs[1].StrField? then Some((fs[0].ec, fs[1].s)) else None
  }

  /** The parent reads back what the child wrote, ec first, url second,
      whatever follows in the buffer. */
  lemma DecodeEncode(ec: ErrorCode, url: string, rest: seq<Field>)
    ensures Decode(Encode(ec, url) + rest) == Some((ec, url))
  {
    assert (Encode(ec, url) + rest)[0] == EcField(ec);
    assert (Encode(ec, url) + rest)[1] == StrField(url);
  }

  /** `handle_parent_read_some`: a failed read gives its own error and an
      empty URL; otherwise the report is decoded. */
  function ParentRead(readEc: ErrorCode, buf: seq<Field>): (r: Option<(ErrorCode, string)>)
    ensures readEc != Success ==> r == Some((readEc, ""))
    ensures readEc == Success ==> r == Decode(buf)
  {
    if readEc != Success then Some((readEc, "")) else Decode(buf)
  }

  // ----- check_channels ------------------------------------------------------

  /** `find_if(channels_, find_channel_by_pid(pid))`: the first listed channel
      whose child has that pid, or the list's length. */
  function FindByPid(s: seq<nat>, m: map<nat, ProxyChannel>, pid: Pid): (k: nat)
    ensures k <= |s|
    ensures k < |s| ==> s[k] in m && m[s[k]].pid == pid
    ensures forall j :: 0 <= j < k ==> !(s[j] in m && m[s[j]].pid == pid)
  {
    if s == [] then 0
    else if s[0] in m && m[s[0]].pid == pid then 0
    else 1 + FindByPid(s[1..], m, pid)
  }

  /** The channels `check_channels` appends for the exited pids, in order;
      unknown pids are skipped. */
  function Reaped(s: seq<nat>, m: map<nat, ProxyChannel>, exited: seq<Pid>): (r: seq<nat>)
    ensures |r| <= |exited|
    ensures forall x :: x in r ==> x in s
  {
    if exited == [] then []
    else
      var k := FindByPid(s, m, exited[0]);
      (if k < |s| then [s[k]] else []) + Reaped(s, m, exited[1..])
  }

  lemma {:induction false} ReapedStep(s: seq<nat>, m: map<nat, ProxyChannel>, exited: seq<Pid>, i: nat)
    requires i < |exited|
    ensures var k := FindByPid(s, m, exited[i]);
      Reaped(s, m, exited[..i + 1]) == Reaped(s, m, exited[..i]) + (if k < |s| then [s[k]] else [])
  {
    if i == 0 {
      assert exited[..1][1..] == [];
    } else {
      var k0 := FindByPid(s, m, exited[0]);
      var head := if k0 < |s| then [s[k0]] else [];
      var k := FindByPid(s, m, exited[i]);
      var last := if k < |s| then [s[k]] else [];
      var a, b := exited[1..][..i], exited[1..][..i - 1];
      assert exited[..i + 1][1..] == a && exited[..i][1..] == b;
      assert Reaped(s, m, exited[..i + 1]) == head + Reaped(s, m, a);
      assert Reaped(s, m, exited[..i]) == head + Reaped(s, m, b);
      ReapedStep(s, m, exited[1..], i - 1);
      assert Reaped(s, m, a) == Reaped(s, m, b) + last;
      ConcatAssoc(head, Reaped(s, m, b), last);
    }
  }

  lemma ConcatAssoc<T>(a: seq<T>, b: seq<T>, c: seq<T>)
    ensures a + (b + c) == a + b + c
  {
  }

  /** The parent's state. */
  class Proxy {
    /** `channels_`: the channels `check_channels` searches. */
    var channels: seq<nat>
    /** The `Channel` objects not yet deleted. */
    var live: map<nat, ProxyChannel>
    var posted: seq<Post>
    /** Every stop message written to a child's socket, with its channel. */
    var sent: seq<(nat, seq<Field>)>
    var nextId: nat

    /** No channel is ever listed in `channels_`: `start_channel` never
        adds one, and the stops only erase. */
    ghost predicate Valid()
      reads this
    {
      && channels == []
      && (forall id :: id in live ==> id < nextId)
    }

    constructor ()
      ensures Valid()
      ensures channels == [] && live == map[] && posted == [] && sent == []
    {
      channels := [];
      live := map[];
      posted := [];
      sent := [];
      nextId := 0;
    }

    /** The parent side of `start_channel`: a forked child gets a channel
        holding its pid and the callback; a failed fork deletes the channel
        and returns NULL. Nothing is added to `channels_`. */
    method StartChannel(cb: CallbackId, fork: ForkResult) returns (r: Option<nat>)
      requires Valid()
      modifies this
      ensures Valid()
      ensures r.None? <==> fork.ForkFailed?
      ensures r.Some? ==>
        r.value !in old(live) && live == old(live)[r.value := ProxyChannel(Some(cb), fork.child)]
      ensures r.None? ==> live == old(live)
      ensures channels == old(channels) && posted == old(posted) && sent == old(sent)
    {
      var id := nextId;
      nextId := nextId + 1;
      if fork.ForkFailed? {
        return None;
      }
      live := live[id := ProxyChannel(Some(cb), fork.child)];
      r := Some(id);
    }

    /** `stop_channel(handle)`: tell the child to stop, then delete a
        channel whose callback already fired, or post the pending callback
        with `operation_aborted`. */
    method StopChannel(id: nat)
      requires Valid() && id in live
      modifies this
      ensures Valid()
      ensures sent == old(sent) + [(id, Encode(Success, ""))]
      ensures var (s, ps) := Step(StageOf(old(live)[id].callBack), Stop);
        && StageIn(live, id, (x: ProxyChannel) => x.callBack) == s && posted == old(posted) + ps
        && live - {id} == old(live) - {id}
        && (id in live ==> live[id].pid == old(live)[id].pid)
        && channels == (if s.Gone? then RemoveAll(old(channels), id) else old(channels))
    {
      sent := sent + [(id, Encode(Success, ""))];
      Settle(id, Stop);
    }

    /** `handle_start_channel(channel, ec, url)`: the child's report. Delete
        a channel whose callback already fired, or post the callback with
        the report. */
    method HandleStartChannel(id: nat, ec: ErrorCode, url: string)
      requires Valid() && id in live
      modifies this
      ensures Valid()
      ensures sent == old(sent)
      ensures var (s, ps) := Step(StageOf(old(live)[id].callBack), Completion(ec, url));
        && StageIn(live, id, (x: ProxyChannel) => x.callBack) == s && posted == old(posted) + ps
        && live - {id} == old(live) - {id}
        && (id in live ==> live[id].pid == old(live)[id].pid)
        && channels == (if s.Gone? then RemoveAll(old(channels), id) else old(channels))
    {
      Settle(id, Completion(ec, url));
    }

    /** The part `stop_channel` and `handle_start_channel` share: one event
        on the channel's callback slot. A deleted channel is also erased
        from `channels_`. */
    method Settle(id: nat, e: Event)
      requires Valid() && id in live
      modifies this
      ensures Valid()
      ensures sent == old(sent)
      ensures var (s, ps) := Step(StageOf(old(live)[id].callBack), e);
        && StageIn(live, id, (x: ProxyChannel) => x.callBack) == s && posted == old(posted) + ps
        && live - {id} == old(live) - {id}
        && (id in live ==> live[id].pid == old(live)[id].pid)
        && channels == (if s.Gone? then RemoveAll(old(channels), id) else old(channels))
    {
      if live[id].callBack.None? {
        channels := RemoveAll(channels, id);
        live := live - {id};
      } else {
        var cb := live[id].callBack.value;
        live := live[id := live[id].(callBack := None)];
        posted := posted + [Post(cb, Report(e).0, Report(e).1)];
      }
    }

    /** `handle_parent_read_some`: the child's report arrives (or the read
        fails) and is handed to `handle_start_channel`. Returns false, with
        nothing changed, when the buffer cannot be decoded. */
    method HandleParentRead(id: nat, readEc: ErrorCode, buf: seq<Field>) returns (ok: bool)
      requires Valid() && id in live
      modifies this
      ensures Valid()
      ensures ok <==> ParentRead(readEc, buf).Some?
      ensures sent == old(sent)
      ensures !ok ==> live == old(live) && channels == old(channels) && posted == old(posted)
      ensures ok ==> var (ec, url) := ParentRead(readEc, buf).value;
        var (s, ps) := Step(StageOf(old(live)[id].callBack), Completion(ec, url));
        && StageIn(live, id, (x: ProxyChannel) => x.callBack) == s && posted == old(posted) + ps
        && live - {id} == old(live) - {id}
        && (id in live ==> live[id].pid == old(live)[id].pid)
        && channels == (if s.Gone? then RemoveAll(old(channels), id) else old(channels))
    {
      var r := ParentRead(readEc, buf);
      if r.None? {
        return false;
      }
      HandleStartChannel(id, r.value.0, r.value.1);
      ok := true;
    }

    /** `check_channels(failed)`: `exited` is what successive
        `waitpid(-1, NULL, WNOHANG)` calls report before the first that
        reports none. Each exited child that is listed has its channel
        appended; the result counts every entry of `failed`, including those
        present before the call. */
    method CheckChannels(failed: seq<nat>, exited: seq<Pid>) returns (n: nat, failed': seq<nat>)
      ensures failed' == failed + Reaped(channels, live, exited)
      ensures n == |failed'|
      ensures Valid() ==> failed' == failed && n == |failed|
    {
      failed' := failed;
      var i := 0;
      while i < |exited|
        invariant i <= |exited|
        invariant failed' == failed + Reaped(channels, live, exited[..i])
      {
        ReapedStep(channels, live, exited, i);
        var k := FindByPid(channels, live, exited[i]);
        if k < |channels| {
          failed' := failed' + [channels[k]];
        }
        i := i + 1;
      }
      assert exited[..i] == exited;
      n := |failed'|;
      if Valid() {
        ValidReapsNothing(this, exited);
      }
    }
  }

  /** On a valid parent no exited child is ever matched, whatever
      `waitpid` reports: `check_channels` leaves its vector as it was. */
  lemma {:induction false} ValidReapsNothing(x: Proxy, exited: seq<Pid>)
    requires x.Valid()
    ensures Reaped(x.channels, x.live, exited) == []
  {
    if exited != [] {
      ValidReapsNothing(x, exited[1..]);
    }
  }
}
