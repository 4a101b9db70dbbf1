/** `LiveModule` (LiveModule.cpp, LiveModule.h): the binding to the native
    engine in the single-process build. Each started engine channel gets a
    record holding the engine's handle and the caller's one-shot callback;
    the engine reports the start through `call_back_hook`, which is turned
    into an error code and, on success, into the local play URL. */
module LiveModule {
  import opened Common
  import opened Decimal
  import opened Handshake

  // ----- peer type --------------------------------------------------------

  /** `PeerTypeEnum`. */
  const TClient: int := 0
  const TSn: int := 1
  const TSsn: int := 2

  /** The configured `peer_type` after the constructor's check: a value
      outside [t_client, t_ssn] becomes t_sn. */
  function ClampPeerType(configured: int): (r: int)
    ensures TClient <= r <= TSsn
    ensures TClient <= configured <= TSsn ==> r == configured
    ensures (configured < TClient || configured > TSsn) ==> r == TSn
  {
    if configured < TClient || configured > TSsn then TSn else configured
  }

  // ----- call_back_hook and the play URL ----------------------------------

  /** `call_back_hook`: the engine's message `msg` means success exactly when
      it is `UM_LIVEMSG_PLAY` (whose value, `playMsg`, the engine's header
      defines); any other message is `failed_some`. */
  function HookError(msg: nat, playMsg: nat): (ec: ErrorCode)
    ensures ec == Success <==> msg == playMsg
    ensures ec == Success || ec == FailedSome
  {
    if msg == playMsg then Success else FailedSome
  }

  const UrlHead: string := "http://127.0.0.1:"
  const UrlTail: string := "/1.asf"

  /** The address the engine serves a started channel on, for media port `port`. */
  function PlayUrl(port: nat): (u: string)
    ensures |u| > |UrlHead| + |UrlTail|
    ensures u[..|UrlHead|] == UrlHead && u[|u| - |UrlTail|..] == UrlTail
  {
    UrlHead + NatToString(port) + UrlTail
  }

  /** The port can be read back from the play URL. */
  lemma PlayUrlNamesPort(port: nat)
    ensures Atoi(PlayUrl(port)[|UrlHead|..]) == port
  {
    var d := NatToString(port);
    assert PlayUrl(port)[|UrlHead|..] == d + UrlTail;
    AtoiStopsAtNonDigit(d, UrlTail);
    NatToStringValue(port);
  }

  /** The URL `handle_call_back_innner` gives the callback: the play URL on
      success, the empty string on error. */
  function ResultUrl(ec: ErrorCode, port: nat): (u: string)
    ensures ec == Success ==> u == PlayUrl(port)
    ensures ec != Success ==> u == ""
  {
    if ec == Success then PlayUrl(port) else ""
  }

  // ----- the engine records -----------------------------------------------

  /** `LiveModule::Channel`: the engine's handle (nulled by the stop) and the
      caller's one-shot callback. */
  datatype Record = Record(handle: Option<nat>, callBack: Option<CallbackId>)

  /** A call into the native engine. */
  datatype EngineCall =
    | EngineStart(url: string, tcpPort: nat, udpPort: nat)
    | EngineStop(handle: Option<nat>)

  /** What the engine is asked to open for a play token `url`. */
  function EngineUrl(url: string): (r: string)
    ensures |r| == |url| + 10 && r[10..] == url
    ensures r[..10] == "synacast:/"
  {
    "synacast:/" + url
  }

  /** The binding's state: the live records, the posted callbacks and the
      calls made into the engine, in order. */
  class Engine {
    var records: map<nat, Record>
    var posted: seq<Post>
    var calls: seq<EngineCall>
    /** The name the next record gets; names are never reused. */
    var nextRecord: nat
    /** `peer_type_`. */
    const peerType: int

    ghost predicate Valid()
      reads this
    {
      forall r :: r in records ==> r < nextRecord
    }

    /** The constructor reads `peer_type` from the configuration and clamps it. */
    constructor (configuredPeerType: int)
      ensures Valid()
      ensures peerType == ClampPeerType(configuredPeerType)
      ensures records == map[] && posted == [] && calls == []
    {
      peerType := ClampPeerType(configuredPeerType);
      records := map[];
      posted := [];
      calls := [];
      nextRecord := 0;
    }

    /** `start_channel(url, tcp_port, udp_port, call_back)`: `answer` is the
        engine's handle, `None` when it refuses. A record is created exactly
        when the engine answers, holding its handle and the callback. */
    method StartChannel(url: string, tcp: nat, udp: nat, cb: CallbackId, answer: Option<nat>)
        returns (r: Option<nat>)
      requires Valid()
      modifies this
      ensures Valid()
      ensures r.None? <==> answer.None?
      ensures calls == old(calls) + [EngineStart(EngineUrl(url), tcp, udp)]
      ensures r.Some? ==>
        r.value !in old(records) && records == old(records)[r.value := Record(answer, Some(cb))]
      ensures r.None? ==> records == old(records)
      ensures posted == old(posted)
    {
      calls := calls + [EngineStart(EngineUrl(url), tcp, udp)];
      if answer.None? {
        return None;
      }
      r := Some(nextRecord);
      records := records[nextRecord := Record(answer, Some(cb))];
      nextRecord := nextRecord + 1;
    }

    /** `stop_channel(handle)`: stop the engine channel and null the handle
        first; then delete a record whose callback already fired, or post the
        pending callback with `operation_aborted`. */
    method StopChannel(r: nat)
      requires Valid() && r in records
      modifies this
      ensures Valid()
      ensures calls == old(calls) + [EngineStop(old(records)[r].handle)]
      ensures var (s, ps) := Step(StageOf(old(records)[r].callBack), Stop);
        && StageIn(records, r, (x: Record) => x.callBack) == s && posted == old(posted) + ps
        && records - {r} == old(records) - {r}
        && (r in records ==> records[r].handle.None?)
    {
      calls := calls + [EngineStop(records[r].handle)];
      records := records[r := records[r].(handle := None)];
      if records[r].callBack.None? {
        records := records - {r};
      } else {
        var cb := records[r].callBack.value;
        records := records[r := records[r].(callBack := None)];
        posted := posted + [Post(cb, OperationAborted, "")];
      }
    }

    /** `call_back_hook(handle, msg, ...)` followed by the deferred
        `handle_call_back_innner`: delete a record whose callback already
        fired; otherwise post the callback with the result and the play URL
        of media port `port` (which the engine's status query reports). */
    method HandleCallBack(r: nat, msg: nat, playMsg: nat, port: nat)
      requires Valid() && r in records
      modifies this
      ensures Valid()
      ensures calls == old(calls)
      ensures var ec := HookError(msg, playMsg);
        var (s, ps) := Step(StageOf(old(records)[r].callBack), Completion(ec, ResultUrl(ec, port)));
        && StageIn(records, r, (x: Record) => x.callBack) == s && posted == old(posted) + ps
        && records - {r} == old(records) - {r}
        && (r in records ==> records[r].handle == old(records)[r].handle)
    {
      var ec := HookError(msg, playMsg);
      if records[r].callBack.None? {
        records := records - {r};
        return;
      }
      var url := "";
      if ec == Success {
        url := PlayUrl(port);
      }
      var cb := records[r].callBack.value;
      records := records[r := records[r].(callBack := None)];
      posted := posted + [Post(cb, ec, url)];
    }

    /** `check_channels(failed)`: this build reports no failed channel and
        leaves `failed` as it is. */
    method CheckChannels(failed: seq<nat>) returns (n: nat, failed': seq<nat>)
      ensures n == 0 && failed' == failed
    {
      n := 0;
      failed' := failed;
    }
  }
}
