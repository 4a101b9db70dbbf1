/** The post-processing of one supernode channel-list entry
    (`SSNManageModule::channel::serialize`, SSNManageModule.h): the port
    text "tcp:udp" is split and read with `atoi` into two `uint16_t`
    fields, and the stream head "synacast:/" is stripped from the URL. */
module SsnChannel {
  import opened Common
  import opened Decimal
  import LiveModule

  /** `LIVESTEAM_HEAD`. */
  const LiveStreamHead: string := "synacast:/"

  /** `find_first_of(cs)` stored into an `int`: the first index whose
      character is one of cs, or -1 (`npos`) when there is none. */
  function FindFirstOf(s: string, cs: string): (k: int)
    ensures -1 <= k < |s|
    ensures k >= 0 ==> s[k] in cs && forall j :: 0 <= j < k ==> s[j] !in cs
    ensures k == -1 ==> forall j :: 0 <= j < |s| ==> s[j] !in cs
  {
    if s == [] then -1
    else if s[0] in cs then 0
    else
      var k := FindFirstOf(s[1..], cs);
      if k == -1 then -1 else k + 1
  }

  // ----- the port split --------------------------------------------------

  /** The two texts `port.substr(0, pos)` and `port.substr(pos + 1, length)`
      for `pos = find_first_of(':')`: with no ':' the -1 turns into `npos` in
      the first call and into 0 in the second, so both are the whole text. */
  function PortTexts(port: string): (r: (string, string))
  {
    var pos := FindFirstOf(port, ":");
    if pos == -1 then (port, port) else (port[..pos], port[pos + 1..])
  }

  /** `tcp_port` and `udp_port` as `serialize` stores them. */
  function SplitPorts(port: string): (r: (nat, nat))
    ensures r.0 < 0x1_0000 && r.1 < 0x1_0000
  {
    var (t, u) := PortTexts(port);
    (ToUint16(Atoi(t)), ToUint16(Atoi(u)))
  }

  /** With a ':' the TCP port is read from the text before the first one
      and the UDP port from the text after it. */
  lemma SplitPortsAtColon(a: string, b: string)
    requires ':' !in a
    ensures SplitPorts(a + ":" + b) == (ToUint16(Atoi(a)), ToUint16(Atoi(b)))
  {
    var s := a + ":" + b;
    assert forall j :: 0 <= j < |a| ==> s[j] == a[j];
    assert s[|a|] == ':';
    var pos := FindFirstOf(s, ":");
    assert pos == |a|;
    assert s[..pos] == a;
    assert s[pos + 1..] == b;
  }

  /** With no ':' both ports are read from the whole text, so they are equal. */
  lemma SplitPortsNoColon(port: string)
    requires ':' !in port
    ensures SplitPorts(port).0 == SplitPorts(port).1 == ToUint16(Atoi(port))
  {
  }

  /** The split reads back the ports the list writes as "tcp:udp". */
  lemma SplitPortsRoundTrip(tcp: nat, udp: nat)
    requires tcp < 0x1_0000 && udp < 0x1_0000
    ensures SplitPorts(NatToString(tcp) + ":" + NatToString(udp)) == (tcp, udp)
  {
    var a := NatToString(tcp);
    assert forall j :: 0 <= j < |a| ==> IsDigit(a[j]);
    SplitPortsAtColon(a, NatToString(udp));
    AtoiNatToString(tcp);
    AtoiNatToString(udp);
  }

  // ----- the head strip, as written ----------------------------------------

  /** `url.substr(pos, n)` throws `std::out_of_range` when pos passes the end. */
  datatype Stripped = Kept(url: string) | OutOfRange

  /** The head strip as written: `find_first_of(LIVESTEAM_HEAD) == 0` holds
      whenever the first character is any character of "synacast:/", and
      then exactly 10 characters are cut, throwing on a shorter URL. */
  function StripHeadAsWritten(url: string): (r: Stripped)
    ensures r.OutOfRange? <==> |url| > 0 && url[0] in LiveStreamHead && |url| < |LiveStreamHead|
    ensures (|url| == 0 || url[0] !in LiveStreamHead) ==> r == Kept(url)
    ensures |url| >= |LiveStreamHead| && url[0] in LiveStreamHead ==> r == Kept(url[|LiveStreamHead|..])
  {
    if FindFirstOf(url, LiveStreamHead) == 0 then
      if |url| < |LiveStreamHead| then OutOfRange else Kept(url[|LiveStreamHead|..])
    else Kept(url)
  }

  /** A URL that does not start with the head still loses 10 characters. */
  lemma StripHeadAsWrittenCutsNonHead()
    ensures "s1234567890abc"[..10] != LiveStreamHead
    ensures StripHeadAsWritten("s1234567890abc") == Kept("0abc")
  {
    assert "s1234567890abc"[1] != LiveStreamHead[1];
    assert "s1234567890abc"[10..] == "0abc";
  }

  /** A short URL whose first character is in the set makes it throw. */
  lemma StripHeadAsWrittenThrows()
    ensures StripHeadAsWritten("a") == OutOfRange
  {
  }

  // ----- the head strip, as intended ---------------------------------------

  predicate HasHead(url: string)
  {
    |url| >= |LiveStreamHead| && url[..|LiveStreamHead|] == LiveStreamHead
  }

  /** The head strip the code evidently means: cut "synacast:/" exactly when
      the URL starts with it. It never throws. */
  function StripHead(url: string): (r: string)
    ensures HasHead(url) ==> r == url[|LiveStreamHead|..]
    ensures !HasHead(url) ==> r == url
    ensures |r| <= |url|
  {
    if HasHead(url) then url[|LiveStreamHead|..] else url
  }

  /** Stripping undoes the head the engine binding prepends before it opens
      a channel, and the binding's prefix puts back what was stripped. */
  lemma StripHeadInvertsEngineUrl(url: string)
    ensures StripHead(LiveModule.EngineUrl(url)) == url
    ensures HasHead(url) ==> LiveModule.EngineUrl(StripHead(url)) == url
  {
    assert LiveModule.EngineUrl(url)[..|LiveStreamHead|] == LiveStreamHead;
    if HasHead(url) {
      assert url == url[..|LiveStreamHead|] + url[|LiveStreamHead|..];
    }
  }

  /** The intended strip agrees with the code on every URL that does start
      with the head and on every URL whose first character is outside the set. */
  lemma StripHeadAgrees(url: string)
    requires HasHead(url) || |url| == 0 || url[0] !in LiveStreamHead
    ensures StripHeadAsWritten(url) == Kept(StripHead(url))
  {
    if HasHead(url) {
      assert url[0] == url[..|LiveStreamHead|][0];
    }
  }

  // ----- one entry -----------------------------------------------------------

  /** An entry of the fetched channel list, as the XML archive hands it over. */
  datatype RawChannel = RawChannel(id: string, url: string, port: string)

  /** `SSNManageModule::channel` after `serialize`. */
  datatype Entry = Entry(id: string, url: string, tcpPort: nat, udpPort: nat)

  /** The post-processing of one entry, with the intended head strip. */
  function ParseChannel(raw: RawChannel): (e: Entry)
    ensures e.id == raw.id
    ensures e.tcpPort < 0x1_0000 && e.udpPort < 0x1_0000
    ensures (e.tcpPort, e.udpPort) == SplitPorts(raw.port)
    ensures e.url == StripHead(raw.url)
  {
    var (tcp, udp) := SplitPorts(raw.port);
    Entry(raw.id, StripHead(raw.url), tcp, udp)
  }
}
