/** The caller-facing types of the channel pool (LiveManager.h). */
module LiveManagerTypes {
  import opened Common

  /** A pool channel, named by a fresh identifier that is never reused
      (the `Channel *` of the source). */
  type Id = nat

  /** The engine's opaque handle for one started channel
      (`LiveModuleProxy::ChannelHandle`). */
  type EngineHandle = nat

  /** `ChannelHandle`: the channel it refers to (nullable) and the 1-based
      position of its caller's callback in that channel's pending list, or 0. */
  datatype ChannelHandle = ChannelHandle(channel: Option<Id>, cancelToken: nat)

  /** `ChannelHandle(Channel * channel = NULL)`: the constructor sets only the
      channel; the cancel token always starts at 0. */
  function MakeHandle(channel: Option<Id>): (h: ChannelHandle)
    ensures h.channel == channel && h.cancelToken == 0
  {
    ChannelHandle(channel, 0)
  }

  /** The default handle refers to no channel. */
  lemma DefaultHandleIsNull()
    ensures MakeHandle(None).channel.None? && MakeHandle(None).cancelToken == 0
  {
  }

  /** The port hints the two-argument `start_channel` passes on. */
  const DefaultTcpPort: nat := 0
  const DefaultUdpPort: nat := 0

  /** Port hints ask for a reconnection only when both are non-zero and one of
      them differs from the channel's recorded hints. */
  predicate WantsReconnect(tcp: nat, udp: nat, chanTcp: nat, chanUdp: nat)
  {
    tcp != 0 && udp != 0 && (tcp != chanTcp || udp != chanUdp)
  }

  /** The default hints can never ask for a reconnection. */
  lemma DefaultPortsNeverReconnect(chanTcp: nat, chanUdp: nat)
    ensures !WantsReconnect(DefaultTcpPort, DefaultUdpPort, chanTcp, chanUdp)
  {
  }

  /** The modulus of `size_t` (64 bits) on the platform the daemon targets. */
  const SizeModulus: nat := 0x1_0000_0000_0000_0000
}
