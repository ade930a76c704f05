/**
 * The data plane (src/data_plane.cpp): per packet, it resolves the bearer
 * through the control plane and applies the rate limiter of that direction.
 * A rate-limited direction records an admitted packet as its new limiter
 * state; every admitted packet goes to the forwarding sink. The sink is the test double of test/data_plane_test.cpp:
 * two logs that forwarded packets are appended to.
 */
module Forwarding {

  import opened RateLimiter
  import opened Registry

  /** A user-plane packet: bytes the core never looks into. */
  type Packet = seq<bv8>

  /** A packet sent uplink to an APN gateway. */
  datatype ApnForward = ApnForward(apnGw: nat, packet: Packet)

  /** A packet sent downlink to the peer (SGW) address on one of its tunnels. */
  datatype SgwForward = SgwForward(sgwAddr: nat, sgwDpTeid: nat, packet: Packet)

  class DataPlane {
    const controlPlane: ControlPlane
    var toApn: seq<ApnForward>
    var toSgw: seq<SgwForward>

    constructor (controlPlane: ControlPlane)
      ensures this.controlPlane == controlPlane && toApn == [] && toSgw == []
    {
      this.controlPlane := controlPlane;
      toApn := [];
      toSgw := [];
    }

    /**
     * An uplink packet on data-plane tunnel `dpTeid`, arriving at tick `now`.
     * Unknown tunnels and tunnels without an uplink limiter drop it and change
     * nothing; otherwise the uplink limiter decides, and an admitted packet
     * updates only that bearer's uplink state and goes to the APN gateway of
     * the connection the bearer was created on, as copied into the bearer,
     * whether or not that connection is still registered. The downlink state
     * is outside the frame.
     */
    method HandleUplink(dpTeid: nat, packet: Packet, now: int)
      modifies this`toApn, controlPlane`ulRateLimiter
      ensures dpTeid !in controlPlane.bearers || dpTeid !in old(controlPlane.ulRateLimiter) ==>
        controlPlane.ulRateLimiter == old(controlPlane.ulRateLimiter) && toApn == old(toApn)
      ensures dpTeid in controlPlane.bearers && dpTeid in old(controlPlane.ulRateLimiter) ==>
        var bearer := controlPlane.bearers[dpTeid];
        match Decide(old(controlPlane.ulRateLimiter)[dpTeid], bearer.ulRateLimit, |packet|, now)
        case Admit(next) =>
          && controlPlane.ulRateLimiter == old(controlPlane.ulRateLimiter)[dpTeid := next]
          && toApn == old(toApn) + [ApnForward(bearer.apnGw, packet)]
        case Reject =>
          controlPlane.ulRateLimiter == old(controlPlane.ulRateLimiter) && toApn == old(toApn)
    {
      var bearer := controlPlane.FindBearerByDpTeid(dpTeid);
      if bearer.None? {
        return;
      }
      var lastPacket := controlPlane.FindBearerUlRateLimiterByDpTeid(dpTeid);
      if lastPacket.None? {
        return;
      }
      match Decide(lastPacket.value, bearer.value.ulRateLimit, |packet|, now)
      case Admit(next) =>
        controlPlane.ulRateLimiter := controlPlane.ulRateLimiter[dpTeid := next];
        toApn := toApn + [ApnForward(bearer.value.apnGw, packet)];
      case Reject =>
    }

    /**
     * A downlink packet for UE address `ueIp`, arriving at tick `now`. An
     * unknown address, a connection without a default bearer, or a default
     * bearer without a downlink limiter entry (a deleted one) drops it and
     * changes nothing; otherwise the default bearer's downlink limiter
     * decides, and an admitted packet updates only that state and goes to the
     * connection's peer address on the default bearer's peer tunnel. The
     * uplink state is outside the frame.
     */
    method HandleDownlink(ueIp: nat, packet: Packet, now: int)
      modifies this`toSgw, controlPlane`dlRateLimiter
      ensures
        || ueIp !in controlPlane.pdnsByUeIp
        || controlPlane.pdnsByUeIp[ueIp].defaultBearer.None?
        || controlPlane.pdnsByUeIp[ueIp].defaultBearer.value.dpTeid !in old(controlPlane.dlRateLimiter)
        ==> controlPlane.dlRateLimiter == old(controlPlane.dlRateLimiter) && toSgw == old(toSgw)
      ensures
        && ueIp in controlPlane.pdnsByUeIp
        && controlPlane.pdnsByUeIp[ueIp].defaultBearer.Some?
        && controlPlane.pdnsByUeIp[ueIp].defaultBearer.value.dpTeid in old(controlPlane.dlRateLimiter)
        ==>
        var pdn := controlPlane.pdnsByUeIp[ueIp];
        var bearer := pdn.defaultBearer.value;
        match Decide(old(controlPlane.dlRateLimiter)[bearer.dpTeid], bearer.dlRateLimit, |packet|, now)
        case Admit(next) =>
          && controlPlane.dlRateLimiter == old(controlPlane.dlRateLimiter)[bearer.dpTeid := next]
          && toSgw == old(toSgw) + [SgwForward(pdn.sgwAddr, bearer.sgwDpTeid, packet)]
        case Reject =>
          controlPlane.dlRateLimiter == old(controlPlane.dlRateLimiter) && toSgw == old(toSgw)
    {
      var pdn := controlPlane.FindPdnByIpAddress(ueIp);
      if pdn.None? {
        return;
      }
      var bearer := pdn.value.defaultBearer;
      if bearer.None? {
        return;
      }
      var lastPacket := controlPlane.FindBearerDlRateLimiterByDpTeid(bearer.value.dpTeid);
      if lastPacket.None? {
        return;
      }
      match Decide(lastPacket.value, bearer.value.dlRateLimit, |packet|, now)
      case Admit(next) =>
        controlPlane.dlRateLimiter := controlPlane.dlRateLimiter[bearer.value.dpTeid := next];
        toSgw := toSgw + [SgwForward(pdn.value.sgwAddr, bearer.value.sgwDpTeid, packet)];
      case Reject =>
    }
  }
}
