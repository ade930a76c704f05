/**
 * The bearer entity (src/bearer.h, src/bearer.cpp) and the per-direction
 * rate-limiter record `last_packet` it is paired with in the control plane.
 */
module Bearers {

  /**
   * Size in bytes and clock tick of the last packet admitted on one direction
   * of a bearer (struct last_packet).
   */
  datatype LastPacket = LastPacket(size: nat, timestamp: int)

  /**
   * A value-initialised last_packet, {0, 0}: the data plane reads it as
   * "nothing admitted yet".
   */
  const NeverAdmitted := LastPacket(0, 0)

  /**
   * A QoS tunnel of one PDN connection. The data-plane tunnel id has no
   * setter and the owning PDN is a reference fixed at construction, so both
   * are constants here. The reference becomes what the bearer reads through
   * it: the owner's control-plane tunnel id and its APN gateway, taken to be
   * fixed once the connection is created. The copies stay readable after the
   * owner leaves the registry, whether or not the source's owner object is
   * still alive then.
   * The getters of bearer.cpp are the reads of these fields.
   */
  class Bearer {
    const dpTeid: nat
    const pdn: nat
    const apnGw: nat
    var sgwDpTeid: nat
    var ulRateLimit: nat  // bytes per second, 0 = unlimited
    var dlRateLimit: nat  // bytes per second, 0 = unlimited

    /** A new bearer: peer tunnel id 0 and both directions unlimited. */
    constructor (dpTeid: nat, pdn: nat, apnGw: nat)
      ensures this.dpTeid == dpTeid && this.pdn == pdn && this.apnGw == apnGw
      ensures sgwDpTeid == 0 && ulRateLimit == 0 && dlRateLimit == 0
    {
      this.dpTeid := dpTeid;
      this.pdn := pdn;
      this.apnGw := apnGw;
      sgwDpTeid := 0;
      ulRateLimit := 0;
      dlRateLimit := 0;
    }

    method SetSgwDpTeid(sgwDpTeid: nat)
      modifies this`sgwDpTeid
      ensures this.sgwDpTeid == sgwDpTeid
    {
      this.sgwDpTeid := sgwDpTeid;
    }

    method SetUlRateLimit(ulRateLimit: nat)
      modifies this`ulRateLimit
      ensures this.ulRateLimit == ulRateLimit
    {
      this.ulRateLimit := ulRateLimit;
    }

    method SetDlRateLimit(dlRateLimit: nat)
      modifies this`dlRateLimit
      ensures this.dlRateLimit == dlRateLimit
    {
      this.dlRateLimit := dlRateLimit;
    }
  }
}
