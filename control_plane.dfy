/**
 * The control-plane registry (src/control_plane.cpp): PDN connections indexed
 * by control-plane tunnel id and by UE address, bearers indexed by data-plane
 * tunnel id, the two per-bearer rate-limiter tables and the APN table, with
 * the tunnel-id and UE-address allocation used when entries are created.
 */
module Registry {

  import opened Options
  import opened Bearers

  /** 10.0.0.2, the first UE address handed out. */
  const FirstUeIp: nat := 0x0A00_0002
  /** 0.0.0.0, the gateway a default-constructed address_v4 holds. */
  const UnspecifiedAddress: nat := 0

  /**
   * A PDN connection (pdn_connection): its own control-plane tunnel id, the
   * APN gateway fixed at creation, the UE address, the peer (SGW) address and
   * control-plane tunnel id, the optional default bearer and the data-plane
   * tunnel ids of its bearers.
   */
  datatype PdnConnection = PdnConnection(
    cpTeid: nat,
    apnGw: nat,
    ueIp: nat,
    sgwAddr: nat,
    sgwCpTeid: nat,
    defaultBearer: Option<Bearer>,
    bearerIds: set<nat>)

  /** A number above every element of a finite set of ids. */
  ghost function UpperBound(s: set<nat>): (b: nat)
    ensures forall x :: x in s ==> x < b
  {
    if s == {} then 0
    else
      var x :| x in s;
      var rest := UpperBound(s - {x});
      assert forall y :: y in s ==> y == x || y in s - {x};
      if x < rest then rest else x + 1
  }

  /**
   * A tunnel id that is not in use and differs from the peer's id. The source
   * redraws `rand()` until it gets one; any such id may come out, and one
   * exists because only finitely many ids are in use.
   */
  method AllocateId(used: set<nat>, peer: nat) returns (id: nat)
    ensures id !in used && id != peer
  {
    ghost var b := UpperBound(used);
    assert b + peer + 1 !in used;
    id :| id !in used && id != peer;
  }

  /** The first address at or above `start` that is not yet assigned. */
  method NextFreeUeIp(used: set<nat>, start: nat) returns (ip: nat)
    ensures start <= ip && ip !in used
    ensures forall a :: start <= a < ip ==> a in used
  {
    ip := start;
    ghost var bound := UpperBound(used);
    while ip in used
      invariant start <= ip
      invariant forall a :: start <= a < ip ==> a in used
      decreases bound - ip
    {
      ip := ip + 1;
    }
  }

  /**
   * The two PDN indexes hold the same connections: each is filed under its
   * own tunnel id and its own UE address, and each index entry has its
   * partner in the other index.
   */
  ghost predicate IndexesAgree(pdns: map<nat, PdnConnection>, byUeIp: map<nat, PdnConnection>)
  {
    && (forall c :: c in pdns ==>
          pdns[c].cpTeid == c && pdns[c].ueIp in byUeIp && byUeIp[pdns[c].ueIp] == pdns[c])
    && (forall ip :: ip in byUeIp ==>
          byUeIp[ip].ueIp == ip && byUeIp[ip].cpTeid in pdns && pdns[byUeIp[ip].cpTeid] == byUeIp[ip])
  }

  /** Agreeing indexes have the same number of entries. */
  lemma {:induction false} IndexSizesAgree(pdns: map<nat, PdnConnection>, byUeIp: map<nat, PdnConnection>)
    requires IndexesAgree(pdns, byUeIp)
    ensures |pdns| == |byUeIp|
    decreases |pdns|
  {
    if pdns != map[] {
      var c :| c in pdns;
      var ip := pdns[c].ueIp;
      var pdns', byUeIp' := pdns - {c}, byUeIp - {ip};
      assert pdns'.Keys == pdns.Keys - {c};
      assert byUeIp'.Keys == byUeIp.Keys - {ip};
      forall c' | c' in pdns'
        ensures pdns'[c'].ueIp in byUeIp' && byUeIp'[pdns'[c'].ueIp] == pdns'[c']
      {
        assert pdns[c'].ueIp != ip;
      }
      forall ip' | ip' in byUeIp'
        ensures byUeIp'[ip'].cpTeid in pdns' && pdns'[byUeIp'[ip'].cpTeid] == byUeIp'[ip']
      {
        assert byUeIp[ip'].cpTeid != c;
      }
      IndexSizesAgree(pdns', byUeIp');
    }
  }

  /** Filing a new connection under two unused keys keeps the indexes in agreement. */
  lemma IndexesAgreeAfterInsert(pdns: map<nat, PdnConnection>, byUeIp: map<nat, PdnConnection>, pdn: PdnConnection)
    requires IndexesAgree(pdns, byUeIp)
    requires pdn.cpTeid !in pdns && pdn.ueIp !in byUeIp
    ensures IndexesAgree(pdns[pdn.cpTeid := pdn], byUeIp[pdn.ueIp := pdn])
  {
  }

  /** Every bearer is filed under its own tunnel id and has both limiter entries. */
  ghost predicate BearersFiled(bearers: map<nat, Bearer>, ul: map<nat, LastPacket>, dl: map<nat, LastPacket>)
  {
    && (forall t :: t in bearers ==> bearers[t].dpTeid == t)
    && ul.Keys == bearers.Keys
    && dl.Keys == bearers.Keys
  }

  /** A connection lists only live bearers that it owns and that carry its APN gateway. */
  ghost predicate MembersOwned(pdns: map<nat, PdnConnection>, bearers: map<nat, Bearer>)
  {
    forall c, t :: c in pdns && t in pdns[c].bearerIds ==>
      t in bearers && bearers[t].pdn == c && bearers[t].apnGw == pdns[c].apnGw
  }

  /** Adding a new bearer to its owner's set keeps every listed bearer live and owned. */
  lemma MembersOwnedAfterAdd(pdns: map<nat, PdnConnection>, bearers: map<nat, Bearer>, c: nat, bearer: Bearer)
    requires MembersOwned(pdns, bearers)
    requires c in pdns && bearer.dpTeid !in bearers && bearer.pdn == c && bearer.apnGw == pdns[c].apnGw
    ensures MembersOwned(pdns[c := pdns[c].(bearerIds := pdns[c].bearerIds + {bearer.dpTeid})],
                         bearers[bearer.dpTeid := bearer])
  {
  }

  class ControlPlane {
    var pdns: map<nat, PdnConnection>
    var pdnsByUeIp: map<nat, PdnConnection>
    var bearers: map<nat, Bearer>
    var ulRateLimiter: map<nat, LastPacket>
    var dlRateLimiter: map<nat, LastPacket>
    var apns: map<string, nat>

    /**
     * The registry's invariant: the PDN indexes agree, every bearer is filed
     * under its own tunnel id and has both limiter entries, and a PDN lists
     * only live bearers that it owns.
     */
    ghost predicate Valid()
      reads this
    {
      && IndexesAgree(pdns, pdnsByUeIp)
      && BearersFiled(bearers, ulRateLimiter, dlRateLimiter)
      && MembersOwned(pdns, bearers)
    }

    constructor ()
      ensures Valid()
      ensures pdns == map[] && pdnsByUeIp == map[] && bearers == map[]
      ensures ulRateLimiter == map[] && dlRateLimiter == map[] && apns == map[]
    {
      pdns := map[];
      pdnsByUeIp := map[];
      bearers := map[];
      ulRateLimiter := map[];
      dlRateLimiter := map[];
      apns := map[];
    }

    function FindPdnByCpTeid(cpTeid: nat): (r: Option<PdnConnection>)
      reads this
      ensures r.Some? <==> cpTeid in pdns
      ensures r.Some? ==> r.value == pdns[cpTeid]
    {
      if cpTeid in pdns then Some(pdns[cpTeid]) else None
    }

    function FindPdnByIpAddress(ip: nat): (r: Option<PdnConnection>)
      reads this
      ensures r.Some? <==> ip in pdnsByUeIp
      ensures r.Some? ==> r.value == pdnsByUeIp[ip]
    {
      if ip in pdnsByUeIp then Some(pdnsByUeIp[ip]) else None
    }

    function FindBearerByDpTeid(dpTeid: nat): (r: Option<Bearer>)
      reads this
      ensures r.Some? <==> dpTeid in bearers
      ensures r.Some? ==> r.value == bearers[dpTeid]
    {
      if dpTeid in bearers then Some(bearers[dpTeid]) else None
    }

    function FindBearerUlRateLimiterByDpTeid(dpTeid: nat): (r: Option<LastPacket>)
      reads this
      ensures r.Some? <==> dpTeid in ulRateLimiter
      ensures r.Some? ==> r.value == ulRateLimiter[dpTeid]
    {
      if dpTeid in ulRateLimiter then Some(ulRateLimiter[dpTeid]) else None
    }

    function FindBearerDlRateLimiterByDpTeid(dpTeid: nat): (r: Option<LastPacket>)
      reads this
      ensures r.Some? <==> dpTeid in dlRateLimiter
      ensures r.Some? ==> r.value == dlRateLimiter[dpTeid]
    {
      if dpTeid in dlRateLimiter then Some(dlRateLimiter[dpTeid]) else None
    }

    /**
     * Opens a PDN connection for `apn` towards the peer at `sgwAddr`. An APN
     * name with no gateway yet is registered with 0.0.0.0 and gets that. The
     * new tunnel id is unused and differs from the peer's; the UE address is
     * the first free one at or above 10.0.0.2 plus the number of connections.
     */
    method CreatePdnConnection(apn: string, sgwAddr: nat, sgwCpTeid: nat) returns (pdn: PdnConnection)
      requires Valid()
      modifies this
      ensures Valid()
      ensures apns == if apn in old(apns) then old(apns) else old(apns)[apn := UnspecifiedAddress]
      ensures pdn.cpTeid !in old(pdns) && pdn.cpTeid != sgwCpTeid
      ensures pdn.ueIp !in old(pdnsByUeIp) && pdn.ueIp >= FirstUeIp + |old(pdns)|
      ensures forall a :: FirstUeIp + |old(pdns)| <= a < pdn.ueIp ==> a in old(pdnsByUeIp)
      ensures pdn.apnGw == apns[apn] && pdn.sgwAddr == sgwAddr && pdn.sgwCpTeid == sgwCpTeid
      ensures pdn.defaultBearer == None && pdn.bearerIds == {}
      ensures pdns == old(pdns)[pdn.cpTeid := pdn]
      ensures pdnsByUeIp == old(pdnsByUeIp)[pdn.ueIp := pdn]
      ensures FindPdnByCpTeid(pdn.cpTeid) == Some(pdn) && FindPdnByIpAddress(pdn.ueIp) == Some(pdn)
      ensures bearers == old(bearers)
      ensures ulRateLimiter == old(ulRateLimiter) && dlRateLimiter == old(dlRateLimiter)
    {
      IndexSizesAgree(pdns, pdnsByUeIp);
      if apn !in apns {
        apns := apns[apn := UnspecifiedAddress];
      }
      var apnGw := apns[apn];
      var cpTeid := AllocateId(pdns.Keys, sgwCpTeid);
      var ueIp := NextFreeUeIp(pdnsByUeIp.Keys, FirstUeIp + |pdnsByUeIp|);
      pdn := PdnConnection(cpTeid, apnGw, ueIp, sgwAddr, sgwCpTeid, None, {});
      IndexesAgreeAfterInsert(pdns, pdnsByUeIp, pdn);
      pdns := pdns[cpTeid := pdn];
      pdnsByUeIp := pdnsByUeIp[ueIp := pdn];
    }

    /** Removes a PDN connection from both indexes; its bearers stay registered. */
    method DeletePdnConnection(cpTeid: nat)
      requires Valid() && cpTeid in pdns
      modifies this
      ensures Valid()
      ensures pdns == old(pdns) - {cpTeid}
      ensures pdnsByUeIp == old(pdnsByUeIp) - {old(pdns)[cpTeid].ueIp}
      ensures FindPdnByCpTeid(cpTeid) == None && FindPdnByIpAddress(old(pdns)[cpTeid].ueIp) == None
      ensures bearers == old(bearers) && apns == old(apns)
      ensures ulRateLimiter == old(ulRateLimiter) && dlRateLimiter == old(dlRateLimiter)
    {
      var ueIp := pdns[cpTeid].ueIp;
      pdns := pdns - {cpTeid};
      pdnsByUeIp := pdnsByUeIp - {ueIp};
    }

    /** Files a changed connection under both of its keys. */
    method StorePdn(pdn: PdnConnection)
      requires IndexesAgree(pdns, pdnsByUeIp)
      requires pdn.cpTeid in pdns && pdns[pdn.cpTeid].ueIp == pdn.ueIp
      modifies this`pdns, this`pdnsByUeIp
      ensures IndexesAgree(pdns, pdnsByUeIp)
      ensures pdns == old(pdns)[pdn.cpTeid := pdn]
      ensures pdnsByUeIp == old(pdnsByUeIp)[pdn.ueIp := pdn]
    {
      pdns := pdns[pdn.cpTeid := pdn];
      pdnsByUeIp := pdnsByUeIp[pdn.ueIp := pdn];
    }

    /**
     * Creates a bearer of the PDN connection `cpTeid` towards the peer tunnel
     * `sgwTeid`: a fresh data-plane tunnel id other than the peer's, the given
     * limits, two never-admitted limiter entries, and membership in the
     * connection's bearer set.
     */
    method CreateBearer(cpTeid: nat, sgwTeid: nat, ulRateLimit: nat := 0, dlRateLimit: nat := 0)
      returns (bearer: Bearer)
      requires Valid() && cpTeid in pdns
      modifies this
      ensures Valid() && fresh(bearer)
      ensures bearer.dpTeid !in old(bearers) && bearer.dpTeid != sgwTeid
      ensures bearer.pdn == cpTeid && bearer.apnGw == old(pdns)[cpTeid].apnGw && bearer.sgwDpTeid == sgwTeid
      ensures bearer.ulRateLimit == ulRateLimit && bearer.dlRateLimit == dlRateLimit
      ensures bearers == old(bearers)[bearer.dpTeid := bearer]
      ensures ulRateLimiter == old(ulRateLimiter)[bearer.dpTeid := NeverAdmitted]
      ensures dlRateLimiter == old(dlRateLimiter)[bearer.dpTeid := NeverAdmitted]
      ensures var pdn := old(pdns)[cpTeid].(bearerIds := old(pdns)[cpTeid].bearerIds + {bearer.dpTeid});
        pdns == old(pdns)[cpTeid := pdn] && pdnsByUeIp == old(pdnsByUeIp)[pdn.ueIp := pdn]
      ensures apns == old(apns)
    {
      var dpTeid := AllocateId(bearers.Keys, sgwTeid);
      bearer := new Bearer(dpTeid, cpTeid, pdns[cpTeid].apnGw);
      bearer.SetSgwDpTeid(sgwTeid);
      bearer.SetUlRateLimit(ulRateLimit);
      bearer.SetDlRateLimit(dlRateLimit);
      var pdn := pdns[cpTeid];
      MembersOwnedAfterAdd(pdns, bearers, cpTeid, bearer);
      StorePdn(pdn.(bearerIds := pdn.bearerIds + {dpTeid}));
      bearers := bearers[dpTeid := bearer];
      ulRateLimiter := ulRateLimiter[dpTeid := NeverAdmitted];
      dlRateLimiter := dlRateLimiter[dpTeid := NeverAdmitted];
    }

    /**
     * Removes a bearer and both of its limiter entries, and takes it out of
     * its owning connection's bearer set if that connection is still open.
     */
    method DeleteBearer(dpTeid: nat)
      requires Valid() && dpTeid in bearers
      modifies this
      ensures Valid()
      ensures bearers == old(bearers) - {dpTeid}
      ensures ulRateLimiter == old(ulRateLimiter) - {dpTeid}
      ensures dlRateLimiter == old(dlRateLimiter) - {dpTeid}
      ensures FindBearerUlRateLimiterByDpTeid(dpTeid) == None
      ensures FindBearerDlRateLimiterByDpTeid(dpTeid) == None
      ensures var owner := old(bearers)[dpTeid].pdn;
        if owner in old(pdns) then
          var pdn := old(pdns)[owner].(bearerIds := old(pdns)[owner].bearerIds - {dpTeid});
          pdns == old(pdns)[owner := pdn] && pdnsByUeIp == old(pdnsByUeIp)[pdn.ueIp := pdn]
        else
          pdns == old(pdns) && pdnsByUeIp == old(pdnsByUeIp)
      ensures apns == old(apns)
    {
      var owner := bearers[dpTeid].pdn;
      bearers := bearers - {dpTeid};
      ulRateLimiter := ulRateLimiter - {dpTeid};
      dlRateLimiter := dlRateLimiter - {dpTeid};
      if owner in pdns {
        var pdn := pdns[owner];
        StorePdn(pdn.(bearerIds := pdn.bearerIds - {dpTeid}));
      }
    }

    /** Registers or replaces the gateway of an APN name. */
    method AddApn(apnName: string, apnGateway: nat)
      requires Valid()
      modifies this`apns
      ensures Valid()
      ensures apns == old(apns)[apnName := apnGateway]
    {
      apns := apns[apnName := apnGateway];
    }

    /** Designates the bearer that carries a connection's downlink traffic. */
    method SetDefaultBearer(cpTeid: nat, bearer: Bearer)
      requires Valid() && cpTeid in pdns
      modifies this`pdns, this`pdnsByUeIp
      ensures Valid()
      ensures var pdn := old(pdns)[cpTeid].(defaultBearer := Some(bearer));
        pdns == old(pdns)[cpTeid := pdn] && pdnsByUeIp == old(pdnsByUeIp)[pdn.ueIp := pdn]
    {
      var pdn := pdns[cpTeid];
      StorePdn(pdn.(defaultBearer := Some(bearer)));
    }
  }
}
