/**
 * The cases of test/data_plane_test.cpp as client methods: the fixture builds
 * one PDN connection with a default, a dedicated and a rate-limited bearer,
 * and each case states the forwarding logs the test asserts. Clock ticks are
 * parameters: the plain cases hold for every tick, and the rate-limit cases
 * for every equal spacing in (1/6 s, 1/3 s].
 */
module DataPlaneScenarios {

  import opened Options
  import opened Bearers
  import opened RateLimiter
  import opened Registry
  import opened Forwarding

  const TestApn := "test.apn"
  /** 127.0.0.1 */
  const TestApnGw: nat := 0x7F00_0001
  /** 127.1.0.1 */
  const TestSgwAddr: nat := 0x7F01_0001

  /** The connection of the fixture, before any bearer exists. */
  method NewConnection() returns (cp: ControlPlane, pdn: PdnConnection)
    ensures fresh(cp) && cp.Valid()
    ensures cp.pdns == map[pdn.cpTeid := pdn] && cp.pdnsByUeIp == map[pdn.ueIp := pdn]
    ensures cp.bearers == map[] && cp.ulRateLimiter == map[] && cp.dlRateLimiter == map[]
    ensures pdn.ueIp == FirstUeIp
    ensures pdn.apnGw == TestApnGw && pdn.sgwAddr == TestSgwAddr && pdn.sgwCpTeid == 1
  {
    cp := new ControlPlane();
    cp.AddApn(TestApn, TestApnGw);
    ghost var before := cp.pdnsByUeIp;
    pdn := cp.CreatePdnConnection(TestApn, TestSgwAddr, 1);
    assert FirstUeIp !in before;
  }

  /** The default bearer of the fixture: peer tunnel 1, uplink unlimited, downlink 6 B/s. */
  method AddDefaultBearer(cp: ControlPlane, pdn: PdnConnection) returns (default: Bearer)
    requires cp.Valid()
    requires cp.pdns == map[pdn.cpTeid := pdn] && cp.pdnsByUeIp == map[pdn.ueIp := pdn]
    requires cp.bearers == map[] && cp.ulRateLimiter == map[] && cp.dlRateLimiter == map[]
    modifies cp
    ensures cp.Valid() && fresh(default)
    ensures cp.pdnsByUeIp.Keys == {pdn.ueIp} && cp.pdns.Keys == {pdn.cpTeid}
    ensures cp.pdnsByUeIp[pdn.ueIp].apnGw == pdn.apnGw && cp.pdnsByUeIp[pdn.ueIp].sgwAddr == pdn.sgwAddr
    ensures cp.pdnsByUeIp[pdn.ueIp].sgwCpTeid == pdn.sgwCpTeid
    ensures cp.pdnsByUeIp[pdn.ueIp].defaultBearer == Some(default)
    ensures cp.bearers == map[default.dpTeid := default]
    ensures default.pdn == pdn.cpTeid && default.apnGw == pdn.apnGw
    ensures default.sgwDpTeid == 1 && default.ulRateLimit == 0 && default.dlRateLimit == 6
    ensures cp.ulRateLimiter == map[default.dpTeid := NeverAdmitted]
    ensures cp.dlRateLimiter == map[default.dpTeid := NeverAdmitted]
  {
    default := cp.CreateBearer(pdn.cpTeid, 1, 0, 6);
    cp.SetDefaultBearer(pdn.cpTeid, default);
  }

  /** The other two bearers of the fixture: dedicated (peer tunnel 2, unlimited) and limited (peer tunnel 3, 6 B/s). */
  method AddOtherBearers(cp: ControlPlane, pdn: PdnConnection, default: Bearer) returns (dedicated: Bearer, limited: Bearer)
    requires cp.Valid() && pdn.cpTeid in cp.pdns && cp.pdns[pdn.cpTeid].ueIp == pdn.ueIp
    requires cp.pdnsByUeIp.Keys == {pdn.ueIp} && cp.pdns.Keys == {pdn.cpTeid}
    requires cp.bearers == map[default.dpTeid := default]
    requires cp.ulRateLimiter == map[default.dpTeid := NeverAdmitted]
    requires cp.dlRateLimiter == map[default.dpTeid := NeverAdmitted]
    modifies cp
    ensures cp.Valid() && fresh(dedicated) && fresh(limited)
    ensures cp.pdnsByUeIp.Keys == {pdn.ueIp}
    ensures var kept := old(cp.pdnsByUeIp)[pdn.ueIp];
      cp.pdnsByUeIp[pdn.ueIp] == kept.(bearerIds := cp.pdnsByUeIp[pdn.ueIp].bearerIds)
    ensures dedicated.dpTeid != default.dpTeid && limited.dpTeid != default.dpTeid && limited.dpTeid != dedicated.dpTeid
    ensures dedicated.pdn == limited.pdn == pdn.cpTeid
    ensures dedicated.apnGw == limited.apnGw == old(cp.pdns)[pdn.cpTeid].apnGw
    ensures cp.bearers == map[default.dpTeid := default, dedicated.dpTeid := dedicated, limited.dpTeid := limited]
    ensures dedicated.sgwDpTeid == 2 && dedicated.ulRateLimit == 0 && dedicated.dlRateLimit == 0
    ensures limited.sgwDpTeid == 3 && limited.ulRateLimit == 6 && limited.dlRateLimit == 6
    ensures cp.ulRateLimiter == map[default.dpTeid := NeverAdmitted, dedicated.dpTeid := NeverAdmitted, limited.dpTeid := NeverAdmitted]
    ensures cp.dlRateLimiter == map[default.dpTeid := NeverAdmitted, dedicated.dpTeid := NeverAdmitted, limited.dpTeid := NeverAdmitted]
  {
    dedicated := cp.CreateBearer(pdn.cpTeid, 2);
    limited := cp.CreateBearer(pdn.cpTeid, 3, 6, 6);
  }

  /**
   * The fixture: APN "test.apn" at 127.0.0.1; a connection towards the peer
   * 127.1.0.1 with peer control-plane tunnel id 1; a default bearer (peer
   * tunnel 1, uplink unlimited, downlink 6 B/s), a dedicated bearer (peer
   * tunnel 2, unlimited) and a limited bearer (peer tunnel 3, 6 B/s both ways).
   */
  method SetUp() returns (dataPlane: DataPlane, ueIp: nat, default: Bearer, dedicated: Bearer, limited: Bearer)
    ensures fresh(dataPlane) && fresh(dataPlane.controlPlane)
    ensures dataPlane.toApn == [] && dataPlane.toSgw == []
    ensures var cp := dataPlane.controlPlane;
      && cp.Valid()
      && cp.pdnsByUeIp.Keys == {ueIp} && ueIp == FirstUeIp
      && cp.pdnsByUeIp[ueIp].apnGw == TestApnGw
      && cp.pdnsByUeIp[ueIp].sgwAddr == TestSgwAddr
      && cp.pdnsByUeIp[ueIp].sgwCpTeid == 1
      && cp.pdnsByUeIp[ueIp].defaultBearer == Some(default)
      && default.pdn == dedicated.pdn == limited.pdn == cp.pdnsByUeIp[ueIp].cpTeid
      && default.apnGw == dedicated.apnGw == limited.apnGw == TestApnGw
      && cp.bearers.Keys == {default.dpTeid, dedicated.dpTeid, limited.dpTeid}
      && cp.bearers[default.dpTeid] == default
      && cp.bearers[dedicated.dpTeid] == dedicated
      && cp.bearers[limited.dpTeid] == limited
      && default.sgwDpTeid == 1 && default.ulRateLimit == 0 && default.dlRateLimit == 6
      && dedicated.sgwDpTeid == 2 && dedicated.ulRateLimit == 0 && dedicated.dlRateLimit == 0
      && limited.sgwDpTeid == 3 && limited.ulRateLimit == 6 && limited.dlRateLimit == 6
      && cp.ulRateLimiter == map[default.dpTeid := NeverAdmitted, dedicated.dpTeid := NeverAdmitted, limited.dpTeid := NeverAdmitted]
      && cp.dlRateLimiter == map[default.dpTeid := NeverAdmitted, dedicated.dpTeid := NeverAdmitted, limited.dpTeid := NeverAdmitted]
  {
    var cp, pdn := NewConnection();
    ueIp := pdn.ueIp;
    default := AddDefaultBearer(cp, pdn);
    dedicated, limited := AddOtherBearers(cp, pdn, default);
    dataPlane := new DataPlane(cp);
  }

  /**
   * Test handle_downlink_for_pdn: a 3-byte uplink packet on the default and
   * on the dedicated bearer, then a 1-byte downlink packet for the UE; both
   * uplink packets reach the APN gateway in order and the downlink packet
   * reaches the peer on the default bearer's tunnel 1.
   */
  method DownlinkForPdn(t1: int, t2: int, t3: int) returns (toApn: seq<ApnForward>, toSgw: seq<SgwForward>)
    ensures toApn == [ApnForward(TestApnGw, [1, 2, 3]), ApnForward(TestApnGw, [4, 5, 6])]
    ensures toSgw == [SgwForward(TestSgwAddr, 1, [7])]
  {
    var dataPlane, ueIp, default, dedicated, limited := SetUp();
    dataPlane.HandleUplink(default.dpTeid, [1, 2, 3], t1);
    dataPlane.HandleUplink(dedicated.dpTeid, [4, 5, 6], t2);
    dataPlane.HandleDownlink(ueIp, [7], t3);
    toApn, toSgw := dataPlane.toApn, dataPlane.toSgw;
  }

  /** Test handle_uplink_for_default_bearer: one 3-byte packet reaches the APN gateway. */
  method UplinkForDefaultBearer(now: int) returns (toApn: seq<ApnForward>)
    ensures toApn == [ApnForward(TestApnGw, [1, 2, 3])]
  {
    var dataPlane, ueIp, default, dedicated, limited := SetUp();
    dataPlane.HandleUplink(default.dpTeid, [1, 2, 3], now);
    toApn := dataPlane.toApn;
  }

  /** Test handle_uplink_for_dedicated_bearer: the same through the dedicated bearer. */
  method UplinkForDedicatedBearer(now: int) returns (toApn: seq<ApnForward>)
    ensures toApn == [ApnForward(TestApnGw, [1, 2, 3])]
  {
    var dataPlane, ueIp, default, dedicated, limited := SetUp();
    dataPlane.HandleUplink(dedicated.dpTeid, [1, 2, 3], now);
    toApn := dataPlane.toApn;
  }

  /** Tests didnt_handle_uplink_for_unknown_bearer and didnt_handle_downlink_for_unknown_ue_ip. */
  method UnknownBearerAndAddress(now: int) returns (toApn: seq<ApnForward>, toSgw: seq<SgwForward>)
    ensures toApn == [] && toSgw == []
  {
    var dataPlane, ueIp, default, dedicated, limited := SetUp();
    var unknown := AllocateId(dataPlane.controlPlane.bearers.Keys, 0);
    dataPlane.HandleUplink(unknown, [1, 2, 3], now);
    dataPlane.HandleDownlink(UnspecifiedAddress, [1, 2, 3], now);
    toApn, toSgw := dataPlane.toApn, dataPlane.toSgw;
  }

  /**
   * Two 2-byte uplink packets on a 6 B/s bearer whose last admitted 2-byte
   * packet came at tick t, sent one and two gaps later: the first is too
   * soon and is dropped, the second passes.
   */
  method UplinkTooSoonThenInTime(dataPlane: DataPlane, bearer: Bearer, t: int, gap: int, tooSoon: Packet, inTime: Packet)
    requires CPS < 6 * gap <= 2 * CPS
    requires |tooSoon| == 2 && |inTime| == 2
    requires bearer.dpTeid in dataPlane.controlPlane.bearers && dataPlane.controlPlane.bearers[bearer.dpTeid] == bearer
    requires bearer.ulRateLimit == 6
    requires bearer.dpTeid in dataPlane.controlPlane.ulRateLimiter
    requires dataPlane.controlPlane.ulRateLimiter[bearer.dpTeid] == LastPacket(2, t)
    modifies dataPlane`toApn, dataPlane.controlPlane`ulRateLimiter
    ensures dataPlane.controlPlane.ulRateLimiter == old(dataPlane.controlPlane.ulRateLimiter)[bearer.dpTeid := LastPacket(2, t + 2 * gap)]
    ensures dataPlane.toApn == old(dataPlane.toApn) + [ApnForward(bearer.apnGw, inTime)]
  {
    assert !RateBelow(2, gap, 6);
    dataPlane.HandleUplink(bearer.dpTeid, tooSoon, t + gap);
    assert RateBelow(2, 2 * gap, 6);
    dataPlane.HandleUplink(bearer.dpTeid, inTime, t + 2 * gap);
  }

  /** The downlink counterpart of UplinkTooSoonThenInTime, through a connection's default bearer. */
  method DownlinkTooSoonThenInTime(dataPlane: DataPlane, ueIp: nat, bearer: Bearer, t: int, gap: int, tooSoon: Packet, inTime: Packet)
    requires CPS < 6 * gap <= 2 * CPS
    requires |tooSoon| == 2 && |inTime| == 2
    requires ueIp in dataPlane.controlPlane.pdnsByUeIp
    requires dataPlane.controlPlane.pdnsByUeIp[ueIp].defaultBearer == Some(bearer) && bearer.dlRateLimit == 6
    requires bearer.dpTeid in dataPlane.controlPlane.dlRateLimiter
    requires dataPlane.controlPlane.dlRateLimiter[bearer.dpTeid] == LastPacket(2, t)
    modifies dataPlane`toSgw, dataPlane.controlPlane`dlRateLimiter
    ensures dataPlane.controlPlane.dlRateLimiter == old(dataPlane.controlPlane.dlRateLimiter)[bearer.dpTeid := LastPacket(2, t + 2 * gap)]
    ensures dataPlane.toSgw == old(dataPlane.toSgw)
      + [SgwForward(dataPlane.controlPlane.pdnsByUeIp[ueIp].sgwAddr, bearer.sgwDpTeid, inTime)]
  {
    assert !RateBelow(2, gap, 6);
    dataPlane.HandleDownlink(ueIp, tooSoon, t + gap);
    assert RateBelow(2, 2 * gap, 6);
    dataPlane.HandleDownlink(ueIp, inTime, t + 2 * gap);
  }

  /**
   * Test ul_rate_limit: six 2-byte packets on the 6 B/s bearer's uplink, one
   * every `gap` ticks with 1/6 s < gap <= 1/3 s; the 1st, 3rd and 5th pass.
   */
  method UplinkRateLimit(start: int, gap: int) returns (toApn: seq<ApnForward>)
    requires CPS < 6 * gap <= 2 * CPS
    ensures toApn == [ApnForward(TestApnGw, [1, 2]), ApnForward(TestApnGw, [5, 6]), ApnForward(TestApnGw, [9, 10])]
  {
    var dataPlane, ueIp, default, dedicated, limited := SetUp();
    var t := limited.dpTeid;
    dataPlane.HandleUplink(t, [1, 2], start);
    UplinkTooSoonThenInTime(dataPlane, limited, start, gap, [3, 4], [5, 6]);
    UplinkTooSoonThenInTime(dataPlane, limited, start + 2 * gap, gap, [7, 8], [9, 10]);
    assert !RateBelow(2, gap, 6);
    dataPlane.HandleUplink(t, [11, 12], start + 5 * gap);
    toApn := dataPlane.toApn;
  }

  /** Test dl_rate_limit: the same pattern downlink, through the default bearer. */
  method DownlinkRateLimit(start: int, gap: int) returns (toSgw: seq<SgwForward>)
    requires CPS < 6 * gap <= 2 * CPS
    ensures toSgw == [SgwForward(TestSgwAddr, 1, [1, 2]), SgwForward(TestSgwAddr, 1, [5, 6]), SgwForward(TestSgwAddr, 1, [9, 10])]
  {
    var dataPlane, ueIp, default, dedicated, limited := SetUp();
    dataPlane.HandleDownlink(ueIp, [1, 2], start);
    DownlinkTooSoonThenInTime(dataPlane, ueIp, default, start, gap, [3, 4], [5, 6]);
    DownlinkTooSoonThenInTime(dataPlane, ueIp, default, start + 2 * gap, gap, [7, 8], [9, 10]);
    assert !RateBelow(2, gap, 6);
    dataPlane.HandleDownlink(ueIp, [11, 12], start + 5 * gap);
    toSgw := dataPlane.toSgw;
  }
}
