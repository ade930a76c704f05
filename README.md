# simple-pgw core in Dafny

A model of the core of a small S-GW/P-GW style mobile gateway, with proofs.

The control plane (`control_plane`) keeps PDN connections in two indexes:

- by control-plane tunnel id (cp_teid);
- by UE address.

It also keeps:

- bearers, indexed by data-plane tunnel id (dp_teid);
- one uplink and one downlink rate-limiter record (`last_packet`) per bearer;
- the APN name → gateway table.

It allocates fresh tunnel ids and UE addresses when it creates entries.

The data plane (`data_plane`) handles each packet in three steps:

1. It resolves the bearer: by dp_teid for uplink, by UE address and then the default bearer for downlink.
2. It applies the admit/reject rule to that direction's `last_packet`.
3. A rate-limited direction records the admitted packet in place; every admitted packet goes to the forwarding sink.

Files:

- `options.dfy`: `Option`, the result of every lookup that returns a shared_ptr that may be null in the source.
- `bearer.dfy` (module `Bearers`): the `Bearer` class and the `LastPacket` record with its `{0, 0}` "never admitted" value.
- `rate_limiter.dfy` (module `RateLimiter`): the admit/reject rule. The source writes it twice (uplink and downlink); here it is one function, `Decide`. The file also has lemmas about runs of packets, including the alternating pattern the rate-limit tests rely on.
- `control_plane.dfy` (module `Registry`): the tunnel-id and UE-address allocators and the `ControlPlane` class. Its invariant `Valid()` says three things:
  - the two PDN indexes agree;
  - every bearer has both limiter entries;
  - a PDN lists only live bearers it owns, and each of them carries the PDN's APN gateway.
- `data_plane.dfy` (module `Forwarding`): the `DataPlane` class. The forwarding sink is two append-only logs, as in the test double.
- `scenarios.dfy` (module `DataPlaneScenarios`): the test fixture and test cases of `test/data_plane_test.cpp` as client methods, with clock ticks as parameters.

Conventions:

- Ids, addresses, limits and sizes are unbounded naturals.
- An IPv4 address is its 32-bit value (10.0.0.2 is `0x0A00_0002`).
- Time is an integer count of clock ticks. `CPS` = 1 000 000 stands for `CLOCKS_PER_SEC`.

In these cases the model keeps the code's behaviour, which may be unexpected:

- An unregistered APN name gets gateway 0.0.0.0 and is inserted into the APN table, because `operator[]` inserts a default value.
- Running past 10.255.255.254 while probing for a UE address is not reported, because the overflow branch is empty.
- Deleting a PDN leaves its bearers and their limiter entries registered.

## Model

| member | source | states |
|---|---|---|
| `Bearers.Bearer.constructor` | src/bearer.cpp:5 | Stores the given dp_teid, the owning PDN's cp_teid and that PDN's APN gateway. All three are constants: the source has no setter for the dp_teid, its PDN reference is fixed, and a PDN's gateway is taken to be fixed once the PDN is created (see "## Left out"). The peer tunnel id and both rate limits start at 0 (unlimited), as the in-class defaults of src/bearer.h:26-30 give. |
| `Bearers.Bearer.SetSgwDpTeid` | src/bearer.cpp:9 | Afterwards the peer tunnel id is the value given. The frame lets the method change no other field. |
| `Bearers.Bearer.SetUlRateLimit` | src/bearer.cpp:17 | Afterwards the uplink limit is the value given. The frame keeps the downlink limit and every other field unchanged. |
| `Bearers.Bearer.SetDlRateLimit` | src/bearer.cpp:21 | Afterwards the downlink limit is the value given. The frame keeps the uplink limit and every other field unchanged. |
| `RateLimiter.Decide` | src/data_plane.cpp:12-27 | Limit 0 admits and keeps the state. A positive limit with the `{0,0}` state admits, and the state becomes (size, now). Otherwise a packet is admitted exactly when the previous admitted size over the elapsed time, computed as the source's floating-point division, is strictly below the limit. An admitted packet becomes the new state; a rejected one gives `Reject` and no state. |
| `RateLimiter.RateBelowIsFloatRateBelow` | src/data_plane.cpp:21-22 | The integer cross-multiplied test holds exactly when `last_size / (elapsed / CPS) < limit` holds over the reals. A zero period (an IEEE infinity or NaN in the source) never passes. |
| `RateLimiter.DecisionIgnoresIncomingSize` | src/data_plane.cpp:22 | Whether a packet is admitted does not depend on its own size, only on the previous admitted one. |
| `RateLimiter.Admitted` | src/data_plane.cpp:12-27 | Over a run of packets on one direction, the admitted packets are at most as many as the arrivals. They form a subsequence of the arrivals, so they keep their arrival order. |
| `RateLimiter.SubsequenceMembers` | src/data_plane.cpp:12-27 | Every element of a subsequence occurs in the whole, so every admitted packet is one of the arrivals. |
| `RateLimiter.UnlimitedAdmitsAll` | src/data_plane.cpp:12-13 | With limit 0 every packet is admitted, once, in arrival order. |
| `RateLimiter.FirstPacketAdmitted` | src/data_plane.cpp:15-18 | With a positive limit, the first packet on a never-admitted direction is admitted whatever its size. |
| `RateLimiter.AlternateAfterAdmit` | src/data_plane.cpp:20-27 | Take equally spaced packets of one size after an admitted one. If one gap is too short for the limit and two gaps are long enough, every second packet is admitted and the rest are dropped. |
| `RateLimiter.AlternateFromFresh` | src/data_plane.cpp:15-27 | Under the same spacing condition, on a fresh direction exactly the 1st, 3rd, 5th, ... packets are admitted. |
| `RateLimiter.SixPacketsAtSixBytesPerSecond` | test/data_plane_test.cpp:118-134 | Six 2-byte packets, 6 B/s limit, spacing above 1/6 s and at most 1/3 s: exactly the 1st, 3rd and 5th are admitted, in that order. |
| `Registry.AllocateId` | src/control_plane.cpp:32-33 | The tunnel id chosen is not in use and differs from the peer's id. Such an id always exists, because only finitely many are in use. |
| `Registry.NextFreeUeIp` | src/control_plane.cpp:35-41 | The address is the least one at or above the start that is not assigned. Every address skipped on the way is assigned. |
| `Registry.IndexSizesAgree` | src/control_plane.cpp:35 | Consistent indexes have equal sizes. So the UE-address index size used at :35 is the number of live PDNs. |
| `Registry.IndexesAgreeAfterInsert` | src/control_plane.cpp:49-50 | Filing a new PDN under an unused cp_teid and an unused UE address keeps the two indexes consistent. |
| `Registry.MembersOwnedAfterAdd` | src/control_plane.cpp:69-70 | Adding a new bearer to its owner's bearer set and to the bearer table keeps "a PDN lists only live bearers it owns, each carrying its gateway". |
| `Registry.ControlPlane.constructor` | test/data_plane_test.cpp:63 | A new control plane has no PDNs, bearers, limiter entries or APNs, and satisfies `Valid()`. |
| `Registry.ControlPlane.StorePdn` | src/control_plane.cpp:69 | A changed PDN is filed under its cp_teid and its unchanged UE address, so both indexes see the change, as they would see a change to the one object the source shares between them. The indexes stay consistent. |
| `Registry.ControlPlane.FindPdnByCpTeid` | src/control_plane.cpp:3-6 | Returns the stored PDN when the cp_teid is a key, and None otherwise. It reads only the registry. |
| `Registry.ControlPlane.FindPdnByIpAddress` | src/control_plane.cpp:8-11 | Returns the stored PDN when the UE address is a key, and None otherwise. |
| `Registry.ControlPlane.FindBearerByDpTeid` | src/control_plane.cpp:13-16 | Returns the stored bearer when the dp_teid is a key, and None otherwise. |
| `Registry.ControlPlane.FindBearerUlRateLimiterByDpTeid` | src/control_plane.cpp:18-21 | Returns the stored uplink limiter state when present, and None otherwise. |
| `Registry.ControlPlane.FindBearerDlRateLimiterByDpTeid` | src/control_plane.cpp:23-26 | Returns the stored downlink limiter state when present, and None otherwise. |
| `Registry.ControlPlane.CreatePdnConnection` | src/control_plane.cpp:28-53 | The new cp_teid is unused and differs from `sgw_cp_teid`. The UE address is unused, at least 10.0.0.2 plus the number of PDNs, and the least free one from there. An unknown APN name is added with 0.0.0.0. The PDN has the APN's gateway, the given peer address and peer id, no default bearer and no bearers. It is reachable under both keys. Nothing else changes, and `Valid()` is kept. |
| `Registry.ControlPlane.DeletePdnConnection` | src/control_plane.cpp:55-59 | Requires the cp_teid to be present. Removes exactly that key and the PDN's UE address. Bearers, limiters and APNs stay unchanged, and `Valid()` is kept. |
| `Registry.ControlPlane.CreateBearer` | src/control_plane.cpp:61-75 | The new dp_teid is unused and differs from `sgw_teid`. The bearer is fresh and stores the peer tunnel id, both limits, its PDN and that PDN's APN gateway. It is added to the bearer table and to the PDN's bearer set, which is updated in both indexes. Both limiter entries start as `{0,0}`. Nothing else changes, and `Valid()` is kept. |
| `Registry.ControlPlane.DeleteBearer` | src/control_plane.cpp:77-83 | Requires the dp_teid to be present. Removes the bearer and both of its limiter entries, so both lookups return None. It is taken out of its owning PDN's bearer set if that PDN is still registered. Nothing else changes, and `Valid()` is kept. |
| `Registry.ControlPlane.AddApn` | src/control_plane.cpp:85 | The name maps to the given gateway, overwriting any earlier mapping. Only the APN table changes. |
| `Registry.ControlPlane.SetDefaultBearer` | test/data_plane_test.cpp:41 | The PDN's default bearer becomes the given bearer in both indexes. Nothing else changes. |
| `Forwarding.DataPlane.constructor` | src/data_plane.cpp:3 | A data plane over the given control plane, with nothing forwarded yet. |
| `Forwarding.DataPlane.HandleUplink` | src/data_plane.cpp:5-28 | An unknown dp_teid, or one without an uplink limiter, forwards nothing and changes nothing. Otherwise `Decide` with the bearer's uplink limit applies. On admit only that bearer's uplink state changes, and one `(apn_gw of the bearer's PDN, packet)` entry is appended to the APN log. This holds even after that PDN was deleted and its cp_teid reused. On reject nothing changes. The frame keeps the downlink state and the peer log unchanged. |
| `Forwarding.DataPlane.HandleDownlink` | src/data_plane.cpp:29-55 | Nothing is forwarded and nothing changes when the UE address is unknown, the PDN has no default bearer, or that bearer has no downlink limiter entry. Otherwise `Decide` with the default bearer's downlink limit applies. On admit only that state changes, and one `(PDN's sgw address, default bearer's peer tunnel id, packet)` entry is appended to the peer log. On reject nothing changes. The frame keeps the uplink state and the APN log unchanged. |
| `DataPlaneScenarios.SetUp` | test/data_plane_test.cpp:36-47 | The fixture yields one PDN at a UE address of at least 10.0.0.2, with gateway 127.0.0.1, peer 127.1.0.1 and peer cp_teid 1. It has exactly three registered bearers, all of that PDN and gateway: default (peer tunnel 1, uplink unlimited, downlink 6), dedicated (peer tunnel 2, unlimited) and limited (peer tunnel 3, 6 both ways). The default bearer is set. Each limiter table holds exactly the three bearers, each at `{0,0}`. |
| `DataPlaneScenarios.DownlinkForPdn` | test/data_plane_test.cpp:67-84 | For any clock ticks, two 3-byte uplink packets reach 127.0.0.1 in order. The 1-byte downlink packet reaches 127.1.0.1 on tunnel 1, the default bearer's. |
| `DataPlaneScenarios.UplinkForDefaultBearer` | test/data_plane_test.cpp:86-93 | For any clock tick, the 3-byte uplink packet on the default bearer is the only entry of the APN log, addressed to 127.0.0.1. |
| `DataPlaneScenarios.UplinkForDedicatedBearer` | test/data_plane_test.cpp:95-102 | The same through the dedicated bearer. |
| `DataPlaneScenarios.UnknownBearerAndAddress` | test/data_plane_test.cpp:104-116 | An uplink on a dp_teid no bearer has, and a downlink to 0.0.0.0, forward nothing to either log. |
| `DataPlaneScenarios.UplinkRateLimit` | test/data_plane_test.cpp:118-134 | With spacing above 1/6 s and at most 1/3 s, the APN log holds exactly packets 1, 3 and 5 of six, in order. |
| `DataPlaneScenarios.DownlinkRateLimit` | test/data_plane_test.cpp:136-152 | The same pattern downlink: the peer log holds exactly packets 1, 3 and 5, on the default bearer's tunnel 1. |

## Left out

- Randomness: `srand(time(0))` and the `rand()` redraw loops are not modelled. `Registry.AllocateId` may return any unused id other than the peer's.
- Integer widths: ids, addresses, limits and sizes are unbounded naturals.
  - Ids are not bounded by `RAND_MAX` or 2^32.
  - The 32-bit UE address does not wrap.
  - The empty overflow branch at src/control_plane.cpp:43 is left out, since it does nothing.
- Clock and floating point: `clock()` is replaced by a `now` tick parameter. The two `clock()` reads of one packet become one value.
- `RateLimiter.Decide`: compares over exact reals, so rounding of the `double` division is not modelled.
- `RateLimiter.Decide`: also decides a negative elapsed time, which a monotonic clock never produces. It admits there, as the negative quotient would in the source.
- Forwarding sink: the virtual `forward_packet_to_apn` and `forward_packet_to_sgw` become appends to two logs. Each log entry records the destination with the packet.
- shared_ptr ownership and the bearer↔PDN reference cycle are replaced as follows:
  - a bearer keeps its PDN's cp_teid and a copy of that PDN's APN gateway, in place of the reference;
  - a PDN connection is a value filed in both indexes, kept equal by `Valid()`;
  - the default bearer stays a reference, so a deleted default bearer still supplies its fields while its missing limiter entry makes downlink drop, unless its dp_teid has gone to a new bearer; downlink then uses that bearer's downlink state with the deleted bearer's limit and peer tunnel, as the source does.
- A PDN deleted from the registry while it still has bearers: a bearer holds only a plain reference to its PDN (src/bearer.h:28), so the source keeps the PDN alive only while another shared_ptr holds it. Otherwise the bearer's reference dangles, and `handle_uplink` and `delete_bearer` on that bearer are undefined behaviour. The model instead forwards uplink to the gateway the bearer copied and removes the bearer normally. While the PDN is still held elsewhere, its cp_teid may be given to a new PDN. Uplink then forwards to the copied gateway, as the source does. `delete_bearer` then removes the bearer from the registered PDN with that cp_teid, which never lists it. The source removes it from the detached PDN's set, which the model does not keep.
- `Bearers.Bearer.constructor`: copies the PDN's `apn_gw`. This assumes a PDN's gateway never changes after `pdn_connection::create` (src/control_plane.cpp:45). pdn_connection.h is not part of this model.
- `Registry.ControlPlane.CreateBearer`: requires the PDN to be registered. The model addresses a PDN by its cp_teid rather than by a shared_ptr to an object that may be unregistered.
- pdn_connection, control_plane.h and data_plane.h are not part of this model. A new PDN is assumed to start with no default bearer and no bearers. `set_default_bearer` is assumed to store the bearer it is given without checking it, so a PDN's default bearer need not be one of its own bearers. Only the fields and operations the core uses are modelled.
- The bearer getters are the reads of the corresponding fields.
- Test scaffolding: the busy-wait timing loops, gtest fixtures and stream logging. Their timing is the spacing parameter of the scenario methods and lemmas. The busy-wait gives only roughly equal gaps; the model covers every equal spacing in (1/6 s, 1/3 s].
- Concurrency and locking: the code has none.
