# CARP failover driver: a verified model of one instance's logic

This project models the decision and configuration logic of a Linux kernel
driver for CARP, the Common Address Redundancy Protocol. Each CARP instance is
a virtual network device. It runs on a real device (`odev`), is identified by
a virtual host id (`vhid`), and moves between the states INIT, BACKUP and
MASTER. Two kernel timers drive it:
- a BACKUP waits on the master-down timer (`md_timer`) and takes over when it
  fires;
- a MASTER re-arms the advertisement timer (`adv_timer`).

Administrators configure an instance through an ioctl (SIOC_SETCARPPARAMS) and
through sysfs attributes (advbase, advskew, carpdev, state, vhid).

The model has five modules, one per concern of the C sources.

- `CarpHeader` (carp.h) holds the pure parts:
  - the state names;
  - `carp_calculate_timeout`, kept in microseconds;
  - the class-D test `MULTICAST` and `addr2val`;
  - `timeval_before`;
  - the 36-byte advertisement header, with an encoder and decoder proved
    inverse.
- `CarpMachine` (carp.c) is the state machine as pure functions over an
  `Instance` value:
  - `carp_set_state`, `carp_set_run`, `carp_master_down`,
    `carp_del_all_timeouts`, `carp_dev_close`;
  - the last step of `carp_dev_open`;
  - `carp_check_params` and the parameter copy of SIOC_SETCARPPARAMS.

  A timer is a record `Timer(pending, expires)`:
  - `mod_timer` sets it pending at the given expiry, even when it is already
    pending;
  - `del_timer_sync` clears `pending`.

  The current jiffies value is the parameter `now`. Calls the driver makes
  into code outside it go to a ghost event log, `events`:
  - `carp_proto_adv`, with the `carp_bow_out` value it sees;
  - `carp_send_arp`;
  - `carp_call_queue`.

  The properties of the state machine are lemmas about these functions.
- `CarpDevice` (carp.c) is `struct carp` as the class `Carp`, updated in
  place, together with the `NetDevice` objects it binds to:
  - Each method updates its fields as the C function does.
  - Each state-machine method's contract ties the new fields to a
    `CarpMachine` function applied to `old(Abs())`. `SetState`, `SetRun`,
    `MasterDown`, `DelAllTimeouts`, `DevClose` and `DevOpen` use the function
    of the same name. `SetParams` uses `ApplyParams`. `SetCarpParams` and
    `Ioctl` use `IoctlSet`. `ReplaceDevice` uses `DevOpen` after
    `ApplyParams` after `DevClose`.
  - `SetInterface` and `SwitchDevice` have no counterpart in `CarpMachine`.
    Their contracts state the binding fields and device flags directly.
  - The methods that touch a `NetDevice` may write its `flags` field and no
    other. A device's mtu and hard_header_len are only ever read.
  - The ioctl's SET branch is `Ioctl`, `SetCarpParams`, `ReplaceDevice`,
    `SwitchDevice` and `SetParams`.
  - `carp_set_interface` is `SetInterface`.
- `CarpRegistry` (carp.c) is the driver-wide instance list:
  - `carp_dev_init` appends to it after its address guard;
  - `carp_get_by_vhid` walks it from the head.
- `CarpSysfs` (carp_sysfs.c) holds the sysfs handlers:
  - the store handlers, as methods on a `Carp`;
  - the `strnicmp` chain that parses a state name;
  - the show handlers, as functions that yield the printed line.

Conventions:
- Durations are microseconds (`timeval_to_jiffies` is taken as the identity).
- Addresses are in host byte order.
- Device flags are `bv32`, with the Linux `IFF_*` bit values.
- `oflags` is the C `unsigned short`, so storing flags into it truncates them
  to 16 bits (`Low16`).

Where the code does not do what the driver's own messages or the usual
account of the protocol say, the model follows the code:
- The master-down timeout is not always longer than the advertisement timeout.
  With `advbase == 0` and `advskew > 0` the two are equal (`MasterDownNotShorter`).
- A skew of 0 at advbase 0 stands for mod/256 s. For mod 3 this is longer than
  skew 1. For mod 1 it is equal to it (`TimeoutNotMonotoneAtZeroBase`).
- `carp_store_vhid` accepts 0 to 255, although its message says 1-254.
- Duplicate vhids are not refused.
- SIOC_SETCARPPARAMS checks the requested `md_timeout` and `adv_timeout`
  against their limits but never stores them. The stored timeouts are
  recomputed from advbase and advskew. Without a device switch, a timer armed
  by the state change in the same request runs for the old duration
  (`IoctlArmsWithOldTimeouts`). With a switch, `carp_dev_open` runs
  `carp_set_run` afterwards when the route lookup succeeds. If the new vhid is
  also non-zero, a BACKUP or INIT request then ends in BACKUP with the
  master-down timer re-armed for the new duration, and a MASTER request keeps
  the advertisement timer armed for the old duration (`IoctlSwitchRearms`).
  Without a route, or with vhid 0, `carp_set_run` does not reach the state
  switch, and a timer armed by the state change keeps the old duration.
- The ioctl's device switch saves `oflags` before it adds BROADCAST|ALLMULTI to
  the new device. `carp_set_interface` saves them after.
- `carp_master_down` on a BACKUP without a bound device arms the advertisement
  timer and then falls back to INIT with that timer still pending
  (`MasterDownUnbound`). A sysfs BACKUP request on such an instance does the
  same with the master-down timer (`StateRequestBackupUnbound`).

## Model

| member | source | states |
|---|---|---|
| CarpHeader.StateName | carp.h:186-197 | each state has one of the names INIT, BACKUP, MASTER, at least 4 characters long |
| CarpHeader.StateNameInjective | carp.h:186-197 | distinct states get distinct names |
| CarpHeader.TimevalBeforeIrreflexive | carp.h:59-60 | no timeval comes before itself |
| CarpHeader.TimevalBeforeTransitive | carp.h:59-60 | the timeval order is transitive |
| CarpHeader.TimevalBeforeTotal | carp.h:59-60 | of two different timevals one comes before the other |
| CarpHeader.TimevalBefore | carp.h:59-60 | on normalised timevals, coming before is being shorter in microseconds |
| CarpHeader.CalculateTimeout | carp.h:199-208 | the timeval is normalised (microseconds below one second) and a positive mod gives a positive duration |
| CarpHeader.MasterDownNotShorter | carp.h:199-208 | the mod-3 timeout is never below the mod-1 timeout, and is strictly longer iff advbase > 0 or advskew == 0 |
| CarpHeader.TimeoutMonotoneInAdvbase | carp.h:202-206 | with advskew fixed and mod 1 or 3, a larger advbase never shortens the timeout |
| CarpHeader.TimeoutMonotoneInAdvskew | carp.h:203-206 | with advbase > 0, a larger advskew never shortens the timeout |
| CarpHeader.TimeoutNotMonotoneAtZeroBase | carp.h:203-206 | at advbase 0, skew 0 gives 11718 us against 3906 us for skew 1 with mod 3, and equal 3906 us with mod 1 |
| CarpHeader.Addr2Val | carp.c:108-113 | each octet of the dotted quad lands in its byte of the word, first octet highest |
| CarpHeader.Multicast | carp.h:56-57 | MULTICAST holds iff the top octet of the address is 224 to 239 |
| CarpHeader.MulticastIsClassD | carp.h:56-57 | MULTICAST holds iff the top four bits are 1110, that is, the first octet is 224 to 239 |
| CarpHeader.SetupAddressesPassInitGuard | carp.c:521-522 | the group 224.0.0.18 is a non-zero multicast address and 10.0.0.3 is non-zero, so a fresh instance passes the guard of carp_dev_init |
| CarpHeader.U32RoundTrip | carp.h:119 | a counter word read back from its four big-endian bytes is the same word |
| CarpHeader.U32BytesOf | carp.h:119 | four bytes read as a word and written back are the same bytes |
| CarpHeader.Encode | carp.h:103-121 | the header is 36 bytes and ends with the 20-byte digest |
| CarpHeader.Decode | carp.h:103-121 | a buffer holds a header iff it has at least 36 bytes |
| CarpHeader.AdvertisementFirstByte | carp.h:47-51 | the first header byte is 0x21 iff the version is CARP_VERSION (2) and the type is CARP_ADVERTISEMENT (1) |
| CarpHeader.DecodeEncode | carp.h:103-121 | decoding an encoded header gives it back |
| CarpHeader.EncodeDecode | carp.h:103-121 | re-encoding a decoded header gives back the first 36 bytes of the buffer |
| CarpMachine.SetState | carp.c:265-293 | the new state is the requested one, and only state, the two timers and the event log may differ |
| CarpMachine.SetRun | carp.c:233-263 | only state, the timers, the device flags and the event log may differ; the recursion is at most one level deep |
| CarpMachine.DelAllTimeouts | carp.c:165-171 | neither timer is pending afterwards, and nothing but the two timers changes |
| CarpMachine.CheckParams | carp.c:143-163 | -1 iff the state is invalid, else -2 iff the device is unknown, else -3 iff a timeout is 0 or above its maximum, else 0 |
| CarpMachine.ApplyParams | carp.c:400-419 | both stored timeouts are carp_calculate_timeout(3 or 1, new advbase, new advskew) |
| CarpMachine.IoctlSet | carp.c:383-424 | a bound instance stays bound after a successful request, with or without a device switch |
| CarpMachine.SetAdvBase | carp_sysfs.c:115-119 | only advbase and the two timeouts change, and the master-down timeout is at least the advertisement timeout, which is positive |
| CarpMachine.SetAdvSkew | carp_sysfs.c:156-160 | only advskew and the two timeouts change, and the master-down timeout is at least the advertisement timeout, which is positive |
| CarpMachine.SetStateSameIsNoOp | carp.c:269-270 | setting the current state changes nothing |
| CarpMachine.SetStateTimers | carp.c:277-292 | a pending timer is never disturbed or cancelled; entering BACKUP (MASTER) arms md_timer (adv_timer) at now + timeout only if idle; INIT arms nothing |
| CarpMachine.SetRunUnbound | carp.c:235-239 | without a bound device: RUNNING cleared, state INIT, both timers untouched |
| CarpMachine.SetRunNotReady | carp.c:241-246 | with the virtual device down or vhid 0, only RUNNING is cleared |
| CarpMachine.SetRunToBackup | carp.c:248-257 | a runnable INIT or BACKUP ends in BACKUP, RUNNING set, adv_timer idle, md_timer pending at exactly now + md_timeout, with one BACKUP queue call only when it came from INIT |
| CarpMachine.BackupBranch | carp.c:253-257 | the BACKUP branch re-arms md_timer at now + md_timeout and cancels adv_timer, without any event |
| CarpMachine.SetRunInMaster | carp.c:258-261 | a runnable MASTER stays MASTER with adv_timer pending (armed only if idle) and md_timer untouched |
| CarpMachine.SetRunIdempotent | carp.c:233-263 | running carp_set_run twice at the same instant is the same as running it once |
| CarpMachine.SetRunEstablishesTimers | carp.c:233-263 | a runnable instance ends with exactly the timers its state calls for, unless it is a MASTER with md_timer pending |
| CarpMachine.MasterDown | carp.c:295-316 | only the state, adv_timer, the device flags, the event log and carp_delayed_arp may change; md_timer, the timeouts and the parameters never do |
| CarpMachine.MdTimerExpires | carp.c:538-540 | when md_timer fires and runs carp_master_down, md_timer ends idle with its expiry kept |
| CarpMachine.DevClose | carp.c:600-619 | the instance ends in INIT with neither timer pending and carp_bow_out 0 |
| CarpMachine.DevOpen | carp.c:579-594 | without a bound device or a route nothing changes; otherwise the virtual device is UP and RUNNING iff the vhid is non-zero |
| CarpMachine.SetRunFlags | carp.c:241-246 | on a bound instance carp_set_run keeps UP as it was and leaves RUNNING set iff the device is up and the vhid is non-zero |
| CarpMachine.MasterDownOnlyFromBackup | carp.c:300-305 | in INIT or MASTER carp_master_down changes nothing |
| CarpMachine.MasterDownKeepsMdTimer | carp.c:295-316 | carp_master_down never touches md_timer |
| CarpMachine.MasterDownTakeover | carp.c:306-314 | a runnable BACKUP becomes a running MASTER with adv_timer pending and carp_delayed_arp 2, logging the MASTER queue call, one advertisement and one ARP round |
| CarpMachine.MasterDownUnbound | carp.c:306-314 | without a bound device the takeover ends in INIT with adv_timer still pending and no ARP |
| CarpMachine.MdTimerExpiryTakesOver | carp.c:295-316 | when the md_timer of a runnable BACKUP fires, the instance becomes MASTER with exactly adv_timer pending |
| CarpMachine.DirectMasterDownLeavesMdPending | carp.c:295-316 | a direct takeover from BACKUP leaves md_timer pending in MASTER |
| CarpMachine.DevCloseEffects | carp.c:600-619 | both timers idle, state INIT, one advertisement with carp_bow_out 1, carp_bow_out back to 0, nothing else changed |
| CarpMachine.MasterDownAfterClose | carp.c:600-619 | after carp_dev_close a master-down event changes nothing |
| CarpMachine.IoctlArmsWithOldTimeouts | carp.c:400-419 | without a device switch, the state is set before the timeouts are recomputed, so a timer the request arms expires at now plus the old timeout |
| CarpMachine.IoctlSwitchRearms | carp.c:383-424 | with a device switch: a BACKUP or INIT request that opens with a non-zero vhid ends in BACKUP with md_timer at now plus the new timeout and adv_timer idle; a MASTER request keeps adv_timer at now plus the old timeout; without a route a BACKUP request keeps md_timer at now plus the old timeout |
| CarpMachine.IoctlSetsParameters | carp.c:400-419 | with or without a device switch, vhid, advbase, advskew and both recomputed timeouts are as requested |
| CarpMachine.StoresCommute | carp_sysfs.c:115-160 | the advbase and advskew stores give the same result in either order |
| CarpMachine.StoresMatchIoctl | carp_sysfs.c:115-160 | the two sysfs stores leave the same parameters and timeouts as the ioctl, with state and timers untouched |
| CarpDevice.Low16 | carp.h:177 | flags stored into the unsigned short oflags survive iff no bit above bit 15 is set |
| CarpDevice.Low16RoundTrip | carp.h:177 | oflags keeps exactly the low 16 bits of the flags stored into it |
| CarpDevice.Carp.constructor | carp.c:513-538 | a fresh instance is INIT, vhid 0, advskew 0, advbase 1, timeouts for (1, 0), timers idle, flags NOARP, mtu 1500, every key byte 1, source 10.0.0.3, group 224.0.0.18 |
| CarpDevice.Carp.SetState | carp.c:265-293 | the fields change exactly as CarpMachine.SetState says |
| CarpDevice.Carp.SetRun | carp.c:233-263 | the fields change exactly as CarpMachine.SetRun says |
| CarpDevice.Carp.MasterDown | carp.c:295-316 | the fields change exactly as CarpMachine.MasterDown says |
| CarpDevice.Carp.DelAllTimeouts | carp.c:165-171 | the timers change exactly as CarpMachine.DelAllTimeouts says |
| CarpDevice.Carp.DevClose | carp.c:600-619 | the fields change exactly as CarpMachine.DevClose says |
| CarpDevice.Carp.DevOpen | carp.c:566-597 | 0 without a bound device, -EADDRNOTAVAIL without a route, else UP is set and carp_set_run runs, as CarpMachine.DevOpen says |
| CarpDevice.Carp.SetInterface | carp.c:202-231 | 0 iff carp->dev is set and the name resolves; then odev and link follow the device, the instance copies its unchanged mtu and hard_header_len, the device gains BROADCAST and ALLMULTI and no other change, and oflags saves its new flags; on failure nothing changes |
| CarpDevice.Carp.SwitchDevice | carp.c:389-397 | the old device gets its saved flags back, the new one is bound, oflags saves its flags before BROADCAST and ALLMULTI are added; only the two devices' flags are written |
| CarpDevice.Carp.SetParams | carp.c:400-419 | state, key, pad, vhid, advbase, advskew and the inline-computed timeouts end as CarpMachine.ApplyParams and the request say |
| CarpDevice.Carp.Ioctl | carp.c:370-455 | an unknown command returns 0 and changes nothing; SIOC_GETCARPPARAMS returns 0, changes nothing and reads back the state, the bound device's name, vhid, advbase, advskew, key, pad and both timeouts truncated to 32 bits; SIOC_SETCARPPARAMS refused by carp_check_params returns -EINVAL and changes nothing; an accepted one returns 0 with the fields as CarpMachine.IoctlSet says, key and pad copied, and the device switch done only for another device name, touching no other device, and without a switch leaving the bound device's flags as they were |
| CarpDevice.Carp.SetCarpParams | carp.c:372-425 | a refused request returns -EINVAL and changes nothing; an accepted one returns 0 with the fields as CarpMachine.IoctlSet says, key and pad copied, and the device switch done only for another device name, touching no other device and only the flags of the two it switches between; without a switch the bound device's flags stay as they were |
| CarpDevice.Carp.ReplaceDevice | carp.c:383-424 | close, switch, set the parameters and open again: the fields end as DevOpen(ApplyParams(DevClose(...))) says, and only the flags of the two devices are written |
| CarpRegistry.FirstMatch | carp.c:115-126 | the index found holds the vhid and no earlier entry does; there is none iff no entry holds it |
| CarpRegistry.FirstMatchAppend | carp.c:648 | appending an instance never changes an earlier match, and a failed lookup then finds the new instance iff its vhid matches |
| CarpRegistry.Registry.Register | carp.c:633-648 | -EINVAL iff the group is zero or not multicast or the source is zero, and nothing changes; otherwise the instance takes its device and is appended at the tail |
| CarpRegistry.Registry.GetByVhid | carp.c:115-126 | the first registered instance with that vhid, or null iff there is none; an instance found is registered and owns its virtual device |
| CarpSysfs.Lower | carp_sysfs.c:233-238 | lower-casing never creates or removes a NUL |
| CarpSysfs.StrnicmpEq | carp_sysfs.c:233-237 | for strings without an embedded NUL, strnicmp returns 0 iff the NUL-padded strings agree up to case over the compared length |
| CarpSysfs.MatchFromIff | carp_sysfs.c:233-238 | the strnicmp loop returns 0 iff the NUL-padded strings agree up to case at every compared position |
| CarpSysfs.WholeWordMatch | carp_sysfs.c:233-236 | comparing one byte more than the literal's length is whole-word equality up to case |
| CarpSysfs.PrefixMatch | carp_sysfs.c:237 | comparing exactly the literal's length is a prefix test up to case |
| CarpSysfs.MatchFromReaches | carp_sysfs.c:233-237 | where the literal still has characters, a successful comparison finds characters in the token too |
| CarpSysfs.ParseStateName | carp_sysfs.c:233-243 | a token is accepted only if it is at least as long as the name of the state it selects |
| CarpSysfs.ParseStateNameSpec | carp_sysfs.c:233-243 | MASTER and BACKUP are accepted exactly, in any case; INIT is any token starting with init in any case; anything else is refused |
| CarpSysfs.ParseStateNameRoundTrip | carp_sysfs.c:233-243 | every printed state name is parsed back to its state |
| CarpSysfs.DecimalString | carp_sysfs.c:92 | the printed number is a non-empty digit string without leading zero |
| CarpSysfs.DecimalRoundTrip | carp_sysfs.c:92 | reading the printed digits gives the number back |
| CarpSysfs.ShowDecimal | carp_sysfs.c:92 | a printed numeric line is digits, whose value is the number, and a newline |
| CarpSysfs.ShowAdvBase | carp_sysfs.c:87-93 | the line read back gives advbase |
| CarpSysfs.ShowAdvSkew | carp_sysfs.c:128-134 | the line read back gives advskew |
| CarpSysfs.ShowVhid | carp_sysfs.c:266-272 | the line read back gives vhid |
| CarpSysfs.ShowState | carp_sysfs.c:208-216 | the line, less its newline, is parsed by the state store as the current state |
| CarpSysfs.ShowCarpdev | carp_sysfs.c:170-179 | the bound device's name or "(none)", then a newline |
| CarpSysfs.StoreAdvBase | carp_sysfs.c:95-123 | -EINVAL and nothing changed for a missing value or one outside 0..255; else the count, with advbase and both timeouts as CarpMachine.SetAdvBase says |
| CarpSysfs.StoreAdvSkew | carp_sysfs.c:136-164 | -EINVAL and nothing changed for a missing value or one outside 0..255; else the count, with advskew and both timeouts as CarpMachine.SetAdvSkew says |
| CarpSysfs.StoreVhid | carp_sysfs.c:274-299 | -EINVAL and nothing changed for a missing value or one outside 0..255; else the count and only vhid set |
| CarpSysfs.StoreCarpdev | carp_sysfs.c:181-203 | the count iff a token was given and carp_set_interface succeeds, with its effects (the device's mtu and hard_header_len copied and left as they were), and the attribute then shows the new name; else -EINVAL and nothing changed |
| CarpSysfs.StateRequest | carp_sysfs.c:245-257 | a state request ends in the requested state, the current one or INIT, and changes only the state, the timers, the device flags, the event log and carp_delayed_arp |
| CarpSysfs.StateRequestIgnored | carp_sysfs.c:245 | a request for INIT or for the current state changes nothing |
| CarpSysfs.StateRequestMaster | carp_sysfs.c:251-253 | a MASTER request does nothing unless the instance is in BACKUP, and a runnable BACKUP takes over |
| CarpSysfs.StateRequestBackup | carp_sysfs.c:247-250 | a BACKUP request on a runnable INIT or MASTER ends in BACKUP with md_timer at now + md_timeout and adv_timer idle, one BACKUP queue call logged |
| CarpSysfs.StateRequestBackupUnbound | carp_sysfs.c:247-250 | a BACKUP request without a bound device ends in INIT with md_timer left pending |
| CarpSysfs.StoreState | carp_sysfs.c:218-261 | -EINVAL and nothing changed without a token or for an unknown name; else the count, with the fields as the state request says |

## Left out

- The Linux kernel around the logic is not modelled:
  - module and namespace setup;
  - `carp_create`;
  - netdev registration;
  - `carp_dev_uninit`, whose `list_del` removes the list head rather than the
    instance, so the registry never removes an instance;
  - `carp_validate`, `carp_get_tx_queues`, `carp_dev_change_mtu`,
    `carp_set_mac_address`, `carp_dev_get_stats`.
- The send and receive paths are left out: `carp_dev_xmit`, `carp_proto_adv`,
  `carp_advertise` and `carp_send_arp`. Advertisements, ARP rounds and queue
  calls appear only as ghost events.
- HMAC-SHA1 digests, checksums and counter checks are left out. The header
  layout is modelled, its contents are not computed.
- Concurrency and memory are left out: spin locks, RCU, `dev_hold`/`dev_put`,
  and the synchronous-cancel guarantee of `del_timer_sync`. The capability
  check and the user copies of the ioctl are also left out.
- HZ and `timeval_to_jiffies`: durations are kept in microseconds.
- `htonl`: addresses are in host byte order.
- Parameters stand in for values from headers that are not part of this model:
  - `MAX_MD_TIMEOUT` and `MAX_ADV_TIMEOUT` are the parameters `maxMd` and `maxAdv`;
  - `LL_MAX_HEADER` is `llMaxHeader`;
  - `CARP_KEY_LEN` and `CARP_HMAC_PAD_LEN` are `keyLen` and `padLen`.
- carp_ioctl.h is not part of this model. An out-of-range `p.state` is `None`.
- `sscanf` is left out. Store handlers receive the token or the number it would
  have read, or `None`. The 7-byte state buffer can overflow on long tokens;
  this is not modelled.
- Names are compared as whole strings. The `memcmp` of the ioctl over
  IFNAMSIZ bytes could differ after a NUL.
- `carp_dev_open` is reduced to its last step. The route lookup is the flag
  `routeOk`, and `mlink` and the multicast group join are left out.
- `carp_dev_close`: the multicast group leave is left out.
- `carp_set_interface`: the source address taken from the device's first
  IPv4 address is left out.
- `dev_change_flags` in `carp_set_run` is modelled as a plain flag update.
  The kernel's masking and notifications are left out.
- The virtual device (`carp->dev`) is folded into `Carp` as `hasDev`,
  `devFlags`, `devMtu` and `devHardHeaderLen`. Binding an instance to its own
  virtual device (an alias between `dev` and `odev`) is therefore not
  representable.
- `carp_show_state` indexes `CARP_STATES` by the enum value. That depends on an
  enum order that is not part of this model, so `ShowState` uses the mapping of
  `carp_state_fmt`.
- SIOC_GETCARPPARAMS: the copy of the parameters back to user space is left
  out. `Ioctl` returns them as `got`.
- `carp_show_carps` and `carp_store_carps` are empty stubs.
- `carp_procfs.c` holds only logging stubs.
- CarpDevice.Carp.Ioctl: requires `odev != null` when the parameters pass the
  check, because the C code dereferences `carp->odev` there without a test.
- CarpDevice.Carp.Ioctl: requires `odev != null` for SIOC_GETCARPPARAMS,
  because the C code copies `carp->odev->name` there without a test. On an
  instance without a bound device that is a null dereference.
- CarpDevice.Carp.Ioctl: requires `hasDev`, because the C code dereferences
  `carp->dev` to look up the device name.
- CarpDevice.Carp.SetRun: requires `hasDev`, because `carp_set_run` writes the
  flags of `carp->dev` without a test.
- CarpDevice.Carp.MasterDown: requires `hasDev` in BACKUP, for the same reason.
- CarpSysfs.StoreState: requires `hasDev`, for the same reason.
