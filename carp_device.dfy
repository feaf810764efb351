/*
 * struct carp and the network devices it is bound to, as objects updated in
 * place. The state-machine methods of Carp are proved to move the abstract
 * value Abs() exactly as a function of CarpMachine does (SetState, SetRun,
 * MasterDown, DelAllTimeouts, DevClose and DevOpen the function of the same
 * name, SetParams ApplyParams, SetCarpParams and Ioctl IoctlSet), so the
 * lemmas proved there hold of the objects as well. The device frames name
 * the `flags` field alone: no device's mtu or hard_header_len is written.
 */
module CarpDevice {
  import opened CarpHeader
  import opened CarpMachine

  const EINVAL: int := 22
  const EADDRNOTAVAIL: int := 99

  /** ll_max_header's value and the key and pad lengths come from kernel and
      ioctl headers that are not part of this model. */
  const DEFAULT_MTU: int := 1500

  /** The unsigned int flags of a device stored into the unsigned short
      carp->oflags: they survive exactly when no bit above bit 15 is set. */
  function Low16(f: bv32): (r: bv16)
    ensures r as bv32 == f <==> f >> 16 == 0
  {
    (f & 0xFFFF) as bv16
  }

  /** Storing flags into oflags and back keeps exactly the 16 low bits, so a
      flag above bit 15 is lost on the way. */
  lemma Low16RoundTrip(f: bv32)
    ensures Low16(f) as bv32 == f & 0xFFFF
    ensures f & 0xFFFF == f ==> Low16(f) as bv32 == f
  {
  }

  /** A network device as far as the driver sees one. */
  class NetDevice {
    const name: string
    const ifindex: int
    var flags: bv32
    var mtu: int
    var hardHeaderLen: int

    constructor (name: string, ifindex: int, flags: bv32, mtu: int, hardHeaderLen: int)
      ensures this.name == name && this.ifindex == ifindex
      ensures this.flags == flags && this.mtu == mtu && this.hardHeaderLen == hardHeaderLen
    {
      this.name := name;
      this.ifindex := ifindex;
      this.flags := flags;
      this.mtu := mtu;
      this.hardHeaderLen := hardHeaderLen;
    }
  }

  /** The commands of carp_dev_ioctl: SIOC_SETCARPPARAMS with its parameters,
      SIOC_GETCARPPARAMS, or any other (unknown) command. */
  datatype Command = SetParams(p: IoctlParams) | GetParams | OtherCommand

  /** Device names resolve to devices of that name (dev_get_by_name). */
  predicate Resolves(devices: map<string, NetDevice>)
    reads devices.Values
  {
    forall n :: n in devices ==> devices[n].name == n
  }

  /** One CARP instance. The fields of its own virtual device (carp->dev) are
      kept here: `hasDev` says whether carp->dev is set, `devFlags`, `devMtu`
      and `devHardHeaderLen` are that device's flags, mtu and hard_header_len.
      `odev` is the device the instance runs on. */
  class Carp {
    var state: State
    var mdTimer: Timer
    var advTimer: Timer
    var mdTimeout: nat
    var advTimeout: nat
    var vhid: u8
    var advbase: u8
    var advskew: u8
    var hasDev: bool
    var devFlags: bv32
    var devMtu: int
    var devHardHeaderLen: int
    var odev: NetDevice?
    var link: int
    var oflags: bv16
    var delayedArp: int
    var bowOut: int
    var key: seq<u8>
    var pad: seq<u8>
    var saddr: bv32
    var daddr: bv32
    ghost var events: seq<Event>

    /** The instance as a value of the state-machine model. */
    ghost function Abs(): Instance
      reads this
    {
      Instance(state, mdTimer, advTimer, mdTimeout, advTimeout, vhid, advbase, advskew,
               hasDev, devFlags, odev != null, delayedArp, bowOut, events)
    }

    /** carp_dev_setup: the initial values of a freshly allocated instance. The
        private area starts zeroed, the key is filled with ones. */
    constructor (keyLen: nat, padLen: nat, llMaxHeader: int)
      ensures Abs() == Instance(Init, Timer(false, 0), Timer(false, 0),
                                TimeoutMicros(3, CARP_DFLTINTV, 0), TimeoutMicros(1, CARP_DFLTINTV, 0),
                                0, CARP_DFLTINTV, 0, false, IFF_NOARP, false, 0, 0, [])
      ensures odev == null && link == 0 && oflags == 0
      ensures devMtu == DEFAULT_MTU && devHardHeaderLen == llMaxHeader
      ensures key == seq(keyLen, _ => 1) && pad == seq(padLen, _ => 0)
      ensures saddr == Addr2Val(10, 0, 0, 3) && daddr == MULTICAST_ADDR
    {
      state := Init;
      mdTimer := Timer(false, 0);
      advTimer := Timer(false, 0);
      vhid := 0;
      advskew := 0;
      advbase := CARP_DFLTINTV;
      mdTimeout := TimeoutMicros(3, CARP_DFLTINTV, 0);
      advTimeout := TimeoutMicros(1, CARP_DFLTINTV, 0);
      hasDev := false;
      devFlags := IFF_NOARP;
      devMtu := DEFAULT_MTU;
      devHardHeaderLen := llMaxHeader;
      odev := null;
      link := 0;
      oflags := 0;
      delayedArp := 0;
      bowOut := 0;
      key := seq(keyLen, _ => 1);
      pad := seq(padLen, _ => 0);
      saddr := Addr2Val(10, 0, 0, 3);
      daddr := MULTICAST_ADDR;
      events := [];
    }

    /** carp_set_state. */
    method SetState(s: State, now: int)
      modifies this`state, this`mdTimer, this`advTimer, this`events
      ensures var r := CarpMachine.SetState(old(Abs()), s, now);
        state == r.state && mdTimer == r.mdTimer && advTimer == r.advTimer && events == r.events
    {
      if state == s {
        return;
      }
      state := s;
      match s
      case Master =>
        events := events + [CallQueue(MasterQueue)];
        if !advTimer.pending {
          advTimer := ModTimer(advTimer, now + advTimeout);
        }
      case Backup =>
        events := events + [CallQueue(BackupQueue)];
        if !mdTimer.pending {
          mdTimer := ModTimer(mdTimer, now + mdTimeout);
        }
      case Init =>
    }

    /** carp_set_run. */
    method SetRun(now: int)
      requires hasDev
      modifies this`state, this`mdTimer, this`advTimer, this`events, this`devFlags
      ensures var r := CarpMachine.SetRun(old(Abs()), now);
        && state == r.state && mdTimer == r.mdTimer && advTimer == r.advTimer && events == r.events
        && devFlags == r.devFlags
      decreases if state == Init then 1 else 0
    {
      ghost var c := Abs();
      if odev == null {
        SetRunUnboundStep(c, now);
        devFlags := ClearFlags(devFlags, IFF_RUNNING);
        SetState(Init, now);
        return;
      }
      if devFlags & IFF_UP != 0 && vhid > 0 {
        devFlags := SetFlags(devFlags, IFF_RUNNING);
      } else {
        SetRunNotReady(c, now);
        devFlags := ClearFlags(devFlags, IFF_RUNNING);
        return;
      }
      match state
      case Init =>
        SetRunFromInit(c, now);
        ghost var c1 := Abs();
        SetState(Backup, now);
        assert Abs() == CarpMachine.SetState(c1, Backup, now);
        SetRun(now);
      case Backup =>
        SetRunBackupStep(c, now);
        if advTimer.pending {
          advTimer := DelTimerSync(advTimer);
        }
        mdTimer := ModTimer(mdTimer, now + mdTimeout);
      case Master =>
        SetRunMasterStep(c, now);
        if !advTimer.pending {
          advTimer := ModTimer(advTimer, now + advTimeout);
        }
    }

    /** carp_master_down. */
    method MasterDown(now: int)
      requires state == Backup ==> hasDev
      modifies this`state, this`mdTimer, this`advTimer, this`events, this`devFlags, this`delayedArp
      ensures var r := CarpMachine.MasterDown(old(Abs()), now);
        && state == r.state && mdTimer == r.mdTimer && advTimer == r.advTimer && events == r.events
        && devFlags == r.devFlags && delayedArp == r.delayedArp
    {
      match state
      case Init =>
      case Master =>
      case Backup =>
        ghost var c := Abs();
        SetState(Master, now);
        assert Abs() == CarpMachine.SetState(c, Master, now);
        events := events + [ProtoAdv(bowOut)];
        if hasDev && odev != null {
          events := events + [SendArp];
        }
        delayedArp := 2;
        SetRun(now);
    }

    /** carp_del_all_timeouts. */
    method DelAllTimeouts()
      modifies this`mdTimer, this`advTimer
      ensures var r := CarpMachine.DelAllTimeouts(old(Abs()));
        mdTimer == r.mdTimer && advTimer == r.advTimer
    {
      if mdTimer.pending {
        mdTimer := DelTimerSync(mdTimer);
      }
      if advTimer.pending {
        advTimer := DelTimerSync(advTimer);
      }
    }

    /** carp_dev_close, without the multicast group leave; it returns 0. */
    method DevClose(now: int)
      modifies this`state, this`mdTimer, this`advTimer, this`events, this`bowOut
      ensures var r := CarpMachine.DevClose(old(Abs()), now);
        && state == r.state && mdTimer == r.mdTimer && advTimer == r.advTimer && events == r.events
        && bowOut == r.bowOut
    {
      DelAllTimeouts();
      bowOut := 1;
      events := events + [ProtoAdv(bowOut)];
      bowOut := 0;
      SetState(Init, now);
    }

    /** carp_dev_open. Without a bound device it returns 0 at once; `routeOk`
        says whether the route to the group and its in_device are found,
        otherwise it fails with -EADDRNOTAVAIL. */
    method DevOpen(routeOk: bool, now: int) returns (err: int)
      requires hasDev
      modifies this`state, this`mdTimer, this`advTimer, this`events, this`devFlags
      ensures var r := CarpMachine.DevOpen(old(Abs()), routeOk, now);
        && state == r.state && mdTimer == r.mdTimer && advTimer == r.advTimer && events == r.events
        && devFlags == r.devFlags
      ensures err == (if odev != null && !routeOk then -EADDRNOTAVAIL else 0)
    {
      if odev == null {
        return 0;
      }
      if !routeOk {
        return -EADDRNOTAVAIL;
      }
      devFlags := SetFlags(devFlags, IFF_UP);
      SetRun(now);
      return 0;
    }

    /** carp_set_interface: binds the instance to the device named `name`,
        copies its mtu and hard_header_len, and marks it BROADCAST and
        ALLMULTI; oflags saves the flags after that change. Returns 1 when
        carp->dev is unset or no device has that name. */
    method SetInterface(name: string, devices: map<string, NetDevice>) returns (r: int)
      requires Resolves(devices)
      modifies this`odev, this`link, this`devMtu, this`devHardHeaderLen, this`oflags
      modifies (if name in devices then {devices[name]} else {})`flags
      ensures r == 0 <==> old(hasDev) && name in devices
      ensures r != 0 ==> unchanged(this) && (name in devices ==> unchanged(devices[name]))
      ensures r == 0 ==>
        var d := devices[name];
        && odev == d && d.name == name && link == d.ifindex
        && d.flags == SetFlags(old(d.flags), IFF_BROADCAST | IFF_ALLMULTI)
        && oflags == Low16(d.flags)
        && devMtu == old(d.mtu) && devHardHeaderLen == old(d.hardHeaderLen)
        && d.mtu == old(d.mtu) && d.hardHeaderLen == old(d.hardHeaderLen)
    {
      if !hasDev {
        return 1;
      }
      if name !in devices {
        return 1;
      }
      var realDev := devices[name];
      odev := realDev;
      link := realDev.ifindex;
      devHardHeaderLen := realDev.hardHeaderLen;
      devMtu := realDev.mtu;
      var flags := SetFlags(realDev.flags, IFF_BROADCAST | IFF_ALLMULTI);
      realDev.flags := flags;
      oflags := Low16(flags);
      return 0;
    }

    /** The device switch inside SIOC_SETCARPPARAMS: the old device gets the
        flags saved in oflags back, the new one is bound, oflags saves its
        flags, and only then is it marked BROADCAST and ALLMULTI. */
    method SwitchDevice(tdev: NetDevice)
      requires odev != null && odev != tdev
      modifies this`odev, this`link, this`oflags, odev`flags, tdev`flags
      ensures odev == tdev && link == tdev.ifindex && oflags == Low16(old(tdev.flags))
      ensures tdev.flags == SetFlags(old(tdev.flags), IFF_BROADCAST | IFF_ALLMULTI)
      ensures old(odev).flags == old(oflags) as bv32
    {
      odev.flags := oflags as bv32;
      odev := tdev;
      link := tdev.ifindex;
      oflags := Low16(tdev.flags);
      tdev.flags := SetFlags(tdev.flags, IFF_BROADCAST | IFF_ALLMULTI);
    }

    /** The parameter copy inside SIOC_SETCARPPARAMS: carp_set_state first,
        then the key, pad, vhid, advbase and advskew, then both timeouts from
        the same formula as carp_calculate_timeout, written out inline. */
    method SetParams(p: IoctlParams, now: int)
      requires p.state.Some?
      modifies this`state, this`mdTimer, this`advTimer, this`events, this`key, this`pad
      modifies this`vhid, this`advbase, this`advskew, this`mdTimeout, this`advTimeout
      ensures var r := ApplyParams(old(Abs()), p, now);
        && state == r.state && mdTimer == r.mdTimer && advTimer == r.advTimer && events == r.events
        && vhid == r.vhid && advbase == r.advbase && advskew == r.advskew
        && mdTimeout == r.mdTimeout && advTimeout == r.advTimeout
      ensures key == p.key && pad == p.pad
    {
      SetState(p.state.value, now);
      pad := p.pad;
      key := p.key;
      vhid := p.vhid;
      advbase := p.advbase;
      advskew := p.advskew;
      var sec := 3 * advbase;
      var usec := if advbase == 0 && advskew == 0 then 3 * 1000000 / 256 else advskew * 1000000 / 256;
      mdTimeout := sec * USEC_PER_SEC + usec;
      sec := advbase;
      usec := if advbase == 0 && advskew == 0 then 1 * 1000000 / 256 else advskew * 1000000 / 256;
      advTimeout := sec * USEC_PER_SEC + usec;
    }

    /** carp_dev_ioctl past the capability check and the copy from user
        space. Every command that gets this far returns 0, an unknown one
        included, unless SIOC_SETCARPPARAMS refuses its parameters.
        SIOC_GETCARPPARAMS reads the parameters back into `got`, the timeouts
        truncated to the 32 bits of the ioctl structure; the copy to user
        space is not modelled. `devices` are the devices of the instance's
        namespace. */
    method Ioctl(cmd: Command, devices: map<string, NetDevice>, maxMd: int, maxAdv: int,
                 routeOk: bool, now: int) returns (err: int, got: Option<IoctlParams>)
      requires hasDev && Resolves(devices)
      requires cmd.SetParams? && CheckParams(cmd.p, devices.Keys, maxMd, maxAdv) == 0 ==> odev != null
      requires cmd.GetParams? ==> odev != null
      modifies this`state, this`mdTimer, this`advTimer, this`events, this`bowOut, this`devFlags
      modifies this`odev, this`link, this`oflags, this`key, this`pad
      modifies this`vhid, this`advbase, this`advskew, this`mdTimeout, this`advTimeout
      modifies (if odev != null then {odev} else {})`flags, devices.Values`flags
      ensures cmd.OtherCommand? ==>
        err == 0 && unchanged(this) && (odev != null ==> unchanged(odev)) && unchanged(devices.Values)
      ensures cmd.GetParams? ==>
        && err == 0 && unchanged(this) && unchanged(odev) && unchanged(devices.Values)
        && got == Some(IoctlParams(Some(state), odev.name, vhid, advbase, advskew,
                                   mdTimeout % 0x1_0000_0000, advTimeout % 0x1_0000_0000, key, pad))
      ensures !cmd.GetParams? ==> got == None
      ensures cmd.SetParams? && CheckParams(cmd.p, devices.Keys, maxMd, maxAdv) != 0 ==>
        err == -EINVAL && unchanged(this) && (odev != null ==> unchanged(odev)) && unchanged(devices.Values)
      ensures cmd.SetParams? && CheckParams(cmd.p, devices.Keys, maxMd, maxAdv) == 0 ==>
        var p := cmd.p;
        var switched := p.devname != old(odev).name;
        && err == 0
        && var r := IoctlSet(old(Abs()), p, switched, routeOk, now);
        && state == r.state && mdTimer == r.mdTimer && advTimer == r.advTimer && events == r.events
        && bowOut == r.bowOut && devFlags == r.devFlags
        && vhid == r.vhid && advbase == r.advbase && advskew == r.advskew
        && mdTimeout == r.mdTimeout && advTimeout == r.advTimeout
        && key == p.key && pad == p.pad
        && (switched ==>
              var tdev := devices[p.devname];
              && odev == tdev && link == tdev.ifindex && oflags == Low16(old(tdev.flags))
              && tdev.flags == SetFlags(old(tdev.flags), IFF_BROADCAST | IFF_ALLMULTI)
              && old(odev).flags == old(oflags) as bv32
              && unchanged(devices.Values - {tdev, old(odev)}))
        && (!switched ==>
              && odev == old(odev) && odev.flags == old(odev.flags)
              && link == old(link) && oflags == old(oflags) && unchanged(devices.Values))
    {
      got := None;
      match cmd
      case OtherCommand =>
        return 0, None;
      case GetParams =>
        got := Some(IoctlParams(Some(state), odev.name, vhid, advbase, advskew,
                                mdTimeout % 0x1_0000_0000, advTimeout % 0x1_0000_0000, key, pad));
        return 0, got;
      case SetParams(p) =>
        err := SetCarpParams(p, devices, maxMd, maxAdv, routeOk, now);
    }

    /** The SIOC_SETCARPPARAMS branch. A request that fails carp_check_params
        is refused with -EINVAL before anything changes. Otherwise, when it
        names another device, the instance is closed and switched to it; then
        the parameters are set, and a switched instance is opened again. */
    method SetCarpParams(p: IoctlParams, devices: map<string, NetDevice>, maxMd: int, maxAdv: int,
                         routeOk: bool, now: int) returns (err: int)
      requires hasDev && Resolves(devices)
      requires CheckParams(p, devices.Keys, maxMd, maxAdv) == 0 ==> odev != null
      modifies this`state, this`mdTimer, this`advTimer, this`events, this`bowOut, this`devFlags
      modifies this`odev, this`link, this`oflags, this`key, this`pad
      modifies this`vhid, this`advbase, this`advskew, this`mdTimeout, this`advTimeout
      modifies (if odev != null then {odev} else {})`flags, devices.Values`flags
      ensures CheckParams(p, devices.Keys, maxMd, maxAdv) != 0 ==>
        err == -EINVAL && unchanged(this) && (odev != null ==> unchanged(odev)) && unchanged(devices.Values)
      ensures CheckParams(p, devices.Keys, maxMd, maxAdv) == 0 ==>
        var switched := p.devname != old(odev).name;
        && err == 0
        && var r := IoctlSet(old(Abs()), p, switched, routeOk, now);
        && state == r.state && mdTimer == r.mdTimer && advTimer == r.advTimer && events == r.events
        && bowOut == r.bowOut && devFlags == r.devFlags
        && vhid == r.vhid && advbase == r.advbase && advskew == r.advskew
        && mdTimeout == r.mdTimeout && advTimeout == r.advTimeout
        && key == p.key && pad == p.pad
        && (switched ==>
              var tdev := devices[p.devname];
              && odev == tdev && link == tdev.ifindex && oflags == Low16(old(tdev.flags))
              && tdev.flags == SetFlags(old(tdev.flags), IFF_BROADCAST | IFF_ALLMULTI)
              && old(odev).flags == old(oflags) as bv32
              && unchanged(devices.Values - {tdev, old(odev)}))
        && (!switched ==>
              && odev == old(odev) && odev.flags == old(odev.flags)
              && link == old(link) && oflags == old(oflags) && unchanged(devices.Values))
    {
      if CheckParams(p, devices.Keys, maxMd, maxAdv) != 0 {
        return -EINVAL;
      }
      if p.devname != odev.name {
        var tdev := devices[p.devname];
        ReplaceDevice(tdev, p, routeOk, now);
      } else {
        SetParams(p, now);
      }
      return 0;
    }

    /** The switching path of SIOC_SETCARPPARAMS: close the instance, move it
        to `tdev`, set the parameters and open it again. */
    method ReplaceDevice(tdev: NetDevice, p: IoctlParams, routeOk: bool, now: int)
      requires hasDev && odev != null && odev != tdev && p.state.Some?
      modifies this`state, this`mdTimer, this`advTimer, this`events, this`bowOut, this`devFlags
      modifies this`odev, this`link, this`oflags, this`key, this`pad
      modifies this`vhid, this`advbase, this`advskew, this`mdTimeout, this`advTimeout
      modifies odev`flags, tdev`flags
      ensures var r := CarpMachine.DevOpen(ApplyParams(CarpMachine.DevClose(old(Abs()), now), p, now), routeOk, now);
        && state == r.state && mdTimer == r.mdTimer && advTimer == r.advTimer && events == r.events
        && bowOut == r.bowOut && devFlags == r.devFlags
        && vhid == r.vhid && advbase == r.advbase && advskew == r.advskew
        && mdTimeout == r.mdTimeout && advTimeout == r.advTimeout
      ensures key == p.key && pad == p.pad
      ensures odev == tdev && link == tdev.ifindex && oflags == Low16(old(tdev.flags))
      ensures tdev.flags == SetFlags(old(tdev.flags), IFF_BROADCAST | IFF_ALLMULTI)
      ensures old(odev).flags == old(oflags) as bv32
    {
      ghost var c0 := Abs();
      DevClose(now);
      ghost var c1 := Abs();
      assert c1 == CarpMachine.DevClose(c0, now);
      SwitchDevice(tdev);
      assert Abs() == c1;
      SetParams(p, now);
      ghost var c2 := Abs();
      assert c2 == ApplyParams(c1, p, now);
      var _ := DevOpen(routeOk, now);
    }
  }
}
