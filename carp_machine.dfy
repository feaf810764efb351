/*
 * The per-instance state machine of carp.c as pure functions over an
 * instance value. The class CarpDevice.Carp updates its fields in place and
 * its state-machine methods are proved to move its abstract value exactly as
 * the functions here do; the properties of the state machine are lemmas
 * about these functions.
 *
 * Time is a number of microseconds ("now" stands for jiffies) and durations
 * are kept in microseconds as well.
 */
module CarpMachine {
  import opened CarpHeader

  /*------------------------------ device flags -----------------------------*/

  const IFF_UP: bv32 := 0x1
  const IFF_BROADCAST: bv32 := 0x2
  const IFF_RUNNING: bv32 := 0x40
  const IFF_NOARP: bv32 := 0x80
  const IFF_ALLMULTI: bv32 := 0x200

  /** `flags |= mask`. */
  function SetFlags(flags: bv32, mask: bv32): bv32 {
    flags | mask
  }

  /** `flags &= ~mask`. */
  function ClearFlags(flags: bv32, mask: bv32): bv32 {
    flags & !mask
  }

  /*--------------------------------- timers --------------------------------*/

  /** A kernel timer as far as the driver sees it: whether it is pending and
      when it expires. */
  datatype Timer = Timer(pending: bool, expires: int)

  /** mod_timer: (re)arms the timer, whether or not it was pending. */
  function ModTimer(t: Timer, expires: int): (r: Timer)
    ensures r.pending && r.expires == expires
  {
    Timer(true, expires)
  }

  /** del_timer_sync: the timer is no longer pending. */
  function DelTimerSync(t: Timer): (r: Timer)
    ensures !r.pending && r.expires == t.expires
  {
    t.(pending := false)
  }

  /*--------------------------- external effects ----------------------------*/

  datatype Queue = MasterQueue | BackupQueue

  /** Calls into code outside the driver, recorded in order. */
  datatype Event =
    | ProtoAdv(bowOut: int)     // carp_proto_adv, with the carp_bow_out value it sees
    | SendArp                   // carp_send_arp once both devices are known
    | CallQueue(queue: Queue)   // carp_call_queue

  /*------------------------------- instance --------------------------------*/

  /** The fields of struct carp that the state machine reads or writes;
      `hasDev` and `bound` say whether carp->dev and carp->odev are set and
      `devFlags` are the flags of the instance's own virtual device. The
      fields only the configuration paths touch (key, pad, link, oflags, the
      copied mtu) are kept by CarpDevice.Carp alone. */
  datatype Instance = Instance(
    state: State,
    mdTimer: Timer,
    advTimer: Timer,
    mdTimeout: nat,
    advTimeout: nat,
    vhid: u8,
    advbase: u8,
    advskew: u8,
    hasDev: bool,
    devFlags: bv32,
    bound: bool,
    delayedArp: int,
    bowOut: int,
    events: seq<Event>)

  /** The virtual device is administratively up. */
  predicate IsUp(c: Instance) {
    c.devFlags & IFF_UP != 0
  }

  predicate IsRunning(c: Instance) {
    c.devFlags & IFF_RUNNING != 0
  }

  /** The three conditions under which carp_set_run goes on to the state switch. */
  predicate CanRun(c: Instance) {
    c.bound && IsUp(c) && c.vhid > 0
  }

  /** The arrangement of timers the protocol intends: a backup waits on the
      master-down timer only, a master on the advertisement timer only, and an
      instance in INIT on neither. */
  predicate TimersMatchState(c: Instance) {
    match c.state
    case Init => !c.mdTimer.pending && !c.advTimer.pending
    case Backup => c.mdTimer.pending && !c.advTimer.pending
    case Master => !c.mdTimer.pending && c.advTimer.pending
  }

  /*---------------------------- state machine ------------------------------*/

  /** carp_set_state. */
  function SetState(c: Instance, s: State, now: int): (r: Instance)
    ensures r.state == s
    ensures r == c.(state := s, mdTimer := r.mdTimer, advTimer := r.advTimer, events := r.events)
  {
    if c.state == s then c
    else
      match s
      case Master =>
        var c1 := c.(state := Master, events := c.events + [CallQueue(MasterQueue)]);
        if c1.advTimer.pending then c1
        else c1.(advTimer := ModTimer(c1.advTimer, now + c1.advTimeout))
      case Backup =>
        var c1 := c.(state := Backup, events := c.events + [CallQueue(BackupQueue)]);
        if c1.mdTimer.pending then c1
        else c1.(mdTimer := ModTimer(c1.mdTimer, now + c1.mdTimeout))
      case Init =>
        c.(state := Init)
  }

  /** carp_set_run. The measure is 1 in INIT and 0 elsewhere, and the one
      recursive call is made after entering BACKUP, so the recursion is at most
      one level deep. */
  function SetRun(c: Instance, now: int): (r: Instance)
    requires c.hasDev
    ensures r == c.(state := r.state, mdTimer := r.mdTimer, advTimer := r.advTimer,
                    devFlags := r.devFlags, events := r.events)
    decreases if c.state == Init then 1 else 0
  {
    if !c.bound then
      SetState(c.(devFlags := ClearFlags(c.devFlags, IFF_RUNNING)), Init, now)
    else if IsUp(c) && c.vhid > 0 then
      var c1 := c.(devFlags := SetFlags(c.devFlags, IFF_RUNNING));
      match c1.state
      case Init =>
        SetRun(SetState(c1, Backup, now), now)
      case Backup =>
        var adv := if c1.advTimer.pending then DelTimerSync(c1.advTimer) else c1.advTimer;
        c1.(advTimer := adv, mdTimer := ModTimer(c1.mdTimer, now + c1.mdTimeout))
      case Master =>
        if c1.advTimer.pending then c1
        else c1.(advTimer := ModTimer(c1.advTimer, now + c1.advTimeout))
    else
      c.(devFlags := ClearFlags(c.devFlags, IFF_RUNNING))
  }

  /** carp_master_down: the expiry handler of the master-down timer, also
      called directly when MASTER is requested through sysfs. */
  function MasterDown(c: Instance, now: int): (r: Instance)
    requires c.state == Backup ==> c.hasDev
    ensures r == c.(state := r.state, advTimer := r.advTimer, devFlags := r.devFlags,
                    events := r.events, delayedArp := r.delayedArp)
  {
    match c.state
    case Init => c
    case Master => c
    case Backup =>
      var c1 := SetState(c, Master, now);
      var c2 := c1.(events := c1.events + [ProtoAdv(c1.bowOut)]);
      var c3 := if c2.hasDev && c2.bound then c2.(events := c2.events + [SendArp]) else c2;
      SetRun(c3.(delayedArp := 2), now)
  }

  /** The master-down timer fires: the kernel takes it off the pending list and
      runs carp_master_down. */
  function MdTimerExpires(c: Instance, now: int): (r: Instance)
    requires c.mdTimer.pending && c.mdTimer.expires <= now
    requires c.state == Backup ==> c.hasDev
    ensures r.mdTimer == Timer(false, c.mdTimer.expires)
  {
    MasterDown(c.(mdTimer := c.mdTimer.(pending := false)), now)
  }

  /** carp_del_all_timeouts. */
  function DelAllTimeouts(c: Instance): (r: Instance)
    ensures !r.mdTimer.pending && !r.advTimer.pending
    ensures r == c.(mdTimer := r.mdTimer, advTimer := r.advTimer)
  {
    var md := if c.mdTimer.pending then DelTimerSync(c.mdTimer) else c.mdTimer;
    var adv := if c.advTimer.pending then DelTimerSync(c.advTimer) else c.advTimer;
    c.(mdTimer := md, advTimer := adv)
  }

  /** carp_dev_close, leaving out the multicast group leave. */
  function DevClose(c: Instance, now: int): (r: Instance)
    ensures r.state == Init && TimersMatchState(r) && r.bowOut == 0
  {
    var c1 := DelAllTimeouts(c).(bowOut := 1);
    var c2 := c1.(events := c1.events + [ProtoAdv(c1.bowOut)]);
    SetState(c2.(bowOut := 0), Init, now)
  }

  /** The last step of carp_dev_open once the route to the group is found
      (`routeOk`): the virtual device goes up and carp_set_run runs. Without a
      bound device, or without a route, nothing changes. */
  function DevOpen(c: Instance, routeOk: bool, now: int): (r: Instance)
    requires c.hasDev
    ensures !c.bound || !routeOk ==> r == c
    ensures c.bound && routeOk ==> IsUp(r) && (IsRunning(r) <==> c.vhid > 0)
  {
    if !c.bound || !routeOk then c
    else
      var c1 := c.(devFlags := SetFlags(c.devFlags, IFF_UP));
      assert IsUp(c1);
      SetRunFlags(c1, now);
      SetRun(c1, now)
  }

  /*------------------------------ configuration ----------------------------*/

  /** struct carp_ioctl_params as far as the driver reads it. `state` is None
      for a value that names none of the three states. */
  datatype IoctlParams = IoctlParams(
    state: Option<State>,
    devname: string,
    vhid: u8,
    advbase: u8,
    advskew: u8,
    mdTimeout: u32,
    advTimeout: u32,
    key: seq<u8>,
    pad: seq<u8>)

  /** carp_check_params: -1 for a bad state, then -2 for an unknown device
      name, then -3 for a zero or too large timeout, else 0. `known` is the set
      of device names in the instance's namespace. */
  function CheckParams(p: IoctlParams, known: set<string>, maxMd: int, maxAdv: int): (r: int)
    ensures r == -1 <==> p.state.None?
    ensures r == -2 <==> p.state.Some? && p.devname !in known
    ensures r == -3 <==> p.state.Some? && p.devname in known &&
                         !(0 < p.mdTimeout <= maxMd && 0 < p.advTimeout <= maxAdv)
    ensures r == 0 <==> p.state.Some? && p.devname in known &&
                        0 < p.mdTimeout <= maxMd && 0 < p.advTimeout <= maxAdv
  {
    if p.state.None? then -1
    else if p.devname !in known then -2
    else if p.mdTimeout > maxMd || p.advTimeout > maxAdv || p.mdTimeout == 0 || p.advTimeout == 0 then -3
    else 0
  }

  /** The part of the SIOC_SETCARPPARAMS branch after the device switch: the
      state is set first, then the parameters are copied and both timeouts are
      recomputed from the new advbase and advskew. */
  function ApplyParams(c: Instance, p: IoctlParams, now: int): (r: Instance)
    requires p.state.Some?
    ensures r.mdTimeout == TimeoutMicros(3, p.advbase, p.advskew)
    ensures r.advTimeout == TimeoutMicros(1, p.advbase, p.advskew)
  {
    var c1 := SetState(c, p.state.value, now);
    c1.(vhid := p.vhid, advbase := p.advbase, advskew := p.advskew,
        mdTimeout := TimeoutMicros(3, p.advbase, p.advskew),
        advTimeout := TimeoutMicros(1, p.advbase, p.advskew))
  }

  /** The instance side of a successful SIOC_SETCARPPARAMS. `switched` says that
      the request names another existing device: the instance is closed, bound
      to it and opened again (`routeOk` as for DevOpen). */
  function IoctlSet(c: Instance, p: IoctlParams, switched: bool, routeOk: bool, now: int): (r: Instance)
    requires c.hasDev && c.bound && p.state.Some?
    ensures r.hasDev && r.bound
  {
    var c1 := if switched then DevClose(c, now) else c;
    var c2 := ApplyParams(c1, p, now);
    if switched then DevOpen(c2, routeOk, now) else c2
  }

  /** The sysfs advbase store after its range check. */
  function SetAdvBase(c: Instance, v: u8): (r: Instance)
    ensures r == c.(advbase := v, mdTimeout := r.mdTimeout, advTimeout := r.advTimeout)
    ensures r.mdTimeout >= r.advTimeout > 0
  {
    MasterDownNotShorter(v, c.advskew);
    c.(advbase := v,
       mdTimeout := TimeoutMicros(3, v, c.advskew),
       advTimeout := TimeoutMicros(1, v, c.advskew))
  }

  /** The sysfs advskew store after its range check. */
  function SetAdvSkew(c: Instance, v: u8): (r: Instance)
    ensures r == c.(advskew := v, mdTimeout := r.mdTimeout, advTimeout := r.advTimeout)
    ensures r.mdTimeout >= r.advTimeout > 0
  {
    MasterDownNotShorter(c.advbase, v);
    c.(advskew := v,
       mdTimeout := TimeoutMicros(3, c.advbase, v),
       advTimeout := TimeoutMicros(1, c.advbase, v))
  }

  /*------------------------------- properties ------------------------------*/

  /** Setting the current state changes nothing. */
  lemma SetStateSameIsNoOp(c: Instance, now: int)
    ensures SetState(c, c.state, now) == c
  {
  }

  /** carp_set_state never disturbs a pending timer and never cancels one: it
      arms only the timer of the new state, and only if that timer is idle. */
  lemma SetStateTimers(c: Instance, s: State, now: int)
    ensures var r := SetState(c, s, now);
      && (c.mdTimer.pending ==> r.mdTimer == c.mdTimer)
      && (c.advTimer.pending ==> r.advTimer == c.advTimer)
      && (s != Backup || s == c.state ==> r.mdTimer == c.mdTimer)
      && (s != Master || s == c.state ==> r.advTimer == c.advTimer)
      && (s == Backup && s != c.state ==>
            r.mdTimer == (if c.mdTimer.pending then c.mdTimer else Timer(true, now + c.mdTimeout)))
      && (s == Master && s != c.state ==>
            r.advTimer == (if c.advTimer.pending then c.advTimer else Timer(true, now + c.advTimeout)))
      && r == c.(state := s, mdTimer := r.mdTimer, advTimer := r.advTimer, events := r.events)
  {
  }

  /** Without a bound device carp_set_run clears RUNNING, falls back to INIT and
      leaves both timers alone. */
  lemma SetRunUnbound(c: Instance, now: int)
    requires c.hasDev && !c.bound
    ensures var r := SetRun(c, now);
      && r.state == Init && !IsRunning(r)
      && r.mdTimer == c.mdTimer && r.advTimer == c.advTimer
  {
  }

  /** With a bound device that is down, or with vhid 0, carp_set_run only
      clears RUNNING. */
  lemma SetRunNotReady(c: Instance, now: int)
    requires c.hasDev && c.bound && !(IsUp(c) && c.vhid > 0)
    ensures SetRun(c, now) == c.(devFlags := ClearFlags(c.devFlags, IFF_RUNNING))
  {
  }

  /** From INIT or BACKUP a runnable instance ends in BACKUP with RUNNING set,
      the advertisement timer idle and the master-down timer (re)armed at
      exactly now + md_timeout; only the INIT case reports a state change. */
  lemma {:induction false} SetRunToBackup(c: Instance, now: int)
    requires c.hasDev && CanRun(c) && c.state != Master
    ensures var r := SetRun(c, now);
      && r.state == Backup && IsRunning(r)
      && !r.advTimer.pending && r.mdTimer == Timer(true, now + c.mdTimeout)
      && r.events == c.events + (if c.state == Init then [CallQueue(BackupQueue)] else [])
  {
    var c1 := c.(devFlags := SetFlags(c.devFlags, IFF_RUNNING));
    if c.state == Init {
      var c2 := SetState(c1, Backup, now);
      assert c2.state == Backup && c2.bound && IsUp(c2) && c2.vhid == c.vhid;
      assert c2.events == c.events + [CallQueue(BackupQueue)];
      assert SetRun(c, now) == SetRun(c2, now);
      BackupBranch(c2, now);
    } else {
      BackupBranch(c, now);
    }
  }

  /* Each branch of carp_set_run, one equation per branch, for the proofs of
     the methods that mirror it. */

  lemma SetRunUnboundStep(c: Instance, now: int)
    requires c.hasDev && !c.bound
    ensures SetRun(c, now) == SetState(c.(devFlags := ClearFlags(c.devFlags, IFF_RUNNING)), Init, now)
  {
  }

  lemma SetRunBackupStep(c: Instance, now: int)
    requires c.hasDev && CanRun(c) && c.state == Backup
    ensures SetRun(c, now) ==
      c.(devFlags := SetFlags(c.devFlags, IFF_RUNNING),
         advTimer := if c.advTimer.pending then DelTimerSync(c.advTimer) else c.advTimer,
         mdTimer := ModTimer(c.mdTimer, now + c.mdTimeout))
  {
  }

  lemma SetRunMasterStep(c: Instance, now: int)
    requires c.hasDev && CanRun(c) && c.state == Master
    ensures SetRun(c, now) ==
      c.(devFlags := SetFlags(c.devFlags, IFF_RUNNING),
         advTimer := if c.advTimer.pending then c.advTimer else ModTimer(c.advTimer, now + c.advTimeout))
  {
  }

  /** The INIT branch of carp_set_run: enter BACKUP, then run again. */
  lemma SetRunFromInit(c: Instance, now: int)
    requires c.hasDev && CanRun(c) && c.state == Init
    ensures SetRun(c, now) == SetRun(SetState(c.(devFlags := SetFlags(c.devFlags, IFF_RUNNING)), Backup, now), now)
  {
  }

  /** The BACKUP branch of carp_set_run, which does not recurse. */
  lemma BackupBranch(c: Instance, now: int)
    requires c.hasDev && CanRun(c) && c.state == Backup
    ensures var r := SetRun(c, now);
      && r.state == Backup && IsRunning(r) && r.events == c.events
      && !r.advTimer.pending && r.mdTimer == Timer(true, now + c.mdTimeout)
  {
  }

  /** A runnable MASTER keeps its advertisement timer pending (arming it at
      now + adv_timeout if it was idle) and its master-down timer untouched. */
  lemma SetRunInMaster(c: Instance, now: int)
    requires c.hasDev && CanRun(c) && c.state == Master
    ensures var r := SetRun(c, now);
      && r.state == Master && IsRunning(r) && r.mdTimer == c.mdTimer
      && r.advTimer == (if c.advTimer.pending then c.advTimer else Timer(true, now + c.advTimeout))
      && r.events == c.events
  {
  }

  /** Running carp_set_run a second time at the same instant changes nothing. */
  lemma {:induction false} SetRunIdempotent(c: Instance, now: int)
    requires c.hasDev
    ensures var r := SetRun(c, now); SetRun(r, now) == r
  {
    var r := SetRun(c, now);
    if !c.bound {
      SetRunUnbound(c, now);
      FixedWhenUnbound(r, now);
    } else if !(IsUp(c) && c.vhid > 0) {
      SetRunNotReady(c, now);
      ClearRunningKeepsUp(c.devFlags);
      FixedWhenNotReady(r, now);
    } else if c.state != Master {
      SetRunToBackup(c, now);
      SetRunningKeepsUp(c.devFlags);
      FixedInBackup(r, now);
    } else {
      SetRunInMaster(c, now);
      SetRunningKeepsUp(c.devFlags);
      FixedInMaster(r, now);
    }
  }

  /** The flags carp_set_run leaves on a bound instance: UP as it was, and
      RUNNING exactly when the device is up and the vhid is non-zero. */
  lemma SetRunFlags(c: Instance, now: int)
    requires c.hasDev && c.bound
    ensures IsUp(SetRun(c, now)) == IsUp(c)
    ensures IsRunning(SetRun(c, now)) <==> IsUp(c) && c.vhid > 0
  {
    if IsUp(c) && c.vhid > 0 {
      SetRunningKeepsUp(c.devFlags);
      if c.state == Init {
        var c1 := SetState(c.(devFlags := SetFlags(c.devFlags, IFF_RUNNING)), Backup, now);
        SetRunningKeepsUp(c1.devFlags);
      }
    } else {
      ClearRunningKeepsUp(c.devFlags);
    }
  }

  lemma ClearRunningKeepsUp(f: bv32)
    ensures ClearFlags(f, IFF_RUNNING) & IFF_UP == f & IFF_UP
    ensures ClearFlags(f, IFF_RUNNING) & IFF_RUNNING == 0
  {
  }

  lemma SetRunningKeepsUp(f: bv32)
    ensures SetFlags(f, IFF_RUNNING) & IFF_UP == f & IFF_UP
    ensures SetFlags(f, IFF_RUNNING) & IFF_RUNNING != 0
  {
  }

  lemma RunningFlagIdempotent(f: bv32)
    ensures f & IFF_RUNNING == 0 ==> ClearFlags(f, IFF_RUNNING) == f
    ensures f & IFF_RUNNING != 0 ==> SetFlags(f, IFF_RUNNING) == f
  {
  }

  /* The states that carp_set_run leaves behind are its fixed points. */

  lemma FixedWhenUnbound(r: Instance, now: int)
    requires r.hasDev && !r.bound && r.state == Init && !IsRunning(r)
    ensures SetRun(r, now) == r
  {
    RunningFlagIdempotent(r.devFlags);
  }

  lemma FixedWhenNotReady(r: Instance, now: int)
    requires r.hasDev && r.bound && !(IsUp(r) && r.vhid > 0) && !IsRunning(r)
    ensures SetRun(r, now) == r
  {
    RunningFlagIdempotent(r.devFlags);
  }

  lemma FixedInBackup(r: Instance, now: int)
    requires r.hasDev && CanRun(r) && r.state == Backup && IsRunning(r)
    requires !r.advTimer.pending && r.mdTimer == Timer(true, now + r.mdTimeout)
    ensures SetRun(r, now) == r
  {
    RunningFlagIdempotent(r.devFlags);
  }

  lemma FixedInMaster(r: Instance, now: int)
    requires r.hasDev && CanRun(r) && r.state == Master && IsRunning(r) && r.advTimer.pending
    ensures SetRun(r, now) == r
  {
    RunningFlagIdempotent(r.devFlags);
  }

  /** A runnable instance leaves carp_set_run with the timers its state calls
      for, unless it is a MASTER whose master-down timer is still pending. */
  lemma SetRunEstablishesTimers(c: Instance, now: int)
    requires c.hasDev && CanRun(c)
    requires c.state == Master ==> !c.mdTimer.pending
    ensures TimersMatchState(SetRun(c, now))
  {
    if c.state != Master {
      SetRunToBackup(c, now);
    }
  }

  /** carp_master_down has an effect only in BACKUP. */
  lemma MasterDownOnlyFromBackup(c: Instance, now: int)
    requires c.state != Backup
    ensures MasterDown(c, now) == c
  {
  }

  /** carp_master_down never touches the master-down timer. */
  lemma MasterDownKeepsMdTimer(c: Instance, now: int)
    requires c.state == Backup ==> c.hasDev
    ensures MasterDown(c, now).mdTimer == c.mdTimer
  {
  }

  /** The takeover: a runnable BACKUP becomes MASTER with its advertisement
      timer pending, announces itself once (one advertisement, one ARP round)
      and sets carp_delayed_arp to 2. */
  lemma MasterDownTakeover(c: Instance, now: int)
    requires c.state == Backup && c.hasDev && CanRun(c)
    ensures var r := MasterDown(c, now);
      && r.state == Master && r.advTimer.pending && IsRunning(r) && r.delayedArp == 2
      && r.mdTimer == c.mdTimer
      && r.events == c.events + [CallQueue(MasterQueue), ProtoAdv(c.bowOut), SendArp]
  {
  }

  /** Without a bound device the takeover falls back to INIT at once, but the
      advertisement timer armed on the way stays pending. */
  lemma MasterDownUnbound(c: Instance, now: int)
    requires c.state == Backup && c.hasDev && !c.bound
    ensures var r := MasterDown(c, now);
      && r.state == Init && r.advTimer.pending && !TimersMatchState(r)
      && r.events == c.events + [CallQueue(MasterQueue), ProtoAdv(c.bowOut)]
  {
  }

  /** When the master-down timer of a runnable BACKUP fires, the instance
      becomes MASTER with exactly the advertisement timer pending. */
  lemma MdTimerExpiryTakesOver(c: Instance, now: int)
    requires c.state == Backup && c.hasDev && CanRun(c) && TimersMatchState(c)
    requires c.mdTimer.expires <= now
    ensures var r := MdTimerExpires(c, now);
      r.state == Master && TimersMatchState(r)
  {
    MasterDownTakeover(c.(mdTimer := c.mdTimer.(pending := false)), now);
  }

  /** A MASTER request made directly (not by the timer) on a BACKUP leaves the
      master-down timer pending in MASTER. */
  lemma DirectMasterDownLeavesMdPending(c: Instance, now: int)
    requires c.state == Backup && c.hasDev && CanRun(c) && TimersMatchState(c)
    ensures var r := MasterDown(c, now);
      r.state == Master && r.mdTimer.pending && !TimersMatchState(r)
  {
    MasterDownTakeover(c, now);
  }

  /** carp_dev_close: both timers idle, one bow-out advertisement sent with
      carp_bow_out == 1, carp_bow_out back to 0 and the state INIT; nothing
      else changes. */
  lemma DevCloseEffects(c: Instance, now: int)
    ensures var r := DevClose(c, now);
      && r.state == Init && !r.mdTimer.pending && !r.advTimer.pending
      && TimersMatchState(r) && r.bowOut == 0
      && r.events == c.events + [ProtoAdv(1)]
      && r == c.(state := Init, mdTimer := r.mdTimer, advTimer := r.advTimer,
                 bowOut := 0, events := r.events)
  {
  }

  /** After carp_dev_close a master-down event is ignored. */
  lemma MasterDownAfterClose(c: Instance, now: int, later: int)
    ensures MasterDown(DevClose(c, now), later) == DevClose(c, now)
  {
  }

  /** SIOC_SETCARPPARAMS sets the state before it recomputes the timeouts, so a
      timer that the state change arms runs for the old duration while the
      stored durations are already the new ones. */
  lemma IoctlArmsWithOldTimeouts(c: Instance, p: IoctlParams, routeOk: bool, now: int)
    requires c.hasDev && c.bound && p.state.Some?
    ensures var r := IoctlSet(c, p, false, routeOk, now);
      && r.state == p.state.value
      && r.mdTimeout == TimeoutMicros(3, p.advbase, p.advskew)
      && r.advTimeout == TimeoutMicros(1, p.advbase, p.advskew)
      && (p.state.value == Backup && c.state != Backup && !c.mdTimer.pending ==>
            r.mdTimer == Timer(true, now + c.mdTimeout))
      && (p.state.value == Master && c.state != Master && !c.advTimer.pending ==>
            r.advTimer == Timer(true, now + c.advTimeout))
  {
  }

  /** With a device switch the instance is closed first, so neither timer is
      pending when the state is set, and carp_dev_open then runs carp_set_run.
      A request for BACKUP or INIT that opens with a non-zero vhid ends in
      BACKUP with the master-down timer re-armed for the new duration; a
      request for MASTER keeps the advertisement timer that carp_set_state
      armed for the old duration. Without a route the instance stays as the
      state change left it. */
  lemma IoctlSwitchRearms(c: Instance, p: IoctlParams, routeOk: bool, now: int)
    requires c.hasDev && c.bound && p.state.Some?
    ensures var r := IoctlSet(c, p, true, routeOk, now);
      && r.mdTimeout == TimeoutMicros(3, p.advbase, p.advskew)
      && r.advTimeout == TimeoutMicros(1, p.advbase, p.advskew)
      && (routeOk && p.vhid > 0 && p.state.value != Master ==>
            && r.state == Backup && !r.advTimer.pending
            && r.mdTimer == Timer(true, now + TimeoutMicros(3, p.advbase, p.advskew)))
      && (routeOk && p.vhid > 0 && p.state.value == Master ==>
            && r.state == Master && !r.mdTimer.pending
            && r.advTimer == Timer(true, now + c.advTimeout))
      && (!routeOk && p.state.value == Backup ==>
            r.state == Backup && r.mdTimer == Timer(true, now + c.mdTimeout))
  {
    DevCloseEffects(c, now);
    var c1 := DevClose(c, now);
    var c2 := ApplyParams(c1, p, now);
    assert c2.bound && c2.hasDev && c2.vhid == p.vhid && c2.state == p.state.value;
    if routeOk {
      var c3 := c2.(devFlags := SetFlags(c2.devFlags, IFF_UP));
      assert IsUp(c3);
      if p.vhid > 0 {
        if p.state.value == Master {
          assert c3.advTimer == Timer(true, now + c.advTimeout) && !c3.mdTimer.pending;
          SetRunInMaster(c3, now);
        } else {
          SetRunToBackup(c3, now);
        }
      }
    }
  }

  /** Whatever path it takes, a successful SIOC_SETCARPPARAMS leaves the
      parameters and both timeouts as the request implies. */
  lemma IoctlSetsParameters(c: Instance, p: IoctlParams, switched: bool, routeOk: bool, now: int)
    requires c.hasDev && c.bound && p.state.Some?
    ensures var r := IoctlSet(c, p, switched, routeOk, now);
      && r.vhid == p.vhid && r.advbase == p.advbase && r.advskew == p.advskew
      && r.mdTimeout == TimeoutMicros(3, p.advbase, p.advskew)
      && r.advTimeout == TimeoutMicros(1, p.advbase, p.advskew)
  {
  }

  /** The advbase and advskew stores can be made in either order. */
  lemma StoresCommute(c: Instance, b: u8, s: u8)
    ensures SetAdvSkew(SetAdvBase(c, b), s) == SetAdvBase(SetAdvSkew(c, s), b)
  {
  }

  /** Storing advbase and advskew through sysfs leaves the same parameters and
      timeouts as a SIOC_SETCARPPARAMS request carrying them, but never touches
      the state or a timer. */
  lemma StoresMatchIoctl(c: Instance, p: IoctlParams, now: int)
    requires p.state.Some?
    ensures var r := SetAdvSkew(SetAdvBase(c, p.advbase), p.advskew);
      var q := ApplyParams(c, p, now);
      && r.advbase == q.advbase && r.advskew == q.advskew
      && r.mdTimeout == q.mdTimeout && r.advTimeout == q.advTimeout
      && r.state == c.state && r.mdTimer == c.mdTimer && r.advTimer == c.advTimer
  {
  }
}
