/*
 * The per-instance sysfs attributes of carp_sysfs.c: advbase, advskew,
 * carpdev, state and vhid. Each store handler receives the token that sscanf
 * extracted from the written buffer (None when there was none) and returns
 * the byte count on success or -EINVAL; each show handler yields the text it
 * prints.
 */
module CarpSysfs {
  import opened CarpHeader
  import opened CarpMachine
  import opened CarpDevice

  /*--------------------------- case-insensitive names -------------------------*/

  /** tolower with the kernel's Latin-1 ctype table: A-Z and the capitals
      0xC0-0xDE other than 0xD7 map to their lower-case letters. */
  function Lower(c: char): (l: char)
    ensures l == '\0' <==> c == '\0'
  {
    var x := c as int;
    if 65 <= x <= 90 || (0xC0 <= x <= 0xDE && x != 0xD7) then (x + 32) as char else c
  }

  /** The character at position i of a NUL-terminated string. */
  function At(s: string, i: nat): char {
    if i < |s| then s[i] else '\0'
  }

  predicate NoNul(s: string) {
    forall i :: 0 <= i < |s| ==> s[i] != '\0'
  }

  /** The loop of strnicmp from position i with `len` characters left to
      compare; true when it would return 0. It stops at the first NUL of
      either string and otherwise compares the lower-cased characters. */
  predicate MatchFrom(a: string, b: string, i: nat, len: nat)
    decreases len
  {
    if len == 0 then true
    else
      var c1 := At(a, i);
      var c2 := At(b, i);
      if c1 == '\0' || c2 == '\0' then c1 == c2
      else Lower(c1) == Lower(c2) && MatchFrom(a, b, i + 1, len - 1)
  }

  /** strnicmp(a, b, len) == 0: for strings without an embedded NUL, the
      first `len` characters, padded with NUL, agree up to case. */
  predicate StrnicmpEq(a: string, b: string, len: nat): (r: bool)
    ensures NoNul(a) && NoNul(b) ==>
      (r <==> forall k :: 0 <= k < len ==> Lower(At(a, k)) == Lower(At(b, k)))
  {
    if NoNul(a) && NoNul(b) then MatchFromIff(a, b, 0, len); MatchFrom(a, b, 0, len)
    else MatchFrom(a, b, 0, len)
  }

  /** The two strings agree up to case, character by character. */
  predicate CaseEq(a: string, b: string) {
    |a| == |b| && forall k :: 0 <= k < |a| ==> Lower(a[k]) == Lower(b[k])
  }

  /** `p` is a prefix of `a` up to case. */
  predicate CasePrefix(p: string, a: string) {
    |p| <= |a| && forall k :: 0 <= k < |p| ==> Lower(a[k]) == Lower(p[k])
  }

  /** For strings without an embedded NUL, strnicmp from position i returns 0
      exactly when the NUL-padded strings agree up to case at each of the
      `len` positions compared. */
  lemma {:induction false} MatchFromIff(a: string, b: string, i: nat, len: nat)
    requires NoNul(a) && NoNul(b)
    ensures MatchFrom(a, b, i, len) <==>
      forall k :: i <= k < i + len ==> Lower(At(a, k)) == Lower(At(b, k))
    decreases len
  {
    if len > 0 {
      var c1 := At(a, i);
      var c2 := At(b, i);
      if c1 == '\0' && c2 == '\0' {
        assert i >= |a| && i >= |b|;
        forall k | i <= k < i + len
          ensures Lower(At(a, k)) == Lower(At(b, k))
        {
        }
      } else if c1 == '\0' || c2 == '\0' {
        assert Lower(At(a, i)) != Lower(At(b, i));
      } else {
        MatchFromIff(a, b, i + 1, len - 1);
      }
    }
  }

  /** A comparison over one more character than the literal has is a
      whole-word comparison up to case. */
  lemma WholeWordMatch(t: string, w: string)
    requires NoNul(t) && NoNul(w)
    ensures StrnicmpEq(t, w, |w| + 1) <==> CaseEq(t, w)
  {
    MatchFromIff(t, w, 0, |w| + 1);
    if StrnicmpEq(t, w, |w| + 1) {
      if |w| > 0 {
        assert Lower(At(t, |w| - 1)) == Lower(At(w, |w| - 1));
        assert At(w, |w| - 1) != '\0';
      }
      assert Lower(At(t, |w|)) == Lower(At(w, |w|));
      assert |t| == |w|;
      forall k | 0 <= k < |t|
        ensures Lower(t[k]) == Lower(w[k])
      {
        assert Lower(At(t, k)) == Lower(At(w, k));
      }
    } else {
      var k :| 0 <= k < |w| + 1 && Lower(At(t, k)) != Lower(At(w, k));
      if k < |w| && k < |t| {
        assert At(t, k) == t[k] && At(w, k) == w[k];
      }
    }
  }

  /** A comparison over exactly as many characters as the literal has is a
      prefix comparison up to case. */
  lemma PrefixMatch(t: string, w: string)
    requires NoNul(t) && NoNul(w)
    ensures StrnicmpEq(t, w, |w|) <==> CasePrefix(w, t)
  {
    MatchFromIff(t, w, 0, |w|);
    if StrnicmpEq(t, w, |w|) {
      if |w| > 0 {
        assert Lower(At(t, |w| - 1)) == Lower(At(w, |w| - 1));
        assert At(w, |w| - 1) != '\0';
      }
      forall k | 0 <= k < |w|
        ensures Lower(t[k]) == Lower(w[k])
      {
        assert Lower(At(t, k)) == Lower(At(w, k));
      }
    } else {
      var k :| 0 <= k < |w| && Lower(At(t, k)) != Lower(At(w, k));
      if k < |t| {
        assert At(t, k) == t[k] && At(w, k) == w[k];
      }
    }
  }

  /** Where the literal `b` still has characters, a match finds characters in
      `a` at the same positions. */
  lemma {:induction false} MatchFromReaches(a: string, b: string, i: nat, len: nat, j: nat)
    requires NoNul(b) && MatchFrom(a, b, i, len) && i <= j < i + len && j < |b|
    ensures j < |a|
    decreases len
  {
    assert At(b, i) != '\0';
    if j > i {
      MatchFromReaches(a, b, i + 1, len - 1, j);
    } else {
      assert At(a, i) != '\0';
    }
  }

  /** The state-name chain of carp_store_state: MASTER and BACKUP are compared
      over 7 bytes, the terminating NUL included, INIT over 4 bytes only. A
      token is accepted only when it is at least as long as the name. */
  function ParseStateName(token: string): (s: Option<State>)
    ensures s.Some? ==> |token| >= |StateName(s.value)|
  {
    if StrnicmpEq(token, "MASTER", 7) then
      MatchFromReaches(token, "MASTER", 0, 7, 5); Some(Master)
    else if StrnicmpEq(token, "BACKUP", 7) then
      MatchFromReaches(token, "BACKUP", 0, 7, 5); Some(Backup)
    else if StrnicmpEq(token, "INIT", 4) then
      MatchFromReaches(token, "INIT", 0, 4, 3); Some(Init)
    else None
  }


  /** What the chain accepts: exactly "master" and "backup" in any case, and
      any token that begins with "init" in any case. */
  lemma ParseStateNameSpec(t: string)
    requires NoNul(t)
    ensures ParseStateName(t) == Some(Master) <==> CaseEq(t, "MASTER")
    ensures ParseStateName(t) == Some(Backup) <==> CaseEq(t, "BACKUP")
    ensures ParseStateName(t) == Some(Init) <==> CasePrefix("INIT", t)
    ensures ParseStateName(t).None? <==>
      !CaseEq(t, "MASTER") && !CaseEq(t, "BACKUP") && !CasePrefix("INIT", t)
  {
    WholeWordMatch(t, "MASTER");
    WholeWordMatch(t, "BACKUP");
    PrefixMatch(t, "INIT");
    if CaseEq(t, "MASTER") {
      assert Lower(t[0]) == 'm';
    }
    if CaseEq(t, "BACKUP") {
      assert Lower(t[0]) == 'b';
    }
    if CasePrefix("INIT", t) {
      assert Lower(t[0]) == 'i';
    }
  }

  /** The name carp_state_fmt prints for a state is parsed back to that state. */
  lemma ParseStateNameRoundTrip(s: State)
    ensures ParseStateName(StateName(s)) == Some(s)
  {
    ParseStateNameSpec(StateName(s));
  }

  /*----------------------------- decimal output ------------------------------*/

  predicate IsDigits(s: string) {
    forall i :: 0 <= i < |s| ==> '0' <= s[i] <= '9'
  }

  function DigitChar(d: nat): char
    requires d < 10
  {
    (48 + d) as char
  }

  /** The value of a string of decimal digits. */
  function DecimalValue(s: string): nat
    requires IsDigits(s)
    decreases |s|
  {
    if |s| == 0 then 0 else 10 * DecimalValue(s[..|s| - 1]) + (s[|s| - 1] as int - 48)
  }

  /** sprintf "%d" of a non-negative number: its digits without leading zeros. */
  function DecimalString(n: nat): (s: string)
    ensures |s| > 0 && IsDigits(s)
    ensures |s| > 1 ==> s[0] != '0'
    decreases n
  {
    if n < 10 then [DigitChar(n)] else DecimalString(n / 10) + [DigitChar(n % 10)]
  }

  /** Reading back the digits sprintf printed gives the number again. */
  lemma {:induction false} DecimalRoundTrip(n: nat)
    ensures DecimalValue(DecimalString(n)) == n
    decreases n
  {
    if n >= 10 {
      DecimalRoundTrip(n / 10);
      var s := DecimalString(n);
      assert s[..|s| - 1] == DecimalString(n / 10);
    }
  }

  /** The line a numeric show handler prints: the decimal value and a newline. */
  function ShowDecimal(n: nat): (s: string)
    ensures |s| > 1 && s[|s| - 1] == '\n'
    ensures IsDigits(s[..|s| - 1]) && DecimalValue(s[..|s| - 1]) == n
  {
    DecimalRoundTrip(n);
    var s := DecimalString(n) + "\n";
    assert s[..|s| - 1] == DecimalString(n);
    s
  }

  /*------------------------------- show handlers -----------------------------*/

  /** carp_show_adv_base. */
  function ShowAdvBase(c: Carp): (s: string)
    reads c
    ensures |s| > 1 && s[|s| - 1] == '\n'
    ensures IsDigits(s[..|s| - 1]) && DecimalValue(s[..|s| - 1]) == c.advbase
  {
    ShowDecimal(c.advbase)
  }

  /** carp_show_adv_skew. */
  function ShowAdvSkew(c: Carp): (s: string)
    reads c
    ensures |s| > 1 && s[|s| - 1] == '\n'
    ensures IsDigits(s[..|s| - 1]) && DecimalValue(s[..|s| - 1]) == c.advskew
  {
    ShowDecimal(c.advskew)
  }

  /** carp_show_vhid. */
  function ShowVhid(c: Carp): (s: string)
    reads c
    ensures |s| > 1 && s[|s| - 1] == '\n'
    ensures IsDigits(s[..|s| - 1]) && DecimalValue(s[..|s| - 1]) == c.vhid
  {
    ShowDecimal(c.vhid)
  }

  /** carp_show_state, with the names of carp_state_fmt: what it prints, less
      the newline, is accepted by the state store as the current state. */
  function ShowState(c: Carp): (s: string)
    reads c
    ensures |s| > 1 && s[|s| - 1] == '\n'
    ensures ParseStateName(s[..|s| - 1]) == Some(c.state)
  {
    ParseStateNameRoundTrip(c.state);
    var s := StateName(c.state) + "\n";
    assert s[..|s| - 1] == StateName(c.state);
    s
  }

  /** carp_show_carpdev: the name of the bound device, or "(none)". */
  function ShowCarpdev(c: Carp): (s: string)
    reads c, c.odev
    ensures |s| > 0 && s[|s| - 1] == '\n'
    ensures c.odev != null ==> s[..|s| - 1] == c.odev.name
    ensures c.odev == null ==> s[..|s| - 1] == "(none)"
  {
    var s := (if c.odev != null then c.odev.name else "(none)") + "\n";
    assert s[..|s| - 1] == if c.odev != null then c.odev.name else "(none)";
    s
  }

  /*------------------------------ store handlers -----------------------------*/

  /** A value sscanf read that the numeric stores accept. */
  predicate InByteRange(value: Option<int>) {
    value.Some? && 0 <= value.value <= 255
  }

  /** carp_store_adv_base: a missing value or one outside 0..255 is refused;
      otherwise advbase is set and both timeouts are recomputed with the
      current advskew. Neither the state nor a pending timer changes. */
  method StoreAdvBase(c: Carp, value: Option<int>, count: nat) returns (ret: int)
    modifies c`advbase, c`mdTimeout, c`advTimeout
    ensures !InByteRange(value) ==> ret == -EINVAL && unchanged(c)
    ensures InByteRange(value) ==>
      var r := SetAdvBase(old(c.Abs()), value.value);
      && ret == count
      && c.advbase == r.advbase && c.mdTimeout == r.mdTimeout && c.advTimeout == r.advTimeout
  {
    if value.None? {
      return -EINVAL;
    }
    var newValue := value.value;
    if newValue < 0 || newValue > 255 {
      return -EINVAL;
    }
    c.advbase := newValue;
    c.mdTimeout := TimeoutMicros(3, newValue, c.advskew);
    c.advTimeout := TimeoutMicros(1, newValue, c.advskew);
    return count;
  }

  /** carp_store_adv_skew: as the advbase store, with advskew set and the
      timeouts recomputed with the current advbase. */
  method StoreAdvSkew(c: Carp, value: Option<int>, count: nat) returns (ret: int)
    modifies c`advskew, c`mdTimeout, c`advTimeout
    ensures !InByteRange(value) ==> ret == -EINVAL && unchanged(c)
    ensures InByteRange(value) ==>
      var r := SetAdvSkew(old(c.Abs()), value.value);
      && ret == count
      && c.advskew == r.advskew && c.mdTimeout == r.mdTimeout && c.advTimeout == r.advTimeout
  {
    if value.None? {
      return -EINVAL;
    }
    var newValue := value.value;
    if newValue < 0 || newValue > 255 {
      return -EINVAL;
    }
    c.advskew := newValue;
    c.mdTimeout := TimeoutMicros(3, c.advbase, newValue);
    c.advTimeout := TimeoutMicros(1, c.advbase, newValue);
    return count;
  }

  /** carp_store_vhid: any value in 0..255 is taken, 0 and 255 included, and
      only vhid changes; a vhid used by another instance is not refused. */
  method StoreVhid(c: Carp, value: Option<int>, count: nat) returns (ret: int)
    modifies c`vhid
    ensures !InByteRange(value) ==> ret == -EINVAL && unchanged(c)
    ensures InByteRange(value) ==> ret == count && c.vhid == value.value
  {
    if value.None? {
      return -EINVAL;
    }
    var newValue := value.value;
    if newValue < 0 || newValue > 255 {
      return -EINVAL;
    }
    c.vhid := newValue;
    return count;
  }

  /** carp_store_carpdev: succeeds exactly when carp_set_interface does, that
      is when the instance owns its virtual device and `devices` has a device
      of that name; the attribute then shows the new name. */
  method StoreCarpdev(c: Carp, token: Option<string>, devices: map<string, NetDevice>, count: nat)
    returns (ret: int)
    requires Resolves(devices)
    modifies c`odev, c`link, c`devMtu, c`devHardHeaderLen, c`oflags
    modifies (if token.Some? && token.value in devices then {devices[token.value]} else {})`flags
    ensures ret == count <==> token.Some? && c.hasDev && token.value in devices
    ensures ret != count ==> ret == -EINVAL && unchanged(c)
    ensures ret != count && token.Some? && token.value in devices ==> unchanged(devices[token.value])
    ensures ret == count ==>
      var d := devices[token.value];
      && c.odev == d && c.link == d.ifindex
      && d.flags == SetFlags(old(d.flags), IFF_BROADCAST | IFF_ALLMULTI)
      && c.oflags == Low16(d.flags)
      && c.devMtu == old(d.mtu) && c.devHardHeaderLen == old(d.hardHeaderLen)
      && d.mtu == old(d.mtu) && d.hardHeaderLen == old(d.hardHeaderLen)
      && ShowCarpdev(c) == token.value + "\n"
  {
    if token.None? {
      return -EINVAL;
    }
    var r := c.SetInterface(token.value, devices);
    if r != 0 {
      return -EINVAL;
    }
    ghost var s := ShowCarpdev(c);
    assert s[..|s| - 1] == token.value;
    assert s == s[..|s| - 1] + "\n";
    return count;
  }

  /*------------------------------ state requests -----------------------------*/

  /** What carp_store_state does with a parsed state. A request for INIT or
      for the current state does nothing; BACKUP sets the state and runs
      carp_set_run; MASTER runs carp_master_down, which acts only in BACKUP. */
  function StateRequest(c: Instance, s: State, now: int): (r: Instance)
    requires c.hasDev
    ensures r.state == s || r.state == c.state || r.state == Init
    ensures r == c.(state := r.state, mdTimer := r.mdTimer, advTimer := r.advTimer,
                    devFlags := r.devFlags, events := r.events, delayedArp := r.delayedArp)
  {
    if s == Init || s == c.state then c
    else if s == Backup then SetRun(SetState(c, Backup, now), now)
    else MasterDown(c, now)
  }

  /** INIT and the current state are ignored. */
  lemma StateRequestIgnored(c: Instance, s: State, now: int)
    requires c.hasDev && (s == Init || s == c.state)
    ensures StateRequest(c, s, now) == c
  {
  }

  /** A MASTER request is carp_master_down: from INIT it does nothing, and a
      runnable BACKUP takes over. */
  lemma StateRequestMaster(c: Instance, now: int)
    requires c.hasDev
    ensures var r := StateRequest(c, Master, now);
      && (c.state != Backup ==> r == c)
      && (c.state == Backup && CanRun(c) ==>
            r.state == Master && r.advTimer.pending && r.delayedArp == 2 && r.mdTimer == c.mdTimer)
  {
    if c.state == Backup && CanRun(c) {
      MasterDownTakeover(c, now);
    }
  }

  /** A BACKUP request on a runnable MASTER or INIT instance ends in BACKUP
      with the advertisement timer idle and the master-down timer armed at
      now + md_timeout. */
  lemma StateRequestBackup(c: Instance, now: int)
    requires c.hasDev && CanRun(c) && c.state != Backup
    ensures var r := StateRequest(c, Backup, now);
      && r.state == Backup && IsRunning(r) && TimersMatchState(r)
      && !r.advTimer.pending && r.mdTimer == Timer(true, now + c.mdTimeout)
      && r.events == c.events + [CallQueue(BackupQueue)]
  {
    var c1 := SetState(c, Backup, now);
    assert c1.hasDev && CanRun(c1) && c1.state == Backup;
    BackupBranch(c1, now);
  }

  /** A BACKUP request on an instance with no bound device falls back to INIT
      at once, yet the master-down timer armed by the state change is left
      pending. */
  lemma StateRequestBackupUnbound(c: Instance, now: int)
    requires c.hasDev && !c.bound && c.state != Backup
    ensures var r := StateRequest(c, Backup, now);
      && r.state == Init && r.mdTimer.pending && !TimersMatchState(r)
  {
    var c1 := SetState(c, Backup, now);
    SetRunUnbound(c1, now);
  }

  /** carp_store_state: a missing or unknown name is refused with -EINVAL and
      nothing changes; otherwise the request is carried out and the count
      returned. */
  method StoreState(c: Carp, token: Option<string>, count: nat, now: int) returns (ret: int)
    requires c.hasDev
    modifies c`state, c`mdTimer, c`advTimer, c`events, c`devFlags, c`delayedArp
    ensures token.None? || ParseStateName(token.value).None? ==> ret == -EINVAL && unchanged(c)
    ensures token.Some? && ParseStateName(token.value).Some? ==>
      var r := StateRequest(old(c.Abs()), ParseStateName(token.value).value, now);
      && ret == count
      && c.state == r.state && c.mdTimer == r.mdTimer && c.advTimer == r.advTimer
      && c.events == r.events && c.devFlags == r.devFlags && c.delayedArp == r.delayedArp
  {
    if token.None? {
      return -EINVAL;
    }
    var parsed := ParseStateName(token.value);
    if parsed.None? {
      return -EINVAL;
    }
    var newState := parsed.value;
    if newState != Init && newState != c.state {
      match newState
      case Backup =>
        ghost var c0 := c.Abs();
        c.SetState(Backup, now);
        assert c.Abs() == CarpMachine.SetState(c0, Backup, now);
        c.SetRun(now);
      case Master =>
        c.MasterDown(now);
      case Init =>
    }
    return count;
  }
}
