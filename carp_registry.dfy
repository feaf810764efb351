/*
 * The driver-wide list of CARP instances (cn_global->dev_list): instances are
 * appended at the tail when their virtual device is initialised, and
 * carp_get_by_vhid walks the list from the head.
 */
module CarpRegistry {
  import opened CarpHeader
  import opened CarpDevice

  /** The index of the first entry of `vhids` equal to `v`, if there is one. */
  function FirstMatch(vhids: seq<u8>, v: u8): (r: Option<nat>)
    ensures r.Some? ==>
      && r.value < |vhids| && vhids[r.value] == v
      && forall j :: 0 <= j < r.value ==> vhids[j] != v
    ensures r.None? <==> forall j :: 0 <= j < |vhids| ==> vhids[j] != v
  {
    if |vhids| == 0 then None
    else if vhids[0] == v then Some(0)
    else match FirstMatch(vhids[1..], v)
      case None => None
      case Some(i) => Some(i + 1)
  }

  /** Appending to the list never changes which entry an earlier lookup finds;
      a lookup that found nothing finds the new entry exactly when it matches. */
  lemma {:induction false} FirstMatchAppend(vhids: seq<u8>, x: u8, v: u8)
    ensures FirstMatch(vhids, v).Some? ==> FirstMatch(vhids + [x], v) == FirstMatch(vhids, v)
    ensures FirstMatch(vhids, v).None? ==>
      FirstMatch(vhids + [x], v) == if x == v then Some(|vhids|) else None
  {
    if |vhids| == 0 {
      assert vhids + [x] == [x];
    } else {
      assert (vhids + [x])[1..] == vhids[1..] + [x];
      if vhids[0] != v {
        FirstMatchAppend(vhids[1..], x, v);
      }
    }
  }

  /** The vhid of every instance, in list order. */
  ghost function VhidsOf(instances: seq<Carp>): (vhids: seq<u8>)
    reads instances
    ensures |vhids| == |instances|
    ensures forall i :: 0 <= i < |instances| ==> vhids[i] == instances[i].vhid
  {
    seq(|instances|, i reads instances requires 0 <= i < |instances| => instances[i].vhid)
  }

  class Registry {
    var instances: seq<Carp>

    /** Every registered instance owns its virtual device. */
    ghost predicate Valid()
      reads this, instances
    {
      forall i :: 0 <= i < |instances| ==> instances[i].hasDev
    }

    /** carp_init: the list starts empty. */
    constructor()
      ensures instances == [] && Valid()
    {
      instances := [];
    }

    /** carp_dev_init: an instance whose group address is zero or not
        multicast, or whose source address is zero, is refused with -EINVAL.
        Otherwise it takes its virtual device and goes to the tail of the
        list. A vhid already in use is not refused. */
    method Register(c: Carp) returns (err: int)
      requires Valid() && c !in instances
      modifies this, c`hasDev
      ensures err == 0 || err == -EINVAL
      ensures err != 0 <==> old(c.daddr) == 0 || !Multicast(old(c.daddr)) || old(c.saddr) == 0
      ensures err != 0 ==> unchanged(this) && unchanged(c)
      ensures err == 0 ==> instances == old(instances) + [c] && c.hasDev
      ensures err == 0 ==> VhidsOf(instances) == old(VhidsOf(instances)) + [c.vhid]
      ensures Valid()
    {
      if c.daddr == 0 || !Multicast(c.daddr) || c.saddr == 0 {
        return -EINVAL;
      }
      c.hasDev := true;
      instances := instances + [c];
      return 0;
    }

    /** carp_get_by_vhid: the first registered instance with vhid `v`, or
        null when no instance has it. An instance found owns its virtual
        device. */
    method GetByVhid(v: u8) returns (r: Carp?)
      requires Valid()
      ensures r != null ==> r in instances && r.hasDev
      ensures FirstMatch(VhidsOf(instances), v).None? ==> r == null
      ensures FirstMatch(VhidsOf(instances), v).Some? ==>
        r == instances[FirstMatch(VhidsOf(instances), v).value]
    {
      ghost var vhids := VhidsOf(instances);
      var i := 0;
      while i < |instances|
        invariant 0 <= i <= |instances|
        invariant forall j :: 0 <= j < i ==> vhids[j] != v
      {
        if instances[i].vhid == v {
          return instances[i];
        }
        i := i + 1;
      }
      return null;
    }
  }
}
