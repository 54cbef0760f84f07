/**
 * The device registry built once at start-up: every stickup cam, then every doorbell,
 * stored under its account id, so that a later device replaces an earlier one with the same
 * account id; the last device seen is kept as `poll_device`.
 */
module Registry {
  import opened Wrappers
  import opened Devices

  /** The registry after `devs[t.account_id] = t` for every `t` of `found`, in order. */
  function RegistryOf(found: seq<Device>): map<int, Device>
    decreases |found|
  {
    if found == [] then map[]
    else RegistryOf(found[..|found| - 1])[found[|found| - 1].accountId := found[|found| - 1]]
  }

  /** `found[i]` is the last device of `found` with account id `k`. */
  ghost predicate LastWith(found: seq<Device>, k: int, i: int)
  {
    && 0 <= i < |found|
    && found[i].accountId == k
    && forall j :: i < j < |found| ==> found[j].accountId != k
  }

  /** The registry holds one entry per distinct account id among the devices found. */
  lemma {:induction false} RegistryKeys(found: seq<Device>)
    ensures RegistryOf(found).Keys == set i | 0 <= i < |found| :: found[i].accountId
  {
    if found != [] {
      var init := found[..|found| - 1];
      RegistryKeys(init);
      assert forall i :: 0 <= i < |init| ==> init[i] == found[i];
      assert (set i | 0 <= i < |found| :: found[i].accountId)
          == (set i | 0 <= i < |init| :: init[i].accountId) + {found[|found| - 1].accountId};
    }
  }

  /** The entry under each account id is the last device found with that id. */
  lemma {:induction false} RegistryLatest(found: seq<Device>, k: int)
    requires k in RegistryOf(found)
    ensures exists i :: LastWith(found, k, i) && RegistryOf(found)[k] == found[i]
  {
    var n := |found| - 1;
    if found[n].accountId == k {
      assert LastWith(found, k, n);
    } else {
      var init := found[..n];
      RegistryLatest(init, k);
      var i :| LastWith(init, k, i) && RegistryOf(init)[k] == init[i];
      assert found[i] == init[i];
      assert LastWith(found, k, i);
    }
  }

  /** With distinct account ids nothing is replaced: one entry per device found. */
  lemma {:induction false} RegistryDistinct(found: seq<Device>)
    requires forall i, j :: 0 <= i < j < |found| ==> found[i].accountId != found[j].accountId
    ensures |RegistryOf(found)| == |found|
    ensures forall i :: 0 <= i < |found| ==>
      found[i].accountId in RegistryOf(found) && RegistryOf(found)[found[i].accountId] == found[i]
  {
    if found != [] {
      var n := |found| - 1;
      var init := found[..n];
      RegistryDistinct(init);
      RegistryKeys(init);
      assert found[n].accountId !in RegistryOf(init);
      forall i | 0 <= i < |found|
        ensures found[i].accountId in RegistryOf(found) && RegistryOf(found)[found[i].accountId] == found[i]
      {
        if i < n {
          assert found[i] == init[i];
        }
      }
    }
  }

  /**
   * The start-up loop over `stickup_cams + doorbells`: fills the registry and remembers the
   * last device as the poll device (None when the account has no device).
   */
  method GatherDevices(stickupCams: seq<Device>, doorbells: seq<Device>)
    returns (devs: map<int, Device>, pollDevice: Option<Device>)
    ensures devs == RegistryOf(stickupCams + doorbells)
    ensures pollDevice == if stickupCams + doorbells == [] then None
                          else Some((stickupCams + doorbells)[|stickupCams + doorbells| - 1])
  {
    devs := map[];
    pollDevice := None;
    var tmp := stickupCams + doorbells;
    for i := 0 to |tmp|
      invariant devs == RegistryOf(tmp[..i])
      invariant pollDevice == if i == 0 then None else Some(tmp[i - 1])
    {
      var t := tmp[i];
      assert tmp[..i + 1][..i] == tmp[..i];
      devs := devs[t.accountId := t];
      pollDevice := Some(t);
    }
    assert tmp[..|tmp|] == tmp;
  }
}
