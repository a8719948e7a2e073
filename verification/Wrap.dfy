// A provider history in which the addresses run out: a live server loses its
// address to a new one.

module Wrap {
  import opened Types
  import opened CloudDomain

  function Machine(vm: string): ServerSpec {
    ServerSpec(VmName(0, vm), "image", "start", None, None, "", "")
  }

  // Boots and deletes a machine n times; ids are issued from number first on.
  function Cycles(first: nat, n: nat): seq<Call> {
    if n == 0 then []
    else Cycles(first, n - 1) + [CallBootServer(0, Machine("c"), false), CallDeleteServer(first + n - 1, false)]
  }

  lemma ApplyTwoMore(c: Cloud, calls: seq<Call>, a: Call, b: Call)
    ensures ApplyAll(c, calls + [a, b]) == Apply(Apply(ApplyAll(c, calls), a), b)
  {
    hide Apply;
    var all := calls + [a, b];
    assert all[..|all| - 1] == calls + [a] && (calls + [a])[..|calls|] == calls;
  }

  lemma {:induction false} ApplyMore(c: Cloud, first: seq<Call>, more: seq<Call>)
    ensures ApplyAll(c, first + more) == ApplyAll(ApplyAll(c, first), more)
  {
    hide Apply;
    if more == [] {
      assert first + more == first;
    } else {
      ApplyMore(c, first, more[..|more| - 1]);
      assert (first + more)[..|first + more| - 1] == first + more[..|more| - 1];
    }
  }

  // A machine that fits and whose name is not in use.
  ghost predicate Bootable(c: Cloud, vm: string) {
    c.Valid() && !c.HasServer(0, VmName(0, vm)) && c.used.Plus(RequestFromFlavor("start")).Within(c.capacity)
  }

  // Booting and deleting leaves nothing behind but an issued id.
  lemma OneCycle(c: Cloud)
    requires Bootable(c, "c")
    ensures Apply(Apply(c, CallBootServer(0, Machine("c"), false)), CallDeleteServer(c.issued + 1, false))
      == c.(issued := c.issued + 1)
  {
    var id := c.issued + 1;
    var booted := c.BootServer(0, Machine("c"), false).cloud;
    var d := booted.DeleteServer(id, false).cloud;
    assert d.servers == c.servers;
    assert d.floating == c.floating;
  }

  lemma {:induction false} CyclesOnlyIssue(c: Cloud, n: nat)
    requires Bootable(c, "c")
    ensures ApplyAll(c, Cycles(c.issued + 1, n)) == c.(issued := c.issued + n)
    decreases n
  {
    hide Apply, Bootable;
    if n > 0 {
      CyclesOnlyIssue(c, n - 1);
      var before := c.(issued := c.issued + n - 1);
      ApplyTwoMore(c, Cycles(c.issued + 1, n - 1), CallBootServer(0, Machine("c"), false),
        CallDeleteServer(c.issued + n, false));
      StaysBootable(c, Cycles(c.issued + 1, n - 1), before);
      OneCycle(before);
    }
  }

  lemma StaysBootable(c: Cloud, calls: seq<Call>, d: Cloud)
    requires Bootable(c, "c") && d == ApplyAll(c, calls) && d == c.(issued := d.issued)
    ensures Bootable(d, "c")
  {
    CallsKeepValid(c, calls);
    if d.HasServer(0, VmName(0, "c")) {
      var id :| d.IsServer(id, 0, VmName(0, "c"));
      assert c.IsServer(id, 0, VmName(0, "c"));
    }
  }

  lemma {:induction false} CallsKeepValid(c: Cloud, calls: seq<Call>)
    requires c.Valid()
    ensures ApplyAll(c, calls).Valid()
  {
    if calls != [] {
      CallsKeepValid(c, calls[..|calls| - 1]);
      CallKeepsValid(ApplyAll(c, calls[..|calls| - 1]), calls[|calls| - 1]);
    }
  }

  const FIRST_MACHINE := [CallBootServer(0, Machine("a"), false), CallAllocateFloatingIp(1, false)]

  const SECOND_MACHINE := [CallBootServer(0, Machine("b"), false), CallAllocateFloatingIp(254, false)]

  // What the first machine leaves on a new provider.
  lemma FirstMachineHasAddress()
    ensures var c := ApplyAll(NewCloud(NOTHING), FIRST_MACHINE);
      && c.Valid() && c.issued == 2 && c.servers == map[1 := Server(0, Machine("a"), RequestFromFlavor("start"))]
      && c.floating == map[3 := 1] && c.used == RequestFromFlavor("start") && c.capacity == DEFAULT_CAPACITY
  {
    var empty, calls := NewCloud(NOTHING), FIRST_MACHINE;
    var none: seq<Call> := [];
    CountersRefineSums(NOTHING, none);
    assert empty == ApplyAll(empty, none) && none + calls == calls;
    ApplyTwoMore(empty, none, calls[0], calls[1]);
    assert !empty.HasServer(0, VmName(0, "a"));
    var booted := empty.BootServer(0, Machine("a"), false).cloud;
    assert booted.servers == map[1 := Server(0, Machine("a"), RequestFromFlavor("start"))];
    assert !booted.HasAddress(1);
    CallsKeepValid(empty, calls);
  }

  // After 251 machines have come and gone, the next one takes the address of
  // the first, which is still running.
  lemma LiveServerLosesItsAddress()
    ensures var before := ApplyAll(NewCloud(NOTHING), FIRST_MACHINE + Cycles(3, 251));
      var after := ApplyAll(NewCloud(NOTHING), FIRST_MACHINE + Cycles(3, 251) + SECOND_MACHINE);
      && 1 in before.servers && before.IsAddress(3, 1)
      && 1 in after.servers && !after.HasAddress(1) && after.IsAddress(3, 254)
  {
    hide ApplyAll, Cycles;
    var c := ApplyAll(NewCloud(NOTHING), FIRST_MACHINE);
    FirstMachineHasAddress();
    assert Bootable(c, "c");
    CyclesOnlyIssue(c, 251);
    ApplyMore(NewCloud(NOTHING), FIRST_MACHINE, Cycles(3, 251));
    var before := c.(issued := 253);
    ApplyTwoMore(NewCloud(NOTHING), FIRST_MACHINE + Cycles(3, 251), SECOND_MACHINE[0], SECOND_MACHINE[1]);
    assert !before.HasServer(0, VmName(0, "b"));
    var booted := before.BootServer(0, Machine("b"), false).cloud;
    assert booted.issued == 254 && 254 in booted.servers && !booted.HasAddress(254);
    assert AddressOf(255) == 3;
    var after := booted.AllocateFloatingIp(254, false).cloud;
    assert after.floating == map[3 := 254];
  }
}
