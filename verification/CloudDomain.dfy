// The in-memory cloud: what each provider call does to the resources of all
// projects, and what every history of calls preserves.

module CloudDomain {
  import opened Types

  datatype Amount = Amount(vcpus: int, ramMb: int, diskGb: int) {
    function Plus(o: Amount): Amount {
      Amount(vcpus + o.vcpus, ramMb + o.ramMb, diskGb + o.diskGb)
    }

    function Minus(o: Amount): Amount {
      Amount(vcpus - o.vcpus, ramMb - o.ramMb, diskGb - o.diskGb)
    }

    predicate Within(capacity: Amount) {
      vcpus <= capacity.vcpus && ramMb <= capacity.ramMb && diskGb <= capacity.diskGb
    }
  }

  const NOTHING := Amount(0, 0, 0)

  const DEFAULT_CAPACITY := Amount(100, 256 * 1024, 4 * 1024)

  function RequestFromFlavor(flavor: string): Amount {
    match flavor
    case "m1.tiny" => Amount(1, 512, 1)
    case "start" => Amount(1, 1024, 10)
    case "m1.small" => Amount(1, 2048, 20)
    case "small" => Amount(1, 2048, 20)
    case "m1.medium" => Amount(2, 4096, 40)
    case "medium" => Amount(2, 4096, 40)
    case "m1.large" => Amount(4, 8192, 80)
    case "large" => Amount(4, 8192, 80)
    case _ => Amount(1, 2048, 20)
  }

  // The OpenStack names and the stand's own; an unknown flavor counts as small.
  lemma FlavorAmounts(flavor: string)
    ensures RequestFromFlavor("m1.tiny") == Amount(1, 512, 1)
    ensures RequestFromFlavor("start") == Amount(1, 1024, 10)
    ensures flavor in {"m1.small", "small"} ==> RequestFromFlavor(flavor) == Amount(1, 2048, 20)
    ensures flavor in {"m1.medium", "medium"} ==> RequestFromFlavor(flavor) == Amount(2, 4096, 40)
    ensures flavor in {"m1.large", "large"} ==> RequestFromFlavor(flavor) == Amount(4, 8192, 80)
    ensures flavor !in {"m1.tiny", "start", "m1.small", "small", "m1.medium", "medium", "m1.large", "large"} ==>
      RequestFromFlavor(flavor) == Amount(1, 2048, 20)
  {
  }

  // The request to boot one machine; role and fixedIp travel as metadata.
  datatype ServerSpec = ServerSpec(
    name: Name,
    image: string,
    flavor: string,
    network: Option<NetworkId>,
    keypair: Option<Name>,
    role: string,
    fixedIp: string)

  datatype Server = Server(project: ProjectId, spec: ServerSpec, resources: Amount)

  datatype Network = Network(project: ProjectId, name: Name, cidr: string)

  const ADDRESSES := 253

  // The last octet of the address made from sequence number n.
  function AddressOf(n: nat): Ip {
    n % ADDRESSES + 1
  }

  datatype Reply<T> = Reply(cloud: Cloud, result: Result<T>)

  datatype Cloud = Cloud(
    capacity: Amount,
    used: Amount,
    servers: map<ServerId, Server>,
    keypairs: set<(ProjectId, Name)>,
    networks: map<NetworkId, Network>,
    floating: map<Ip, ServerId>,
    issued: nat)
  {
    ghost predicate IsServer(id: ServerId, p: ProjectId, name: Name) {
      id in servers && servers[id].project == p && servers[id].spec.name == name
    }

    ghost predicate HasServer(p: ProjectId, name: Name) {
      exists id: ServerId :: IsServer(id, p, name)
    }

    ghost function ServerNamed(p: ProjectId, name: Name): ServerId
      requires HasServer(p, name)
    {
      var id: ServerId :| IsServer(id, p, name); id
    }

    ghost predicate IsNetwork(id: NetworkId, p: ProjectId, name: Name) {
      id in networks && networks[id].project == p && networks[id].name == name
    }

    ghost predicate HasNetwork(p: ProjectId, name: Name) {
      exists id: NetworkId :: IsNetwork(id, p, name)
    }

    ghost function NetworkNamed(p: ProjectId, name: Name): NetworkId
      requires HasNetwork(p, name)
    {
      var id: NetworkId :| IsNetwork(id, p, name); id
    }

    ghost predicate IsAddress(ip: Ip, id: ServerId) {
      ip in floating && floating[ip] == id
    }

    ghost predicate HasAddress(id: ServerId) {
      exists ip: Ip :: IsAddress(ip, id)
    }

    ghost function AddressFor(id: ServerId): Ip
      requires HasAddress(id)
    {
      var ip: Ip :| IsAddress(ip, id); ip
    }

    function CreateKeypair(p: ProjectId, name: Name, fault: bool): Reply<Name> {
      if fault then Reply(this, Err(ProviderFailed))
      else Reply(this.(keypairs := keypairs + {(p, name)}), Ok(name))
    }

    function DeleteKeypair(p: ProjectId, name: Name, fault: bool): Reply<()> {
      if fault then Reply(this, Err(ProviderFailed))
      else Reply(this.(keypairs := keypairs - {(p, name)}), Ok(()))
    }

    ghost function BootServer(p: ProjectId, spec: ServerSpec, fault: bool): Reply<ServerId> {
      if fault then Reply(this, Err(ProviderFailed))
      else if HasServer(p, spec.name) then Reply(this, Ok(ServerNamed(p, spec.name)))
      else
        var request := RequestFromFlavor(spec.flavor);
        if !used.Plus(request).Within(capacity) then Reply(this, Err(ProviderFailed))
        else
          var id := issued + 1;
          Reply(this.(servers := servers[id := Server(p, spec, request)], used := used.Plus(request),
            issued := id), Ok(id))
    }

    function WaitForActive(id: ServerId, fault: bool): Result<()> {
      if fault || id !in servers then Err(ProviderFailed) else Ok(())
    }

    ghost function AllocateFloatingIp(id: ServerId, fault: bool): Reply<Ip> {
      if fault || id !in servers then Reply(this, Err(ProviderFailed))
      else if HasAddress(id) then Reply(this, Ok(AddressFor(id)))
      else
        var ip := AddressOf(issued + 1);
        Reply(this.(floating := floating[ip := id], issued := issued + 1), Ok(ip))
    }

    function DeleteServer(id: ServerId, fault: bool): Reply<()> {
      if fault then Reply(this, Err(ProviderFailed))
      else if id !in servers then Reply(this, Ok(()))
      else
        Reply(this.(servers := servers - {id},
                    used := used.Minus(servers[id].resources),
                    floating := map ip | ip in floating && floating[ip] != id :: floating[ip]),
              Ok(()))
    }

    ghost function CreateNetwork(p: ProjectId, name: Name, cidr: string, fault: bool): Reply<NetworkId> {
      if fault then Reply(this, Err(ProviderFailed))
      else if HasNetwork(p, name) then Reply(this, Ok(NetworkNamed(p, name)))
      else
        var id := issued + 1;
        Reply(this.(networks := networks[id := Network(p, name, cidr)], issued := id), Ok(id))
    }

    function DeleteNetwork(id: NetworkId, fault: bool): Reply<()> {
      if fault then Reply(this, Err(ProviderFailed))
      else Reply(this.(networks := networks - {id}), Ok(()))
    }

    // The counters are the sums they speed up.
    ghost predicate CountersExact() {
      && used == Load(servers, issued)
      && used.Within(capacity)
    }

    // Every id was issued by the one sequence, so no two resources share one.
    ghost predicate IdsIssued() {
      && (forall id :: id in servers ==> 1 <= id <= issued)
      && (forall id :: id in networks ==> 1 <= id <= issued)
      && servers.Keys !! networks.Keys
      && (forall id :: id in servers ==> servers[id].resources == RequestFromFlavor(servers[id].spec.flavor))
    }

    // A name identifies at most one server and one network of a project.
    ghost predicate NamesUnique() {
      && (forall a, b | a in servers && b in servers && a != b ::
            servers[a].project != servers[b].project || servers[a].spec.name != servers[b].spec.name)
      && (forall a, b | a in networks && b in networks && a != b ::
            networks[a].project != networks[b].project || networks[a].name != networks[b].name)
    }

    // Addresses belong to live servers, at most one to each, and each is made
    // from an issued sequence number.
    ghost predicate AddressesSound() {
      && (forall ip :: ip in floating ==> floating[ip] in servers)
      && (forall a, b :: a in floating && b in floating && floating[a] == floating[b] ==> a == b)
      && (issued <= ADDRESSES ==> forall ip :: ip in floating ==> ip <= issued + 1 && (2 <= ip || issued == ADDRESSES))
    }

    ghost predicate Valid() {
      CountersExact() && IdsIssued() && NamesUnique() && AddressesSound()
    }
  }

  function NewCloud(capacity: Amount): Cloud {
    var actual := if capacity == NOTHING then DEFAULT_CAPACITY else capacity;
    Cloud(actual, NOTHING, map[], {}, map[], map[], 0)
  }

  // A new provider is empty; without a capacity of its own it has a hundred
  // processors, 256 gigabytes of memory and four terabytes of disk.
  lemma NewCloudIsEmpty(capacity: Amount)
    ensures NewCloud(capacity) == Cloud(
      if capacity == Amount(0, 0, 0) then Amount(100, 262144, 4096) else capacity,
      Amount(0, 0, 0), map[], {}, map[], map[], 0)
  {
  }

  // The resources of the live servers whose id is at most n.
  ghost function Load(servers: map<ServerId, Server>, n: nat): Amount {
    if n == 0 then NOTHING
    else if n in servers then Load(servers, n - 1).Plus(servers[n].resources)
    else Load(servers, n - 1)
  }

  lemma {:induction false} LoadIsNonNegative(c: Cloud, n: nat)
    requires c.IdsIssued()
    ensures NOTHING.Within(Load(c.servers, n))
  {
    if n > 0 {
      LoadIsNonNegative(c, n - 1);
    }
  }

  lemma {:induction false} LoadWith(servers: map<ServerId, Server>, id: ServerId, s: Server, n: nat)
    requires id !in servers
    ensures Load(servers[id := s], n) == if 1 <= id <= n then Load(servers, n).Plus(s.resources) else Load(servers, n)
  {
    if n > 0 {
      LoadWith(servers, id, s, n - 1);
    }
  }

  lemma {:induction false} LoadWithout(servers: map<ServerId, Server>, id: ServerId, n: nat)
    requires id in servers
    ensures Load(servers - {id}, n) == if 1 <= id <= n then Load(servers, n).Minus(servers[id].resources)
      else Load(servers, n)
  {
    if n > 0 {
      LoadWithout(servers, id, n - 1);
    }
  }

  // What each call answers and leaves. A call that fails changes nothing, and
  // one injected to fail does; the others fail only where it is said.
  lemma BootAnswers(c: Cloud, p: ProjectId, spec: ServerSpec, fault: bool)
    ensures var r, takes, id := c.BootServer(p, spec, fault), RequestFromFlavor(spec.flavor), c.issued + 1;
      var fits := c.used.vcpus + takes.vcpus <= c.capacity.vcpus && c.used.ramMb + takes.ramMb <= c.capacity.ramMb
        && c.used.diskGb + takes.diskGb <= c.capacity.diskGb;
      && (r.result.Err? <==> fault || (!c.HasServer(p, spec.name) && !fits))
      && (r.result.Err? ==> r == Reply(c, Err(ProviderFailed)))
      && (r.result.Ok? && c.HasServer(p, spec.name) ==> r.cloud == c && c.IsServer(r.result.value, p, spec.name))
      && (r.result.Ok? && !c.HasServer(p, spec.name) ==>
            && r.result.value == id
            && r.cloud == c.(servers := c.servers[id := Server(p, spec, takes)], issued := id,
                 used := Amount(c.used.vcpus + takes.vcpus, c.used.ramMb + takes.ramMb, c.used.diskGb + takes.diskGb)))
  {
  }

  lemma AddressAnswers(c: Cloud, id: ServerId, fault: bool)
    ensures c.WaitForActive(id, fault) == if fault || id !in c.servers then Err(ProviderFailed) else Ok(())
    ensures var r, ip := c.AllocateFloatingIp(id, fault), (c.issued + 1) % 253 + 1;
      && (r.result.Err? <==> fault || id !in c.servers)
      && (r.result.Err? ==> r == Reply(c, Err(ProviderFailed)))
      && (r.result.Ok? && c.HasAddress(id) ==> r.cloud == c && c.IsAddress(r.result.value, id))
      && (r.result.Ok? && !c.HasAddress(id) ==>
            r == Reply(c.(floating := c.floating[ip := id], issued := c.issued + 1), Ok(ip)))
  {
  }

  lemma NetworkAnswers(c: Cloud, p: ProjectId, name: Name, cidr: string, fault: bool)
    ensures var r, id := c.CreateNetwork(p, name, cidr, fault), c.issued + 1;
      && (r.result.Err? <==> fault)
      && (r.result.Err? ==> r == Reply(c, Err(ProviderFailed)))
      && (r.result.Ok? && c.HasNetwork(p, name) ==> r.cloud == c && c.IsNetwork(r.result.value, p, name))
      && (r.result.Ok? && !c.HasNetwork(p, name) ==>
            r == Reply(c.(networks := c.networks[id := Network(p, name, cidr)], issued := id), Ok(id)))
    ensures c.CreateKeypair(p, name, fault)
         == if fault then Reply(c, Err(ProviderFailed)) else Reply(c.(keypairs := c.keypairs + {(p, name)}), Ok(name))
  {
  }

  // Deleting what is not there is no error.
  lemma DeletesAnswer(c: Cloud, p: ProjectId, name: Name, id: nat, fault: bool)
    ensures fault ==>
      && c.DeleteServer(id, fault) == Reply(c, Err(ProviderFailed))
      && c.DeleteKeypair(p, name, fault) == Reply(c, Err(ProviderFailed))
      && c.DeleteNetwork(id, fault) == Reply(c, Err(ProviderFailed))
    ensures !fault ==>
      && c.DeleteServer(id, fault).result == c.DeleteKeypair(p, name, fault).result == Ok(())
      && c.DeleteNetwork(id, fault) == Reply(c.(networks := c.networks - {id}), Ok(()))
      && c.DeleteKeypair(p, name, fault).cloud == c.(keypairs := c.keypairs - {(p, name)})
      && c.DeleteServer(id, fault).cloud.servers == c.servers - {id}
    ensures !fault && id !in c.servers ==> c.DeleteServer(id, fault).cloud == c
  {
  }

  // One provider call, with the verdict of the fault injected into it.
  datatype Call =
    | CallCreateKeypair(p: ProjectId, name: Name, fault: bool)
    | CallDeleteKeypair(p: ProjectId, name: Name, fault: bool)
    | CallBootServer(p: ProjectId, spec: ServerSpec, fault: bool)
    | CallAllocateFloatingIp(id: ServerId, fault: bool)
    | CallDeleteServer(id: ServerId, fault: bool)
    | CallCreateNetwork(p: ProjectId, name: Name, cidr: string, fault: bool)
    | CallDeleteNetwork(id: NetworkId, fault: bool)

  ghost function Apply(c: Cloud, call: Call): Cloud {
    match call
    case CallCreateKeypair(p, name, fault) => c.CreateKeypair(p, name, fault).cloud
    case CallDeleteKeypair(p, name, fault) => c.DeleteKeypair(p, name, fault).cloud
    case CallBootServer(p, spec, fault) => c.BootServer(p, spec, fault).cloud
    case CallAllocateFloatingIp(id, fault) => c.AllocateFloatingIp(id, fault).cloud
    case CallDeleteServer(id, fault) => c.DeleteServer(id, fault).cloud
    case CallCreateNetwork(p, name, cidr, fault) => c.CreateNetwork(p, name, cidr, fault).cloud
    case CallDeleteNetwork(id, fault) => c.DeleteNetwork(id, fault).cloud
  }

  ghost function ApplyAll(c: Cloud, calls: seq<Call>): Cloud {
    if calls == [] then c
    else Apply(ApplyAll(c, calls[..|calls| - 1]), calls[|calls| - 1])
  }

  lemma BootKeepsValid(c: Cloud, p: ProjectId, spec: ServerSpec, fault: bool)
    requires c.Valid()
    ensures c.BootServer(p, spec, fault).cloud.Valid()
  {
    var s := Server(p, spec, RequestFromFlavor(spec.flavor));
    var id := c.issued + 1;
    LoadWith(c.servers, id, s, c.issued);
    if !c.HasServer(p, spec.name) {
      forall a | a in c.servers
        ensures c.servers[a].project != p || c.servers[a].spec.name != spec.name
      {
        assert !c.IsServer(a, p, spec.name);
      }
    }
  }

  lemma NetworkKeepsValid(c: Cloud, p: ProjectId, name: Name, cidr: string, fault: bool)
    requires c.Valid()
    ensures c.CreateNetwork(p, name, cidr, fault).cloud.Valid()
  {
    if !c.HasNetwork(p, name) {
      forall a | a in c.networks
        ensures c.networks[a].project != p || c.networks[a].name != name
      {
        assert !c.IsNetwork(a, p, name);
      }
    }
  }

  lemma AddressRange(n: nat)
    ensures 1 <= AddressOf(n) <= ADDRESSES
    ensures n < ADDRESSES ==> AddressOf(n) == n + 1
    ensures n == ADDRESSES ==> AddressOf(n) == 1
  {
  }

  lemma AddressKeepsValid(c: Cloud, id: ServerId, fault: bool)
    requires c.Valid()
    ensures c.AllocateFloatingIp(id, fault).cloud.Valid()
  {
    AddressRange(c.issued + 1);
    if !c.HasAddress(id) {
      forall ip | ip in c.floating
        ensures c.floating[ip] != id
      {
        assert !c.IsAddress(ip, id);
      }
    }
  }

  lemma DeleteKeepsValid(c: Cloud, id: ServerId, fault: bool)
    requires c.Valid()
    ensures c.DeleteServer(id, fault).cloud.Valid()
  {
    if id in c.servers && !fault {
      LoadWithout(c.servers, id, c.issued);
      var d := c.DeleteServer(id, fault).cloud;
      assert d.IdsIssued();
      LoadIsNonNegative(d, c.issued);
    }
  }

  lemma KeypairsKeepValid(c: Cloud, keypairs: set<(ProjectId, Name)>)
    requires c.Valid()
    ensures c.(keypairs := keypairs).Valid()
  {
  }

  lemma FewerNetworksKeepValid(c: Cloud, id: NetworkId)
    requires c.Valid()
    ensures c.(networks := c.networks - {id}).Valid()
  {
  }

  lemma CallKeepsValid(c: Cloud, call: Call)
    requires c.Valid()
    ensures Apply(c, call).Valid()
    ensures Apply(c, call).issued >= c.issued && Apply(c, call).capacity == c.capacity
  {
    hide Cloud.Valid;
    match call
    case CallCreateKeypair(p, name, fault) => KeypairsKeepValid(c, c.keypairs + {(p, name)});
    case CallDeleteKeypair(p, name, fault) => KeypairsKeepValid(c, c.keypairs - {(p, name)});
    case CallBootServer(p, spec, fault) => BootKeepsValid(c, p, spec, fault);
    case CallCreateNetwork(p, name, cidr, fault) => NetworkKeepsValid(c, p, name, cidr, fault);
    case CallAllocateFloatingIp(id, fault) => AddressKeepsValid(c, id, fault);
    case CallDeleteServer(id, fault) => DeleteKeepsValid(c, id, fault);
    case CallDeleteNetwork(id, fault) => FewerNetworksKeepValid(c, id);
  }

  // After any calls, failing or not, on a new provider the counters are the
  // sums over the live servers and stay between zero and the capacity.
  lemma {:induction false} CountersRefineSums(capacity: Amount, calls: seq<Call>)
    requires NOTHING.Within(capacity)
    ensures var c := ApplyAll(NewCloud(capacity), calls);
      && c.Valid()
      && c.used == Load(c.servers, c.issued)
      && NOTHING.Within(c.used) && c.used.Within(c.capacity)
  {
    if calls != [] {
      CountersRefineSums(capacity, calls[..|calls| - 1]);
      CallKeepsValid(ApplyAll(NewCloud(capacity), calls[..|calls| - 1]), calls[|calls| - 1]);
    }
    var c := ApplyAll(NewCloud(capacity), calls);
    LoadIsNonNegative(c, c.issued);
  }

  lemma CallRevivesNothing(c: Cloud, call: Call, id: nat)
    requires c.Valid() && id <= c.issued
    ensures id !in c.servers ==> id !in Apply(c, call).servers
    ensures id !in c.networks ==> id !in Apply(c, call).networks
  {
  }

  // An id that is not in use, though issued, is never used again.
  lemma {:induction false} IdsNeverComeBack(c: Cloud, calls: seq<Call>, id: nat)
    requires c.Valid() && id <= c.issued
    ensures ApplyAll(c, calls).Valid() && id <= ApplyAll(c, calls).issued
    ensures id !in c.servers ==> id !in ApplyAll(c, calls).servers
    ensures id !in c.networks ==> id !in ApplyAll(c, calls).networks
  {
    if calls != [] {
      IdsNeverComeBack(c, calls[..|calls| - 1], id);
      var d := ApplyAll(c, calls[..|calls| - 1]);
      CallKeepsValid(d, calls[|calls| - 1]);
      CallRevivesNothing(d, calls[|calls| - 1], id);
    }
  }

  // While a server or network lives, asking for its name again returns the
  // same id and changes nothing.
  lemma RecreateReturnsSame(c: Cloud, p: ProjectId, id: nat)
    requires c.Valid()
    ensures id in c.servers && c.servers[id].project == p ==>
      forall spec: ServerSpec | spec.name == c.servers[id].spec.name ::
        c.BootServer(p, spec, false) == Reply(c, Ok(id))
    ensures id in c.networks && c.networks[id].project == p ==>
      forall cidr :: c.CreateNetwork(p, c.networks[id].name, cidr, false) == Reply(c, Ok(id))
  {
    if id in c.servers && c.servers[id].project == p {
      assert c.IsServer(id, p, c.servers[id].spec.name);
    }
    if id in c.networks && c.networks[id].project == p {
      assert c.IsNetwork(id, p, c.networks[id].name);
    }
  }

  lemma AddressAgain(c: Cloud, ip: Ip, id: ServerId)
    requires c.Valid() && c.IsAddress(ip, id)
    ensures c.AllocateFloatingIp(id, false) == Reply(c, Ok(ip))
  {
  }

  // A new address takes one away from another server exactly when the address
  // it is made from is in use, which needs 253 numbers to have been issued.
  lemma FreshAddressStealsOnlyOnWrap(c: Cloud, id: ServerId)
    requires c.Valid() && id in c.servers && !c.HasAddress(id)
    ensures var d := c.AllocateFloatingIp(id, false).cloud;
      (forall ip :: ip in c.floating ==> ip in d.floating && d.floating[ip] == c.floating[ip])
      <==> AddressOf(c.issued + 1) !in c.floating
    ensures AddressOf(c.issued + 1) in c.floating ==> c.issued >= ADDRESSES
  {
    var ip := AddressOf(c.issued + 1);
    AddressRange(c.issued + 1);
    if ip in c.floating {
      assert c.IsAddress(ip, c.floating[ip]);
    }
  }

  // The provider object. Its value is the Cloud above; every method computes
  // the function of the same name, whatever order the maps are searched in.
  class Provider {
    const capacity: Amount
    var used: Amount
    var servers: map<ServerId, Server>
    var keypairs: set<(ProjectId, Name)>
    var networks: map<NetworkId, Network>
    var floating: map<Ip, ServerId>
    var issued: nat

    function Value(): Cloud
      reads this
    {
      Cloud(capacity, used, servers, keypairs, networks, floating, issued)
    }

    constructor (capacity: Amount)
      requires NOTHING.Within(capacity)
      ensures Value() == NewCloud(capacity) && Value().Valid()
    {
      this.capacity := if capacity == NOTHING then DEFAULT_CAPACITY else capacity;
      used, issued := NOTHING, 0;
      servers, keypairs, networks, floating := map[], {}, map[], map[];
    }

    method NextId() returns (id: nat)
      modifies this`issued
      ensures id == issued == old(issued) + 1
    {
      issued := issued + 1;
      id := issued;
    }

    method CreateKeypair(p: ProjectId, name: Name, fault: bool) returns (r: Result<Name>)
      requires Value().Valid()
      modifies this
      ensures Value().Valid()
      ensures Reply(Value(), r) == old(Value()).CreateKeypair(p, name, fault)
    {
      if fault {
        return Err(ProviderFailed);
      }
      if (p, name) in keypairs {
        assert keypairs + {(p, name)} == keypairs;
        return Ok(name);
      }
      keypairs := keypairs + {(p, name)};
      r := Ok(name);
    }

    method DeleteKeypair(p: ProjectId, name: Name, fault: bool) returns (r: Result<()>)
      requires Value().Valid()
      modifies this
      ensures Value().Valid()
      ensures Reply(Value(), r) == old(Value()).DeleteKeypair(p, name, fault)
    {
      if fault {
        return Err(ProviderFailed);
      }
      keypairs := keypairs - {(p, name)};
      r := Ok(());
    }

    method BootServer(p: ProjectId, spec: ServerSpec, fault: bool) returns (r: Result<ServerId>)
      requires Value().Valid()
      modifies this
      ensures Value().Valid()
      ensures Reply(Value(), r) == old(Value()).BootServer(p, spec, fault)
    {
      hide Cloud.Valid;
      BootKeepsValid(Value(), p, spec, fault);
      if fault {
        return Err(ProviderFailed);
      }
      var unseen := servers.Keys;
      while unseen != {}
        invariant unseen <= servers.Keys
        invariant forall id :: id in servers && id !in unseen ==> !Value().IsServer(id, p, spec.name)
        decreases unseen
      {
        var id :| id in unseen;
        if servers[id].project == p && servers[id].spec.name == spec.name {
          RecreateReturnsSame(Value(), p, id);
          return Ok(id);
        }
        unseen := unseen - {id};
      }
      var request := RequestFromFlavor(spec.flavor);
      if !used.Plus(request).Within(capacity) {
        return Err(ProviderFailed);
      }
      var id := NextId();
      servers := servers[id := Server(p, spec, request)];
      used := used.Plus(request);
      r := Ok(id);
    }

    method WaitForActive(id: ServerId, fault: bool) returns (r: Result<()>)
      ensures r == Value().WaitForActive(id, fault)
    {
      if fault {
        return Err(ProviderFailed);
      }
      r := if id in servers then Ok(()) else Err(ProviderFailed);
    }

    method AllocateFloatingIp(id: ServerId, fault: bool) returns (r: Result<Ip>)
      requires Value().Valid()
      modifies this
      ensures Value().Valid()
      ensures Reply(Value(), r) == old(Value()).AllocateFloatingIp(id, fault)
    {
      hide Cloud.Valid;
      AddressKeepsValid(Value(), id, fault);
      if fault {
        return Err(ProviderFailed);
      }
      if id !in servers {
        return Err(ProviderFailed);
      }
      var unseen := floating.Keys;
      while unseen != {}
        invariant unseen <= floating.Keys
        invariant forall ip :: ip in floating && ip !in unseen ==> floating[ip] != id
        decreases unseen
      {
        var ip :| ip in unseen;
        if floating[ip] == id {
          AddressAgain(Value(), ip, id);
          return Ok(ip);
        }
        unseen := unseen - {ip};
      }
      issued := issued + 1;
      var ip := AddressOf(issued);
      floating := floating[ip := id];
      r := Ok(ip);
    }

    method DeleteServer(id: ServerId, fault: bool) returns (r: Result<()>)
      requires Value().Valid()
      modifies this
      ensures Value().Valid()
      ensures Reply(Value(), r) == old(Value()).DeleteServer(id, fault)
    {
      hide Cloud.Valid;
      DeleteKeepsValid(Value(), id, fault);
      if fault {
        return Err(ProviderFailed);
      }
      if id !in servers {
        return Ok(());
      }
      used := used.Minus(servers[id].resources);
      servers := servers - {id};
      ReleaseAddresses(id);
      assert Value() == old(Value()).DeleteServer(id, fault).cloud;
      r := Ok(());
    }

    method ReleaseAddresses(id: ServerId)
      modifies `floating
      ensures floating == map ip | ip in old(floating) && old(floating)[ip] != id :: old(floating)[ip]
    {
      var unseen := floating.Keys;
      while unseen != {}
        invariant unseen <= old(floating).Keys
        invariant floating == map ip | ip in old(floating)
          && (ip in unseen || old(floating)[ip] != id) :: old(floating)[ip]
        decreases unseen
      {
        var ip :| ip in unseen;
        if floating[ip] == id {
          floating := floating - {ip};
        }
        unseen := unseen - {ip};
      }
    }

    method CreateNetwork(p: ProjectId, name: Name, cidr: string, fault: bool) returns (r: Result<NetworkId>)
      requires Value().Valid()
      modifies this
      ensures Value().Valid()
      ensures Reply(Value(), r) == old(Value()).CreateNetwork(p, name, cidr, fault)
    {
      hide Cloud.Valid;
      NetworkKeepsValid(Value(), p, name, cidr, fault);
      if fault {
        return Err(ProviderFailed);
      }
      var unseen := networks.Keys;
      while unseen != {}
        invariant unseen <= networks.Keys
        invariant forall id :: id in networks && id !in unseen ==> !Value().IsNetwork(id, p, name)
        decreases unseen
      {
        var id :| id in unseen;
        if networks[id].project == p && networks[id].name == name {
          RecreateReturnsSame(Value(), p, id);
          return Ok(id);
        }
        unseen := unseen - {id};
      }
      var id := NextId();
      networks := networks[id := Network(p, name, cidr)];
      r := Ok(id);
    }

    method DeleteNetwork(id: NetworkId, fault: bool) returns (r: Result<()>)
      requires Value().Valid()
      modifies this
      ensures Value().Valid()
      ensures Reply(Value(), r) == old(Value()).DeleteNetwork(id, fault)
    {
      if fault {
        return Err(ProviderFailed);
      }
      networks := networks - {id};
      r := Ok(());
    }
  }
}
