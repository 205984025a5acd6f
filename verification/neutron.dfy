/**
 * Pushing the PXE boot options to the node's Neutron ports
 * (`_update_neutron`): which ports carry a VIF, which DHCP options are sent,
 * and how per-port failures add up to a warning or an error.
 */
module Neutron {
  import opened PyValues
  import opened PxePaths
  import opened Files

  /** A network port of the node: its id, its MAC and its `extra['vif_port_id']`. */
  datatype Port = Port(uuid: string, address: string, vifPortId: Value)

  datatype DhcpOption = DhcpOption(name: string, value: string)

  /** `_dhcp_options_for_instance()` */
  function DhcpOptions(cfg: Config): (r: seq<DhcpOption>)
    ensures |r| == 3
    ensures r[0].name == "bootfile-name" && r[1].name == "server-ip-address" && r[2].name == "tftp-server"
    // the boot file comes from pxe_bootfile_name, both server options name the TFTP server
    ensures forall o :: o in r ==> o.value == if o.name == "bootfile-name" then cfg.bootfileName else cfg.tftpServer
  {
    [DhcpOption("bootfile-name", cfg.bootfileName),
     DhcpOption("server-ip-address", cfg.tftpServer),
     DhcpOption("tftp-server", cfg.tftpServer)]
  }

  /**
   * `_get_node_vif_ids(task)`: port id to VIF id, for the ports whose VIF is
   * set; a later port with the same id overrides an earlier one.
   */
  function NodeVifIds(ports: seq<Port>): (r: map<string, Value>)
    ensures forall id :: id in r <==> exists i :: 0 <= i < |ports| && ports[i].uuid == id && Truthy(ports[i].vifPortId)
    ensures forall id :: id in r ==> Truthy(r[id]) && exists i :: 0 <= i < |ports| && ports[i].uuid == id && ports[i].vifPortId == r[id]
  {
    if ports == [] then map[]
    else
      var rest := NodeVifIds(ports[..|ports| - 1]);
      var p := ports[|ports| - 1];
      assert forall i :: 0 <= i < |ports| - 1 ==> ports[..|ports| - 1][i] == ports[i];
      if Truthy(p.vifPortId) then rest[p.uuid := p.vifPortId] else rest
  }

  /** How `_update_neutron` ends. */
  datatype NeutronOutcome =
    | NoVifs                       // warning, nothing sent
    | AllUpdated
    | SomeFailed(ports: seq<string>)  // warning naming the failed ports
    | NoneUpdated                  // raises FailedToUpdateDHCPOptOnPort

  predicate Distinct(s: seq<string>) {
    forall i, j :: 0 <= i < j < |s| ==> s[i] != s[j]
  }

  /**
   * `_update_neutron(task, node)` over the node's VIFs; the updates that
   * raise FailedToUpdateDHCPOptOnPort are those of the VIFs in `failingVifs`.
   * It raises only when every port failed.
   */
  method UpdateNeutron(vifs: map<string, Value>, failingVifs: set<Value>) returns (r: NeutronOutcome)
    ensures r == NoVifs <==> vifs == map[]
    ensures r == NoneUpdated <==> vifs != map[] && forall p :: p in vifs ==> vifs[p] in failingVifs
    ensures r == AllUpdated <==> vifs != map[] && forall p :: p in vifs ==> vifs[p] !in failingVifs
    ensures r.SomeFailed? ==>
              && (forall p :: p in r.ports <==> p in vifs && vifs[p] in failingVifs)
              && Distinct(r.ports) && 0 < |r.ports| < |vifs|
  {
    if vifs == map[] {
      return NoVifs;
    }
    var failures: seq<string> := [];
    var todo := vifs.Keys;
    while todo != {}
      invariant todo <= vifs.Keys
      invariant forall p :: p in failures <==> p in vifs && p !in todo && vifs[p] in failingVifs
      invariant Distinct(failures)
      decreases |todo|
    {
      var p :| p in todo;
      if vifs[p] in failingVifs {
        failures := failures + [p];
      }
      todo := todo - {p};
    }
    var failed := set p | p in failures;
    DistinctCard(failures);
    assert failed <= vifs.Keys;
    if failures == [] {
      r := AllUpdated;
    } else if |failures| == |vifs| {
      SubsetSameSize(failed, vifs.Keys);
      r := NoneUpdated;
    } else {
      assert failures[0] in failures;
      SubsetCard(failed, vifs.Keys);
      var ok := OutsideSmallerSubset(failed, vifs.Keys);
      assert vifs[ok] !in failingVifs;
      SubsetCard(failed, vifs.Keys);
      r := SomeFailed(failures);
    }
  }

  lemma {:induction false} DistinctCard(s: seq<string>)
    requires Distinct(s)
    ensures |set x | x in s| == |s|
  {
    if s != [] {
      var t := s[..|s| - 1];
      DistinctCard(t);
      assert (set x | x in s) == (set x | x in t) + {s[|s| - 1]};
      assert s[|s| - 1] !in t;
    }
  }

  lemma SubsetSameSize<T>(a: set<T>, b: set<T>)
    requires a <= b && |a| == |b|
    ensures a == b
  {
    var d := b - a;
    assert b == a + d && a * d == {};
    assert d == {};
  }

  lemma OutsideSmallerSubset<T>(a: set<T>, b: set<T>) returns (x: T)
    requires a <= b && |a| < |b|
    ensures x in b && x !in a
  {
    var d := b - a;
    assert b == a + d && a * d == {};
    assert d != {};
    x :| x in d;
  }
}
