/** The lister of probe targets: the dispatcher pods of a channel and the URL to probe them at. */
module Lister {
  import opened Types
  import opened Encodings

  /** A subset of a Kubernetes `Endpoints` object: the IPs of its ready addresses. */
  datatype EndpointSubset = EndpointSubset(addresses: seq<IP>)

  /** The parts of `ProbeTarget` the prober looks at. */
  datatype ProbeTarget = ProbeTarget(podIPs: set<IP>, url: string)

  ghost predicate Listed(subsets: seq<EndpointSubset>, ip: IP) {
    exists i :: 0 <= i < |subsets| && ip in subsets[i].addresses
  }

  /**
   * `ListProbeTargets`: it succeeds exactly when the endpoints object can be read and has an address.
   * The pods are then all the addresses of all subsets, at least one, and for plain names the URL leads
   * the endpoint back to this channel, exactly when neither of its names has a slash.
   */
  method ListProbeTargets(channel: ChannelRef, endpoints: Result<seq<EndpointSubset>>)
    returns (target: Result<ProbeTarget>)
    ensures target.Ok? <==> endpoints.Ok? && exists ip :: Listed(endpoints.value, ip)
    ensures target.Ok? ==>
              && (forall ip :: ip in target.value.podIPs <==> Listed(endpoints.value, ip))
              && target.value.podIPs != {}
              && target.value.url == ProbeURL(channel)
              && (PlainText(channel.namespace) && PlainText(channel.name) ==>
                    && SCHEME <= target.value.url && PlainText(target.value.url[|SCHEME|..])
                    && (ChannelOfPath(RequestURI(target.value.url)) == Some(channel)
                        <==> '/' !in channel.namespace && '/' !in channel.name))
  {
    if endpoints.Err? {
      return Err("failed to get internal service: " + endpoints.message);
    }
    var readyIPs := Addresses(endpoints.value);
    if |readyIPs| == 0 {
      return Err("no gateway pods available");
    }
    assert readyIPs[0] in readyIPs;
    if PlainText(channel.namespace) && PlainText(channel.name) {
      PathRoundTrip(channel);
    }
    return Ok(ProbeTarget(Elements(readyIPs), ProbeURL(channel)));
  }

  /** The nested loops that flatten the addresses, which keep their order and may repeat. */
  method Addresses(subsets: seq<EndpointSubset>) returns (readyIPs: seq<IP>)
    ensures forall ip :: ip in readyIPs <==> Listed(subsets, ip)
  {
    readyIPs := [];
    for i := 0 to |subsets|
      invariant forall ip :: ip in readyIPs <==> Listed(subsets[..i], ip)
    {
      ghost var before := readyIPs;
      var addresses := subsets[i].addresses;
      for j := 0 to |addresses|
        invariant readyIPs == before + addresses[..j]
      {
        readyIPs := readyIPs + [addresses[j]];
      }
      ListedNext(subsets, i);
    }
    assert subsets[..|subsets|] == subsets;
  }

  lemma ListedNext(subsets: seq<EndpointSubset>, i: nat)
    requires i < |subsets|
    ensures forall ip :: Listed(subsets[..i + 1], ip) <==> Listed(subsets[..i], ip) || ip in subsets[i].addresses
  {
    forall ip
      ensures Listed(subsets[..i + 1], ip) <==> Listed(subsets[..i], ip) || ip in subsets[i].addresses
    {
      if Listed(subsets[..i], ip) {
        var k :| 0 <= k < i && ip in subsets[..i][k].addresses;
        assert ip in subsets[..i + 1][k].addresses;
      }
      if Listed(subsets[..i + 1], ip) {
        var k :| 0 <= k < i + 1 && ip in subsets[..i + 1][k].addresses;
        if k < i { assert ip in subsets[..i][k].addresses; }
      }
      if ip in subsets[i].addresses { assert ip in subsets[..i + 1][i].addresses; }
    }
  }
}
