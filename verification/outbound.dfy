/** Which outbound chains a host gets. */
module OutboundChains {
  import opened Text
  import opened Rules
  import opened Netfilter
  import opened RuleLines
  import opened Meaning
  import opened Tables
  import opened Scripts
  import opened BackEnds
  import opened Verdicts
  import opened WholeHost

  /** No outbound rule is left without its chain: both scripts install and hook an
      outbound chain exactly when some enabled outbound rule is for its zone, so
      wherever a rule governs a packet, TrafficAfterApply speaks of it. */
  lemma OutboundWritten(k: Kind, j: Job, tools: Tools, w: World, p: Packet)
    requires k.IsOut()
    ensures var zone := if k == FwdOut then DockerZone else HostZone;
            Wanted(k, j.Compiled6(), tools) <==>
              (exists r :: r in j.rs.rules && OutboundFor(r, zone)) && (k == Out6 ==> tools.ip6tables)
    ensures (exists r :: r in j.rs.rules && Applies(k, w, r, j.published, p)) && (k == Out6 ==> tools.ip6tables) ==>
      Wanted(k, j.Compiled6(), tools)
  {
    WantsOutSorted(j, HostZone);
    WantsOutSorted(j, DockerZone);
  }
}
