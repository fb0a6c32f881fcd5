/** Where the two reconcilers meet: the labels of a target file name entries of the merged
    SNMP configuration. */
module ScrapeRouting {
  import opened SnmpMerge
  import opened DeviceFiles
  import D = DeviceProtocol
  import DeviceInvariant
  import DeviceTheorems
  import T = TargetFileProtocol
  import TargetFileSafety

  /** The auth and the module that a scrape with these labels asks for are in the configuration,
      and they are the device's own. */
  predicate Routed(labels: T.Labels, d: D.Device, config: Content) {
    && config.Config? && "__param_auth" in labels && "__param_module" in labels
    && labels["__param_auth"] in config.auths && config.auths[labels["__param_auth"]] == Auth(d.spec.auth)
    && labels["__param_module"] in config.modules && config.modules[labels["__param_module"]] == Metrics(d.spec.walks)
  }

  /** When an SNMP measurement and the device it names are both Ready, the measurement's target file
      routes its scrapes to the device's auth and module in the merged configuration file. */
  lemma ReadyScrapesAreRouted(dw: D.World, u: Uid, tw: T.World, n: T.Name)
    requires D.Reachable(dw) && u in dw.devices && DeviceInvariant.ReadyNow(dw.devices[u]) && !dw.devices[u].deleting
    requires T.ReachableWorld(tw) && TargetFileSafety.ReadyNow(tw, n)
    requires tw.objects[n].spec.kind.Snmp? && tw.objects[n].spec.device == dw.devices[u].name
    ensures var path := T.TargetPath("snmp", n);
      && path in tw.files && |tw.files[path]| == 1 && SnmpMergedFile in dw.files
      && tw.files[path][0].targets == [tw.objects[n].spec.ip]
      && Routed(tw.files[path][0].labels, dw.devices[u], dw.files[SnmpMergedFile])
  {
    DeviceTheorems.ReadyMeansConverged(dw, u);
    TargetFileSafety.ReadyMeansCurrent(tw, n);
    NamesMatch(tw, n);
    hide D.Reachable, T.ReachableWorld;
    T.DefaultLabelsWin(tw.objects[n]);
  }

  lemma NamesMatch(tw: T.World, n: T.Name)
    requires T.ReachableWorld(tw) && n in tw.objects
    ensures tw.objects[n].name == n
  {
    var events :| tw == T.RunEvents(T.Initial, events);
    TargetFileSafety.RunKeeps(events, n);
  }
}
