/** GenerateCoreYAML up to the marshalling: nested maps and lists filled step by
    step, proved to be the tree `CoreConfig.Encode` describes. */
module CoreYaml {
  import opened CoreConfig

  method GenerateCoreTree(parse: Parser, c: Core) returns (config: Fields)
    ensures config == Encode(parse, c)
  {
    config := map[];
    if c.logging.Some? {
      var logging := map[SpecKey := Text(c.logging.value.spec), FormatKey := Text(c.logging.value.format)];
      config := config[LoggingKey := Node(logging)];
    }
    var fscConfig := BuildFsc(parse, c.fsc);
    config := config[FscKey := Node(fscConfig)];
    if c.fabric.Some? && c.fabric.value.enabled {
      var fabricConfig := BuildFabric(c.fabric.value);
      config := config[FabricKey := Node(fabricConfig)];
    }
    if c.token.Some? && c.token.value.enabled {
      var tokenConfig := BuildToken(c.token.value);
      config := config[TokenKey := Node(tokenConfig)];
    }
  }

  method BuildFabric(f: Fabric) returns (fabricConfig: Fields)
    ensures fabricConfig == EncodeFabric(f)
  {
    fabricConfig := map[EnabledKey := Flag(true)];
    if f.default.Some? {
      var defaultConfig := BuildDefault(f.default.value);
      fabricConfig := fabricConfig[DefaultKey := Node(defaultConfig)];
    }
  }

  method BuildToken(t: Token) returns (tokenConfig: Fields)
    ensures tokenConfig == EncodeToken(t)
  {
    tokenConfig := map[EnabledKey := Flag(true)];
    if |t.tms| > 0 {
      var tms := BuildAllTms(t.tms);
      tokenConfig := tokenConfig[TmsKey := Table(tms)];
    }
  }

  method BuildFsc(parse: Parser, c: Fsc) returns (fscConfig: Fields)
    ensures fscConfig == EncodeFsc(parse, c)
  {
    var p2p := BuildP2P(parse, c.p2p);
    var cert: Fields, key: Fields := map[FileKey := Text(CERT_FILE)], map[FileKey := Text(KEY_FILE)];
    var identity := map[CertKey := Node(cert), KeyKey := Node(key)];
    fscConfig := map[IdKey := Text(c.id), IdentityKey := Node(identity), P2pKey := Node(p2p)];
    if |c.persistences| > 0 {
      var persistences := BuildPersistences(c.persistences);
      fscConfig := fscConfig[PersistencesKey := Table(persistences)];
    }
    if c.endpoint.Some? && |c.endpoint.value| > 0 {
      var resolvers := BuildResolvers(c.endpoint.value);
      fscConfig := fscConfig[EndpointKey := Node(map[ResolversKey := Items(resolvers)])];
    }
  }

  method BuildP2P(parse: Parser, p: P2P) returns (p2p: Fields)
    ensures p2p == EncodeP2P(parse, p)
  {
    p2p := map[ListenAddressKey := Text(p.listenAddress)];
    if p.kind != "" {
      p2p := p2p[TypeKey := Text(p.kind)];
    }
    if p.opts.Some? && p.opts.value.routing.Some? {
      var routing: Entries := map[];
      match p.opts.value.routing.value {
        case Resolved(entries) => routing := entries;
        case Routing(path, inline) =>
          if inline.Some? && |inline.value| > 0 {
            var parsed := parse(inline.value);
            if parsed.Some? {
              routing := parsed.value;
            }
          } else if path != "" {
            routing := routing["path" := Text(path)];
          }
      }
      assert routing == RoutingEntries(parse, p.opts.value.routing.value);
      var opts: Fields := map[RoutingKey := Table(routing)];
      assert opts == EncodeOpts(parse, p.opts);
      p2p := p2p[OptsKey := Node(opts)];
    }
  }

  method BuildPersistence(pc: Persistence) returns (persistence: Fields)
    ensures persistence == EncodePersistence(pc)
  {
    persistence := map[TypeKey := Text(pc.kind)];
    if |pc.opts| > 0 {
      persistence := persistence[OptsKey := Table(Texts(pc.opts))];
    }
  }

  lemma OneMorePersistence(m: map<string, Persistence>, names: set<string>, name: string)
    requires names <= m.Keys && name in names
    ensures EncodePersistences(m - (names - {name})) ==
            EncodePersistences(m - names)[name := Node(EncodePersistence(m[name]))]
  {
    assert (m - (names - {name})).Keys == (m - names).Keys + {name};
  }

  method BuildPersistences(m: map<string, Persistence>) returns (persistences: Entries)
    ensures persistences == EncodePersistences(m)
  {
    persistences := map[];
    var names := m.Keys;
    while names != {}
      invariant names <= m.Keys
      invariant persistences == EncodePersistences(m - names)
      decreases |names|
    {
      var name :| name in names;
      var persistence := BuildPersistence(m[name]);
      OneMorePersistence(m, names, name);
      persistences := persistences[name := Node(persistence)];
      names := names - {name};
    }
    assert m - {} == m;
  }

  method BuildResolvers(rs: seq<Resolver>) returns (resolvers: seq<Tree>)
    ensures resolvers == EncodeResolvers(rs)
  {
    resolvers := [];
    for i := 0 to |rs|
      invariant resolvers == EncodeResolvers(rs[..i])
    {
      var resolver := rs[i];
      var r: Fields := map[NameKey := Text(resolver.name)];
      if resolver.identity.Some? {
        var id := resolver.identity.value;
        var identity: Fields := map[];
        if id.id != "" {
          identity := identity[IdKey := Text(id.id)];
        }
        if id.secretRef.Some? {
          identity := identity[PathKey := Text(ResolverPath(resolver.name))];
        } else if id.path != "" {
          identity := identity[PathKey := Text(id.path)];
        }
        r := r[IdentityKey := Node(identity)];
      }
      if |resolver.addresses| > 0 {
        r := r[AddressesKey := Table(Texts(resolver.addresses))];
      }
      assert r == EncodeResolver(resolver);
      resolvers := resolvers + [Node(r)];
    }
    assert rs[..|rs|] == rs;
  }

  method BuildDefault(d: FabricDefault) returns (defaultConfig: Fields)
    ensures defaultConfig == EncodeDefault(d)
  {
    defaultConfig := map[];
    if d.driver != "" {
      defaultConfig := defaultConfig[DriverKey := Text(d.driver)];
    }
    if d.defaultMSP != "" {
      defaultConfig := defaultConfig[DefaultMSPKey := Text(d.defaultMSP)];
    }
    if |d.msps| > 0 {
      var msps := BuildMsps(d.msps);
      defaultConfig := defaultConfig[MspsKey := Items(msps)];
    }
    if d.tls.Some? {
      defaultConfig := defaultConfig[TlsKey := Node(map[EnabledKey := Flag(d.tls.value)])];
    }
    defaultConfig := AddLists(d, defaultConfig);
  }

  /** The last three lists of the default network. */
  method AddLists(d: FabricDefault, f: Fields) returns (defaultConfig: Fields)
    ensures defaultConfig == With(With(With(f, d.peers != [], PeersKey, Items(EncodePeers(d.peers))),
                                       d.queryService != [], QueryServiceKey,
                                       Items(EncodeQueryServices(d.queryService))),
                                  d.channels != [], ChannelsKey, Items(EncodeChannels(d.channels)))
  {
    defaultConfig := f;
    if |d.peers| > 0 {
      var peers := BuildPeers(d.peers);
      defaultConfig := defaultConfig[PeersKey := Items(peers)];
    }
    if |d.queryService| > 0 {
      var queryServices := BuildQueryServices(d.queryService);
      defaultConfig := defaultConfig[QueryServiceKey := Items(queryServices)];
    }
    if |d.channels| > 0 {
      var channels := BuildChannels(d.channels);
      defaultConfig := defaultConfig[ChannelsKey := Items(channels)];
    }
  }

  method BuildMsps(s: seq<Msp>) returns (msps: seq<Tree>)
    ensures msps == EncodeMsps(s)
  {
    msps := [];
    for i := 0 to |s|
      invariant msps == EncodeMsps(s[..i])
    {
      var msp := s[i];
      var m: Fields := map[IdKey := Text(msp.id), MspIDKey := Text(msp.mspID)];
      if msp.mspType != "" {
        m := m[MspTypeKey := Text(msp.mspType)];
      }
      if msp.path != "" {
        m := m[PathKey := Text(msp.path)];
      }
      msps := msps + [Node(m)];
    }
    assert s[..|s|] == s;
  }

  method BuildPeers(s: seq<Peer>) returns (peers: seq<Tree>)
    ensures peers == EncodePeers(s)
  {
    peers := [];
    for i := 0 to |s|
      invariant peers == EncodePeers(s[..i])
    {
      var p: Fields := map[AddressKey := Text(s[i].address)];
      if s[i].usage != "" {
        p := p[UsageKey := Text(s[i].usage)];
      }
      peers := peers + [Node(p)];
    }
    assert s[..|s|] == s;
  }

  method BuildQueryServices(s: seq<string>) returns (queryServices: seq<Tree>)
    ensures queryServices == EncodeQueryServices(s)
  {
    queryServices := [];
    for i := 0 to |s|
      invariant queryServices == EncodeQueryServices(s[..i])
    {
      queryServices := queryServices + [Node(map[AddressKey := Text(s[i])])];
    }
    assert s[..|s|] == s;
  }

  method BuildChannels(s: seq<Channel>) returns (channels: seq<Tree>)
    ensures channels == EncodeChannels(s)
  {
    channels := [];
    for i := 0 to |s|
      invariant channels == EncodeChannels(s[..i])
    {
      var c: Fields := map[NameKey := Text(s[i].name)];
      if s[i].default {
        c := c[DefaultKey := Flag(true)];
      }
      channels := channels + [Node(c)];
    }
    assert s[..|s|] == s;
  }

  method BuildAllTms(m: map<string, Tms>) returns (tms: Entries)
    ensures tms == EncodeAllTms(m)
  {
    tms := map[];
    var names := m.Keys;
    while names != {}
      invariant names <= m.Keys
      invariant tms == EncodeAllTms(m - names)
      decreases |names|
    {
      var name :| name in names;
      var tc := BuildTms(m[name]);
      tms := tms[name := Node(tc)];
      names := names - {name};
    }
    assert m - {} == m;
  }

  method BuildTms(t: Tms) returns (tc: Fields)
    ensures tc == EncodeTms(t)
  {
    tc := map[];
    if t.network != "" {
      tc := tc[NetworkKey := Text(t.network)];
    }
    if t.channel != "" {
      tc := tc[ChannelKey := Text(t.channel)];
    }
    if t.namespace != "" {
      tc := tc[NamespaceKey := Text(t.namespace)];
    }
    if t.driver != "" {
      tc := tc[DriverKey := Text(t.driver)];
    }
    if t.services.Some? && t.services.value.network.Some? && t.services.value.network.value.fabric.Some? {
      var fabric: Fields := map[];
      var endorsement := t.services.value.network.value.fabric.value.fscEndorsement;
      if endorsement.Some? {
        var fscEndorsement := BuildEndorsement(endorsement.value);
        fabric := fabric[FscEndorsementKey := Node(fscEndorsement)];
      }
      var network: Fields := map[FabricKey := Node(fabric)];
      tc := tc[ServicesKey := Node(map[NetworkKey := Node(network)])];
    }
    if t.publicParameters.Some? && t.publicParameters.value != "" {
      tc := tc[PublicParametersKey := Node(map[PathKey := Text(t.publicParameters.value)])];
    }
  }

  method BuildEndorsement(e: FscEndorsement) returns (fscEndorsement: Fields)
    ensures fscEndorsement == EncodeEndorsement(e)
  {
    fscEndorsement := map[];
    if e.endorser {
      fscEndorsement := fscEndorsement[EndorserKey := Flag(true)];
    }
    if e.id != "" {
      fscEndorsement := fscEndorsement[IdKey := Text(e.id)];
    }
    if e.policy.Some? {
      var policy: Fields := map[TypeKey := Text(e.policy.value.kind)];
      if e.policy.value.threshold > 0 {
        policy := policy[ThresholdKey := Number(e.policy.value.threshold)];
      }
      fscEndorsement := fscEndorsement[PolicyKey := Node(policy)];
    }
    if |e.endorsers| > 0 {
      fscEndorsement := fscEndorsement[EndorsersKey := Items(TextItems(e.endorsers))];
    }
  }
}
