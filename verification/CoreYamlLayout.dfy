/** What a reader of core.yaml finds under which key, field by field: the layout of
    the tree, stated without the functions that build it. */
module CoreYamlLayout {
  import opened Prelude
  import opened CoreConfig
  import opened CoreConfigRoundTrip

  /** What stands under a fixed key, a name, an index. */
  function Under(t: Option<Tree>, key: Field): Option<Tree> {
    if t.Some? && t.value.Node? && key in t.value.fields then Some(t.value.fields[key]) else None
  }

  function Named(t: Option<Tree>, name: string): Option<Tree> {
    if t.Some? && t.value.Table? && name in t.value.entries then Some(t.value.entries[name]) else None
  }

  function Nth(t: Option<Tree>, i: nat): Option<Tree> {
    if t.Some? && t.value.Items? && i < |t.value.items| then Some(t.value.items[i]) else None
  }

  /** A section of the tree. */
  function Section(fields: Fields): Option<Tree> {
    Some(Node(fields))
  }

  /** A text that is left out if it is empty. */
  function Optional(s: string): Option<Tree> {
    if s != "" then Some(Text(s)) else None
  }

  /** The table holds exactly these texts. */
  predicate HoldsTexts(t: Option<Tree>, m: map<string, string>) {
    if m == map[] then t == None
    else && t.Some? && t.value.Table? && t.value.entries.Keys == m.Keys
         && forall k :: k in m ==> t.value.entries[k] == Text(m[k])
  }

  /** The sections of the file: fabric and token only where they are enabled. */
  lemma CoreLayout(parse: Parser, c: Core)
    ensures var root := Section(Encode(parse, c));
            && Under(root, FscKey) == Section(EncodeFsc(parse, c.fsc))
            && Under(root, LoggingKey)
               == (if c.logging.None? then None
                   else Section(map[SpecKey := Text(c.logging.value.spec), FormatKey := Text(c.logging.value.format)]))
            && Under(root, FabricKey)
               == (if c.fabric.Some? && c.fabric.value.enabled then Section(EncodeFabric(c.fabric.value)) else None)
            && Under(root, TokenKey)
               == (if c.token.Some? && c.token.value.enabled then Section(EncodeToken(c.token.value)) else None)
  {
    CoreFields(parse, c);
    if c.logging.Some? {
      var logging := c.logging.value;
      assert EncodeLogging(logging) == map[SpecKey := Text(logging.spec), FormatKey := Text(logging.format)];
    }
  }

  /** The identity files are always the mounted ones. */
  lemma FscLayout(parse: Parser, c: Fsc)
    ensures var fsc := Section(EncodeFsc(parse, c));
            var identity := Under(fsc, IdentityKey);
            && Under(fsc, IdKey) == Some(Text(c.id))
            && Under(Under(identity, CertKey), FileKey)
               == Some(Text("/var/hyperledger/fabric/msp/signcerts/cert.pem"))
            && Under(Under(identity, KeyKey), FileKey) == Some(Text("/var/hyperledger/fabric/msp/keystore/key.pem"))
            && Under(fsc, P2pKey) == Section(EncodeP2P(parse, c.p2p))
            && (c.persistences == map[] <==> Under(fsc, PersistencesKey) == None)
            && (c.endpoint.None? || c.endpoint.value == [] <==> Under(fsc, EndpointKey) == None)
  {
    assert Under(Section(IdentityFiles()), CertKey) == Some(FileField(CERT_FILE));
    assert Under(Section(IdentityFiles()), KeyKey) == Some(FileField(KEY_FILE));
  }

  lemma P2PLayout(parse: Parser, p: P2P)
    ensures var p2p := Section(EncodeP2P(parse, p));
            && Under(p2p, ListenAddressKey) == Some(Text(p.listenAddress)) && Under(p2p, TypeKey) == Optional(p.kind)
            && (p.opts in {None, Some(P2POptions(None))} ==> Under(p2p, OptsKey) == None)
  {
  }

  /** Which of the inline document and the path wins: a document that is there and
      not empty does, even if it cannot be read and nothing comes of it. */
  lemma RoutingLayout(parse: Parser, p: P2P, path: string, inline: Option<string>)
    requires p.opts == Some(P2POptions(Some(Routing(path, inline))))
    ensures var routing := Under(Under(Section(EncodeP2P(parse, p)), OptsKey), RoutingKey);
            && (inline.Some? && inline.value != "" && parse(inline.value).Some? ==>
                  routing == Some(Table(parse(inline.value).value)))
            && (inline.Some? && inline.value != "" && parse(inline.value).None? ==> routing == Some(Table(map[])))
            && (inline in {None, Some("")} && path != "" ==> routing == Some(Table(map["path" := Text(path)])))
            && (inline in {None, Some("")} && path == "" ==> routing == Some(Table(map[])))
  {
  }

  lemma PersistencesLayout(parse: Parser, c: Fsc, name: string)
    requires name in c.persistences
    ensures Named(Under(Section(EncodeFsc(parse, c)), PersistencesKey), name)
            == Section(EncodePersistence(c.persistences[name]))
  {
  }

  lemma PersistenceLayout(p: Persistence)
    ensures var t := Section(EncodePersistence(p));
            Under(t, TypeKey) == Some(Text(p.kind)) && HoldsTexts(Under(t, OptsKey), p.opts)
  {
  }

  lemma ResolversLayout(parse: Parser, c: Fsc, i: nat)
    requires c.endpoint.Some? && i < |c.endpoint.value|
    ensures Nth(Under(Under(Section(EncodeFsc(parse, c)), EndpointKey), ResolversKey), i)
            == Section(EncodeResolver(c.endpoint.value[i]))
  {
  }

  /** A resolver's certificate is at the mount of its secret, if it refers to one,
      and otherwise where it says. */
  lemma ResolverLayout(r: Resolver)
    ensures var t := Section(EncodeResolver(r));
            && Under(t, NameKey) == Some(Text(r.name)) && HoldsTexts(Under(t, AddressesKey), r.addresses)
            && (r.identity.None? ==> Under(t, IdentityKey) == None)
  {
  }

  lemma IdentityLayout(r: Resolver, id: ResolverIdentity)
    requires r.identity == Some(id)
    ensures var identity := Under(Section(EncodeResolver(r)), IdentityKey);
            && Under(identity, IdKey) == Optional(id.id)
            && Under(identity, PathKey) ==
               if id.secretRef.Some? then Some(Text("/var/hyperledger/fabric/resolvers/" + r.name + "/cert.pem"))
               else Optional(id.path)
  {
  }

  lemma FabricLayout(f: Fabric)
    ensures var fabric := Section(EncodeFabric(f));
            && Under(fabric, EnabledKey) == Some(Flag(true))
            && Under(fabric, DefaultKey)
               == if f.default.Some? then Section(EncodeDefault(f.default.value)) else None
  {
  }

  lemma DefaultLayout(d: FabricDefault)
    ensures var t := Section(EncodeDefault(d));
            && Under(t, DriverKey) == Optional(d.driver) && Under(t, DefaultMSPKey) == Optional(d.defaultMSP)
            && (d.tls.None? ==> Under(t, TlsKey) == None)
            && (d.tls.Some? ==> Under(Under(t, TlsKey), EnabledKey) == Some(Flag(d.tls.value)))
            && (d.msps == [] <==> Under(t, MspsKey) == None) && (d.peers == [] <==> Under(t, PeersKey) == None)
            && (d.queryService == [] <==> Under(t, QueryServiceKey) == None)
            && (d.channels == [] <==> Under(t, ChannelsKey) == None)
  {
    DefaultFields(d);
  }

  lemma MspsLayout(d: FabricDefault, i: nat)
    requires i < |d.msps|
    ensures Nth(Under(Section(EncodeDefault(d)), MspsKey), i) == Section(EncodeMsp(d.msps[i]))
  {
    DefaultFields(d);
  }

  lemma MspLayout(m: Msp)
    ensures var t := Section(EncodeMsp(m));
            && Under(t, IdKey) == Some(Text(m.id)) && Under(t, MspIDKey) == Some(Text(m.mspID))
            && Under(t, MspTypeKey) == Optional(m.mspType) && Under(t, PathKey) == Optional(m.path)
  {
  }

  lemma PeersLayout(d: FabricDefault, i: nat)
    requires i < |d.peers|
    ensures var t := Nth(Under(Section(EncodeDefault(d)), PeersKey), i);
            Under(t, AddressKey) == Some(Text(d.peers[i].address)) && Under(t, UsageKey) == Optional(d.peers[i].usage)
  {
    DefaultFields(d);
  }

  lemma QueryServicesLayout(d: FabricDefault, i: nat)
    requires i < |d.queryService|
    ensures var t := Nth(Under(Section(EncodeDefault(d)), QueryServiceKey), i);
            Under(t, AddressKey) == Some(Text(d.queryService[i]))
  {
    DefaultFields(d);
  }

  lemma ChannelsLayout(d: FabricDefault, i: nat)
    requires i < |d.channels|
    ensures var t := Nth(Under(Section(EncodeDefault(d)), ChannelsKey), i);
            && Under(t, NameKey) == Some(Text(d.channels[i].name))
            && Under(t, DefaultKey) == if d.channels[i].default then Some(Flag(true)) else None
  {
    DefaultFields(d);
  }

  lemma TokenLayout(token: Token, name: string)
    ensures var t := Section(EncodeToken(token));
            && Under(t, EnabledKey) == Some(Flag(true)) && (token.tms == map[] <==> Under(t, TmsKey) == None)
            && (name in token.tms ==> Named(Under(t, TmsKey), name) == Section(EncodeTms(token.tms[name])))
  {
  }

  /** One token management service. */
  lemma TmsLayout(tms: Tms)
    ensures var t := Section(EncodeTms(tms));
            && Under(t, NetworkKey) == Optional(tms.network) && Under(t, ChannelKey) == Optional(tms.channel)
            && Under(t, NamespaceKey) == Optional(tms.namespace) && Under(t, DriverKey) == Optional(tms.driver)
            && Under(Under(t, PublicParametersKey), PathKey)
               == (if tms.publicParameters.Some? then Optional(tms.publicParameters.value) else None)
  {
    TmsFields(tms);
  }

  /** Its endorsement service, three levels down. */
  lemma ServicesLayout(tms: Tms)
    ensures var fabric := Under(Under(Under(Section(EncodeTms(tms)), ServicesKey), NetworkKey), FabricKey);
            if tms.services.Some? && tms.services.value.network.Some? && tms.services.value.network.value.fabric.Some?
            then
              var e := tms.services.value.network.value.fabric.value.fscEndorsement;
              Under(fabric, FscEndorsementKey) == if e.Some? then Section(EncodeEndorsement(e.value)) else None
            else Under(Section(EncodeTms(tms)), ServicesKey) == None
  {
    TmsFields(tms);
  }

  lemma EndorsementLayout(e: FscEndorsement)
    ensures var t := Section(EncodeEndorsement(e));
            && Under(t, EndorserKey) == (if e.endorser then Some(Flag(true)) else None)
            && Under(t, IdKey) == Optional(e.id)
            && (e.policy.None? ==> Under(t, PolicyKey) == None)
            && (e.policy.Some? ==>
                  && Under(Under(t, PolicyKey), TypeKey) == Some(Text(e.policy.value.kind))
                  && Under(Under(t, PolicyKey), ThresholdKey)
                     == if e.policy.value.threshold > 0 then Some(Number(e.policy.value.threshold)) else None)
            && (e.endorsers == [] <==> Under(t, EndorsersKey) == None)
            && forall i: nat :: i < |e.endorsers| ==> Nth(Under(t, EndorsersKey), i) == Some(Text(e.endorsers[i]))
  {
  }
}
