/** Decoding the tree of a configuration gives the configuration back, less
    exactly the fields core.yaml does not carry. */
module CoreConfigRoundTrip {
  import opened Prelude
  import opened CoreConfig

  // What survives.

  function EraseIdentity(name: string, id: ResolverIdentity): ResolverIdentity {
    ResolverIdentity(id.id, if id.secretRef.Some? then ResolverPath(name) else id.path, None)
  }

  function EraseResolver(r: Resolver): Resolver {
    r.(identity := if r.identity.Some? then Some(EraseIdentity(r.name, r.identity.value)) else None)
  }

  function EraseResolvers(rs: seq<Resolver>): seq<Resolver> {
    seq(|rs|, i requires 0 <= i < |rs| => EraseResolver(rs[i]))
  }

  function EraseP2P(parse: Parser, p: P2P): P2P {
    p.(opts := if p.opts.Some? && p.opts.value.routing.Some?
               then Some(P2POptions(Some(Resolved(RoutingEntries(parse, p.opts.value.routing.value))))) else None)
  }

  function EraseFsc(parse: Parser, c: Fsc): Fsc {
    c.(cert := FileRef(CERT_FILE, None), key := FileRef(KEY_FILE, None), p2p := EraseP2P(parse, c.p2p),
       endpoint := if c.endpoint.Some? && c.endpoint.value != [] then Some(EraseResolvers(c.endpoint.value)) else None)
  }

  function EraseMsp(m: Msp): Msp {
    m.(secretRef := None)
  }

  function EraseMsps(s: seq<Msp>): seq<Msp> {
    seq(|s|, i requires 0 <= i < |s| => EraseMsp(s[i]))
  }

  function ErasePeer(p: Peer): Peer {
    p.(tlsRootCertFile := "", tlsRootCertSecretRef := None)
  }

  function ErasePeers(s: seq<Peer>): seq<Peer> {
    seq(|s|, i requires 0 <= i < |s| => ErasePeer(s[i]))
  }

  function EraseDefault(d: FabricDefault): FabricDefault {
    d.(msps := EraseMsps(d.msps), peers := ErasePeers(d.peers))
  }

  function EraseFabric(f: Fabric): Fabric {
    f.(default := if f.default.Some? then Some(EraseDefault(f.default.value)) else None)
  }

  function ErasePolicy(p: Policy): Policy {
    p.(threshold := if p.threshold > 0 then p.threshold else 0)
  }

  function EraseEndorsement(e: FscEndorsement): FscEndorsement {
    e.(policy := if e.policy.Some? then Some(ErasePolicy(e.policy.value)) else None)
  }

  function EraseFabricService(n: FabricNetwork): FabricNetwork {
    FabricNetwork(if n.fscEndorsement.Some? then Some(EraseEndorsement(n.fscEndorsement.value)) else None)
  }

  function OfFabric(n: FabricNetwork): Services {
    Services(Some(NetworkService(Some(n))))
  }

  function EraseTms(t: Tms): Tms {
    t.(wallets := map[],
       services := if HasFabricService(t.services)
                   then Some(OfFabric(EraseFabricService(t.services.value.network.value.fabric.value))) else None,
       publicParameters := if t.publicParameters == Some("") then None else t.publicParameters)
  }

  function EraseAllTms(m: map<string, Tms>): map<string, Tms> {
    map k | k in m :: EraseTms(m[k])
  }

  function EraseToken(t: Token): Token {
    t.(tms := EraseAllTms(t.tms))
  }

  /** The configuration without the fields that leave no trace in the tree:
      secret references (the resolvers' become the path of their mount), peer TLS
      roots, wallets, disabled sections, incomplete services, thresholds that are
      not positive, empty optional sections; routing becomes its resolved form. */
  function Erase(parse: Parser, c: Core): Core {
    Core(c.logging, EraseFsc(parse, c.fsc),
         if c.fabric.Some? && c.fabric.value.enabled then Some(EraseFabric(c.fabric.value)) else None,
         if c.token.Some? && c.token.value.enabled then Some(EraseToken(c.token.value)) else None)
  }

  // The decoder.

  function DecodeLogging(f: Fields): Logging {
    Logging(TextIn(At(f, SpecKey)), TextIn(At(f, FormatKey)))
  }

  function DecodeOpts(t: Option<Tree>): Option<P2POptions> {
    if t.Some? then Some(P2POptions(Some(Resolved(TableIn(At(NodeIn(t), RoutingKey)))))) else None
  }

  function DecodeP2P(f: Fields): P2P {
    P2P(TextIn(At(f, ListenAddressKey)), TextIn(At(f, TypeKey)), DecodeOpts(At(f, OptsKey)))
  }

  function DecodePersistence(f: Fields): Persistence {
    Persistence(TextIn(At(f, TypeKey)), TextsOf(TableIn(At(f, OptsKey))))
  }

  function DecodePersistences(e: Entries): map<string, Persistence> {
    map k | k in e :: DecodePersistence(FieldsOf(e[k]))
  }

  function DecodeIdentity(t: Option<Tree>): Option<ResolverIdentity> {
    if t.Some? then Some(ResolverIdentity(TextIn(At(NodeIn(t), IdKey)), TextIn(At(NodeIn(t), PathKey)), None)) else None
  }

  function DecodeResolver(f: Fields): Resolver {
    Resolver(TextIn(At(f, NameKey)), DecodeIdentity(At(f, IdentityKey)), TextsOf(TableIn(At(f, AddressesKey))))
  }

  function DecodeResolvers(s: seq<Tree>): seq<Resolver> {
    seq(|s|, i requires 0 <= i < |s| => DecodeResolver(FieldsOf(s[i])))
  }

  function DecodeEndpoint(t: Option<Tree>): Option<seq<Resolver>> {
    if t.Some? then Some(DecodeResolvers(ItemsIn(At(NodeIn(t), ResolversKey)))) else None
  }

  function DecodeFile(t: Option<Tree>): FileRef {
    FileRef(TextIn(At(NodeIn(t), FileKey)), None)
  }

  function DecodeFsc(f: Fields): Fsc {
    var identity := NodeIn(At(f, IdentityKey));
    Fsc(TextIn(At(f, IdKey)), DecodeFile(At(identity, CertKey)), DecodeFile(At(identity, KeyKey)),
        DecodeP2P(NodeIn(At(f, P2pKey))), DecodePersistences(TableIn(At(f, PersistencesKey))),
        DecodeEndpoint(At(f, EndpointKey)))
  }

  function DecodeMsp(f: Fields): Msp {
    Msp(TextIn(At(f, IdKey)), TextIn(At(f, MspTypeKey)), TextIn(At(f, MspIDKey)), TextIn(At(f, PathKey)), None)
  }

  function DecodeMsps(s: seq<Tree>): seq<Msp> {
    seq(|s|, i requires 0 <= i < |s| => DecodeMsp(FieldsOf(s[i])))
  }

  function DecodePeer(f: Fields): Peer {
    Peer(TextIn(At(f, AddressKey)), TextIn(At(f, UsageKey)), "", None)
  }

  function DecodePeers(s: seq<Tree>): seq<Peer> {
    seq(|s|, i requires 0 <= i < |s| => DecodePeer(FieldsOf(s[i])))
  }

  function DecodeQueryServices(s: seq<Tree>): seq<string> {
    seq(|s|, i requires 0 <= i < |s| => TextIn(At(FieldsOf(s[i]), AddressKey)))
  }

  function DecodeChannel(f: Fields): Channel {
    Channel(TextIn(At(f, NameKey)), FlagIn(At(f, DefaultKey)))
  }

  function DecodeChannels(s: seq<Tree>): seq<Channel> {
    seq(|s|, i requires 0 <= i < |s| => DecodeChannel(FieldsOf(s[i])))
  }

  function DecodeTls(t: Option<Tree>): Option<bool> {
    if t.Some? then Some(FlagIn(At(NodeIn(t), EnabledKey))) else None
  }

  function DecodeDefault(f: Fields): FabricDefault {
    FabricDefault(TextIn(At(f, DriverKey)), TextIn(At(f, DefaultMSPKey)), DecodeMsps(ItemsIn(At(f, MspsKey))),
                  DecodeTls(At(f, TlsKey)), DecodePeers(ItemsIn(At(f, PeersKey))),
                  DecodeQueryServices(ItemsIn(At(f, QueryServiceKey))), DecodeChannels(ItemsIn(At(f, ChannelsKey))))
  }

  function DecodeFabric(f: Fields): Fabric {
    Fabric(FlagIn(At(f, EnabledKey)),
           if At(f, DefaultKey).Some? then Some(DecodeDefault(NodeIn(At(f, DefaultKey)))) else None)
  }

  function DecodePolicy(t: Option<Tree>): Option<Policy> {
    if t.Some? then Some(Policy(TextIn(At(NodeIn(t), TypeKey)), NumberIn(At(NodeIn(t), ThresholdKey)))) else None
  }

  function DecodeTexts(s: seq<Tree>): seq<string> {
    seq(|s|, i requires 0 <= i < |s| => TextOf(s[i]))
  }

  function DecodeEndorsement(f: Fields): FscEndorsement {
    FscEndorsement(FlagIn(At(f, EndorserKey)), TextIn(At(f, IdKey)), DecodePolicy(At(f, PolicyKey)),
                   DecodeTexts(ItemsIn(At(f, EndorsersKey))))
  }

  function DecodeFabricService(f: Fields): FabricNetwork {
    var section := At(f, FscEndorsementKey);
    FabricNetwork(if section.Some? then Some(DecodeEndorsement(NodeIn(section))) else None)
  }

  function DecodeServices(t: Option<Tree>): Option<Services> {
    if t.Some?
    then Some(OfFabric(DecodeFabricService(NodeIn(At(NodeIn(At(NodeIn(t), NetworkKey)), FabricKey)))))
    else None
  }

  function DecodeParameters(t: Option<Tree>): Option<string> {
    if t.Some? then Some(TextIn(At(NodeIn(t), PathKey))) else None
  }

  function DecodeTms(f: Fields): Tms {
    Tms(TextIn(At(f, NetworkKey)), TextIn(At(f, ChannelKey)), TextIn(At(f, NamespaceKey)), TextIn(At(f, DriverKey)),
        map[], DecodeServices(At(f, ServicesKey)), DecodeParameters(At(f, PublicParametersKey)))
  }

  function DecodeAllTms(e: Entries): map<string, Tms> {
    map k | k in e :: DecodeTms(FieldsOf(e[k]))
  }

  function DecodeToken(f: Fields): Token {
    Token(FlagIn(At(f, EnabledKey)), DecodeAllTms(TableIn(At(f, TmsKey))))
  }

  function Decode(f: Fields): Core {
    Core(if At(f, LoggingKey).Some? then Some(DecodeLogging(NodeIn(At(f, LoggingKey)))) else None,
         DecodeFsc(NodeIn(At(f, FscKey))),
         if At(f, FabricKey).Some? then Some(DecodeFabric(NodeIn(At(f, FabricKey)))) else None,
         if At(f, TokenKey).Some? then Some(DecodeToken(NodeIn(At(f, TokenKey)))) else None)
  }

  // Round trips, section by section.

  lemma TextsRoundTrip(m: map<string, string>)
    ensures TextsOf(Texts(m)) == m
  {
  }

  lemma P2PRoundTrip(parse: Parser, p: P2P)
    ensures DecodeP2P(EncodeP2P(parse, p)) == EraseP2P(parse, p)
    ensures EncodeP2P(parse, EraseP2P(parse, p)) == EncodeP2P(parse, p)
  {
    assert EncodeOpts(parse, EraseP2P(parse, p).opts) == EncodeOpts(parse, p.opts);
  }

  lemma PersistenceRoundTrip(p: Persistence)
    ensures DecodePersistence(EncodePersistence(p)) == p
  {
    TextsRoundTrip(p.opts);
    assert TextsOf(map[]) == map[];
  }

  lemma PersistencesRoundTrip(m: map<string, Persistence>)
    ensures DecodePersistences(EncodePersistences(m)) == m
  {
    forall k | k in m
      ensures DecodePersistence(EncodePersistence(m[k])) == m[k]
    {
      PersistenceRoundTrip(m[k]);
    }
  }

  lemma ResolverRoundTrip(r: Resolver)
    ensures DecodeResolver(EncodeResolver(r)) == EraseResolver(r)
    ensures EncodeResolver(EraseResolver(r)) == EncodeResolver(r)
  {
    TextsRoundTrip(r.addresses);
    assert TextsOf(map[]) == map[];
    assert EncodeIdentity(r.name, EraseResolver(r).identity) == EncodeIdentity(r.name, r.identity);
  }

  lemma ResolversRoundTrip(rs: seq<Resolver>)
    ensures DecodeResolvers(EncodeResolvers(rs)) == EraseResolvers(rs)
    ensures EncodeResolvers(EraseResolvers(rs)) == EncodeResolvers(rs)
  {
    forall i | 0 <= i < |rs|
      ensures DecodeResolver(EncodeResolver(rs[i])) == EraseResolver(rs[i])
      ensures EncodeResolver(EraseResolver(rs[i])) == EncodeResolver(rs[i])
    {
      ResolverRoundTrip(rs[i]);
    }
  }

  lemma EndpointRoundTrip(parse: Parser, c: Fsc)
    ensures c.endpoint.Some? && c.endpoint.value != [] ==>
              DecodeEndpoint(Some(Node(EndpointFields(c.endpoint)))) == EraseFsc(parse, c).endpoint
    ensures EndpointFields(EraseFsc(parse, c).endpoint) == EndpointFields(c.endpoint)
  {
    if c.endpoint.Some? {
      ResolversRoundTrip(c.endpoint.value);
    }
  }

  lemma FscErased(parse: Parser, c: Fsc)
    ensures EncodeFsc(parse, EraseFsc(parse, c)) == EncodeFsc(parse, c)
  {
    P2PRoundTrip(parse, c.p2p);
    EndpointRoundTrip(parse, c);
  }

  lemma FscRoundTrip(parse: Parser, c: Fsc)
    ensures DecodeFsc(EncodeFsc(parse, c)) == EraseFsc(parse, c)
    ensures EncodeFsc(parse, EraseFsc(parse, c)) == EncodeFsc(parse, c)
  {
    P2PRoundTrip(parse, c.p2p);
    PersistencesRoundTrip(c.persistences);
    assert DecodePersistences(map[]) == map[];
    EndpointRoundTrip(parse, c);
    FscErased(parse, c);
  }

  lemma MspsRoundTrip(s: seq<Msp>)
    ensures DecodeMsps(EncodeMsps(s)) == EraseMsps(s) && EncodeMsps(EraseMsps(s)) == EncodeMsps(s)
  {
    forall i | 0 <= i < |s|
      ensures DecodeMsp(EncodeMsp(s[i])) == EraseMsp(s[i]) && EncodeMsp(EraseMsp(s[i])) == EncodeMsp(s[i])
    {
    }
  }

  lemma PeersRoundTrip(s: seq<Peer>)
    ensures DecodePeers(EncodePeers(s)) == ErasePeers(s) && EncodePeers(ErasePeers(s)) == EncodePeers(s)
  {
    forall i | 0 <= i < |s|
      ensures DecodePeer(EncodePeer(s[i])) == ErasePeer(s[i]) && EncodePeer(ErasePeer(s[i])) == EncodePeer(s[i])
    {
    }
  }

  lemma ChannelsRoundTrip(s: seq<Channel>)
    ensures DecodeChannels(EncodeChannels(s)) == s
  {
    forall i | 0 <= i < |s|
      ensures DecodeChannel(EncodeChannel(s[i])) == s[i]
    {
    }
  }

  lemma QueryServicesRoundTrip(s: seq<string>)
    ensures DecodeQueryServices(EncodeQueryServices(s)) == s
  {
    forall i | 0 <= i < |s|
      ensures TextIn(At(EncodeQueryService(s[i]), AddressKey)) == s[i]
    {
    }
  }

  function Maybe(emit: bool, t: Tree): Option<Tree> {
    if emit then Some(t) else None
  }

  lemma DefaultFields(d: FabricDefault)
    ensures var f := EncodeDefault(d);
            && At(f, DriverKey) == Maybe(d.driver != "", Text(d.driver))
            && At(f, DefaultMSPKey) == Maybe(d.defaultMSP != "", Text(d.defaultMSP))
            && At(f, MspsKey) == Maybe(d.msps != [], Items(EncodeMsps(d.msps)))
            && At(f, TlsKey) == Maybe(d.tls.Some?, Node(EncodeTls(d.tls)))
            && At(f, PeersKey) == Maybe(d.peers != [], Items(EncodePeers(d.peers)))
            && At(f, QueryServiceKey) == Maybe(d.queryService != [], Items(EncodeQueryServices(d.queryService)))
            && At(f, ChannelsKey) == Maybe(d.channels != [], Items(EncodeChannels(d.channels)))
  {
  }

  lemma DefaultReads(d: FabricDefault, f: Fields)
    requires At(f, DriverKey) == Maybe(d.driver != "", Text(d.driver))
    requires At(f, DefaultMSPKey) == Maybe(d.defaultMSP != "", Text(d.defaultMSP))
    requires At(f, MspsKey) == Maybe(d.msps != [], Items(EncodeMsps(d.msps)))
    requires At(f, TlsKey) == Maybe(d.tls.Some?, Node(EncodeTls(d.tls)))
    requires At(f, PeersKey) == Maybe(d.peers != [], Items(EncodePeers(d.peers)))
    requires At(f, QueryServiceKey) == Maybe(d.queryService != [], Items(EncodeQueryServices(d.queryService)))
    requires At(f, ChannelsKey) == Maybe(d.channels != [], Items(EncodeChannels(d.channels)))
    ensures DecodeDefault(f) == EraseDefault(d)
  {
    assert DecodeMsps([]) == EraseMsps([]) == [] && DecodePeers([]) == ErasePeers([]) == [];
    assert DecodeQueryServices([]) == [] && DecodeChannels([]) == [];
    MspsRoundTrip(d.msps);
    PeersRoundTrip(d.peers);
    ChannelsRoundTrip(d.channels);
    QueryServicesRoundTrip(d.queryService);
    assert DecodeTls(Some(Node(EncodeTls(d.tls)))) == d.tls || d.tls.None?;
  }

  lemma DefaultRoundTrip(d: FabricDefault)
    ensures DecodeDefault(EncodeDefault(d)) == EraseDefault(d)
    ensures EncodeDefault(EraseDefault(d)) == EncodeDefault(d)
  {
    DefaultFields(d);
    DefaultReads(d, EncodeDefault(d));
    MspsRoundTrip(d.msps);
    PeersRoundTrip(d.peers);
  }

  lemma EndorsementRoundTrip(e: FscEndorsement)
    ensures DecodeEndorsement(EncodeEndorsement(e)) == EraseEndorsement(e)
    ensures EncodeEndorsement(EraseEndorsement(e)) == EncodeEndorsement(e)
  {
    assert EncodePolicy(EraseEndorsement(e).policy) == EncodePolicy(e.policy);
    assert DecodeTexts(TextItems(e.endorsers)) == e.endorsers;
  }

  lemma ServicesRoundTrip(t: Tms)
    ensures HasFabricService(t.services) ==>
              DecodeServices(Some(Node(EncodeServices(t.services)))) == EraseTms(t).services
    ensures EncodeServices(EraseTms(t).services) == EncodeServices(t.services)
  {
    if HasFabricService(t.services) {
      var n := t.services.value.network.value.fabric.value;
      if n.fscEndorsement.Some? {
        EndorsementRoundTrip(n.fscEndorsement.value);
      }
      assert DecodeFabricService(EncodeFabricService(n)) == EraseFabricService(n);
      assert EncodeFabricService(EraseFabricService(n)) == EncodeFabricService(n);
    }
  }

  lemma TmsFields(t: Tms)
    ensures var f := EncodeTms(t);
            && At(f, NetworkKey) == Maybe(t.network != "", Text(t.network))
            && At(f, ChannelKey) == Maybe(t.channel != "", Text(t.channel))
            && At(f, NamespaceKey) == Maybe(t.namespace != "", Text(t.namespace))
            && At(f, DriverKey) == Maybe(t.driver != "", Text(t.driver))
            && At(f, ServicesKey) == Maybe(HasFabricService(t.services), Node(EncodeServices(t.services)))
            && At(f, PublicParametersKey) ==
               Maybe(t.publicParameters.Some? && t.publicParameters.value != "",
                     Node(EncodeParameters(t.publicParameters)))
  {
  }

  lemma TmsReads(t: Tms, f: Fields)
    requires At(f, NetworkKey) == Maybe(t.network != "", Text(t.network))
    requires At(f, ChannelKey) == Maybe(t.channel != "", Text(t.channel))
    requires At(f, NamespaceKey) == Maybe(t.namespace != "", Text(t.namespace))
    requires At(f, DriverKey) == Maybe(t.driver != "", Text(t.driver))
    requires At(f, ServicesKey) == Maybe(HasFabricService(t.services), Node(EncodeServices(t.services)))
    requires At(f, PublicParametersKey) ==
             Maybe(t.publicParameters.Some? && t.publicParameters.value != "",
                   Node(EncodeParameters(t.publicParameters)))
    ensures DecodeTms(f) == EraseTms(t)
  {
    ServicesRoundTrip(t);
  }

  lemma TmsErased(t: Tms)
    ensures EncodeTms(EraseTms(t)) == EncodeTms(t)
  {
    ServicesRoundTrip(t);
  }

  lemma TmsRoundTrip(t: Tms)
    ensures DecodeTms(EncodeTms(t)) == EraseTms(t)
    ensures EncodeTms(EraseTms(t)) == EncodeTms(t)
  {
    TmsFields(t);
    TmsReads(t, EncodeTms(t));
    TmsErased(t);
  }

  lemma AllTmsErased(m: map<string, Tms>)
    ensures EncodeAllTms(EraseAllTms(m)) == EncodeAllTms(m)
    ensures EraseAllTms(m) == map[] <==> m == map[]
  {
    forall k | k in m
      ensures EncodeTms(EraseTms(m[k])) == EncodeTms(m[k])
    {
      TmsErased(m[k]);
    }
    assert EraseAllTms(m).Keys == m.Keys;
  }

  lemma AllTmsRoundTrip(m: map<string, Tms>)
    ensures DecodeAllTms(EncodeAllTms(m)) == EraseAllTms(m)
    ensures EncodeAllTms(EraseAllTms(m)) == EncodeAllTms(m)
    ensures EraseAllTms(m) == map[] <==> m == map[]
  {
    AllTmsErased(m);
    forall k | k in m
      ensures DecodeTms(EncodeTms(m[k])) == EraseTms(m[k])
    {
      TmsRoundTrip(m[k]);
    }
  }

  lemma TokenRoundTrip(t: Token)
    requires t.enabled
    ensures DecodeToken(EncodeToken(t)) == EraseToken(t)
    ensures EncodeToken(EraseToken(t)) == EncodeToken(t)
  {
    AllTmsRoundTrip(t.tms);
    assert DecodeAllTms(map[]) == map[];
  }

  lemma FabricRoundTrip(f: Fabric)
    requires f.enabled
    ensures DecodeFabric(EncodeFabric(f)) == EraseFabric(f)
    ensures EncodeFabric(EraseFabric(f)) == EncodeFabric(f)
  {
    if f.default.Some? {
      DefaultRoundTrip(f.default.value);
    }
  }

  predicate Enabled(fabric: Option<Fabric>) {
    fabric.Some? && fabric.value.enabled
  }

  predicate TokenEnabled(token: Option<Token>) {
    token.Some? && token.value.enabled
  }

  lemma CoreFields(parse: Parser, c: Core)
    ensures var f := Encode(parse, c);
            && (if c.logging.Some?
                then At(f, LoggingKey) == Some(Node(EncodeLogging(c.logging.value)))
                else At(f, LoggingKey).None?)
            && At(f, FscKey) == Some(Node(EncodeFsc(parse, c.fsc)))
            && (if Enabled(c.fabric)
                then At(f, FabricKey) == Some(Node(EncodeFabric(c.fabric.value)))
                else At(f, FabricKey).None?)
            && (if TokenEnabled(c.token)
                then At(f, TokenKey) == Some(Node(EncodeToken(c.token.value)))
                else At(f, TokenKey).None?)
  {
  }

  /** Decoding looks at the four sections only. */
  lemma DecodeSections(f: Fields, logging: Option<Fields>, fsc: Fields, fabric: Option<Fields>, token: Option<Fields>)
    requires At(f, LoggingKey) == if logging.Some? then Some(Node(logging.value)) else None
    requires At(f, FscKey) == Some(Node(fsc))
    requires At(f, FabricKey) == if fabric.Some? then Some(Node(fabric.value)) else None
    requires At(f, TokenKey) == if token.Some? then Some(Node(token.value)) else None
    ensures Decode(f).logging == if logging.Some? then Some(DecodeLogging(logging.value)) else None
    ensures Decode(f).fsc == DecodeFsc(fsc)
    ensures Decode(f).fabric == if fabric.Some? then Some(DecodeFabric(fabric.value)) else None
    ensures Decode(f).token == if token.Some? then Some(DecodeToken(token.value)) else None
  {
  }

  lemma CoreReads(parse: Parser, c: Core, f: Fields)
    requires if c.logging.Some?
             then At(f, LoggingKey) == Some(Node(EncodeLogging(c.logging.value)))
             else At(f, LoggingKey).None?
    requires At(f, FscKey) == Some(Node(EncodeFsc(parse, c.fsc)))
    requires if Enabled(c.fabric)
             then At(f, FabricKey) == Some(Node(EncodeFabric(c.fabric.value)))
             else At(f, FabricKey).None?
    requires if TokenEnabled(c.token)
             then At(f, TokenKey) == Some(Node(EncodeToken(c.token.value)))
             else At(f, TokenKey).None?
    ensures Decode(f) == Erase(parse, c)
  {
    FscRoundTrip(parse, c.fsc);
    var fabric := if Enabled(c.fabric) then Some(EncodeFabric(c.fabric.value)) else None;
    var token := if TokenEnabled(c.token) then Some(EncodeToken(c.token.value)) else None;
    var logging := if c.logging.Some? then Some(EncodeLogging(c.logging.value)) else None;
    DecodeSections(f, logging, EncodeFsc(parse, c.fsc), fabric, token);
    if Enabled(c.fabric) {
      FabricRoundTrip(c.fabric.value);
    }
    if TokenEnabled(c.token) {
      TokenRoundTrip(c.token.value);
    }
  }

  /** Decoding the tree of a configuration gives its erasure. */
  lemma CoreRoundTrip(parse: Parser, c: Core)
    ensures Decode(Encode(parse, c)) == Erase(parse, c)
  {
    CoreFields(parse, c);
    CoreReads(parse, c, Encode(parse, c));
  }

  lemma EncodeDependsOn(parse: Parser, c: Core, c': Core)
    requires c.logging == c'.logging && EncodeFsc(parse, c.fsc) == EncodeFsc(parse, c'.fsc)
    requires Enabled(c.fabric) <==> Enabled(c'.fabric)
    requires Enabled(c.fabric) ==> EncodeFabric(c.fabric.value) == EncodeFabric(c'.fabric.value)
    requires TokenEnabled(c.token) <==> TokenEnabled(c'.token)
    requires TokenEnabled(c.token) ==> EncodeToken(c.token.value) == EncodeToken(c'.token.value)
    ensures Encode(parse, c) == Encode(parse, c')
  {
  }

  /** What is erased leaves no trace in the tree. */
  lemma ErasureUnseen(parse: Parser, c: Core)
    ensures Encode(parse, Erase(parse, c)) == Encode(parse, c)
  {
    FscRoundTrip(parse, c.fsc);
    if Enabled(c.fabric) {
      FabricRoundTrip(c.fabric.value);
    }
    if TokenEnabled(c.token) {
      TokenRoundTrip(c.token.value);
    }
    EncodeDependsOn(parse, Erase(parse, c), c);
  }

  /** Two configurations give the same tree exactly when their erasures agree. */
  lemma SameTreeIff(parse: Parser, c: Core, c': Core)
    ensures Encode(parse, c) == Encode(parse, c') <==> Erase(parse, c) == Erase(parse, c')
  {
    CoreRoundTrip(parse, c);
    CoreRoundTrip(parse, c');
    ErasureUnseen(parse, c);
    ErasureUnseen(parse, c');
  }
}
