/** The typed core configuration of an Endorser, the nested map core.yaml is
    marshalled from, and a decoder for it. */
module CoreConfig {
  import opened Prelude

  /** The fixed keys of core.yaml, each a constructor of the same spelling. */
  datatype Field =
    | LoggingKey | SpecKey | FormatKey | IdKey | IdentityKey | CertKey | KeyKey | FileKey | P2pKey
    | ListenAddressKey | TypeKey | OptsKey | RoutingKey | PathKey | PersistencesKey | EndpointKey
    | ResolversKey | NameKey | AddressesKey | FscKey | EnabledKey | DefaultKey | DriverKey | DefaultMSPKey
    | MspsKey | MspIDKey | MspTypeKey | TlsKey | PeersKey | AddressKey | UsageKey | QueryServiceKey
    | ChannelsKey | FabricKey | TokenKey | TmsKey | NetworkKey | ChannelKey | NamespaceKey | ServicesKey
    | FscEndorsementKey | EndorserKey | PolicyKey | ThresholdKey | EndorsersKey | PublicParametersKey

  /** A nested map: `Node` has fixed keys, the keys of a `Table` are the user's. */
  datatype Tree =
    | Text(text: string) | Flag(flag: bool) | Number(number: int)
    | Node(fields: Fields) | Table(entries: Entries) | Items(items: seq<Tree>)

  type Fields = map<Field, Tree>
  type Entries = map<string, Tree>

  datatype SecretRef = SecretRef(name: string, key: string, namespace: string)
  datatype FileRef = FileRef(file: string, secretRef: Option<SecretRef>)
  datatype Logging = Logging(spec: string, format: string)

  /** `Resolved` is the normal form: what routing contributes to the tree. */
  datatype Routing = Routing(path: string, inline: Option<string>) | Resolved(entries: Entries)
  datatype P2POptions = P2POptions(routing: Option<Routing>)
  datatype P2P = P2P(listenAddress: string, kind: string, opts: Option<P2POptions>)
  datatype Persistence = Persistence(kind: string, opts: map<string, string>)
  datatype ResolverIdentity = ResolverIdentity(id: string, path: string, secretRef: Option<SecretRef>)
  datatype Resolver = Resolver(name: string, identity: Option<ResolverIdentity>, addresses: map<string, string>)
  datatype Fsc = Fsc(id: string, cert: FileRef, key: FileRef, p2p: P2P, persistences: map<string, Persistence>,
                     endpoint: Option<seq<Resolver>>)

  datatype Msp = Msp(id: string, mspType: string, mspID: string, path: string, secretRef: Option<SecretRef>)
  datatype Peer = Peer(address: string, usage: string, tlsRootCertFile: string, tlsRootCertSecretRef: Option<SecretRef>)
  datatype Channel = Channel(name: string, default: bool)
  datatype FabricDefault = FabricDefault(driver: string, defaultMSP: string, msps: seq<Msp>, tls: Option<bool>,
                                         peers: seq<Peer>, queryService: seq<string>, channels: seq<Channel>)
  datatype Fabric = Fabric(enabled: bool, default: Option<FabricDefault>)

  datatype Policy = Policy(kind: string, threshold: int)
  datatype FscEndorsement = FscEndorsement(endorser: bool, id: string, policy: Option<Policy>, endorsers: seq<string>)
  datatype FabricNetwork = FabricNetwork(fscEndorsement: Option<FscEndorsement>)
  datatype NetworkService = NetworkService(fabric: Option<FabricNetwork>)
  datatype Services = Services(network: Option<NetworkService>)
  datatype Tms = Tms(network: string, channel: string, namespace: string, driver: string, wallets: map<string, string>,
                     services: Option<Services>, publicParameters: Option<string>)
  datatype Token = Token(enabled: bool, tms: map<string, Tms>)

  datatype Core = Core(logging: Option<Logging>, fsc: Fsc, fabric: Option<Fabric>, token: Option<Token>)

  const CERT_FILE := "/var/hyperledger/fabric/msp/signcerts/cert.pem"
  const KEY_FILE := "/var/hyperledger/fabric/msp/keystore/key.pem"

  function ResolverPath(name: string): (r: string)
    ensures r != ""
  {
    "/var/hyperledger/fabric/resolvers/" + name + "/cert.pem"
  }

  /** yaml.Unmarshal of an inline document; None on an error. */
  type Parser = string -> Option<Entries>

  // Reading a field of a tree, with the zero value for what is absent.

  function At(f: Fields, key: Field): Option<Tree> {
    if key in f then Some(f[key]) else None
  }

  function TextIn(t: Option<Tree>): string {
    if t.Some? && t.value.Text? then t.value.text else ""
  }

  function FlagIn(t: Option<Tree>): bool {
    t.Some? && t.value.Flag? && t.value.flag
  }

  function NumberIn(t: Option<Tree>): int {
    if t.Some? && t.value.Number? then t.value.number else 0
  }

  function NodeIn(t: Option<Tree>): Fields {
    if t.Some? && t.value.Node? then t.value.fields else map[]
  }

  function TableIn(t: Option<Tree>): Entries {
    if t.Some? && t.value.Table? then t.value.entries else map[]
  }

  function ItemsIn(t: Option<Tree>): seq<Tree> {
    if t.Some? && t.value.Items? then t.value.items else []
  }

  function FieldsOf(t: Tree): Fields {
    if t.Node? then t.fields else map[]
  }

  function TextOf(t: Tree): string {
    if t.Text? then t.text else ""
  }

  // Writing optional fields.

  /** `f` with one more field, if it is to be emitted. */
  function With(f: Fields, emit: bool, key: Field, t: Tree): Fields {
    if emit then f[key := t] else f
  }

  function Texts(m: map<string, string>): Entries {
    map k | k in m :: Text(m[k])
  }

  function TextsOf(e: Entries): map<string, string> {
    map k | k in e :: TextOf(e[k])
  }

  function TextItems(s: seq<string>): seq<Tree> {
    seq(|s|, i requires 0 <= i < |s| => Text(s[i]))
  }

  // Logging and FSC.

  function EncodeLogging(l: Logging): Fields {
    With(With(map[], true, SpecKey, Text(l.spec)), true, FormatKey, Text(l.format))
  }

  function RoutingEntries(parse: Parser, r: Routing): Entries {
    match r
    case Resolved(entries) => entries
    case Routing(path, inline) =>
      if inline.Some? && inline.value != "" then
        var parsed := parse(inline.value);
        if parsed.Some? then parsed.value else map[]
      else if path != "" then map["path" := Text(path)] else map[]
  }

  function EncodeOpts(parse: Parser, o: Option<P2POptions>): Fields {
    if o.Some? && o.value.routing.Some?
    then With(map[], true, RoutingKey, Table(RoutingEntries(parse, o.value.routing.value)))
    else map[]
  }

  function EncodeP2P(parse: Parser, p: P2P): Fields {
    var f := With(map[], true, ListenAddressKey, Text(p.listenAddress));
    var f := With(f, p.kind != "", TypeKey, Text(p.kind));
    With(f, p.opts.Some? && p.opts.value.routing.Some?, OptsKey, Node(EncodeOpts(parse, p.opts)))
  }

  function EncodePersistence(p: Persistence): Fields {
    With(With(map[], true, TypeKey, Text(p.kind)), p.opts != map[], OptsKey, Table(Texts(p.opts)))
  }

  function EncodePersistences(m: map<string, Persistence>): Entries {
    map k | k in m :: Node(EncodePersistence(m[k]))
  }

  function EncodeIdentity(name: string, id: Option<ResolverIdentity>): Fields {
    if id.None? then map[]
    else
      var f := With(map[], id.value.id != "", IdKey, Text(id.value.id));
      if id.value.secretRef.Some? then With(f, true, PathKey, Text(ResolverPath(name)))
      else With(f, id.value.path != "", PathKey, Text(id.value.path))
  }

  function EncodeResolver(r: Resolver): Fields {
    var f := With(map[], true, NameKey, Text(r.name));
    var f := With(f, r.identity.Some?, IdentityKey, Node(EncodeIdentity(r.name, r.identity)));
    With(f, r.addresses != map[], AddressesKey, Table(Texts(r.addresses)))
  }

  function EncodeResolvers(rs: seq<Resolver>): seq<Tree> {
    seq(|rs|, i requires 0 <= i < |rs| => Node(EncodeResolver(rs[i])))
  }

  function FileField(file: string): Tree {
    Node(With(map[], true, FileKey, Text(file)))
  }

  function IdentityFiles(): Fields {
    With(With(map[], true, CertKey, FileField(CERT_FILE)), true, KeyKey, FileField(KEY_FILE))
  }

  function EndpointFields(endpoint: Option<seq<Resolver>>): Fields {
    if endpoint.None? || endpoint.value == [] then map[]
    else With(map[], true, ResolversKey, Items(EncodeResolvers(endpoint.value)))
  }

  function EncodeFsc(parse: Parser, c: Fsc): Fields {
    var f := With(map[], true, IdKey, Text(c.id));
    var f := With(f, true, IdentityKey, Node(IdentityFiles()));
    var f := With(f, true, P2pKey, Node(EncodeP2P(parse, c.p2p)));
    var f := With(f, c.persistences != map[], PersistencesKey, Table(EncodePersistences(c.persistences)));
    With(f, c.endpoint.Some? && c.endpoint.value != [], EndpointKey, Node(EndpointFields(c.endpoint)))
  }

  // Fabric.

  function EncodeMsp(m: Msp): Fields {
    var f := With(With(map[], true, IdKey, Text(m.id)), true, MspIDKey, Text(m.mspID));
    With(With(f, m.mspType != "", MspTypeKey, Text(m.mspType)), m.path != "", PathKey, Text(m.path))
  }

  function EncodeMsps(s: seq<Msp>): seq<Tree> {
    seq(|s|, i requires 0 <= i < |s| => Node(EncodeMsp(s[i])))
  }

  function EncodePeer(p: Peer): Fields {
    With(With(map[], true, AddressKey, Text(p.address)), p.usage != "", UsageKey, Text(p.usage))
  }

  function EncodePeers(s: seq<Peer>): seq<Tree> {
    seq(|s|, i requires 0 <= i < |s| => Node(EncodePeer(s[i])))
  }

  function EncodeQueryService(address: string): Fields {
    With(map[], true, AddressKey, Text(address))
  }

  function EncodeQueryServices(s: seq<string>): seq<Tree> {
    seq(|s|, i requires 0 <= i < |s| => Node(EncodeQueryService(s[i])))
  }

  function EncodeChannel(c: Channel): Fields {
    With(With(map[], true, NameKey, Text(c.name)), c.default, DefaultKey, Flag(true))
  }

  function EncodeChannels(s: seq<Channel>): seq<Tree> {
    seq(|s|, i requires 0 <= i < |s| => Node(EncodeChannel(s[i])))
  }

  function EncodeTls(tls: Option<bool>): Fields {
    With(map[], tls.Some?, EnabledKey, Flag(tls.Some? && tls.value))
  }

  function EncodeDefault(d: FabricDefault): Fields {
    var f := With(map[], d.driver != "", DriverKey, Text(d.driver));
    var f := With(f, d.defaultMSP != "", DefaultMSPKey, Text(d.defaultMSP));
    var f := With(f, d.msps != [], MspsKey, Items(EncodeMsps(d.msps)));
    var f := With(f, d.tls.Some?, TlsKey, Node(EncodeTls(d.tls)));
    var f := With(f, d.peers != [], PeersKey, Items(EncodePeers(d.peers)));
    var f := With(f, d.queryService != [], QueryServiceKey, Items(EncodeQueryServices(d.queryService)));
    With(f, d.channels != [], ChannelsKey, Items(EncodeChannels(d.channels)))
  }

  function EncodeFabric(f: Fabric): Fields {
    With(With(map[], true, EnabledKey, Flag(true)), f.default.Some?, DefaultKey,
         Node(if f.default.Some? then EncodeDefault(f.default.value) else map[]))
  }

  // Token.

  function EncodePolicy(p: Option<Policy>): Fields {
    if p.None? then map[]
    else With(With(map[], true, TypeKey, Text(p.value.kind)), p.value.threshold > 0, ThresholdKey,
              Number(p.value.threshold))
  }

  function EncodeEndorsement(e: FscEndorsement): Fields {
    var f := With(map[], e.endorser, EndorserKey, Flag(true));
    var f := With(f, e.id != "", IdKey, Text(e.id));
    var f := With(f, e.policy.Some?, PolicyKey, Node(EncodePolicy(e.policy)));
    With(f, e.endorsers != [], EndorsersKey, Items(TextItems(e.endorsers)))
  }

  predicate HasFabricService(s: Option<Services>) {
    s.Some? && s.value.network.Some? && s.value.network.value.fabric.Some?
  }

  function EncodeFabricService(n: FabricNetwork): Fields {
    With(map[], n.fscEndorsement.Some?, FscEndorsementKey,
         Node(if n.fscEndorsement.Some? then EncodeEndorsement(n.fscEndorsement.value) else map[]))
  }

  function EncodeServices(s: Option<Services>): Fields {
    if HasFabricService(s) then
      var fabric := EncodeFabricService(s.value.network.value.fabric.value);
      With(map[], true, NetworkKey, Node(With(map[], true, FabricKey, Node(fabric))))
    else map[]
  }

  function EncodeParameters(path: Option<string>): Fields {
    if path.Some? then With(map[], true, PathKey, Text(path.value)) else map[]
  }

  function EncodeTms(t: Tms): Fields {
    var f := With(map[], t.network != "", NetworkKey, Text(t.network));
    var f := With(f, t.channel != "", ChannelKey, Text(t.channel));
    var f := With(f, t.namespace != "", NamespaceKey, Text(t.namespace));
    var f := With(f, t.driver != "", DriverKey, Text(t.driver));
    var f := With(f, HasFabricService(t.services), ServicesKey, Node(EncodeServices(t.services)));
    With(f, t.publicParameters.Some? && t.publicParameters.value != "", PublicParametersKey,
         Node(EncodeParameters(t.publicParameters)))
  }

  function EncodeAllTms(m: map<string, Tms>): Entries {
    map k | k in m :: Node(EncodeTms(m[k]))
  }

  function EncodeToken(t: Token): Fields {
    With(With(map[], true, EnabledKey, Flag(true)), t.tms != map[], TmsKey, Table(EncodeAllTms(t.tms)))
  }

  /** The tree of a configuration. */
  function Encode(parse: Parser, c: Core): Fields {
    var f := With(map[], c.logging.Some?, LoggingKey,
                  Node(if c.logging.Some? then EncodeLogging(c.logging.value) else map[]));
    var f := With(f, true, FscKey, Node(EncodeFsc(parse, c.fsc)));
    var fabric, token := c.fabric.Some? && c.fabric.value.enabled, c.token.Some? && c.token.value.enabled;
    var f := With(f, fabric, FabricKey, Node(if fabric then EncodeFabric(c.fabric.value) else map[]));
    With(f, token, TokenKey, Node(if token then EncodeToken(c.token.value) else map[]))
  }
}
