/** The signed namespace transaction and the public key it carries.  Signing,
    hashing, protobuf and PEM/X.509 parsing belong to libraries; they are
    parameters here, with the laws the libraries promise as hypotheses. */
module Envelope {
  import opened Prelude

  type Bytes = string

  datatype ReadWrite = ReadWrite(key: Bytes, val: Bytes, version: Option<nat>)
  datatype TxNamespace = TxNamespace(nsID: string, nsVersion: nat, readWrites: seq<ReadWrite>)
  datatype Endorsement = Endorsement(signature: Bytes, mspID: string, idBytes: Bytes)
  datatype Tx = Tx(namespaces: seq<TxNamespace>, endorsements: seq<Endorsement>)
  datatype SignatureHeader = SignatureHeader(creator: Bytes, nonce: Bytes)
  datatype ChannelHeader = ChannelHeader(channel: string, txID: string)
  datatype Payload = Payload(channelHeader: ChannelHeader, signatureHeader: SignatureHeader, data: Bytes)
  datatype SignedEnvelope = SignedEnvelope(payload: Bytes, signature: Bytes)

  /** The signer and the encodings.  Signing is randomised and may fail, so it
      also takes the number of the signing request. */
  datatype Library = Library(
    creator: Bytes,
    mspID: string,
    idBytes: Bytes,
    sign: (Bytes, nat) -> Option<Bytes>,
    verify: (Bytes, Bytes) -> bool,
    asn1: (TxNamespace, string) -> Option<Bytes>,
    computeTxID: (Bytes, Bytes) -> string,
    marshalPolicy: (string, Bytes) -> Bytes,
    marshalTx: Tx -> Bytes,
    marshalPayload: Payload -> Bytes)

  /** What the signer produces, the verifier accepts; a transaction id is the hex
      form of a digest and so never empty. */
  ghost predicate Lawful(lib: Library) {
    && (forall msg, n :: lib.sign(msg, n).Some? ==> lib.verify(msg, lib.sign(msg, n).value))
    && (forall nonce, creator :: lib.computeTxID(nonce, creator) != "")
  }

  /** The receiver's view: endorsement `i` verifies over namespace `i` and the
      transaction id, by the identity of the creator. */
  predicate Endorsed(lib: Library, ns: TxNamespace, txID: string, e: Endorsement) {
    && lib.asn1(ns, txID).Some?
    && lib.verify(lib.asn1(ns, txID).value, e.signature)
    && e.mspID == lib.mspID && e.idBytes == lib.idBytes
  }

  /** Everything a receiver checks about the envelope of `namespaces`. */
  ghost predicate Sound(lib: Library, nonce: Bytes, channel: string, namespaces: seq<TxNamespace>,
                        env: SignedEnvelope, txID: string)
  {
    exists tx: Tx ::
      var payload := Payload(ChannelHeader(channel, txID), SignatureHeader(lib.creator, nonce), lib.marshalTx(tx));
      && tx.namespaces == namespaces && |tx.endorsements| == |namespaces|
      && (forall i :: 0 <= i < |namespaces| ==> Endorsed(lib, namespaces[i], txID, tx.endorsements[i]))
      && txID == lib.computeTxID(payload.signatureHeader.nonce, payload.signatureHeader.creator)
      && env.payload == lib.marshalPayload(payload)
      && lib.verify(env.payload, env.signature)
  }

  /** Some signing request or encoding failed. */
  predicate CannotSign(lib: Library, nonce: Bytes, namespaces: seq<TxNamespace>) {
    var txID := lib.computeTxID(nonce, lib.creator);
    exists i :: 0 <= i < |namespaces| &&
      (lib.asn1(namespaces[i], txID).None? || lib.sign(lib.asn1(namespaces[i], txID).value, i).None?)
  }

  /** The signer or an encoding may fail at all. */
  ghost predicate SigningFails(lib: Library) {
    (exists ns, txID :: lib.asn1(ns, txID).None?) || exists msg, n :: lib.sign(msg, n).None?
  }

  /** createSignedEnvelope with createEnvelope. */
  method CreateSignedEnvelope(lib: Library, nonce: Bytes, channel: string, tx: Tx)
    returns (r: Option<(SignedEnvelope, string)>)
    requires Lawful(lib)
    ensures r.Some? ==> Sound(lib, nonce, channel, tx.namespaces, r.value.0, r.value.1)
    ensures CannotSign(lib, nonce, tx.namespaces) ==> r.None?
    ensures r.None? && !CannotSign(lib, nonce, tx.namespaces) ==> exists msg :: lib.sign(msg, |tx.namespaces|).None?
  {
    var txID := lib.computeTxID(nonce, lib.creator);
    var endorsements: seq<Endorsement> := [];
    for idx := 0 to |tx.namespaces|
      invariant |endorsements| == idx
      invariant forall i :: 0 <= i < idx ==> Endorsed(lib, tx.namespaces[i], txID, endorsements[i])
      invariant forall i :: 0 <= i < idx ==> lib.sign(lib.asn1(tx.namespaces[i], txID).value, i).Some?
    {
      var msg := lib.asn1(tx.namespaces[idx], txID);
      if msg.None? { return None; }
      var sig := lib.sign(msg.value, idx);
      if sig.None? { return None; }
      endorsements := endorsements + [Endorsement(sig.value, lib.mspID, lib.idBytes)];
    }
    var signed := Tx(tx.namespaces, endorsements);
    var payload := Payload(ChannelHeader(channel, txID), SignatureHeader(lib.creator, nonce), lib.marshalTx(signed));
    var payloadBytes := lib.marshalPayload(payload);
    var sig := lib.sign(payloadBytes, |tx.namespaces|);
    if sig.None? { return None; }
    r := Some((SignedEnvelope(payloadBytes, sig.value), txID));
  }

  /** createNamespacesTx: one write to the meta namespace; the version is set only
      when an existing policy is updated. */
  function NamespacesTx(metaID: string, policy: Bytes, nsID: string, nsVersion: int): Tx {
    var version := if nsVersion >= 0 then Some(nsVersion) else None;
    Tx([TxNamespace(metaID, 0, [ReadWrite(nsID, policy, version)])], [])
  }

  datatype Block = Block(kind: string, bytes: Bytes)

  /** PEM and X.509 parsing: `decode` finds the next block and what follows it. */
  datatype Pem = Pem(
    decode: Bytes -> Option<(Block, Bytes)>,
    encode: Block -> Bytes,
    certificateKey: Bytes -> Option<Bytes>,
    isPublicKey: Bytes -> bool)

  /** Decoding consumes input. */
  ghost predicate Consumes(pem: Pem) {
    forall content :: pem.decode(content).Some? ==> |pem.decode(content).value.1| < |content|
  }

  /** The laws of RFC 7468 (sections 5 and 13) used below: an encoded block is
      read back alone, and the key taken from a certificate is a public key. */
  ghost predicate RoundTrips(pem: Pem) {
    && (forall b :: pem.decode(pem.encode(b)) == Some((b, "")))
    && (forall c :: pem.certificateKey(c).Some? ==> pem.isPublicKey(pem.certificateKey(c).value))
  }

  /** The key a block contributes, if it is usable. */
  function KeyOf(pem: Pem, b: Block): Option<Bytes> {
    if b.kind == "CERTIFICATE" then pem.certificateKey(b.bytes)
    else if b.kind == "PUBLIC KEY" && pem.isPublicKey(b.bytes) then Some(b.bytes)
    else None
  }

  /** A certificate contributes its key, a public key itself, anything else nothing. */
  lemma KeyOfKinds(pem: Pem, kind: string, bytes: Bytes)
    ensures KeyOf(pem, Block("CERTIFICATE", bytes)) == pem.certificateKey(bytes)
    ensures KeyOf(pem, Block("PUBLIC KEY", bytes)) == if pem.isPublicKey(bytes) then Some(bytes) else None
    ensures kind !in {"CERTIFICATE", "PUBLIC KEY"} ==> KeyOf(pem, Block(kind, bytes)) == None
  {
    assert "CERTIFICATE" != "PUBLIC KEY";
  }

  /** All blocks of a PEM file in order. */
  ghost function Blocks(pem: Pem, content: Bytes): seq<Block>
    requires Consumes(pem)
    decreases |content|
  {
    match pem.decode(content)
    case None => []
    case Some((b, rest)) => [b] + Blocks(pem, rest)
  }

  /** `i` is the first usable block. */
  ghost predicate FirstUsable(pem: Pem, blocks: seq<Block>, i: nat) {
    && i < |blocks| && KeyOf(pem, blocks[i]).Some?
    && forall j :: 0 <= j < i ==> KeyOf(pem, blocks[j]).None?
  }

  ghost predicate NoneUsable(pem: Pem, blocks: seq<Block>) {
    forall j :: 0 <= j < |blocks| ==> KeyOf(pem, blocks[j]).None?
  }

  /** The first usable block, if any is usable. */
  ghost function FirstOf(pem: Pem, blocks: seq<Block>): (i: nat)
    requires !NoneUsable(pem, blocks)
    ensures FirstUsable(pem, blocks, i)
    decreases |blocks|
  {
    if KeyOf(pem, blocks[0]).Some? then 0
    else
      assert forall j :: 0 < j < |blocks| ==> blocks[j] == blocks[1..][j - 1];
      FirstOf(pem, blocks[1..]) + 1
  }

  /** getPubKeyFromPemData: the first usable block decides. */
  method GetPubKeyFromPemData(pem: Pem, content: Bytes) returns (r: Option<Bytes>)
    requires Consumes(pem)
    ensures r.None? <==> NoneUsable(pem, Blocks(pem, content))
    ensures forall i: nat :: FirstUsable(pem, Blocks(pem, content), i) ==>
              r == Some(pem.encode(Block("PUBLIC KEY", KeyOf(pem, Blocks(pem, content)[i]).value)))
  {
    var pemContent := content;
    ghost var skipped: seq<Block> := [];
    while true
      invariant Blocks(pem, content) == skipped + Blocks(pem, pemContent)
      invariant NoneUsable(pem, skipped)
      decreases |pemContent|
    {
      var decoded := pem.decode(pemContent);
      if decoded.None? { break; }
      var (block, rest) := decoded.value;
      ghost var all := Blocks(pem, content);
      assert all[|skipped|] == block;
      pemContent := rest;
      var key: Option<Bytes> := None;
      if block.kind == "CERTIFICATE" {
        key := pem.certificateKey(block.bytes);
      } else if block.kind == "PUBLIC KEY" && pem.isPublicKey(block.bytes) {
        key := Some(block.bytes);
      }
      if key.Some? {
        assert FirstUsable(pem, all, |skipped|);
        assert forall i: nat :: FirstUsable(pem, all, i) ==> i == |skipped|;
        return Some(pem.encode(Block("PUBLIC KEY", key.value)));
      }
      skipped := skipped + [block];
    }
    assert Blocks(pem, content) == skipped;
    return None;
  }

  /** Extraction is a fixpoint on its own output. */
  lemma ExtractionIsFixpoint(pem: Pem, blocks: seq<Block>, i: nat)
    requires Consumes(pem) && RoundTrips(pem) && FirstUsable(pem, blocks, i)
    ensures var out := pem.encode(Block("PUBLIC KEY", KeyOf(pem, blocks[i]).value));
            && FirstUsable(pem, Blocks(pem, out), 0)
            && pem.encode(Block("PUBLIC KEY", KeyOf(pem, Blocks(pem, out)[0]).value)) == out
  {
    var b := Block("PUBLIC KEY", KeyOf(pem, blocks[i]).value);
    assert pem.decode(pem.encode(b)) == Some((b, ""));
    assert Blocks(pem, pem.encode(b)) == [b] + Blocks(pem, "");
  }
}
