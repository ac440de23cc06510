/** The messages of the WireGuard handshake and what both sides derive from them
    (whitepaper sections 5.4.2 to 5.4.5), for any compression, round and DH function. */
module Noise {
  import opened Words
  import opened Bits
  import opened Bytes
  import opened KdfSpec
  import opened AeadSpec
  import ChaCha20Spec
  import X25519Spec

  type Stamp12 = s: seq<u8> | |s| == 12 witness seq(12, _ => 0)
  type Tag16 = s: seq<u8> | |s| == 16 witness seq(16, _ => 0)
  type SealedStamp = s: seq<u8> | |s| == 28 witness seq(28, _ => 0)
  type SealedKey = s: seq<u8> | |s| == 48 witness seq(48, _ => 0)

  /** What is left abstract: BLAKE2s compression, ChaCha20 rounds, and x25519 as dh(private, public). */
  datatype Crypto = Crypto(compress: Compress, rounds: ChaCha20Spec.Rounds, dh: (Key, Key) -> Key)

  function ZeroKey(): Key {
    Zeros(32)
  }

  function BasePoint(): Key {
    [9] + Zeros(31)
  }

  function PublicKey(c: Crypto, private: Key): Key {
    c.dh(private, BasePoint())
  }

  /** All that is assumed of DH. */
  ghost predicate Commutes(c: Crypto) {
    forall a, b :: c.dh(a, PublicKey(c, b)) == c.dh(b, PublicKey(c, a))
  }

  function Ascii(text: string): seq<u8> {
    seq(|text|, i requires 0 <= i < |text| => text[i] as int % 256)
  }

  /** construction_hash and identifier_hash of wireguard_init. */
  function ConstructionHash(c: Crypto): Key {
    Hash(c.compress, Ascii("Noise_IKpsk2_25519_ChaChaPoly_BLAKE2s"))
  }

  function IdentifierHash(c: Crypto): Key {
    Hash(c.compress, ConstructionHash(c) + Ascii("WireGuard v1 zx2c4 Jason@zx2c4.com"))
  }

  /** wireguard_mac_key with LABEL_MAC1. */
  function LabelMac1Key(c: Crypto, publicKey: Key): Key {
    Hash(c.compress, Ascii("mac1----") + publicKey)
  }

  function MixHash(c: Crypto, hash: Key, data: seq<u8>): Key {
    Hash(c.compress, hash + data)
  }

  function Kdf(c: Crypto, ck: Key, data: seq<u8>, n: nat): Key
    requires 1 <= n < 256
  {
    Tau(c.compress, ck, data, n)
  }

  function SealWith(c: Crypto, key: Key, ad: Key, p: seq<u8>): (s: seq<u8>)
    ensures |s| == |p| + 16
  {
    Seal(c.rounds, key, 0, ad, p)
  }

  function SealKey(c: Crypto, key: Key, ad: Key, p: Key): SealedKey {
    SealWith(c, key, ad, p)
  }

  function SealStamp(c: Crypto, key: Key, ad: Key, p: Stamp12): SealedStamp {
    SealWith(c, key, ad, p)
  }

  function OpenWith(c: Crypto, key: Key, ad: Key, s: seq<u8>): (p: Option<seq<u8>>)
    ensures p.Some? ==> |s| == |p.value| + 16
  {
    Open(c.rounds, key, 0, ad, s)
  }

  lemma OpensWhatWasSealed(c: Crypto, key: Key, ad: Key, p: seq<u8>)
    ensures OpenWith(c, key, ad, SealWith(c, key, ad, p)) == Some(p)
  {
    OpenSeal(c.rounds, key, 0, ad, p, SealWith(c, key, ad, p));
  }

  /* ---- Messages ---- */

  datatype Initiation = Initiation(sender: u32, ephemeral: Key, encStatic: SealedKey, encTimestamp: SealedStamp, mac1: Tag16, mac2: Tag16)

  datatype Response = Response(sender: u32, receiver: u32, ephemeral: Key, encEmpty: Tag16, mac1: Tag16, mac2: Tag16)

  datatype Transport = Transport(receiver: u32, counter: u64, encPacket: seq<u8>)

  /** The bytes that mac1 covers, in the layout of the packed structs. */
  function InitiationBytes(sender: u32, ephemeral: Key, encStatic: SealedKey, encTimestamp: SealedStamp): seq<u8> {
    [1, 0, 0, 0] + ToLe(sender, 4) + ephemeral + encStatic + encTimestamp
  }

  function ResponseBytes(sender: u32, receiver: u32, ephemeral: Key, encEmpty: Tag16): seq<u8> {
    [2, 0, 0, 0] + ToLe(sender, 4) + ToLe(receiver, 4) + ephemeral + encEmpty
  }

  function Mac1(c: Crypto, labelKey: Key, message: seq<u8>): Tag16 {
    Mac(c.compress, labelKey, message)
  }

  predicate CheckMac1Initiation(c: Crypto, labelKey: Key, m: Initiation) {
    m.mac1 == Mac1(c, labelKey, InitiationBytes(m.sender, m.ephemeral, m.encStatic, m.encTimestamp))
  }

  predicate CheckMac1Response(c: Crypto, labelKey: Key, m: Response) {
    m.mac1 == Mac1(c, labelKey, ResponseBytes(m.sender, m.receiver, m.ephemeral, m.encEmpty))
  }

  /* ---- Key schedule ---- */

  /** A point of the schedule: chaining key, transcript hash, and the AEAD key for the next field. */
  datatype Point = Point(chainingKey: Key, hash: Key, key: Key)

  /** Up to msg.static: es is DH of the initiator's ephemeral and the responder's static key. */
  function StaticPoint(c: Crypto, responder: Key, ephemeral: Key, es: Key): Point {
    var ck := Kdf(c, ConstructionHash(c), ephemeral, 1);
    Point(Kdf(c, ck, es, 1), MixHash(c, MixHash(c, IdentifierHash(c), responder), ephemeral), Kdf(c, ck, es, 2))
  }

  /** Up to msg.timestamp: ss is DH of the two static keys. */
  function StampPoint(c: Crypto, p: Point, encStatic: SealedKey, ss: Key): Point {
    Point(Kdf(c, p.chainingKey, ss, 1), MixHash(c, p.hash, encStatic), Kdf(c, p.chainingKey, ss, 2))
  }

  /** Up to msg.empty of the response: ee and se are DH of the responder's ephemeral with the
      initiator's ephemeral and static keys, psk is the preshared key. */
  function EmptyPoint(c: Crypto, ck: Key, hash: Key, ephemeral: Key, ee: Key, se: Key, psk: Key): Point {
    var ck3 := Kdf(c, Kdf(c, Kdf(c, ck, ephemeral, 1), ee, 1), se, 1);
    Point(Kdf(c, ck3, psk, 1), MixHash(c, MixHash(c, hash, ephemeral), Kdf(c, ck3, psk, 2)), Kdf(c, ck3, psk, 3))
  }

  /** wireguard_clamp_private_key */
  function ClampKey(key: Key): (k: Key) {
    X25519Spec.Clamp(key)
  }
}
