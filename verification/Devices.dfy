/** What the two sides of the handshake compute, as section 5.4 of the whitepaper writes it,
    and that they compute the same. */
module HandshakeSpec {
  import opened Words
  import opened KdfSpec
  import opened AeadSpec
  import opened Noise

  /** The initiation's fields and the symmetric state it leaves. */
  datatype InitiationParts = InitiationParts(ephemeral: Key, encStatic: SealedKey, encTimestamp: SealedStamp, hash: Key, chainingKey: Key)

  /** The initiator's side: `private` is its ephemeral key, ss the DH of the static keys. */
  function MakeInitiation(c: Crypto, private: Key, initiator: Key, responder: Key, ss: Key, stamp: Stamp12): InitiationParts
  {
    var e := PublicKey(c, private);
    var p1 := StaticPoint(c, responder, e, c.dh(private, responder));
    var encStatic := SealKey(c, p1.key, p1.hash, initiator);
    var p2 := StampPoint(c, p1, encStatic, ss);
    var encTimestamp := SealStamp(c, p2.key, p2.hash, stamp);
    InitiationParts(e, encStatic, encTimestamp, MixHash(c, p2.hash, encTimestamp), p2.chainingKey)
  }

  /** DH generation and DH with the responder give nonzero results. */
  predicate CanInitiate(c: Crypto, private: Key, responder: Key)
  {
    private != ZeroKey() && PublicKey(c, private) != ZeroKey() && c.dh(private, responder) != ZeroKey()
  }

  /** What the responder reads from an initiation of the peer it knows. */
  datatype Reading = Reading(stamp: Stamp12, hash: Key, chainingKey: Key)

  function ReadInitiation(c: Crypto, private: Key, responder: Key, initiator: Key, ss: Key,
                          ephemeral: Key, encStatic: SealedKey, encTimestamp: SealedStamp): Option<Reading>
  {
    var es := c.dh(private, ephemeral);
    var p1 := StaticPoint(c, responder, ephemeral, es);
    var p2 := StampPoint(c, p1, encStatic, ss);
    var s := OpenWith(c, p1.key, p1.hash, encStatic);
    var t := OpenWith(c, p2.key, p2.hash, encTimestamp);
    if es == ZeroKey() || s.None? || s.value != initiator || t.None? then None
    else Some(Reading(t.value, MixHash(c, p2.hash, encTimestamp), p2.chainingKey))
  }

  /** The responder reads what the initiator wrote, and both are left with the same hash and chaining key. */
  lemma InitiationAgrees(c: Crypto, private: Key, initiatorPrivate: Key, responderPrivate: Key, stamp: Stamp12)
    requires Commutes(c) && CanInitiate(c, private, PublicKey(c, responderPrivate))
    ensures var i, r := PublicKey(c, initiatorPrivate), PublicKey(c, responderPrivate);
      var parts := MakeInitiation(c, private, i, r, c.dh(initiatorPrivate, r), stamp);
      ReadInitiation(c, responderPrivate, r, i, c.dh(responderPrivate, i), parts.ephemeral, parts.encStatic, parts.encTimestamp)
        == Some(Reading(stamp, parts.hash, parts.chainingKey))
  {
    hide StaticPoint, StampPoint, MixHash, SealWith, OpenWith;
    var i, r := PublicKey(c, initiatorPrivate), PublicKey(c, responderPrivate);
    var e, ss := PublicKey(c, private), c.dh(initiatorPrivate, r);
    var p1 := StaticPoint(c, r, e, c.dh(private, r));
    OpensWhatWasSealed(c, p1.key, p1.hash, i);
    var p2 := StampPoint(c, p1, SealWith(c, p1.key, p1.hash, i), ss);
    OpensWhatWasSealed(c, p2.key, p2.hash, stamp);
  }

  datatype ResponseParts = ResponseParts(ephemeral: Key, encEmpty: Tag16, hash: Key, chainingKey: Key)

  /** The responder's side of the second message. */
  function MakeResponse(c: Crypto, ck: Key, hash: Key, private: Key, remoteEphemeral: Key, initiator: Key, psk: Key): ResponseParts
  {
    var e := PublicKey(c, private);
    var p := EmptyPoint(c, ck, hash, e, c.dh(private, remoteEphemeral), c.dh(private, initiator), psk);
    var encEmpty := SealWith(c, p.key, p.hash, []);
    ResponseParts(e, encEmpty, MixHash(c, p.hash, encEmpty), p.chainingKey)
  }

  predicate CanRespond(c: Crypto, private: Key, remoteEphemeral: Key, initiator: Key)
  {
    && private != ZeroKey() && PublicKey(c, private) != ZeroKey()
    && c.dh(private, remoteEphemeral) != ZeroKey() && c.dh(private, initiator) != ZeroKey()
  }

  /** The initiator's reading of a response: the final symmetric state, if the tag is right. */
  function ReadResponse(c: Crypto, ck: Key, hash: Key, ephemeralPrivate: Key, private: Key, psk: Key, ephemeral: Key, encEmpty: Tag16): Option<Point>
  {
    var ee, se := c.dh(ephemeralPrivate, ephemeral), c.dh(private, ephemeral);
    var p := EmptyPoint(c, ck, hash, ephemeral, ee, se, psk);
    if ee == ZeroKey() || se == ZeroKey() || OpenWith(c, p.key, p.hash, encEmpty).None? then None else Some(p)
  }

  /** From one chaining key and hash, both sides reach the same chaining key. */
  lemma ResponseAgrees(c: Crypto, ck: Key, hash: Key, private: Key, initiatorEphemeral: Key, initiatorPrivate: Key, psk: Key)
    requires Commutes(c) && CanRespond(c, private, PublicKey(c, initiatorEphemeral), PublicKey(c, initiatorPrivate))
    ensures var parts := MakeResponse(c, ck, hash, private, PublicKey(c, initiatorEphemeral), PublicKey(c, initiatorPrivate), psk);
      var read := ReadResponse(c, ck, hash, initiatorEphemeral, initiatorPrivate, psk, parts.ephemeral, parts.encEmpty);
      read.Some? && read.value.chainingKey == parts.chainingKey
  {
    hide EmptyPoint, MixHash, SealWith, OpenWith;
    var e, ie, i := PublicKey(c, private), PublicKey(c, initiatorEphemeral), PublicKey(c, initiatorPrivate);
    var p := EmptyPoint(c, ck, hash, e, c.dh(private, ie), c.dh(private, i), psk);
    OpensWhatWasSealed(c, p.key, p.hash, []);
  }
}

/** The device: handshake messages made and processed, and the handlers of wireguardif.c. */
module Devices {
  import opened Words
  import opened Bits
  import opened Bytes
  import opened KdfSpec
  import opened AeadSpec
  import opened Noise
  import opened HandshakeSpec
  import opened Sessions
  import opened Peers
  import opened Sets
  import Tai64n
  import X25519Spec

  /** `(last_initiation_rx - now) < (1000 / MAX_INITIATIONS_PER_SECOND)`, on 32 bits. */
  predicate RateLimited(lastRx: u32, now: u32)
  {
    Sub32(lastRx, now) < 500
  }

  /** An initiation newer than any before it and, by the code's 32-bit `last - now`, not held back. */
  predicate IsFresh(stamp: Stamp12, greatest: Stamp12, lastRx: u32, now: u32)
  {
    Tai64n.Compare(stamp, greatest) > 0 && !RateLimited(lastRx, now)
  }

  /** The rate test holds an initiation back in the same millisecond as the last one, and again only in
      the last half second before the clock has gone once around. */
  lemma RateLimitIs(lastRx: u32, now: u32)
    ensures RateLimited(lastRx, now) <==> now == lastRx || Sub32(now, lastRx) > W32 - 500
  {
  }

  /** It is the limit to one initiation in 500 ms exactly for equal readings and for those between
      500 ms and 2^32 - 500 ms apart. */
  lemma RateLimitHolds(lastRx: u32, now: u32)
    ensures (RateLimited(lastRx, now) <==> Sub32(now, lastRx) < 500) <==> now == lastRx || 500 <= Sub32(now, lastRx) <= W32 - 500
  {
  }

  /** An initiation with a newer stamp is accepted one millisecond after the last, whatever the time. */
  lemma NotHeldBack(stamp: Stamp12, last: Stamp12, lastRx: u32)
    ensures IsFresh(stamp, last, lastRx, (lastRx as int + 1) % W32) <==> Tai64n.Compare(stamp, last) > 0
  {
    hide Tai64n.Compare;
  }

  /** The handshake a reading leaves; the local index stays what it was. */
  function Accepted(h: Handshake, r: Reading, sender: u32, ephemeral: Key): Handshake
  {
    h.(valid := true, initiator := false, remoteIndex := sender, remoteEphemeral := ephemeral, hash := r.hash, chainingKey := r.chainingKey)
  }

  function InitiationOf(c: Crypto, parts: InitiationParts, sender: u32, labelKey: Key, mac2: Tag16): Initiation
  {
    Initiation(sender, parts.ephemeral, parts.encStatic, parts.encTimestamp,
               Mac1(c, labelKey, InitiationBytes(sender, parts.ephemeral, parts.encStatic, parts.encTimestamp)), mac2)
  }

  function ResponseOf(c: Crypto, parts: ResponseParts, sender: u32, receiver: u32, labelKey: Key, mac2: Tag16): Response
  {
    Response(sender, receiver, parts.ephemeral, parts.encEmpty,
             Mac1(c, labelKey, ResponseBytes(sender, receiver, parts.ephemeral, parts.encEmpty)), mac2)
  }

  /** Seven different draws: enough to miss 0, 0xFFFFFFFF and the four indices of the peer. */
  predicate Rich(draws: seq<u32>)
  {
    |Drawn(draws)| >= 7
  }

  function Drawn(draws: seq<u32>): set<u32> {
    set x | x in draws
  }

  lemma RichYields(draws: seq<u32>, v: View)
    requires Rich(draws)
    ensures Yields(draws, v)
  {
    var drawn := Drawn(draws);
    var taken: set<u32> := {0, 0xffff_ffff, v.curr.localIndex, v.prev.localIndex, v.next.localIndex, v.handshake.localIndex};
    SmallSet(taken, 0, 0xffff_ffff, v.curr.localIndex, v.prev.localIndex, v.next.localIndex, v.handshake.localIndex);
    if forall x :: x in drawn ==> x in taken {
      SubsetCount(drawn, taken);
      assert false;
    }
    var x :| x in drawn && x !in taken;
    var i :| 0 <= i < |draws| && draws[i] == x;
    assert Fresh(draws[i], v);
  }

  lemma SmallSet(s: set<u32>, a: u32, b: u32, c: u32, d: u32, e: u32, f: u32)
    requires s == {a, b, c, d, e, f}
    ensures |s| <= 6
  {
  }

  /** wireguardif_can_send_initiation */
  predicate MayInitiate(lastInitiationTx: u32, now: u32)
  {
    lastInitiationTx == 0 || Expired(lastInitiationTx, REKEY_TIMEOUT, now)
  }

  /** should_send_initiation */
  predicate ShouldInitiate(curr: Keypair, sendHandshake: bool, active: bool, lastInitiationTx: u32, keepalive: u16, now: u32)
  {
    && MayInitiate(lastInitiationTx, now)
    && (sendHandshake
        || (curr.valid && !curr.initiator && Expired(curr.millis, (REJECT_AFTER_TIME as int - keepalive as int) % W32, now))
        || (!curr.valid && active))
  }

  /** should_send_keepalive */
  predicate ShouldKeepAlive(curr: Keypair, prev: Keypair, lastTx: u32, keepalive: u16, now: u32)
  {
    keepalive > 0 && (curr.valid || prev.valid) && Expired(lastTx, keepalive, now)
  }

  class Device {
    const c: Crypto
    const privateKey: Key
    const publicKey: Key
    const labelMac1Key: Key
    const valid: bool
    const peer: Peer

    /** A valid device with its precomputed keys, and those of its peer if that is valid. */
    ghost predicate Configured()
      reads peer
    {
      && valid && publicKey == PublicKey(c, privateKey) && labelMac1Key == LabelMac1Key(c, publicKey)
      && (peer.valid ==> peer.publicKeyDh == c.dh(privateKey, peer.publicKey) && peer.labelMac1Key == LabelMac1Key(c, peer.publicKey))
    }

    /** wireguard_device_init and wireguardif_add_peer for the one peer. A private key that is zero, or
        whose public key is, leaves an invalid device with its key wiped, and an invalid peer. */
    constructor (crypto: Crypto, private: Key, peerPublic: Key, psk: Key, keepalive: u16, stamp: Stamp12)
      ensures c == crypto
      ensures valid <==> private != ZeroKey() && PublicKey(crypto, ClampKey(private)) != ZeroKey()
      ensures valid ==> Configured() && privateKey == ClampKey(private) && peer.publicKey == peerPublic && peer.presharedKey == psk
      ensures !valid ==> privateKey == ZeroKey() && publicKey == ZeroKey()
      ensures peer.valid <==> valid && crypto.dh(ClampKey(private), peerPublic) != ZeroKey()
      ensures fresh(peer) && peer.Valid() && peer.log == [] && peer.delivered == [] && peer.checked == {} && peer.exact && peer.handshake.localIndex == 0
    {
      hide KdfSpec.Hash;
      var clamped := ClampKey(private);
      var ok := private != ZeroKey() && PublicKey(crypto, clamped) != ZeroKey();
      c, valid := crypto, ok;
      privateKey := if ok then clamped else ZeroKey();
      publicKey := if ok then PublicKey(crypto, clamped) else ZeroKey();
      labelMac1Key := if ok then LabelMac1Key(crypto, PublicKey(crypto, clamped)) else ZeroKey();
      peer := new Peer(crypto, ok, if ok then clamped else ZeroKey(), peerPublic, psk, keepalive, stamp);
    }

    /** wireguard_create_handshake_initiation */
    method CreateInitiation(random: Key, stamp: Stamp12, draws: seq<u32>, mac2: Tag16) returns (m: Option<Initiation>)
      requires peer.Valid() && Yields(draws, peer.Snapshot())
      modifies peer`handshake
      ensures peer.Valid()
      ensures m.Some? <==> CanInitiate(c, ClampKey(random), peer.publicKey)
      ensures m.None? ==> SameSession(old(peer.handshake), peer.handshake)
      ensures m.Some? ==>
        var parts := MakeInitiation(c, ClampKey(random), publicKey, peer.publicKey, peer.publicKeyDh, stamp);
        && Fresh(m.value.sender, old(peer.Snapshot()))
        && m.value == InitiationOf(c, parts, m.value.sender, peer.labelMac1Key, mac2)
        && peer.handshake == Handshake(true, true, m.value.sender, old(peer.handshake).remoteIndex, ClampKey(random),
             old(peer.handshake).remoteEphemeral, parts.hash, parts.chainingKey)
    {
      hide Tau, KdfSpec.Hash, KdfSpec.Mac, SealWith, Inv, InitiationBytes, X25519Spec.Clamp;
      ghost var v := peer.Snapshot();
      m := None;
      var private := ClampKey(random);
      peer.handshake := peer.handshake.(chainingKey := ConstructionHash(c), hash := MixHash(c, IdentifierHash(c), peer.publicKey),
        ephemeralPrivate := private);
      var ephemeral := PublicKey(c, private);
      if private != ZeroKey() && ephemeral != ZeroKey() {
        var h := peer.handshake;
        peer.handshake := h.(chainingKey := Kdf(c, h.chainingKey, ephemeral, 1), hash := MixHash(c, h.hash, ephemeral));
        var es := c.dh(private, peer.publicKey);
        if es != ZeroKey() {
          h := peer.handshake;
          var key := Kdf(c, h.chainingKey, es, 2);
          var encStatic := SealKey(c, key, h.hash, publicKey);
          h := h.(chainingKey := Kdf(c, h.chainingKey, es, 1), hash := MixHash(c, h.hash, encStatic));
          key := Kdf(c, h.chainingKey, peer.publicKeyDh, 2);
          var encTimestamp := SealStamp(c, key, h.hash, stamp);
          h := h.(chainingKey := Kdf(c, h.chainingKey, peer.publicKeyDh, 1), hash := MixHash(c, h.hash, encTimestamp));
          SameIndices(draws, v, peer.Snapshot());
          var sender := peer.GenerateUniqueIndex(draws);
          peer.handshake := h.(valid := true, initiator := true, localIndex := sender);
          var mac1 := Mac1(c, peer.labelMac1Key, InitiationBytes(sender, ephemeral, encStatic, encTimestamp));
          m := Some(Initiation(sender, ephemeral, encStatic, encTimestamp, mac1, mac2));
        }
      }
      HandshakeKeeps(v, peer.handshake);
    }

    /** wireguard_process_initiation_message: nothing changes unless the initiation is accepted. */
    method ProcessInitiation(m: Initiation, now: u32) returns (accepted: bool)
      requires peer.Valid()
      modifies peer`handshake, peer`greatestTimestamp, peer`lastInitiationRx
      ensures peer.Valid()
      ensures var read := ReadInitiation(c, privateKey, publicKey, peer.publicKey, peer.publicKeyDh, m.ephemeral, m.encStatic, m.encTimestamp);
        && (accepted <==> peer.valid && read.Some? && IsFresh(read.value.stamp, old(peer.greatestTimestamp), old(peer.lastInitiationRx), now))
        && (accepted ==> peer.handshake == Accepted(old(peer.handshake), read.value, m.sender, m.ephemeral))
        && (accepted ==> peer.greatestTimestamp == read.value.stamp && peer.lastInitiationRx == now)
      ensures !accepted ==> unchanged(peer)
    {
      hide Tau, KdfSpec.Hash, OpenWith, Inv, Tai64n.Compare;
      ghost var v := peer.Snapshot();
      accepted := false;
      var chainingKey := ConstructionHash(c);
      var hash := MixHash(c, IdentifierHash(c), publicKey);
      chainingKey := Kdf(c, chainingKey, m.ephemeral, 1);
      hash := MixHash(c, hash, m.ephemeral);
      var es := c.dh(privateKey, m.ephemeral);
      if es != ZeroKey() {
        var key := Kdf(c, chainingKey, es, 2);
        chainingKey := Kdf(c, chainingKey, es, 1);
        var s := OpenWith(c, key, hash, m.encStatic);
        if s.Some? {
          hash := MixHash(c, hash, m.encStatic);
          if peer.valid && peer.publicKey == s.value {
            key := Kdf(c, chainingKey, peer.publicKeyDh, 2);
            chainingKey := Kdf(c, chainingKey, peer.publicKeyDh, 1);
            var t := OpenWith(c, key, hash, m.encTimestamp);
            if t.Some? {
              hash := MixHash(c, hash, m.encTimestamp);
              var replay := Tai64n.Compare(t.value, peer.greatestTimestamp) <= 0;
              var rateLimit := RateLimited(peer.lastInitiationRx, now);
              if !replay && !rateLimit {
                peer.lastInitiationRx := now;
                peer.greatestTimestamp := t.value;
                peer.handshake := peer.handshake.(remoteEphemeral := m.ephemeral, hash := hash, chainingKey := chainingKey,
                  remoteIndex := m.sender, valid := true, initiator := false);
                HandshakeKeeps(v, peer.handshake);
                accepted := true;
              }
            }
          }
        }
      }
    }

    /** The second message for a handshake, with the device's and the peer's keys. */
    function AnswerParts(h: Handshake, random: Key): ResponseParts
    {
      MakeResponse(c, h.chainingKey, h.hash, ClampKey(random), h.remoteEphemeral, peer.publicKey, peer.presharedKey)
    }

    predicate CanAnswer(h: Handshake, random: Key)
    {
      h.valid && !h.initiator && CanRespond(c, ClampKey(random), h.remoteEphemeral, peer.publicKey)
    }

    /** wireguard_create_handshake_response */
    method CreateResponse(random: Key, draws: seq<u32>, mac2: Tag16) returns (m: Option<Response>)
      requires peer.Valid() && Yields(draws, peer.Snapshot())
      modifies peer`handshake
      ensures peer.Valid()
      ensures var h := old(peer.handshake);
        m.Some? <==> h.valid && !h.initiator && CanRespond(c, ClampKey(random), h.remoteEphemeral, peer.publicKey)
      ensures m.None? ==> SameSession(old(peer.handshake), peer.handshake)
      ensures m.Some? ==>
        var h := old(peer.handshake);
        var parts := MakeResponse(c, h.chainingKey, h.hash, ClampKey(random), h.remoteEphemeral, peer.publicKey, peer.presharedKey);
        && Fresh(m.value.sender, old(peer.Snapshot()))
        && m.value == ResponseOf(c, parts, m.value.sender, h.remoteIndex, peer.labelMac1Key, mac2)
        && peer.handshake == h.(ephemeralPrivate := ClampKey(random), chainingKey := parts.chainingKey, hash := parts.hash, localIndex := m.value.sender)
    {
      hide Tau, KdfSpec.Hash, KdfSpec.Mac, SealWith, Inv, ResponseBytes, X25519Spec.Clamp;
      ghost var v := peer.Snapshot();
      m := None;
      if peer.handshake.valid && !peer.handshake.initiator {
        var private := ClampKey(random);
        peer.handshake := peer.handshake.(ephemeralPrivate := private);
        var ephemeral := PublicKey(c, private);
        if private != ZeroKey() && ephemeral != ZeroKey() {
          var h := peer.handshake;
          peer.handshake := h.(chainingKey := Kdf(c, h.chainingKey, ephemeral, 1), hash := MixHash(c, h.hash, ephemeral));
          var ee := c.dh(private, peer.handshake.remoteEphemeral);
          if ee != ZeroKey() {
            peer.handshake := peer.handshake.(chainingKey := Kdf(c, peer.handshake.chainingKey, ee, 1));
            var se := c.dh(private, peer.publicKey);
            if se != ZeroKey() {
              m := FinishResponse(v, private, ephemeral, se, draws, mac2);
            }
          }
        }
        HandshakeKeeps(v, peer.handshake);
      }
    }

    /** The part of wireguard_create_handshake_response after every DH succeeded. */
    method FinishResponse(ghost v: View, private: Key, ephemeral: Key, se: Key, draws: seq<u32>, mac2: Tag16) returns (m: Option<Response>)
      requires Yields(draws, v) && v.(handshake := peer.handshake) == peer.Snapshot() && SameSession(v.handshake, peer.handshake)
      modifies peer`handshake
      ensures var h := old(peer.handshake);
        var ck3 := Kdf(c, h.chainingKey, se, 1);
        var hash := MixHash(c, h.hash, Kdf(c, ck3, peer.presharedKey, 2));
        var encEmpty := SealWith(c, Kdf(c, ck3, peer.presharedKey, 3), hash, []);
        && m.Some? && Fresh(m.value.sender, v)
        && m.value == Response(m.value.sender, h.remoteIndex, ephemeral, encEmpty,
             Mac1(c, peer.labelMac1Key, ResponseBytes(m.value.sender, h.remoteIndex, ephemeral, encEmpty)), mac2)
        && peer.handshake == h.(chainingKey := Kdf(c, ck3, peer.presharedKey, 1), hash := MixHash(c, hash, encEmpty), localIndex := m.value.sender)
    {
      hide Tau, KdfSpec.Hash, KdfSpec.Mac, SealWith, ResponseBytes;
      var h := peer.handshake;
      var ck := Kdf(c, h.chainingKey, se, 1);
      var tau, key := Kdf(c, ck, peer.presharedKey, 2), Kdf(c, ck, peer.presharedKey, 3);
      h := h.(chainingKey := Kdf(c, ck, peer.presharedKey, 1), hash := MixHash(c, h.hash, tau));
      var encEmpty: Tag16 := SealWith(c, key, h.hash, []);
      h := h.(hash := MixHash(c, h.hash, encEmpty));
      SameIndices(draws, v, peer.Snapshot());
      var sender := peer.GenerateUniqueIndex(draws);
      peer.handshake := h.(localIndex := sender);
      var mac1 := Mac1(c, peer.labelMac1Key, ResponseBytes(sender, h.remoteIndex, ephemeral, encEmpty));
      m := Some(Response(sender, h.remoteIndex, ephemeral, encEmpty, mac1, mac2));
    }

    /** wireguard_process_handshake_response */
    method ProcessResponse(m: Response) returns (accepted: bool)
      requires peer.Valid()
      modifies peer`handshake
      ensures peer.Valid()
      ensures var h := old(peer.handshake);
        var read := ReadResponse(c, h.chainingKey, h.hash, h.ephemeralPrivate, privateKey, peer.presharedKey, m.ephemeral, m.encEmpty);
        && (accepted <==> h.valid && h.initiator && read.Some?)
        && (accepted ==> peer.handshake == h.(remoteEphemeral := m.ephemeral, hash := read.value.hash,
             chainingKey := read.value.chainingKey, remoteIndex := m.sender))
      ensures !accepted ==> peer.handshake == old(peer.handshake)
    {
      hide Tau, KdfSpec.Hash, OpenWith, Inv;
      ghost var v := peer.Snapshot();
      accepted := false;
      var h := peer.handshake;
      if h.valid && h.initiator {
        var hash, chainingKey := h.hash, h.chainingKey;
        chainingKey := Kdf(c, chainingKey, m.ephemeral, 1);
        hash := MixHash(c, hash, m.ephemeral);
        var ee := c.dh(h.ephemeralPrivate, m.ephemeral);
        if ee != ZeroKey() {
          chainingKey := Kdf(c, chainingKey, ee, 1);
          var se := c.dh(privateKey, m.ephemeral);
          if se != ZeroKey() {
            chainingKey := Kdf(c, chainingKey, se, 1);
            var tau, key := Kdf(c, chainingKey, peer.presharedKey, 2), Kdf(c, chainingKey, peer.presharedKey, 3);
            chainingKey := Kdf(c, chainingKey, peer.presharedKey, 1);
            hash := MixHash(c, hash, tau);
            var empty := OpenWith(c, key, hash, m.encEmpty);
            if empty.Some? {
              peer.handshake := h.(remoteEphemeral := m.ephemeral, hash := hash, chainingKey := chainingKey, remoteIndex := m.sender);
              HandshakeKeeps(v, peer.handshake);
              accepted := true;
            }
          }
        }
      }
    }

    /** wireguardif_send_handshake_response: the session starts before the packet is sent. */
    method SendHandshakeResponse(random: Key, draws: seq<u32>, mac2: Tag16, now: u32, alloc: bool) returns (reply: Option<Response>)
      requires peer.Valid() && Rich(draws)
      modifies peer`curr, peer`prev, peer`next, peer`handshake, peer`started
      ensures peer.Valid()
      ensures var h := old(peer.handshake);
        var can := CanAnswer(h, random);
        var parts := AnswerParts(h, random);
        && (reply.Some? <==> can && alloc)
        && (!can ==> SlotsSame(old(peer.Snapshot()), peer.Snapshot()) && SameSession(h, peer.handshake))
        && (can ==> AnswerStarted(c, old(peer.Snapshot()), peer.Snapshot(), parts, h.remoteIndex, now))
        && (reply.Some? ==> reply.value == ResponseOf(c, parts, peer.next.localIndex, h.remoteIndex, peer.labelMac1Key, mac2))
    {
      hide Inv, Tau, Rich, MakeResponse, CanRespond, ResponseOf;
      RichYields(draws, peer.Snapshot());
      ghost var n := |peer.started|;
      reply := None;
      var packet := CreateResponse(random, draws, mac2);
      if packet.Some? {
        peer.StartSession(c, false, now);
        if alloc {
          reply := packet;
        }
      }
    }

    /** The initiation branch of wireguardif_network_rx, not under load. */
    method ReceiveInitiation(m: Initiation, random: Key, draws: seq<u32>, mac2: Tag16, now: u32, alloc: bool) returns (reply: Option<Response>)
      requires peer.Valid() && Rich(draws)
      modifies peer`curr, peer`prev, peer`next, peer`handshake, peer`started, peer`greatestTimestamp, peer`lastInitiationRx
      ensures peer.Valid()
      ensures var read := ReadInitiation(c, privateKey, publicKey, peer.publicKey, peer.publicKeyDh, m.ephemeral, m.encStatic, m.encTimestamp);
        var taken := CheckMac1Initiation(c, labelMac1Key, m) && old(peer.valid) && read.Some?
          && IsFresh(read.value.stamp, old(peer.greatestTimestamp), old(peer.lastInitiationRx), now);
        && (!taken ==> reply == None && unchanged(peer))
        && (taken ==> peer.greatestTimestamp == read.value.stamp && peer.lastInitiationRx == now)
        && (taken && !CanRespond(c, ClampKey(random), m.ephemeral, peer.publicKey) ==>
             && reply == None && SlotsSame(old(peer.Snapshot()), peer.Snapshot())
             && SameSession(Accepted(old(peer.handshake), read.value, m.sender, m.ephemeral), peer.handshake))
        && (taken && CanRespond(c, ClampKey(random), m.ephemeral, peer.publicKey) ==>
             var parts := AnswerParts(Accepted(old(peer.handshake), read.value, m.sender, m.ephemeral), random);
             && AnswerStarted(c, old(peer.Snapshot()), peer.Snapshot(), parts, m.sender, now)
             && reply == (if alloc then Some(ResponseOf(c, parts, peer.next.localIndex, m.sender, peer.labelMac1Key, mac2)) else None))
    {
      hide Inv, Tau, Rich, MakeResponse, CanRespond, ResponseOf, ReadInitiation, IsFresh, KdfSpec.Mac, AnswerStarted;
      reply := None;
      if CheckMac1Initiation(c, labelMac1Key, m) {
        var accepted := ProcessInitiation(m, now);
        if accepted {
          SlotsAsBefore(c, old(peer.Snapshot()), peer.Snapshot());
          reply := SendHandshakeResponse(random, draws, mac2, now, alloc);
        }
      }
    }

    /** The response branch: a session as initiator, then a keepalive on it. */
    method ReceiveResponse(m: Response, now: u32, alloc: bool, sendOk: bool) returns (keepalive: Option<Transport>)
      requires peer.Valid()
      modifies peer`curr, peer`prev, peer`next, peer`handshake, peer`started, peer`log, peer`lastTx, peer`sendHandshake
      ensures peer.Valid()
      ensures var h := old(peer.handshake);
        var read := ReadResponse(c, h.chainingKey, h.hash, h.ephemeralPrivate, privateKey, peer.presharedKey, m.ephemeral, m.encEmpty);
        var taken := CheckMac1Response(c, labelMac1Key, m) && peer.valid && h.valid && h.initiator && h.localIndex == m.receiver && read.Some?;
        && (!taken ==> keepalive == None && unchanged(peer))
        && (taken ==> InitiatorStarted(c, old(peer.Snapshot()), peer.Snapshot(), read.value.chainingKey, m.receiver, m.sender, now, alloc, sendOk, keepalive))
    {
      hide Inv, Tau, ReadResponse, KdfSpec.Mac;
      keepalive := None;
      if CheckMac1Response(c, labelMac1Key, m) {
        if peer.LookupByHandshake(m.receiver) {
          Indexed(peer.Snapshot());
          var accepted := ProcessResponse(m);
          if accepted {
            keepalive := StartAsInitiator(now, alloc, sendOk);
          }
        }
      }
    }

    /** wireguard_start_session, then wireguardif_send_keepalive. */
    method StartAsInitiator(now: u32, alloc: bool, sendOk: bool) returns (keepalive: Option<Transport>)
      requires peer.Valid() && peer.handshake.localIndex != 0
      modifies peer`curr, peer`prev, peer`next, peer`handshake, peer`started, peer`log, peer`lastTx, peer`sendHandshake
      ensures peer.Valid()
      ensures var h := old(peer.handshake);
        InitiatorStarted(c, old(peer.Snapshot()), peer.Snapshot(), h.chainingKey, h.localIndex, h.remoteIndex, now, alloc, sendOk, keepalive)
    {
      hide Inv, Tau, Seal, Expired;
      ghost var h, n := peer.handshake, |peer.started|;
      peer.StartSession(c, true, now);
      assert peer.curr == NewKeypair(c, h, true, now, n);
      NotExpiredNow(now);
      var err;
      err, keepalive := peer.OutputToPeer(c, None, now, alloc, sendOk);
    }

    /** The transport branch of wireguardif_network_rx. */
    method ReceiveTransport(m: Transport, now: u32, alloc: bool) returns (payload: Option<seq<u8>>)
      requires peer.Valid()
      modifies peer`curr, peer`prev, peer`next, peer`confirmed, peer`lastRx, peer`sendHandshake, peer`delivered, peer`checked, peer`exact
      ensures peer.Valid() && peer.checked <= old(peer.checked) + {m.counter as nat}
      ensures !peer.valid ==> payload == None && peer.Snapshot() == old(peer.Snapshot())
      ensures (forall s :: !Holds(old(peer.Snapshot()), s, m.receiver)) ==> payload == None && peer.Snapshot() == old(peer.Snapshot())
      ensures forall s :: peer.valid && Holds(old(peer.Snapshot()), s, m.receiver) ==>
        Processed(c, old(peer.Snapshot()), s, m, now, alloc, peer.Snapshot(), payload)
    {
      hide Inv, Processed;
      payload := None;
      var found := peer.LookupByReceiver(m.receiver);
      if found {
        payload := peer.ProcessDataMessage(c, m, now, alloc);
      }
    }

    /** wireguard_start_handshake: the handshake changes even when the packet cannot be sent. */
    method StartHandshake(random: Key, stamp: Stamp12, draws: seq<u32>, mac2: Tag16, now: u32, alloc: bool) returns (m: Option<Initiation>)
      requires peer.Valid() && Rich(draws)
      modifies peer`handshake, peer`sendHandshake, peer`lastInitiationTx
      ensures peer.Valid()
      ensures m.Some? <==> alloc && CanInitiate(c, ClampKey(random), peer.publicKey)
      ensures m.Some? ==> !peer.sendHandshake && peer.lastInitiationTx == now
      ensures m.None? ==> peer.sendHandshake == old(peer.sendHandshake) && peer.lastInitiationTx == old(peer.lastInitiationTx)
      ensures m.Some? ==>
        var parts := MakeInitiation(c, ClampKey(random), publicKey, peer.publicKey, peer.publicKeyDh, stamp);
        && m.value == InitiationOf(c, parts, peer.handshake.localIndex, peer.labelMac1Key, mac2)
        && InitiatorWaits(peer.handshake, parts, ClampKey(random))
    {
      hide Inv, Rich, CanInitiate, MakeInitiation, InitiationOf, X25519Spec.Clamp;
      RichYields(draws, peer.Snapshot());
      m := CreateInitiation(random, stamp, draws, mac2);
      if m.Some? {
        if alloc {
          peer.sendHandshake := false;
          peer.lastInitiationTx := now;
        } else {
          m := None;
        }
      }
    }

    /** wireguardif_disconnect */
    method Disconnect()
      requires peer.Valid()
      modifies peer`active, peer`curr, peer`prev, peer`next
      ensures peer.Valid() && !peer.active && !peer.curr.valid && !peer.prev.valid && !peer.next.valid
    {
      hide Inv;
      peer.active := false;
      peer.KeypairDestroy(Next);
      peer.KeypairDestroy(Curr);
      peer.KeypairDestroy(Prev);
    }

    /** wireguardif_connect, for an endpoint that is set. */
    method Connect()
      modifies peer`active
      ensures peer.active
    {
      peer.active := true;
    }

    /** The part of the timer that wipes or expires keys. */
    method ExpireKeys(now: u32)
      requires peer.Valid()
      modifies peer`curr, peer`prev, peer`next, peer`handshake
      ensures peer.Valid() && peer.Snapshot() == Swept(old(peer.Snapshot()), now)
      ensures peer.curr.valid <==> old(peer.curr).valid && !TooOld(old(peer.curr), now)
      ensures peer.curr.valid ==> peer.curr == old(peer.curr)
      ensures if old(peer.curr).valid && Expired(old(peer.curr).millis, REJECT_AFTER_TIME * 3, now)
        then !peer.prev.valid && !peer.next.valid && peer.handshake == Destroyed(old(peer.handshake))
        else peer.prev == old(peer.prev) && peer.next == old(peer.next) && peer.handshake == old(peer.handshake)
    {
      hide Inv, Expired;
      SweptIsUsable(peer.Snapshot(), now);
      if peer.curr.valid && Expired(peer.curr.millis, REJECT_AFTER_TIME * 3, now) {
        WipeAll();
      }
      if peer.curr.valid && (Expired(peer.curr.millis, REJECT_AFTER_TIME, now) || peer.curr.sendingCounter >= REJECT_AFTER_MESSAGES) {
        peer.KeypairDestroy(Curr);
      }
    }

    /** All crypto state is wiped. */
    method WipeAll()
      requires peer.Valid()
      modifies peer`curr, peer`prev, peer`next, peer`handshake
      ensures peer.Valid() && peer.Snapshot() == Wiped(old(peer.Snapshot()))
    {
      hide Inv;
      peer.KeypairDestroy(Next);
      peer.KeypairDestroy(Curr);
      peer.KeypairDestroy(Prev);
      HandshakeKeeps(peer.Snapshot(), Destroyed(peer.handshake));
      peer.handshake := Destroyed(peer.handshake);
    }

    /** wireguardif_tmr for one tick: keys are swept first, and only what is left may send. */
    method Tick(random: Key, stamp: Stamp12, draws: seq<u32>, mac2: Tag16, now: u32, alloc: bool, sendOk: bool)
      returns (keepalive: Option<Transport>, m: Option<Initiation>)
      requires peer.Valid() && Rich(draws)
      modifies peer`curr, peer`prev, peer`next, peer`handshake, peer`log, peer`lastTx, peer`sendHandshake, peer`lastInitiationTx
      ensures peer.Valid()
      ensures !peer.valid ==> keepalive == None && m == None && unchanged(peer)
      ensures peer.valid ==>
        var w := Swept(old(peer.Snapshot()), now);
        var due := ShouldKeepAlive(w.curr, w.prev, old(peer.lastTx), peer.keepaliveInterval, now);
        var u := if due then AfterOutput(w, now, alloc, sendOk) else w;
        var wanted := old(peer.sendHandshake) || (due && AsksRekey(w, now, alloc));
        var start := ShouldInitiate(u.curr, wanted, peer.active, old(peer.lastInitiationTx), peer.keepaliveInterval, now);
        && keepalive == (if due && Sends(w, now, alloc) then Some(TransportOn(c, w.At(SendSlot(w)), [])) else None)
        && peer.Snapshot() == (if start then u.(handshake := peer.handshake) else u)
        && (m.Some? <==> start && alloc && CanInitiate(c, ClampKey(random), peer.publicKey))
        && (if m.Some? then !peer.sendHandshake && peer.lastInitiationTx == now
            else peer.sendHandshake == wanted && peer.lastInitiationTx == old(peer.lastInitiationTx))
      ensures m.Some? ==>
        var parts := MakeInitiation(c, ClampKey(random), publicKey, peer.publicKey, peer.publicKeyDh, stamp);
        && m.value == InitiationOf(c, parts, peer.handshake.localIndex, peer.labelMac1Key, mac2)
        && InitiatorWaits(peer.handshake, parts, ClampKey(random))
    {
      hide Inv, Expired, Rich, CanInitiate, MakeInitiation, InitiationOf, Seal, Swept, AfterOutput, AsksRekey, InitiatorWaits, Sends, TransportOn;
      keepalive, m := None, None;
      if peer.valid {
        keepalive := SweepAndKeepAlive(now, alloc, sendOk);
        if ShouldInitiate(peer.curr, peer.sendHandshake, peer.active, peer.lastInitiationTx, peer.keepaliveInterval, now) {
          m := StartHandshake(random, stamp, draws, mac2, now, alloc);
        }
      }
    }

    /** The first part of the tick. */
    method SweepAndKeepAlive(now: u32, alloc: bool, sendOk: bool) returns (keepalive: Option<Transport>)
      requires peer.Valid()
      modifies peer`curr, peer`prev, peer`next, peer`handshake, peer`log, peer`lastTx, peer`sendHandshake
      ensures peer.Valid()
      ensures var w := Swept(old(peer.Snapshot()), now);
        var due := ShouldKeepAlive(w.curr, w.prev, old(peer.lastTx), peer.keepaliveInterval, now);
        && keepalive == (if due && Sends(w, now, alloc) then Some(TransportOn(c, w.At(SendSlot(w)), [])) else None)
        && peer.Snapshot() == (if due then AfterOutput(w, now, alloc, sendOk) else w)
        && (peer.sendHandshake <==> old(peer.sendHandshake) || (due && AsksRekey(w, now, alloc)))
    {
      hide Inv, Expired, Seal, Swept, AfterOutput, AsksRekey, Sends;
      keepalive := None;
      ExpireKeys(now);
      if ShouldKeepAlive(peer.curr, peer.prev, peer.lastTx, peer.keepaliveInterval, now) {
        var err;
        err, keepalive := peer.OutputToPeer(c, None, now, alloc, sendOk);
      }
    }
  }

  function Wiped(v: View): View {
    v.(curr := NoKeypair(), prev := NoKeypair(), next := NoKeypair(), handshake := Destroyed(v.handshake))
  }

  /** A current keypair past three lifetimes takes all crypto state with it; one past its lifetime
      or its message limit goes alone. */
  function Swept(v: View, now: u32): View
  {
    var w := if v.curr.valid && Expired(v.curr.millis, REJECT_AFTER_TIME * 3, now)
      then Wiped(v) else v;
    if w.curr.valid && TooOld(w.curr, now) then w.(curr := NoKeypair()) else w
  }

  lemma ThreeLifetimes(created: u32, now: u32)
    ensures Expired(created, REJECT_AFTER_TIME * 3, now) ==> Expired(created, REJECT_AFTER_TIME, now)
  {
  }

  /** A current keypair survives the sweep, unchanged, exactly when it may still encrypt; all else
      survives unless the current one is past three lifetimes. */
  lemma SweptIsUsable(v: View, now: u32)
    ensures var w := Swept(v, now);
      && (w.curr.valid <==> v.curr.valid && !TooOld(v.curr, now)) && (w.curr.valid ==> w.curr == v.curr)
      && (if v.curr.valid && Expired(v.curr.millis, REJECT_AFTER_TIME * 3, now)
          then !w.prev.valid && !w.next.valid && w.handshake == Destroyed(v.handshake)
          else w.prev == v.prev && w.next == v.next && w.handshake == v.handshake)
  {
    ThreeLifetimes(v.curr.millis, now);
    hide Expired;
  }

  predicate SlotsSame(v: View, w: View)
  {
    w.curr == v.curr && w.prev == v.prev && w.next == v.next && w.started == v.started
  }

  /** The responder's new keypair waits in the next slot; the current one stays, the previous one and
      any that waited are gone, and the handshake is wiped. */
  predicate AnswerStarted(c: Crypto, v: View, w: View, parts: ResponseParts, remoteIndex: u32, now: u32)
  {
    && w.next.valid && !w.next.initiator && w.next.millis == now
    && w.next.receivingKey == Kdf(c, parts.chainingKey, [], 1) && w.next.sendingKey == Kdf(c, parts.chainingKey, [], 2)
    && w.next.sendingValid && w.next.receivingValid && w.next.sendingCounter == 0 && w.next.lastRx == 0
    && w.next.remoteIndex == remoteIndex && w.next.localIndex != 0
    && w.curr == v.curr && w.prev == NoKeypair() && w.started == v.started + [false] && !w.handshake.valid
  }

  lemma SlotsAsBefore(c: Crypto, v: View, u: View)
    requires SlotsSame(v, u)
    ensures forall w, parts, remoteIndex, now :: AnswerStarted(c, u, w, parts, remoteIndex, now) ==> AnswerStarted(c, v, w, parts, remoteIndex, now)
  {
  }

  /** The initiator's new keypair is current, and one empty packet has gone out on it if there was memory.
      A keypair that waited becomes the previous one, or else the current one does. */
  predicate InitiatorStarted(c: Crypto, v: View, w: View, ck: Key, local: u32, remote: u32, now: u32, alloc: bool, sendOk: bool, keepalive: Option<Transport>)
  {
    && w.curr.valid && w.curr.initiator && w.curr.millis == now
    && w.curr.sendingKey == Kdf(c, ck, [], 1) && w.curr.receivingKey == Kdf(c, ck, [], 2)
    && w.curr.sendingValid && w.curr.receivingValid && w.curr.lastRx == 0
    && w.curr.localIndex == local && w.curr.remoteIndex == remote
    && w.curr.sendingCounter == (if alloc then 1 else 0)
    && w.prev == (if v.next.valid then v.next else v.curr) && !w.next.valid
    && w.started == v.started + [true] && !w.handshake.valid
    && keepalive == if alloc then Some(Transport(remote, 0, Seal(c.rounds, Kdf(c, ck, [], 1), 0, [], []))) else None
  }

  /** The initiator after sending its message. */
  predicate InitiatorWaits(h: Handshake, parts: InitiationParts, private: Key)
  {
    && h.valid && h.initiator && h.localIndex != 0 && h.ephemeralPrivate == private
    && h.hash == parts.hash && h.chainingKey == parts.chainingKey
  }

  lemma NotExpiredNow(now: u32)
    ensures !Expired(now, REJECT_AFTER_TIME, now)
  {
  }

  /** An outstanding initiation has an index. */
  lemma Indexed(v: View)
    requires Inv(v) && v.handshake.valid && v.handshake.initiator
    ensures v.handshake.localIndex != 0
  {
  }

  /** Validity, role and indices of a handshake, which a failed attempt leaves alone. */
  predicate SameSession(h: Handshake, h': Handshake)
  {
    h'.valid == h.valid && h'.initiator == h.initiator && h'.localIndex == h.localIndex && h'.remoteIndex == h.remoteIndex
  }

  lemma SameIndices(draws: seq<u32>, v: View, w: View)
    requires Yields(draws, v) && w.curr == v.curr && w.prev == v.prev && w.next == v.next
    requires w.handshake.localIndex == v.handshake.localIndex
    ensures Yields(draws, w) && forall i :: Fresh(i, w) <==> Fresh(i, v)
  {
  }
}
