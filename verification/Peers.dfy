/** A peer and its three keypair slots: wireguard.c and wireguardif.c with one peer per device
    (WIREGUARD_MAX_PEERS is 1). Clock readings, random draws, allocation and send outcomes
    are parameters. */
module Peers {
  import opened Words
  import opened Bits
  import opened Bytes
  import opened KdfSpec
  import opened AeadSpec
  import opened Noise
  import opened Sessions
  import Aead
  import Replay

  /** A random index that may be used: not 0, not 0xFFFFFFFF, and nowhere in this peer. */
  predicate Fresh(index: u32, v: View)
  {
    && index != 0 && index != 0xffff_ffff
    && index != v.curr.localIndex && index != v.prev.localIndex && index != v.next.localIndex
    && index != v.handshake.localIndex
  }

  /** The random source yields a usable index at some point. */
  predicate Yields(draws: seq<u32>, v: View)
  {
    exists i :: 0 <= i < |draws| && Fresh(draws[i], v)
  }

  /** The keypair wireguard_start_session makes from a finished handshake. */
  function NewKeypair(c: Crypto, h: Handshake, initiator: bool, now: u32, session: nat): Keypair
  {
    var first, second := Kdf(c, h.chainingKey, [], 1), Kdf(c, h.chainingKey, [], 2);
    Keypair(true, initiator, now,
            if initiator then first else second, true, 0,
            if initiator then second else first, true,
            0, 0, Replay.FRESH, h.localIndex, h.remoteIndex, session)
  }

  /** The keypair output may use: the current one, or the previous one while a responder
      has not heard on the current one. */
  function SendSlot(v: View): Slot
  {
    if v.curr.valid && !v.curr.initiator && v.curr.lastRx == 0 then Prev else Curr
  }

  predicate TooOld(k: Keypair, now: u32)
  {
    Expired(k.millis, REJECT_AFTER_TIME, now) || k.sendingCounter >= REJECT_AFTER_MESSAGES
  }

  /** Whether output encrypts at all. */
  predicate Sends(v: View, now: u32, alloc: bool)
  {
    var k := v.At(SendSlot(v));
    k.valid && (k.initiator || k.lastRx != 0) && !TooOld(k, now) && alloc
  }

  /** The packet padded with zero bytes to a multiple of 16; a keepalive is empty. */
  function Padded(q: Option<seq<u8>>): seq<u8>
  {
    if q.None? then [] else q.value + Pad16(|q.value|)
  }

  /** The transport message for a plaintext on a keypair. */
  function TransportOn(c: Crypto, k: Keypair, p: seq<u8>): Transport
  {
    Transport(k.remoteIndex, k.sendingCounter, Seal(c.rounds, k.sendingKey, k.sendingCounter, [], p))
  }

  function Stamped(k: Keypair, now: u32): Keypair {
    k.(lastTx := now)
  }

  function Received(k: Keypair, now: u32): Keypair {
    k.(lastRx := now)
  }

  /** SendFailed stands for whatever error the UDP layer reports. */
  datatype Error = Ok | OutOfMemory | NotConnected | SendFailed

  /** The keypair that output may use can no longer encrypt. */
  predicate Outlived(v: View, now: u32)
  {
    var k := v.At(SendSlot(v));
    k.valid && (k.initiator || k.lastRx != 0) && TooOld(k, now)
  }

  /** The slots after output: one counter used up and the time stamped, or an outlived keypair gone. */
  function AfterOutput(v: View, now: u32, alloc: bool, sendOk: bool): View
  {
    var slot := SendSlot(v);
    if Sends(v, now, alloc) then
      var w := Encrypt(v, slot);
      if sendOk then w.Put(slot, Stamped(w.At(slot), now)) else w
    else if Outlived(v, now) then v.Put(slot, NoKeypair())
    else v
  }

  /** What output reports. */
  function OutputError(v: View, now: u32, alloc: bool, sendOk: bool): Error
  {
    if Sends(v, now, alloc) then if sendOk then Ok else SendFailed
    else if Sends(v, now, true) then OutOfMemory
    else NotConnected
  }

  /** Whether a packet just sent asks for a new handshake. */
  predicate AsksRekey(v: View, now: u32, alloc: bool)
  {
    Sends(v, now, alloc) && WantsRekey(Counted(v.At(SendSlot(v))), now)
  }

  /** The slots after an authenticated packet: reception stamped, its session confirmed, and the
      next keypair made current when it was the one. */
  function AfterReceive(v: View, slot: Slot, now: u32): View
  {
    var w := Confirm(v, v.At(slot).session).Put(slot, Received(v.At(slot), now));
    if slot == Next then Promote(w) else w
  }

  lemma StampKeeps(v: View, slot: Slot, now: u32)
    requires Inv(v) && v.At(slot).valid
    ensures Inv(Confirm(v, v.At(slot).session).Put(slot, Received(v.At(slot), now)))
  {
    ConfirmKeeps(v, slot);
    PutKeeps(Confirm(v, v.At(slot).session), slot, Received(v.At(slot), now));
    hide Inv;
  }

  /** The replay check on the slot of the index. After a promotion that is the emptied slot: the packet
      is handed on as the first of the session now current, whose own window does not record it. */
  function Consulted(u: View, slot: Slot, number: u64): View
  {
    var step := Replay.Step(Replay.SIZE, u.At(slot).window, number);
    if slot == Next then HandOnFirst(u, number, step.0).Put(slot, Windowed(u.At(slot), step.1))
    else Checked(u, slot, number)
  }

  /** What a transport message decrypts to on a keypair. */
  function OpenOn(c: Crypto, k: Keypair, m: Transport): Option<seq<u8>>
  {
    Open(c.rounds, k.receivingKey, m.counter, [], m.encPacket)
  }

  predicate Receives(k: Keypair, now: u32)
  {
    k.receivingValid && !TooOld(k, now)
  }

  class Peer {
    var valid: bool
    var active: bool
    const publicKey: Key
    const presharedKey: Key
    const publicKeyDh: Key      // DH(device private key, this public key)
    const labelMac1Key: Key
    const keepaliveInterval: u16
    var curr: Keypair
    var prev: Keypair
    var next: Keypair
    var handshake: Handshake
    var greatestTimestamp: Stamp12
    var lastInitiationRx: u32
    var lastInitiationTx: u32
    var lastTx: u32
    var lastRx: u32
    var sendHandshake: bool
    var started: seq<bool>              // history: who started each session so far
    ghost var confirmed: set<nat>
    ghost var log: seq<Encryption>
    ghost var delivered: seq<Delivery>
    ghost var checked: set<nat>
    ghost var exact: bool

    ghost function Snapshot(): (v: View)
      reads this
    {
      View(curr, prev, next, handshake, started, confirmed, log, delivered, checked, exact)
    }

    ghost predicate Valid()
      reads this
    {
      Inv(Snapshot())
    }

    /** wireguard_peer_init, and the fields wireguardif_add_peer sets: no keypair, no handshake. What the
        failing branches do not set stays zero. */
    constructor (c: Crypto, deviceValid: bool, devicePrivate: Key, peerPublic: Key, psk: Key, keepalive: u16, stamp: Stamp12)
      ensures Valid() && log == [] && delivered == [] && checked == {} && exact && started == [] && handshake.localIndex == 0
      ensures valid <==> deviceValid && c.dh(devicePrivate, peerPublic) != ZeroKey()
      ensures deviceValid ==> publicKey == peerPublic && presharedKey == psk && publicKeyDh == c.dh(devicePrivate, peerPublic)
      ensures valid ==> labelMac1Key == LabelMac1Key(c, peerPublic) && keepaliveInterval == Interval(keepalive) && greatestTimestamp == stamp
      ensures !valid ==> publicKeyDh == ZeroKey() && labelMac1Key == ZeroKey() && keepaliveInterval == 0
      ensures lastInitiationRx == 0 && lastInitiationTx == 0 && !sendHandshake && !active && !curr.valid && !prev.valid && !next.valid
    {
      hide KdfSpec.Hash;
      publicKey, presharedKey := if deviceValid then peerPublic else ZeroKey(), if deviceValid then psk else ZeroKey();
      publicKeyDh := if deviceValid then c.dh(devicePrivate, peerPublic) else ZeroKey();
      var shared := deviceValid && c.dh(devicePrivate, peerPublic) != ZeroKey();
      labelMac1Key := if shared then LabelMac1Key(c, peerPublic) else ZeroKey();
      keepaliveInterval, greatestTimestamp := if shared then Interval(keepalive) else 0, if shared then stamp else seq(12, _ => 0);
      valid, active, sendHandshake := shared, false, false;
      curr, prev, next := NoKeypair(), NoKeypair(), NoKeypair();
      handshake := Handshake(false, false, 0, 0, ZeroKey(), ZeroKey(), ZeroKey(), ZeroKey());
      lastInitiationRx, lastInitiationTx, lastTx, lastRx := 0, 0, 0, 0;
      started, confirmed, log, delivered, checked, exact := [], {}, [], [], {}, true;
      new;
      assert Snapshot().curr == NoKeypair();
    }

    /** The keypair in a slot. */
    function At(slot: Slot): Keypair
      reads this`curr, this`prev, this`next
    {
      match slot
      case Curr => curr
      case Prev => prev
      case Next => next
    }

    /** Assignment to a slot. */
    method Put(slot: Slot, k: Keypair)
      modifies this`curr, this`prev, this`next
      ensures Snapshot() == old(Snapshot()).Put(slot, k)
    {
      match slot
      case Curr => curr := k;
      case Prev => prev := k;
      case Next => next := k;
    }

    /** keypair_destroy */
    method KeypairDestroy(slot: Slot)
      requires Valid()
      modifies this`curr, this`prev, this`next
      ensures Valid() && Snapshot() == old(Snapshot()).Put(slot, NoKeypair())
    {
      PutKeeps(Snapshot(), slot, NoKeypair());
      hide Inv;
      Put(slot, NoKeypair());
    }

    /** get_peer_keypair_for_idx: the only valid slot with that index, if there is one. */
    method KeypairForIndex(index: u32) returns (slot: Option<Slot>)
      ensures slot.Some? ==> Holds(Snapshot(), slot.value, index)
      ensures slot.None? ==> forall s :: !Holds(Snapshot(), s, index)
    {
      if curr.valid && curr.localIndex == index {
        slot := Some(Curr);
      } else if next.valid && next.localIndex == index {
        slot := Some(Next);
      } else if prev.valid && prev.localIndex == index {
        slot := Some(Prev);
      } else {
        slot := None;
      }
    }

    /** peer_lookup_by_receiver: succeeds exactly when a valid slot of a valid peer has the index. */
    method LookupByReceiver(receiver: u32) returns (found: bool)
      ensures found <==> valid && exists s :: Holds(Snapshot(), s, receiver)
    {
      found := false;
      if valid {
        if (curr.valid && curr.localIndex == receiver)
           || (next.valid && next.localIndex == receiver)
           || (prev.valid && prev.localIndex == receiver) {
          assert Holds(Snapshot(), Curr, receiver) || Holds(Snapshot(), Next, receiver) || Holds(Snapshot(), Prev, receiver);
          found := true;
        }
      }
    }

    /** peer_lookup_by_handshake */
    predicate LookupByHandshake(receiver: u32)
      reads this
    {
      valid && handshake.valid && handshake.initiator && handshake.localIndex == receiver
    }

    /** wireguard_generate_unique_index: draws until one is usable. */
    method GenerateUniqueIndex(draws: seq<u32>) returns (result: u32)
      requires Yields(draws, Snapshot())
      ensures Fresh(result, Snapshot())
    {
      var i := 0;
      var existing := true;
      result := 0;
      while existing
        invariant 0 <= i <= |draws|
        invariant existing ==> forall j :: 0 <= j < i ==> !Fresh(draws[j], Snapshot())
        invariant !existing ==> Fresh(result, Snapshot())
        decreases |draws| - i, existing
      {
        result := draws[i];
        i := i + 1;
        if result != 0 && result != 0xffff_ffff {
          existing := result == curr.localIndex || result == prev.localIndex
            || result == next.localIndex || result == handshake.localIndex;
        }
      }
    }

    /** keypair_update: a packet on the next keypair makes it current. */
    method KeypairUpdate(received: Slot)
      requires Valid()
      modifies this`curr, this`prev, this`next
      ensures Valid() && Snapshot() == if received == Next then Promote(old(Snapshot())) else old(Snapshot())
    {
      if received == Next {
        PromoteKeeps(Snapshot());
        prev := curr;
        curr := next;
        next := NoKeypair();
      }
    }

    /** add_new_keypair */
    method AddNewKeypair(k: Keypair)
      modifies this`curr, this`prev, this`next
      ensures Snapshot() == AddNew(old(Snapshot()), k)
      ensures k.initiator ==> curr == k && prev == (if old(next).valid then old(next) else old(curr)) && !next.valid
      ensures !k.initiator ==> next == k && prev == NoKeypair() && curr == old(curr)
    {
      if k.initiator {
        if next.valid {
          prev := next;
          next := NoKeypair();
        } else {
          prev := curr;
        }
        curr := k;
      } else {
        next := k;
        prev := NoKeypair();
      }
    }

    /** wireguard_start_session: a keypair from the handshake, which is then wiped. */
    method StartSession(c: Crypto, initiator: bool, now: u32)
      requires Valid() && handshake.localIndex != 0
      modifies this`curr, this`prev, this`next, this`handshake, this`started
      ensures Valid()
      ensures Snapshot() == Sessions.StartSession(old(Snapshot()), NewKeypair(c, old(handshake), initiator, now, |old(started)|))
    {
      hide Inv, Tau;
      ghost var v := Snapshot();
      ghost var made := NewKeypair(c, handshake, initiator, now, |started|);
      StartSessionKeeps(v, made);
      var sendingKey, receivingKey;
      if initiator {
        sendingKey, receivingKey := Kdf(c, handshake.chainingKey, [], 1), Kdf(c, handshake.chainingKey, [], 2);
      } else {
        receivingKey, sendingKey := Kdf(c, handshake.chainingKey, [], 1), Kdf(c, handshake.chainingKey, [], 2);
      }
      var k := Keypair(true, initiator, now, sendingKey, true, 0, receivingKey, true, 0, 0, Replay.FRESH,
                       handshake.localIndex, handshake.remoteIndex, |started|);
      handshake := Destroyed(handshake);
      started := started + [initiator];
      AddNewKeypair(k);
    }

    /** wireguard_encrypt_packet */
    method EncryptPacket(c: Crypto, slot: Slot, p: seq<u8>) returns (packet: seq<u8>)
      requires Valid() && MaySend(At(slot))
      modifies this`curr, this`prev, this`next, this`log
      ensures Valid() && Snapshot() == Encrypt(old(Snapshot()), slot)
      ensures packet == TransportOn(c, old(At(slot)), p).encPacket
    {
      hide Inv, Seal;
      EncryptKeeps(Snapshot(), slot);
      var k := At(slot);
      packet := Seal(c.rounds, k.sendingKey, k.sendingCounter, [], p);
      Put(slot, Counted(k));
      log := log + [Encryption(k.session, k.sendingCounter)];
    }

    /** The payload copied into a zeroed buffer of the next multiple of 16 bytes. */
    method Pad(q: Option<seq<u8>>) returns (plain: seq<u8>)
      requires q.Some? ==> |q.value| < 0x1_0000
      ensures plain == Padded(q)
    {
      hide And;
      var unpaddedLen := if q.Some? then |q.value| else 0;
      AlignDown16(unpaddedLen + 15);
      var paddedLen := And(unpaddedLen + 15, 0xffff_fff0);
      Aead.RoundUp(unpaddedLen);
      plain := (if q.Some? then q.value else []) + Zeros(paddedLen - unpaddedLen);
      PaddedIs(q);
    }

    /** The part of output_to_peer after a buffer was allocated. */
    method SendOn(c: Crypto, slot: Slot, q: Option<seq<u8>>, now: u32, sendOk: bool) returns (sent: Transport)
      requires Valid() && MaySend(At(slot)) && (q.Some? ==> |q.value| < 0x1_0000)
      modifies this`curr, this`prev, this`next, this`log, this`lastTx, this`sendHandshake
      ensures Valid() && sent == TransportOn(c, old(At(slot)), Padded(q))
      ensures var w := Encrypt(old(Snapshot()), slot);
        Snapshot() == if sendOk then w.Put(slot, Stamped(w.At(slot), now)) else w
      ensures sendHandshake <==> old(sendHandshake) || WantsRekey(Counted(old(At(slot))), now)
      ensures lastTx == if sendOk then now else old(lastTx)
    {
      hide Inv, Seal, Padded, WantsRekey;
      var k := At(slot);
      var plain := Pad(q);
      var packet := EncryptPacket(c, slot, plain);
      sent := Transport(k.remoteIndex, k.sendingCounter, packet);
      NoteSent(slot, now, sendOk);
    }

    /** The end of output_to_peer: time stamps when the packet went out, and the rekey checks. */
    method NoteSent(slot: Slot, now: u32, sendOk: bool)
      requires Valid() && At(slot).valid
      modifies this`curr, this`prev, this`next, this`lastTx, this`sendHandshake
      ensures Valid()
      ensures Snapshot() == if sendOk then old(Snapshot()).Put(slot, Stamped(old(At(slot)), now)) else old(Snapshot())
      ensures lastTx == if sendOk then now else old(lastTx)
      ensures sendHandshake <==> old(sendHandshake) || WantsRekey(old(At(slot)), now)
    {
      hide Inv, Expired;
      if sendOk {
        lastTx := now;
        PutKeeps(Snapshot(), slot, Stamped(At(slot), now));
        Put(slot, Stamped(At(slot), now));
      }
      if At(slot).sendingCounter >= REKEY_AFTER_MESSAGES {
        sendHandshake := true;
      } else if At(slot).initiator && Expired(At(slot).millis, REKEY_AFTER_TIME, now) {
        sendHandshake := true;
      }
    }

    /** wireguardif_output_to_peer. Nothing is encrypted on an expired or exhausted keypair,
        which is destroyed, nor on a responder's before a packet has been received on it. */
    method OutputToPeer(c: Crypto, q: Option<seq<u8>>, now: u32, alloc: bool, sendOk: bool)
      returns (err: Error, sent: Option<Transport>)
      requires Valid() && (q.Some? ==> |q.value| < 0x1_0000)
      modifies this`curr, this`prev, this`next, this`log, this`lastTx, this`sendHandshake
      ensures Valid()
      ensures var v := old(Snapshot());
        && sent == (if Sends(v, now, alloc) then Some(TransportOn(c, v.At(SendSlot(v)), Padded(q))) else None)
        && err == OutputError(v, now, alloc, sendOk)
        && Snapshot() == AfterOutput(v, now, alloc, sendOk)
        && (sendHandshake <==> old(sendHandshake) || AsksRekey(v, now, alloc))
        && lastTx == (if err == Ok then now else old(lastTx))
    {
      hide Inv, Seal, Encrypt, Expired;
      sent := None;
      var slot := Curr;
      if curr.valid && !curr.initiator && curr.lastRx == 0 {
        slot := Prev;
      }
      var k := At(slot);
      if k.valid && (k.initiator || k.lastRx != 0) {
        if !Expired(k.millis, REJECT_AFTER_TIME, now) && k.sendingCounter < REJECT_AFTER_MESSAGES {
          if alloc {
            var packet := SendOn(c, slot, q, now, sendOk);
            sent := Some(packet);
            err := if sendOk then Ok else SendFailed;
          } else {
            err := OutOfMemory;
          }
        } else {
          KeypairDestroy(slot);
          err := NotConnected;
        }
      } else {
        err := NotConnected;
      }
    }

    /** The replay check: a keypair that stayed in its slot hands each number on once; the slot a
        promotion has emptied hands on every number but zero. */
    method ConsultWindow(slot: Slot, counter: u64, plain: seq<u8>) returns (payload: Option<seq<u8>>)
      requires Valid() && (if slot == Next then next == NoKeypair() && curr.valid && Unused(delivered, curr.session) else At(slot).valid)
      modifies this`curr, this`prev, this`next, this`delivered, this`checked, this`exact
      ensures Valid() && Snapshot() == Consulted(old(Snapshot()), slot, counter) && checked <= old(checked) + {counter as nat}
      ensures payload == if Replay.Step(Replay.SIZE, old(At(slot)).window, counter).0 then Some(plain) else None
      ensures slot != Next && old(exact) && Replay.Exact(Replay.SIZE, old(At(slot)).window, counter) ==>
        (payload.Some? <==> Replay.Acceptable(Replay.SIZE, HandedOn(old(delivered), old(At(slot)).session), counter))
      ensures slot == Next ==> (payload.Some? <==> counter != 0)
    {
      hide Inv, Replay.Step, Replay.Exact, Replay.Acceptable, HandedOn, Unused, Consulted;
      if slot == Next {
        payload := ConsultEmptied(counter, plain);
      } else {
        CheckKeeps(Snapshot(), slot, counter);
        payload := ConsultOwn(slot, counter, plain);
      }
    }

    /** The check on the slot that a promotion has emptied. */
    method ConsultEmptied(counter: u64, plain: seq<u8>) returns (payload: Option<seq<u8>>)
      requires Valid() && next == NoKeypair() && curr.valid && Unused(delivered, curr.session)
      modifies this`next, this`delivered
      ensures Valid() && Snapshot() == Consulted(old(Snapshot()), Next, counter)
      ensures payload == if Replay.Step(Replay.SIZE, old(next).window, counter).0 then Some(plain) else None
      ensures payload.Some? <==> counter != 0
    {
      hide Inv, Replay.Step, Unused;
      EmptySlotAccepts(counter);
      var ok, window := Replay.CheckReplay(Replay.SIZE, next.window, counter);
      HandOnFirstKeeps(Snapshot(), counter, ok);
      if ok {
        delivered := delivered + [Delivery(curr.session, counter, true)];
      }
      PutKeeps(Snapshot(), Next, Windowed(next, window));
      next := Windowed(next, window);
      payload := if ok then Some(plain) else None;
    }

    /** The check on the window of a keypair that stayed in its slot. */
    method ConsultOwn(slot: Slot, counter: u64, plain: seq<u8>) returns (payload: Option<seq<u8>>)
      requires Valid() && slot != Next && At(slot).valid
      modifies this`curr, this`prev, this`next, this`delivered, this`checked, this`exact
      ensures Valid() && Snapshot() == Consulted(old(Snapshot()), slot, counter) && checked == old(checked) + {counter as nat}
      ensures payload == if Replay.Step(Replay.SIZE, old(At(slot)).window, counter).0 then Some(plain) else None
    {
      hide Inv, Replay.Step, Replay.Exact, Replay.Acceptable, HandedOn, Consulted, Checked, Windowed;
      CheckKeeps(Snapshot(), slot, counter);
      ConsultedOwn(Snapshot(), slot, counter);
      var k := At(slot);
      var ok, window := Replay.CheckReplay(Replay.SIZE, k.window, counter);
      exact := exact && Replay.Exact(Replay.SIZE, k.window, counter);
      checked := checked + {counter as nat};
      if ok {
        delivered := delivered + [Delivery(k.session, counter, false)];
      }
      Put(slot, Windowed(k, window));
      payload := if ok then Some(plain) else None;
    }

    /** What an authenticated packet does to the slots: the first half of the accepting branch. */
    method Authenticated(slot: Slot, now: u32)
      requires Valid() && At(slot).valid
      modifies this`curr, this`prev, this`next, this`confirmed, this`lastRx, this`sendHandshake
      ensures Valid() && Snapshot() == AfterReceive(old(Snapshot()), slot, now) && lastRx == now
      ensures sendHandshake <==> old(sendHandshake) || (At(slot).initiator && Expired(At(slot).millis, KeepaliveMargin(keepaliveInterval), now))
    {
      hide Inv, Expired, KeepaliveMargin, Promote, Received, NoKeypair;
      StampKeeps(Snapshot(), slot, now);
      confirmed := confirmed + {At(slot).session};
      Put(slot, Received(At(slot), now));
      lastRx := now;
      KeypairUpdate(slot);
      if At(slot).initiator && Expired(At(slot).millis, KeepaliveMargin(keepaliveInterval), now) {
        sendHandshake := true;
      }
    }

    /** wireguardif_process_data_message for an authenticated packet, from the reception stamp on. */
    method AcceptPacket(slot: Slot, counter: u64, plain: seq<u8>, now: u32) returns (payload: Option<seq<u8>>)
      requires Valid() && At(slot).valid
      modifies this`curr, this`prev, this`next, this`confirmed, this`lastRx, this`sendHandshake, this`delivered, this`checked, this`exact
      ensures Valid() && checked <= old(checked) + {counter as nat}
      ensures var w := AfterReceive(old(Snapshot()), slot, now); var step := Replay.Step(Replay.SIZE, w.At(slot).window, counter);
        if plain == [] then payload == None && Snapshot() == w
        else payload == (if step.0 then Some(plain) else None) && Snapshot() == Consulted(w, slot, counter)
      ensures var k := AfterReceive(old(Snapshot()), slot, now).At(slot);
        sendHandshake <==> old(sendHandshake) || (k.initiator && Expired(k.millis, KeepaliveMargin(keepaliveInterval), now))
    {
      hide Inv, Replay.Step, Expired, Consulted, HandedOn, Replay.Acceptable, AfterReceive, Unused;
      ReadyToConsult(Snapshot(), slot, now);
      Authenticated(slot, now);
      payload := None;
      if |plain| > 0 {
        payload := ConsultWindow(slot, counter, plain);
      }
    }

    /** wireguardif_process_data_message, up to handing the packet to the inner IP checks. */
    method ProcessDataMessage(c: Crypto, m: Transport, now: u32, alloc: bool) returns (payload: Option<seq<u8>>)
      requires Valid()
      modifies this`curr, this`prev, this`next, this`confirmed, this`lastRx, this`sendHandshake, this`delivered, this`checked, this`exact
      ensures Valid() && checked <= old(checked) + {m.counter as nat}
      ensures (forall s :: !Holds(old(Snapshot()), s, m.receiver)) ==> payload == None && Snapshot() == old(Snapshot())
      ensures forall s :: Holds(old(Snapshot()), s, m.receiver) ==> Processed(c, old(Snapshot()), s, m, now, alloc, Snapshot(), payload)
    {
      hide Inv, AfterReceive, Open;
      payload := None;
      var found := KeypairForIndex(m.receiver);
      if found.Some? {
        var slot := found.value;
        ghost var v := Snapshot();
        OnlyOneHolds(v, slot, m.receiver);
        var k := At(slot);
        if k.receivingValid && !Expired(k.millis, REJECT_AFTER_TIME, now) && k.sendingCounter < REJECT_AFTER_MESSAGES {
          if alloc {
            var plain := Open(c.rounds, k.receivingKey, m.counter, [], m.encPacket);
            if plain.Some? {
              payload := AcceptPacket(slot, m.counter, plain.value, now);
            }
          }
        } else {
          KeypairDestroy(slot);
        }
        assert Processed(c, v, slot, m, now, alloc, Snapshot(), payload);
      }
    }
  }

  /** WIREGUARDIF_KEEPALIVE_DEFAULT stands for KEEPALIVE_TIMEOUT. */
  function Interval(keepalive: u16): u16 {
    if keepalive == 0xffff then 10 else keepalive
  }

  /** `REJECT_AFTER_TIME - keepalive_interval - REKEY_TIMEOUT` as a uint32_t. */
  function KeepaliveMargin(keepalive: u16): u32 {
    (REJECT_AFTER_TIME as int - keepalive as int - REKEY_TIMEOUT as int) % W32
  }

  predicate WantsRekey(k: Keypair, now: u32)
  {
    k.sendingCounter >= REKEY_AFTER_MESSAGES || (k.initiator && Expired(k.millis, REKEY_AFTER_TIME, now))
  }

  lemma PaddedIs(q: Option<seq<u8>>)
    ensures Padded(q) == (if q.Some? then q.value else []) + Pad16(if q.Some? then |q.value| else 0)
  {
  }

  /** On a kept slot: the number is noted, handed on if the window says so, and the window moves. */
  lemma ConsultedOwn(u: View, slot: Slot, number: u64)
    requires slot != Next
    ensures var k := u.At(slot); var step := Replay.Step(Replay.SIZE, k.window, number);
      Consulted(u, slot, number) == Checked(u, slot, number)
      && Consulted(u, slot, number) == u.(checked := u.checked + {number as nat}, exact := u.exact && Replay.Exact(Replay.SIZE, k.window, number),
           delivered := if step.0 then u.delivered + [Delivery(k.session, number, false)] else u.delivered).Put(slot, Windowed(k, step.1))
  {
    hide Replay.Step, Replay.Exact;
  }

  lemma EmptySlotAccepts(number: u64)
    ensures Replay.Step(Replay.SIZE, Replay.FRESH, number).0 <==> number != 0
  {
  }

  /** What a promotion makes current has handed nothing on yet; any other packet leaves its slot valid. */
  lemma ReadyToConsult(v: View, slot: Slot, now: u32)
    requires Inv(v) && v.At(slot).valid
    ensures var w := AfterReceive(v, slot, now);
      if slot == Next then w.next == NoKeypair() && w.curr.valid && Unused(w.delivered, w.curr.session) else w.At(slot).valid
  {
  }

  lemma OnlyOneHolds(v: View, slot: Slot, index: u32)
    requires Inv(v) && Holds(v, slot, index)
    ensures forall s :: Holds(v, s, index) ==> s == slot
  {
  }

  /** The outcome for a packet whose index names a slot: refused and the keypair destroyed when it
      may no longer be used; ignored when there is no memory or the tag is wrong; otherwise accepted,
      with the payload handed on unless it is empty or the replay window refuses it. The window
      consulted is that of the same slot after keypair_update. */
  ghost predicate Processed(c: Crypto, v: View, slot: Slot, m: Transport, now: u32, alloc: bool, w: View, payload: Option<seq<u8>>)
  {
    var k := v.At(slot);
    var plain := OpenOn(c, k, m);
    if !Receives(k, now) then payload == None && w == v.Put(slot, NoKeypair())
    else if !alloc || plain.None? then payload == None && w == v
    else
      var u := AfterReceive(v, slot, now);
      var step := Replay.Step(Replay.SIZE, u.At(slot).window, m.counter);
      if plain.value == [] then payload == None && w == u
      else payload == (if step.0 then plain else None) && w == Consulted(u, slot, m.counter)
  }

  /** Every payload handed on is in the history, with the session and number of its packet. */
  lemma HandedOnIsLogged(c: Crypto, v: View, slot: Slot, m: Transport, now: u32, alloc: bool, w: View, payload: Option<seq<u8>>)
    requires Processed(c, v, slot, m, now, alloc, w, payload)
    ensures w.delivered == v.delivered + (if payload.Some? then [Delivery(v.At(slot).session, m.counter, slot == Next)] else [])
  {
    hide Replay.Step, Open;
  }
}
