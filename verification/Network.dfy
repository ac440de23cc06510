/** Two devices and the messages between them, and whole runs of one device. */
module Network {
  import opened Words
  import opened Bits
  import opened KdfSpec
  import opened AeadSpec
  import opened Noise
  import opened HandshakeSpec
  import opened Sessions
  import opened Peers
  import opened Devices
  import Tai64n
  import Replay

  /** Each side's keys and indices are the other's, crossed. */
  predicate Mirror(a: Keypair, b: Keypair)
  {
    && a.valid && b.valid && a.initiator && !b.initiator
    && a.sendingKey == b.receivingKey && a.receivingKey == b.sendingKey
    && a.localIndex == b.remoteIndex && a.remoteIndex == b.localIndex
    && a.sendingValid && a.receivingValid && b.sendingValid && b.receivingValid
  }

  /** What one side of a mirrored pair encrypts, the other decrypts, in both directions. */
  lemma MirrorsUnderstand(c: Crypto, a: Keypair, b: Keypair, p: seq<u8>)
    requires Mirror(a, b)
    ensures TransportOn(c, a, p).receiver == b.localIndex && OpenOn(c, b, TransportOn(c, a, p)) == Some(p)
    ensures TransportOn(c, b, p).receiver == a.localIndex && OpenOn(c, a, TransportOn(c, b, p)) == Some(p)
  {
    hide Seal, Open;
    OpenSeal(c.rounds, a.sendingKey, a.sendingCounter, [], p, Seal(c.rounds, a.sendingKey, a.sendingCounter, [], p));
    OpenSeal(c.rounds, b.sendingKey, b.sendingCounter, [], p, Seal(c.rounds, b.sendingKey, b.sendingCounter, [], p));
  }

  /** The two devices are configured with each other's public keys and one preshared key. */
  ghost predicate Paired(i: Device, r: Device)
    reads i.peer, r.peer
  {
    && i.peer != r.peer && i.Configured() && r.Configured() && i.c == r.c && Commutes(i.c)
    && i.peer.publicKey == r.publicKey && r.peer.publicKey == i.publicKey && i.peer.presharedKey == r.peer.presharedKey
    && i.peer.valid && r.peer.valid && i.peer.Valid() && r.peer.Valid()
  }

  /** The random inputs and the clock readings of one handshake. */
  datatype Inputs = Inputs(
    initiatorRandom: Key, responderRandom: Key, initiatorDraws: seq<u32>, responderDraws: seq<u32>,
    initiatorMac2: Tag16, responderMac2: Tag16, stamp: Stamp12,
    sentAt: u32, initiationAt: u32, responseAt: u32, keepaliveAt: u32)

  /** DH gives no zero anywhere, the random sources yield indices, the initiation is accepted as fresh,
      and the responder hears back within the lifetime of the session. */
  ghost predicate Undisturbed(i: Device, r: Device, x: Inputs)
    reads r.peer
  {
    && Rich(x.initiatorDraws) && Rich(x.responderDraws)
    && CanInitiate(i.c, ClampKey(x.initiatorRandom), r.publicKey)
    && CanRespond(i.c, ClampKey(x.responderRandom), PublicKey(i.c, ClampKey(x.initiatorRandom)), i.publicKey)
    && IsFresh(x.stamp, r.peer.greatestTimestamp, r.peer.lastInitiationRx, x.initiationAt)
    && !Expired(x.initiationAt, REJECT_AFTER_TIME, x.keepaliveAt)
  }

  /** Any state of two paired devices, with any sessions and handshakes already about: after the two
      handshake messages the initiator's current and the responder's next keypair mirror each other. */
  method Exchange(i: Device, r: Device, x: Inputs, sendOk: bool) returns (keepalive: Transport)
    requires Paired(i, r) && Undisturbed(i, r, x)
    modifies i.peer, r.peer
    ensures i.peer.Valid() && r.peer.Valid()
    ensures Mirror(i.peer.curr, r.peer.next) && r.peer.valid
    ensures r.peer.next.millis == x.initiationAt && r.peer.next.sendingCounter == 0
    ensures i.peer.curr.millis == x.responseAt && i.peer.curr.sendingCounter == 1
    ensures r.peer.delivered == old(r.peer.delivered)
    ensures keepalive == Transport(r.peer.next.localIndex, 0, Seal(r.c.rounds, r.peer.next.receivingKey, 0, [], []))
  {
    hide Inv, Tau, KdfSpec.Mac, KdfSpec.Hash, Seal, MakeInitiation, MakeResponse, ReadInitiation, ReadResponse, CanInitiate, CanRespond, Expired, IsFresh, Rich, ClampKey;
    ghost var c, ip, rp := i.c, ClampKey(x.initiatorRandom), ClampKey(x.responderRandom);
    ghost var parts := MakeInitiation(c, ip, i.publicKey, r.publicKey, i.peer.publicKeyDh, x.stamp);
    InitiationAgrees(c, ip, i.privateKey, r.privateKey, x.stamp);
    var m1 := i.StartHandshake(x.initiatorRandom, x.stamp, x.initiatorDraws, x.initiatorMac2, x.sentAt, true);
    InitiationIsMine(c, parts, ip, i.publicKey, r.publicKey, i.peer.publicKeyDh, x.stamp);
    var m2 := r.ReceiveInitiation(m1.value, x.responderRandom, x.responderDraws, x.responderMac2, x.initiationAt, true);
    ghost var answer := MakeResponse(c, parts.chainingKey, parts.hash, rp, parts.ephemeral, i.publicKey, r.peer.presharedKey);
    ResponseAgrees(c, parts.chainingKey, parts.hash, rp, ip, i.privateKey, i.peer.presharedKey);
    var sent := i.ReceiveResponse(m2.value, x.responseAt, true, sendOk);
    keepalive := sent.value;
  }

  lemma InitiationIsMine(c: Crypto, parts: InitiationParts, private: Key, initiator: Key, responder: Key, ss: Key, stamp: Stamp12)
    requires parts == MakeInitiation(c, private, initiator, responder, ss, stamp)
    ensures parts.ephemeral == PublicKey(c, private)
  {
  }

  /** The whole handshake with the keepalive that confirms it: the two current keypairs mirror each
      other, the responder's session is confirmed, and from then on the responder sends on it,
      unless the clock read 0, which is stored as "nothing received". */
  method Connect(i: Device, r: Device, x: Inputs, sendOk: bool)
    requires Paired(i, r) && Undisturbed(i, r, x)
    modifies i.peer, r.peer
    ensures i.peer.Valid() && r.peer.Valid()
    ensures Mirror(i.peer.curr, r.peer.curr) && !r.peer.next.valid
    ensures r.peer.curr.session in r.peer.confirmed
    ensures SendSlot(r.peer.Snapshot()) == Curr && MaySend(r.peer.curr) <==> x.keepaliveAt != 0
  {
    hide Inv, Tau, Seal, Open, Expired, CanInitiate, CanRespond, IsFresh, Rich, ClampKey, KdfSpec.Hash;
    var keepalive := Exchange(i, r, x, sendOk);
    ghost var v, next := r.peer.Snapshot(), r.peer.next;
    assert Holds(v, Next, keepalive.receiver);
    OpenSeal(r.c.rounds, next.receivingKey, 0, [], [], Seal(r.c.rounds, next.receivingKey, 0, [], []));
    assert OpenOn(r.c, next, keepalive) == Some([]);
    var payload := r.ReceiveTransport(keepalive, x.keepaliveAt, true);
    Promoted(v, x.keepaliveAt);
    assert r.peer.Snapshot() == AfterReceive(v, Next, x.keepaliveAt);
  }

  lemma Promoted(v: View, now: u32)
    ensures var w := AfterReceive(v, Next, now);
      w.curr == Received(v.next, now) && w.prev == v.curr && w.next == NoKeypair() && v.next.session in w.confirmed
  {
  }

  /** A handshake whose keepalive is lost, and the initiator's first data packet. */
  method FirstData(i: Device, r: Device, x: Inputs, q: seq<u8>, sentAt: u32) returns (m: Transport)
    requires Paired(i, r) && Undisturbed(i, r, x) && |q| < 0x1_0000 && !Expired(x.responseAt, REJECT_AFTER_TIME, sentAt)
    modifies i.peer, r.peer
    ensures r.peer.Valid() && r.peer.valid && r.peer.next.valid && r.peer.delivered == old(r.peer.delivered)
    ensures forall now :: Receives(r.peer.next, now) <==> !Expired(x.initiationAt, REJECT_AFTER_TIME, now)
    ensures m.counter == 1 && m.receiver == r.peer.next.localIndex && OpenOn(r.c, r.peer.next, m) == Some(Padded(Some(q)))
  {
    hide Inv, Tau, Seal, Open, Expired, Undisturbed, KdfSpec.Hash, Padded;
    var lost := Exchange(i, r, x, true);
    ghost var a, b := i.peer.curr, r.peer.next;
    var err, sent := i.peer.OutputToPeer(i.c, Some(q), sentAt, true, true);
    m := sent.value;
    MirrorsUnderstand(r.c, a, b, Padded(Some(q)));
  }

  /** That packet promotes the responder's keypair. Its number goes to the window of the emptied slot,
      so the same packet arriving once more is handed on again; a third time it is refused. */
  method HandedOnTwice(i: Device, r: Device, x: Inputs, q: seq<u8>, sentAt: u32, at: seq<u32>)
    returns (first: Option<seq<u8>>, second: Option<seq<u8>>, third: Option<seq<u8>>)
    requires Paired(i, r) && Undisturbed(i, r, x) && 0 < |q| < 0x1_0000 && |at| == 3
    requires !Expired(x.responseAt, REJECT_AFTER_TIME, sentAt)
    requires forall n :: 0 <= n < 3 ==> !Expired(x.initiationAt, REJECT_AFTER_TIME, at[n])
    modifies i.peer, r.peer
    ensures first == Some(Padded(Some(q))) && second == first && third == None
    ensures r.peer.delivered == old(r.peer.delivered) + [Delivery(r.peer.curr.session, 1, true), Delivery(r.peer.curr.session, 1, false)]
  {
    hide Inv, Open, Expired, Undisturbed, KdfSpec.Hash, Padded;
    PaddedIsLonger(q);
    var m := FirstData(i, r, x, q, sentAt);
    first, second, third := ReceiveThrice(r, m, at);
  }

  /** Any authentic packet with a payload and a nonzero number, received three times from the one that
      promotes on. */
  method ReceiveThrice(r: Device, m: Transport, at: seq<u32>)
    returns (first: Option<seq<u8>>, second: Option<seq<u8>>, third: Option<seq<u8>>)
    requires r.peer.Valid() && r.peer.valid && Holds(r.peer.Snapshot(), Next, m.receiver) && m.counter != 0 && |at| == 3
    requires OpenOn(r.c, r.peer.next, m).Some? && OpenOn(r.c, r.peer.next, m) != Some([])
    requires forall n :: 0 <= n < 3 ==> Receives(r.peer.next, at[n])
    modifies r.peer
    ensures first == old(OpenOn(r.c, r.peer.next, m)) && second == first && third == None
    ensures r.peer.delivered == old(r.peer.delivered) + [Delivery(r.peer.curr.session, m.counter, true), Delivery(r.peer.curr.session, m.counter, false)]
  {
    hide Inv, OpenOn, Expired, Processed, Replay.Step, Receives;
    ghost var v := r.peer.Snapshot();
    first := r.ReceiveTransport(m, at[0], true);
    PromotingReceipt(r.c, v, m, at[0], r.peer.Snapshot(), first);
    assert Receives(v.next, at[1]) && Receives(v.next, at[2]);
    assert Receives(r.peer.curr, at[1]) && Receives(r.peer.curr, at[2]);
    second := ReceiveOnCurrent(r, m, at[1]);
    third := ReceiveOnCurrent(r, m, at[2]);
    Replay.NotAgain(Replay.SIZE, Replay.FRESH, m.counter);
  }

  /** An authentic packet on the current keypair: its window decides. */
  method ReceiveOnCurrent(r: Device, m: Transport, now: u32) returns (payload: Option<seq<u8>>)
    requires r.peer.Valid() && r.peer.valid && r.peer.curr.valid && r.peer.curr.localIndex == m.receiver
    requires OpenOn(r.c, r.peer.curr, m).Some? && OpenOn(r.c, r.peer.curr, m) != Some([]) && Receives(r.peer.curr, now)
    modifies r.peer
    ensures r.peer.Valid() && r.peer.valid && r.peer.curr.valid && SameReceiver(r.c, old(r.peer.curr), r.peer.curr, m)
    ensures var k := old(r.peer.curr); var step := Replay.Step(Replay.SIZE, k.window, m.counter);
      && payload == (if step.0 then OpenOn(r.c, k, m) else None) && r.peer.curr.window == step.1
      && r.peer.delivered == old(r.peer.delivered) + (if step.0 then [Delivery(k.session, m.counter, false)] else [])
  {
    hide Inv, OpenOn, Expired, Processed, Replay.Step, Receives, SameReceiver;
    ghost var v := r.peer.Snapshot();
    assert Holds(v, Curr, m.receiver);
    payload := r.ReceiveTransport(m, now, true);
    Receipt(r.c, v, m, now, r.peer.Snapshot(), payload);
  }

  lemma PaddedIsLonger(q: seq<u8>)
    ensures q != [] ==> Padded(Some(q)) != []
  {
  }

  /** What concerns receiving m is the same on both. */
  ghost predicate SameReceiver(c: Crypto, a: Keypair, b: Keypair, m: Transport)
  {
    && b.localIndex == a.localIndex && b.session == a.session && OpenOn(c, b, m) == OpenOn(c, a, m)
    && forall now :: Receives(b, now) <==> Receives(a, now)
  }

  /** Any authentic packet with a payload and a nonzero number is handed on when it promotes. */
  lemma PromotingReceipt(c: Crypto, v: View, m: Transport, now: u32, w: View, payload: Option<seq<u8>>)
    requires Inv(v) && v.next.valid && Receives(v.next, now) && m.counter != 0
    requires OpenOn(c, v.next, m).Some? && OpenOn(c, v.next, m) != Some([]) && Processed(c, v, Next, m, now, true, w, payload)
    ensures payload == OpenOn(c, v.next, m) && w.curr == Received(v.next, now) && w.curr.window == Replay.FRESH
    ensures w.delivered == v.delivered + [Delivery(v.next.session, m.counter, true)]
    ensures Replay.Step(Replay.SIZE, w.curr.window, m.counter).0 && SameReceiver(c, v.next, w.curr, m)
  {
    hide Open, Expired;
  }

  /** On the current keypair its window decides, and records the number. */
  lemma Receipt(c: Crypto, v: View, m: Transport, now: u32, w: View, payload: Option<seq<u8>>)
    requires v.curr.valid && Receives(v.curr, now)
    requires OpenOn(c, v.curr, m).Some? && OpenOn(c, v.curr, m) != Some([]) && Processed(c, v, Curr, m, now, true, w, payload)
    ensures var step := Replay.Step(Replay.SIZE, v.curr.window, m.counter);
      && payload == (if step.0 then OpenOn(c, v.curr, m) else None)
      && w.curr == Windowed(Received(v.curr, now), step.1)
      && w.delivered == v.delivered + (if step.0 then [Delivery(v.curr.session, m.counter, false)] else [])
      && SameReceiver(c, v.curr, w.curr, m)
  {
    hide Open, Replay.Step, Expired;
  }

  /* ---- Whole runs ---- */

  /** One step of a device: what arrives, what the IP layer sends, a timer tick, a reconfiguration. */
  datatype Event =
    | Output(q: seq<u8>, now: u32, alloc: bool, sendOk: bool)
    | InitiationArrives(initiation: Initiation, random: Key, draws: seq<u32>, mac2: Tag16, now: u32, alloc: bool)
    | ResponseArrives(response: Response, now: u32, alloc: bool, sendOk: bool)
    | DataArrives(data: Transport, now: u32, alloc: bool)
    | Timer(random: Key, stamp: Stamp12, draws: seq<u32>, mac2: Tag16, now: u32, alloc: bool, sendOk: bool)
    | Up
    | Down

  /** lwIP packets are below 64 KB, and the random source does not repeat itself forever. */
  predicate Possible(e: Event)
  {
    match e
    case Output(q, _, _, _) => |q| < 0x1_0000
    case InitiationArrives(_, _, draws, _, _, _) => Rich(draws)
    case Timer(_, _, draws, _, _, _, _) => Rich(draws)
    case _ => true
  }

  /** The number of a received transport packet. */
  function NumberOf(e: Event): (s: set<nat>)
  {
    if e.DataArrives? then {e.data.counter as nat} else {}
  }

  function NumbersOf(events: seq<Event>): (s: set<nat>)
  {
    if |events| == 0 then {} else NumbersOf(events[..|events| - 1]) + NumberOf(events[|events| - 1])
  }

  /** The branches of wireguardif_network_rx. */
  method Arrive(d: Device, e: Event)
    requires d.peer.Valid() && Possible(e)
    modifies d.peer
    ensures d.peer.Valid()
    ensures d.peer.checked <= old(d.peer.checked) + NumberOf(e)
  {
    hide Inv, Rich, Open, Processed, ReadInitiation, MakeResponse, ReadResponse, AnswerStarted, InitiatorStarted, Holds, IsFresh, Accepted, SlotsSame, SameSession, CanRespond, ResponseOf, KdfSpec.Mac, ClampKey;
    match e
    case InitiationArrives(m, random, draws, mac2, now, alloc) =>
      var reply := d.ReceiveInitiation(m, random, draws, mac2, now, alloc);
    case ResponseArrives(m, now, alloc, sendOk) =>
      var keepalive := d.ReceiveResponse(m, now, alloc, sendOk);
    case DataArrives(m, now, alloc) =>
      var payload := d.ReceiveTransport(m, now, alloc);
    case _ =>
  }

  method Handle(d: Device, e: Event)
    requires d.peer.Valid() && Possible(e)
    modifies d.peer
    ensures d.peer.Valid()
    ensures d.peer.checked <= old(d.peer.checked) + NumberOf(e)
  {
    hide Inv, Rich, Encrypt, Sends, TransportOn, Swept, NumberOf;
    match e
    case Output(q, now, alloc, sendOk) =>
      var err, sent := d.peer.OutputToPeer(d.c, Some(q), now, alloc, sendOk);
    case Timer(random, stamp, draws, mac2, now, alloc, sendOk) =>
      var keepalive, m := d.Tick(random, stamp, draws, mac2, now, alloc, sendOk);
    case Up =>
      d.Connect();
    case Down =>
      d.Disconnect();
    case _ =>
      Arrive(d, e);
  }

  /** Any run of a device from its configuration on: no (session, counter) pair is encrypted twice,
      none at or past the limit, a responder's session only once a packet of it was authenticated;
      each session is in at most one valid slot; and the valid slots and an outstanding
      initiation have distinct nonzero indices. A promoting packet is the first its session hands
      on. While each number checked is one its window gets right, nothing else is ever handed on twice;
      and each is if the numbers received are less than 2^32 apart. */
  method Run(crypto: Crypto, private: Key, peerPublic: Key, psk: Key, keepalive: u16, stamp: Stamp12, events: seq<Event>)
    returns (d: Device)
    requires forall n :: 0 <= n < |events| ==> Possible(events[n])
    ensures fresh(d) && fresh(d.peer) && d.peer.Valid()
    ensures NeverTwice(d.peer.log) && LogSafe(d.peer.Snapshot())
    ensures PromotesFirst(d.peer.delivered)
    ensures d.peer.exact ==> RepeatsOnlyPromotion(d.peer.delivered)
    ensures Replay.Together(NumbersOf(events)) ==> d.peer.exact
    ensures OneSlotEach(d.peer.Snapshot()) && OwnIndices(d.peer.Snapshot())
  {
    hide Inv, LogSafe, OneSlotEach, OwnIndices, NeverTwice, PromotesFirst, RepeatsOnlyPromotion, NumbersOf, NumberOf;
    d := new Device(crypto, private, peerPublic, psk, keepalive, stamp);
    for n := 0 to |events|
      invariant fresh(d) && fresh(d.peer) && d.peer.Valid()
      invariant d.peer.checked <= NumbersOf(events[..n])
    {
      MoreEvents(events, n);
      Handle(d, events[n]);
    }
    assert events[..|events|] == events;
    SafeState(d.peer.Snapshot());
  }

  lemma MoreEvents(events: seq<Event>, n: nat)
    requires n < |events|
    ensures NumbersOf(events[..n + 1]) == NumbersOf(events[..n]) + NumberOf(events[n])
  {
    assert events[..n + 1][..n] == events[..n];
  }

  /** What Run promises holds in every state that keeps the invariant. */
  lemma SafeState(v: View)
    requires Inv(v)
    ensures NeverTwice(v.log) && LogSafe(v) && OneSlotEach(v) && OwnIndices(v)
    ensures PromotesFirst(v.delivered) && (v.exact ==> RepeatsOnlyPromotion(v.delivered))
    ensures forall numbers :: v.checked <= numbers && Replay.Together(numbers) ==> v.exact
  {
    if v.exact {
      RepeatsAreRare(v);
    }
  }

  /** A promoting packet comes before all others of its session. */
  ghost predicate PromotesFirst(delivered: seq<Delivery>)
  {
    forall i, j :: 0 <= i < j < |delivered| && delivered[i].session == delivered[j].session ==> !delivered[j].promoting
  }

  /** Two valid slots never hold the same session or the same index. */
  predicate OneSlotEach(v: View)
  {
    forall a, b :: a != b && v.At(a).valid && v.At(b).valid ==> Apart(v.At(a), v.At(b))
  }

  /** No valid slot has index zero or the handshake's index, and an outstanding initiation has an index. */
  predicate OwnIndices(v: View)
  {
    && (forall a :: v.At(a).valid ==> v.At(a).localIndex != 0 && v.At(a).localIndex != v.handshake.localIndex)
    && (v.handshake.valid && v.handshake.initiator ==> v.handshake.localIndex != 0)
  }

  predicate NeverTwice<T(==)>(log: seq<T>)
  {
    forall i, j :: 0 <= i < j < |log| ==> log[i] != log[j]
  }
}
