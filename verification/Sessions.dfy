/** Keypair slots, session numbers and indices of a peer: what every step keeps. */
module Sessions {
  import opened Words
  import opened Bits
  import opened KdfSpec
  import Noise
  import Replay

  const REKEY_AFTER_MESSAGES: nat := 0x1000_0000_0000_0000
  const REJECT_AFTER_MESSAGES: nat := 0xffff_ffff_ffff_ffff - 0x2000
  const REKEY_AFTER_TIME: nat := 120
  const REJECT_AFTER_TIME: nat := 180
  const REKEY_TIMEOUT: nat := 5

  /** wireguard_expired: both the age and the limit in milliseconds are 32-bit. */
  predicate Expired(created: u32, seconds: u32, now: u32)
  {
    Sub32(now, created) as nat >= (seconds as nat * 1000) % W32
  }

  /** struct wireguard_keypair. `session` numbers the wireguard_start_session call that made it;
      the source has no such field, and nothing the model sends or decides depends on it. */
  datatype Keypair = Keypair(
    valid: bool, initiator: bool, millis: u32,
    sendingKey: Key, sendingValid: bool, sendingCounter: u64,
    receivingKey: Key, receivingValid: bool,
    lastTx: u32, lastRx: u32, window: Replay.Window,
    localIndex: u32, remoteIndex: u32, session: nat)

  /** What keypair_destroy leaves. */
  function NoKeypair(): Keypair {
    Keypair(false, false, 0, Noise.ZeroKey(), false, 0, Noise.ZeroKey(), false, 0, 0, Replay.FRESH, 0, 0, 0)
  }

  /** struct wireguard_handshake */
  datatype Handshake = Handshake(
    valid: bool, initiator: bool, localIndex: u32, remoteIndex: u32,
    ephemeralPrivate: Key, remoteEphemeral: Key, hash: Key, chainingKey: Key)

  /** What handshake_destroy leaves; the initiator flag is not touched. */
  function Destroyed(h: Handshake): Handshake {
    Handshake(false, h.initiator, 0, 0, Noise.ZeroKey(), Noise.ZeroKey(), Noise.ZeroKey(), Noise.ZeroKey())
  }

  datatype Slot = Curr | Prev | Next

  /** One packet encrypted: the session and the counter used as nonce. */
  datatype Encryption = Encryption(session: nat, counter: u64)

  /** One payload handed on: the session, the packet's number, and whether that packet promoted the
      session's keypair to current, so that the window of the emptied slot was asked. */
  datatype Delivery = Delivery(session: nat, number: u64, promoting: bool)

  /** The slots and the handshake, with the history that the properties speak about:
      who started each session, which sessions a received packet has authenticated,
      every encryption and every payload handed on, in order, the numbers checked on a keypair's own
      window, and whether each of those steps was one that the window gets right. */
  datatype View = View(
    curr: Keypair, prev: Keypair, next: Keypair, handshake: Handshake,
    started: seq<bool>, confirmed: set<nat>, log: seq<Encryption>, delivered: seq<Delivery>,
    checked: set<nat>, exact: bool)
  {
    function At(slot: Slot): Keypair {
      match slot
      case Curr => curr
      case Prev => prev
      case Next => next
    }

    function Put(slot: Slot, k: Keypair): View {
      match slot
      case Curr => this.(curr := k)
      case Prev => this.(prev := k)
      case Next => this.(next := k)
    }
  }

  /** A valid slot belongs to a session that was started, has an index of its own that is neither
      zero nor the handshake's, and a counter past every counter its session has used. A responder
      that has received on it has authenticated a packet of that session. */
  ghost predicate Sound(v: View, k: Keypair)
  {
    k.valid ==>
      && k.session < |v.started| && v.started[k.session] == k.initiator
      && k.localIndex != 0 && k.localIndex != v.handshake.localIndex
      && (!k.initiator && k.lastRx != 0 ==> k.session in v.confirmed)
      && (forall i {:trigger v.log[i]} :: 0 <= i < |v.log| && v.log[i].session == k.session ==> v.log[i].counter < k.sendingCounter)
  }

  /** The numbers that the window of one session's keypair has handed on. */
  function HandedOn(delivered: seq<Delivery>, session: nat): (s: set<nat>)
  {
    if |delivered| == 0 then {}
    else
      var last := delivered[|delivered| - 1];
      HandedOn(delivered[..|delivered| - 1], session) + (if last.session == session && !last.promoting then {last.number as nat} else {})
  }

  /** While all steps are exact, the window of a valid slot records exactly what was handed on. */
  ghost predicate Recorded(v: View, k: Keypair)
  {
    k.valid && v.exact ==> Replay.Tracks(Replay.SIZE, k.window, HandedOn(v.delivered, k.session))
  }

  /** Nothing was handed on for the session. */
  ghost predicate Unused(delivered: seq<Delivery>, session: nat)
  {
    forall i {:trigger delivered[i]} :: 0 <= i < |delivered| ==> delivered[i].session != session
  }

  /** A promoting packet is the first handed on of its session, zero is never handed on, and while all
      steps are exact no window hands a number on twice. */
  ghost predicate DeliveredOnce(v: View)
  {
    && (v.exact ==> forall i, j :: 0 <= i < j < |v.delivered| && !v.delivered[i].promoting ==> v.delivered[i] != v.delivered[j])
    && (forall i, j {:trigger v.delivered[i], v.delivered[j]} :: 0 <= i < j < |v.delivered| && v.delivered[j].promoting ==>
         v.delivered[i].session != v.delivered[j].session)
    && (forall i {:trigger v.delivered[i]} :: 0 <= i < |v.delivered| ==>
         v.delivered[i].session < |v.started| && v.delivered[i].number != 0)
  }

  /** A keypair in the next slot has not been used. */
  ghost predicate NextWaits(v: View)
  {
    v.next.valid ==> v.next.window == Replay.FRESH && Unused(v.delivered, v.next.session)
  }

  /** Two valid slots hold different sessions under different indices. */
  predicate Apart(a: Keypair, b: Keypair)
  {
    a.valid && b.valid ==> a.session != b.session && a.localIndex != b.localIndex
  }

  /** No (session, counter) pair was encrypted twice, none at or past the limit, and a responder's
      session only after a packet of it was authenticated. */
  ghost predicate LogSafe(v: View)
  {
    && (forall i, j :: 0 <= i < j < |v.log| ==> v.log[i] != v.log[j])
    && (forall i {:trigger v.log[i]} :: 0 <= i < |v.log| ==>
         && v.log[i].session < |v.started| && v.log[i].counter < REJECT_AFTER_MESSAGES
         && (v.started[v.log[i].session] || v.log[i].session in v.confirmed))
    && (forall s :: s in v.confirmed ==> s < |v.started|)
  }

  ghost predicate Inv(v: View)
  {
    && Sound(v, v.curr) && Sound(v, v.prev) && Sound(v, v.next)
    && Apart(v.curr, v.prev) && Apart(v.curr, v.next) && Apart(v.prev, v.next)
    && (v.handshake.valid && v.handshake.initiator ==> v.handshake.localIndex != 0)
    && LogSafe(v) && Protected(v)
  }

  /** Windows stand at numbers checked, and those are only ever inexact when 2^32 or more apart. */
  ghost predicate Followed(v: View)
  {
    && (v.curr.valid ==> Replay.Seen(v.curr.window, v.checked)) && (v.prev.valid ==> Replay.Seen(v.prev.window, v.checked))
    && (Replay.Together(v.checked) ==> v.exact)
  }

  ghost predicate Protected(v: View)
  {
    Recorded(v, v.curr) && Recorded(v, v.prev) && Recorded(v, v.next) && DeliveredOnce(v) && NextWaits(v) && Followed(v)
  }

  /* ---- What keeps the invariant ---- */

  /** A slot may be cleared, or its counter advanced and its time stamps changed. */
  predicate Continues(v: View, k: Keypair, k': Keypair)
  {
    k'.valid ==>
      && k.valid && k'.session == k.session && k'.initiator == k.initiator && k'.localIndex == k.localIndex
      && k'.sendingCounter >= k.sendingCounter && k'.window == k.window
      && (k'.lastRx != 0 ==> k.lastRx != 0 || k.session in v.confirmed)
  }

  lemma PutKeeps(v: View, slot: Slot, k': Keypair)
    requires Inv(v) && Continues(v, v.At(slot), k')
    ensures Inv(v.Put(slot, k'))
  {
    SoundContinues(v, v.At(slot), k');
    PutSound(v, slot, k');
    PutProtected(v, slot, k');
  }

  lemma SoundContinues(v: View, k: Keypair, k': Keypair)
    requires Sound(v, k) && Continues(v, k, k')
    ensures Sound(v, k')
  {
  }

  lemma PutSound(v: View, slot: Slot, k': Keypair)
    requires Inv(v) && Continues(v, v.At(slot), k') && Sound(v, k')
    ensures Protected(v.Put(slot, k')) ==> Inv(v.Put(slot, k'))
  {
    hide Protected;
  }

  lemma PutProtected(v: View, slot: Slot, k': Keypair)
    requires Protected(v) && Continues(v, v.At(slot), k')
    ensures Protected(v.Put(slot, k'))
  {
    hide HandedOn, Replay.Tracks;
  }

  /** A packet of the slot's session was authenticated. */
  function Confirm(v: View, session: nat): View {
    v.(confirmed := v.confirmed + {session})
  }

  lemma ConfirmKeeps(v: View, slot: Slot)
    requires Inv(v) && v.At(slot).valid
    ensures Inv(Confirm(v, v.At(slot).session))
  {
  }

  function Counted(k: Keypair): Keypair
    requires k.sendingCounter < REJECT_AFTER_MESSAGES
  {
    k.(sendingCounter := k.sendingCounter + 1)
  }

  function Logged(v: View, k: Keypair): View {
    v.(log := v.log + [Encryption(k.session, k.sendingCounter)])
  }

  /** wireguard_encrypt_packet on a slot: its counter is used up. */
  function Encrypt(v: View, slot: Slot): View
    requires v.At(slot).sendingCounter < REJECT_AFTER_MESSAGES
  {
    Logged(v, v.At(slot)).Put(slot, Counted(v.At(slot)))
  }

  /** The slot that output may use. */
  predicate MaySend(k: Keypair)
  {
    k.valid && (k.initiator || k.lastRx != 0) && k.sendingCounter < REJECT_AFTER_MESSAGES
  }

  lemma EncryptKeeps(v: View, slot: Slot)
    requires Inv(v) && MaySend(v.At(slot))
    ensures Inv(Encrypt(v, slot))
  {
    EncryptSound(v, slot, Curr);
    EncryptSound(v, slot, Prev);
    EncryptSound(v, slot, Next);
    hide Sound, LogSafe, Protected;
    LogGrows(v, v.At(slot));
    EncryptProtected(v, slot);
  }

  lemma EncryptProtected(v: View, slot: Slot)
    requires Protected(v) && v.At(slot).sendingCounter < REJECT_AFTER_MESSAGES
    ensures Protected(Encrypt(v, slot))
  {
    hide HandedOn, Replay.Tracks, Replay.Seen, Replay.Together;
  }

  lemma LogGrows(v: View, k: Keypair)
    requires Sound(v, k) && LogSafe(v) && MaySend(k)
    ensures LogSafe(Logged(v, k))
  {
  }

  lemma EncryptSound(v: View, slot: Slot, other: Slot)
    requires Inv(v) && MaySend(v.At(slot))
    ensures Sound(Encrypt(v, slot), Encrypt(v, slot).At(other))
  {
  }

  /** keypair_update for a packet received on the next slot. */
  function Promote(v: View): View {
    v.(prev := v.curr, curr := v.next, next := NoKeypair())
  }

  lemma PromoteKeeps(v: View)
    requires Inv(v)
    ensures Inv(Promote(v))
  {
  }

  /** add_new_keypair */
  function AddNew(v: View, k: Keypair): View {
    if k.initiator then
      if v.next.valid then v.(prev := v.next, next := NoKeypair(), curr := k)
      else v.(prev := v.curr, curr := k)
    else v.(next := k, prev := NoKeypair())
  }

  /** wireguard_start_session: the keypair of session |started| takes over the handshake's index. */
  function StartSession(v: View, k: Keypair): View {
    AddNew(Started(v, k.initiator), k)
  }

  function Started(v: View, initiator: bool): View {
    v.(handshake := Destroyed(v.handshake), started := v.started + [initiator])
  }

  predicate NewFrom(v: View, k: Keypair)
  {
    && k.valid && k.session == |v.started| && k.sendingCounter == 0 && k.lastRx == 0 && k.window == Replay.FRESH
    && k.localIndex == v.handshake.localIndex && k.localIndex != 0
  }

  lemma StartSessionKeeps(v: View, k: Keypair)
    requires Inv(v) && NewFrom(v, k)
    ensures Inv(StartSession(v, k))
  {
    hide Protected, HandedOn;
    StartSessionProtects(v, k);
  }

  lemma StartSessionProtects(v: View, k: Keypair)
    requires Protected(v) && NewFrom(v, k)
    ensures Protected(StartSession(v, k))
  {
    hide HandedOn, Replay.Tracks, Replay.Together;
    NothingHanded(v.delivered, k.session);
    NewWindow(v, k);
  }

  /** The session in a slot, if any. */
  function Live(k: Keypair): set<nat>
  {
    if k.valid then {k.session} else {}
  }

  function LiveIn(v: View): set<nat>
  {
    Live(v.curr) + Live(v.prev) + Live(v.next)
  }

  /** Beside the new session an initiator keeps one other: the one that waited, or else the current
      one; a responder keeps the current one. All others are gone from every slot. */
  lemma SessionsLeft(v: View, k: Keypair)
    requires Inv(v) && NewFrom(v, k)
    ensures LiveIn(StartSession(v, k)) == {k.session} + Live(if k.initiator && v.next.valid then v.next else v.curr)
    ensures forall s :: s in LiveIn(v) && s !in LiveIn(StartSession(v, k)) <==>
      s in Live(v.prev) + (if !k.initiator then Live(v.next) else if v.next.valid then Live(v.curr) else {})
  {
    hide HandedOn, Replay.Tracks;
  }

  lemma NewWindow(v: View, k: Keypair)
    requires HandedOn(v.delivered, k.session) == {} && k.window == Replay.FRESH
    ensures Recorded(v, k)
  {
    hide HandedOn;
  }

  lemma {:induction false} NothingHanded(delivered: seq<Delivery>, session: nat)
    requires forall i :: 0 <= i < |delivered| ==> delivered[i].session < session
    ensures HandedOn(delivered, session) == {}
  {
    if |delivered| > 0 {
      NothingHanded(delivered[..|delivered| - 1], session);
    }
  }

  /** wireguard_check_replay on a slot: the window moves, and an accepted number is handed on. */
  function Checked(v: View, slot: Slot, number: u64): View {
    var step := Replay.Step(Replay.SIZE, v.At(slot).window, number);
    HandOn(v, v.At(slot), number, step.0).Put(slot, Windowed(v.At(slot), step.1))
  }

  function HandOn(v: View, k: Keypair, number: u64, ok: bool): View {
    var delivered := if ok then v.delivered + [Delivery(k.session, number, false)] else v.delivered;
    v.(checked := v.checked + {number as nat}, exact := v.exact && Replay.Exact(Replay.SIZE, k.window, number), delivered := delivered)
  }

  function Windowed(k: Keypair, w: Replay.Window): Keypair {
    k.(window := w)
  }

  lemma HandOnGrows(delivered: seq<Delivery>, last: Delivery, other: nat)
    ensures HandedOn(delivered + [last], other)
         == HandedOn(delivered, other) + (if other == last.session && !last.promoting then {last.number as nat} else {})
  {
    assert (delivered + [last])[..|delivered|] == delivered;
  }

  lemma {:induction false} HandedOnHas(delivered: seq<Delivery>, i: nat)
    requires i < |delivered| && !delivered[i].promoting
    ensures delivered[i].number as nat in HandedOn(delivered, delivered[i].session)
  {
    if i < |delivered| - 1 {
      HandedOnHas(delivered[..|delivered| - 1], i);
    }
  }

  /** The replay window does its work on every slot that keeps its keypair: while all steps are exact, a
      number is handed on exactly when it is nonzero, new to that window, and less than the window
      behind its greatest. */
  lemma CheckKeeps(v: View, slot: Slot, number: u64)
    requires Inv(v) && v.At(slot).valid && slot != Next
    ensures Inv(Checked(v, slot, number))
    ensures v.exact && Replay.Exact(Replay.SIZE, v.At(slot).window, number) ==>
      (Replay.Step(Replay.SIZE, v.At(slot).window, number).0 <==>
       Replay.Acceptable(Replay.SIZE, HandedOn(v.delivered, v.At(slot).session), number))
  {
    var k := v.At(slot);
    var (ok, window) := Replay.Step(Replay.SIZE, k.window, number);
    var w, k' := HandOn(v, k, number, ok), Windowed(k, window);
    ZeroRefused(k.window, number);
    hide Replay.Exact, Replay.Step, Replay.Tracks, Replay.Seen, Replay.Together, HandedOn;
    if w.exact {
      WindowMoves(v, k, number);
    }
    OthersRecorded(v, k, number, ok);
    OnceMore(v, k, number, ok);
    StillFollowed(v, slot, number);
    CheckedInv(v, slot, w, k');
  }

  lemma ZeroRefused(w: Replay.Window, number: u64)
    ensures Replay.Step(Replay.SIZE, w, number).0 ==> number != 0
  {
  }

  lemma WindowMoves(v: View, k: Keypair, number: u64)
    requires k.valid && v.exact && Replay.Exact(Replay.SIZE, k.window, number) && Recorded(v, k) && DeliveredOnce(v)
    ensures var (ok, window) := Replay.Step(Replay.SIZE, k.window, number);
      && (ok <==> Replay.Acceptable(Replay.SIZE, HandedOn(v.delivered, k.session), number))
      && Recorded(HandOn(v, k, number, ok), Windowed(k, window))
      && (ok ==> forall i :: 0 <= i < |v.delivered| ==> v.delivered[i] != Delivery(k.session, number, false))
  {
    hide HandedOn, Replay.Tracks, Replay.Step, Replay.Exact;
    var handed := HandedOn(v.delivered, k.session);
    Replay.StepIsExact(Replay.SIZE, k.window, handed, number);
    HandOnGrows(v.delivered, Delivery(k.session, number, false), k.session);
    forall i | 0 <= i < |v.delivered| && v.delivered[i] == Delivery(k.session, number, false)
      ensures number as nat in handed
    {
      HandedOnHas(v.delivered, i);
    }
  }

  lemma OnceMore(v: View, k: Keypair, number: u64, ok: bool)
    requires DeliveredOnce(v) && k.session < |v.started| && (ok ==> number != 0)
    requires v.exact && Replay.Exact(Replay.SIZE, k.window, number) && ok ==>
      forall i :: 0 <= i < |v.delivered| ==> v.delivered[i] != Delivery(k.session, number, false)
    ensures DeliveredOnce(HandOn(v, k, number, ok))
  {
    hide Replay.Exact;
  }

  /** Keypairs of other sessions do not notice. */
  lemma OthersRecorded(v: View, k: Keypair, number: u64, ok: bool)
    ensures forall o: Keypair :: Recorded(v, o) && o.session != k.session ==> Recorded(HandOn(v, k, number, ok), o)
  {
    hide Replay.Tracks, HandedOn, Replay.Exact;
    forall o: Keypair | Recorded(v, o) && o.session != k.session
      ensures Recorded(HandOn(v, k, number, ok), o)
    {
      HandOnGrows(v.delivered, Delivery(k.session, number, false), o.session);
      assert HandedOn(HandOn(v, k, number, ok).delivered, o.session) == HandedOn(v.delivered, o.session);
    }
  }

  lemma StillFollowed(v: View, slot: Slot, number: u64)
    requires Followed(v) && slot != Next && v.At(slot).valid
    ensures Followed(Checked(v, slot, number))
  {
    hide Replay.Exact, Replay.Step, Replay.Seen, Replay.Together;
    var more := v.checked + {number as nat};
    MoreSeen(v.curr.window, v.checked, number);
    MoreSeen(v.prev.window, v.checked, number);
    Replay.StepSeen(Replay.SIZE, v.At(slot).window, number, more);
    if Replay.Together(more) {
      Replay.ExactSeen(Replay.SIZE, v.At(slot).window, number, more);
      FewerTogether(v.checked, number);
    }
  }

  lemma MoreSeen(w: Replay.Window, checked: set<nat>, number: u64)
    ensures Replay.Seen(w, checked) ==> Replay.Seen(w, checked + {number as nat})
  {
  }

  lemma FewerTogether(checked: set<nat>, number: u64)
    ensures Replay.Together(checked + {number as nat}) ==> Replay.Together(checked)
  {
  }

  lemma CheckedInv(v: View, slot: Slot, w: View, k': Keypair)
    requires Inv(v) && v.At(slot).valid && slot != Next && k' == v.At(slot).(window := k'.window)
    requires w == v.(checked := w.checked, exact := w.exact, delivered := w.delivered)
    requires Recorded(w, k') && DeliveredOnce(w) && Followed(w.Put(slot, k'))
    requires forall i {:trigger w.delivered[i]} :: 0 <= i < |w.delivered| ==>
      (i < |v.delivered| && w.delivered[i] == v.delivered[i]) || w.delivered[i].session == k'.session
    requires forall o: Keypair :: Recorded(v, o) && o.session != k'.session ==> Recorded(w, o)
    ensures Inv(w.Put(slot, k'))
  {
    CheckedSlots(v, slot, w, k');
    hide Replay.Tracks, Replay.Seen, Replay.Together, HandedOn, Followed, Sound, LogSafe;
  }

  /** The window is no part of what concerns sending. */
  lemma CheckedSlots(v: View, slot: Slot, w: View, k': Keypair)
    requires Inv(v) && slot != Next && k' == v.At(slot).(window := k'.window)
    requires w == v.(checked := w.checked, exact := w.exact, delivered := w.delivered)
    ensures var u := w.Put(slot, k'); Sound(u, u.curr) && Sound(u, u.prev) && Sound(u, u.next) && LogSafe(u)
  {
    hide Protected;
  }

  /** The packet that promoted the current keypair is handed on. */
  function HandOnFirst(v: View, number: u64, ok: bool): View {
    v.(delivered := if ok then v.delivered + [Delivery(v.curr.session, number, true)] else v.delivered)
  }

  /** It is the first of its session, and leaves every window as it was. */
  lemma HandOnFirstKeeps(v: View, number: u64, ok: bool)
    requires Inv(v) && v.curr.valid && !v.next.valid && Unused(v.delivered, v.curr.session) && (ok ==> number != 0)
    ensures Inv(HandOnFirst(v, number, ok))
  {
    hide Replay.Tracks, HandedOn;
    HandedOnFirst(v, number, ok, v.curr.session);
    HandedOnFirst(v, number, ok, v.prev.session);
    FirstOfSession(v, number, ok);
  }

  lemma HandedOnFirst(v: View, number: u64, ok: bool, session: nat)
    ensures HandedOn(HandOnFirst(v, number, ok).delivered, session) == HandedOn(v.delivered, session)
  {
    HandOnGrows(v.delivered, Delivery(v.curr.session, number, true), session);
  }

  lemma FirstOfSession(v: View, number: u64, ok: bool)
    requires DeliveredOnce(v) && v.curr.session < |v.started| && Unused(v.delivered, v.curr.session) && (ok ==> number != 0)
    ensures DeliveredOnce(HandOnFirst(v, number, ok))
  {
  }

  /** After a promotion the keypair's own window knows nothing of the packet, and hands on any number
      but zero, that of the promoting packet included. */
  lemma PromotedHandsOnAgain(v: View, number: u64)
    requires Inv(v) && v.next.valid && number != 0
    ensures var w := HandOnFirst(Promote(v), number, true);
      && w.delivered == v.delivered + [Delivery(v.next.session, number, true)]
      && Checked(w, Curr, number).delivered == w.delivered + [Delivery(v.next.session, number, false)]
  {
  }

  /** A number was handed on for the session. */
  predicate HandedOnBefore(delivered: seq<Delivery>, session: nat, number: u64)
  {
    exists i :: 0 <= i < |delivered| && delivered[i].session == session && delivered[i].number == number
  }

  /** A number handed on before is handed on again exactly when only the promoting packet brought it and
      the window has not moved past it. */
  lemma HandedOnAgain(v: View, slot: Slot, number: u64)
    requires Inv(v) && v.At(slot).valid && slot != Next && HandedOnBefore(v.delivered, v.At(slot).session, number)
    requires v.exact && Replay.Exact(Replay.SIZE, v.At(slot).window, number)
    ensures var k, handed := v.At(slot), HandedOn(v.delivered, v.At(slot).session);
      Checked(v, slot, number).delivered == v.delivered + [Delivery(k.session, number, false)] <==>
        Delivery(k.session, number, true) in v.delivered && Delivery(k.session, number, false) !in v.delivered
        && forall a :: a in handed ==> a < number as nat + Replay.SIZE
  {
    var k, handed := v.At(slot), HandedOn(v.delivered, v.At(slot).session);
    CheckKeeps(v, slot, number);
    HandedOnIs(v.delivered, k.session, number);
    hide Replay.Step, Replay.Exact, HandedOn, Inv;
    NonzeroHandedOn(v, k.session, number);
    assert v.delivered + [Delivery(k.session, number, false)] != v.delivered;
  }

  lemma NonzeroHandedOn(v: View, session: nat, number: u64)
    requires DeliveredOnce(v) && HandedOnBefore(v.delivered, session, number)
    ensures number != 0
  {
  }

  lemma {:induction false} HandedOnIs(delivered: seq<Delivery>, session: nat, number: u64)
    ensures number as nat in HandedOn(delivered, session) <==> Delivery(session, number, false) in delivered
  {
    if |delivered| > 0 {
      var n := |delivered| - 1;
      HandedOnIs(delivered[..n], session, number);
      assert delivered == delivered[..n] + [delivered[n]];
    }
  }

  /** While all steps are exact a number is handed on again for its session only after a promoting packet
      brought it first, and never a third time. */
  ghost predicate RepeatsOnlyPromotion(delivered: seq<Delivery>)
  {
    && (forall i, j :: 0 <= i < j < |delivered| && SamePacket(delivered[i], delivered[j]) ==>
         delivered[i].promoting && !delivered[j].promoting)
    && (forall i, j, k :: 0 <= i < j < k < |delivered| ==>
         !(SamePacket(delivered[i], delivered[j]) && SamePacket(delivered[j], delivered[k])))
  }

  predicate SamePacket(a: Delivery, b: Delivery)
  {
    a.session == b.session && a.number == b.number
  }

  lemma RepeatsAreRare(v: View)
    requires DeliveredOnce(v) && v.exact
    ensures RepeatsOnlyPromotion(v.delivered)
  {
  }

  /** The handshake may change while its index stays, or takes an index no slot uses. */
  lemma HandshakeKeeps(v: View, h: Handshake)
    requires Inv(v)
    requires h.localIndex == v.handshake.localIndex || h.localIndex == 0 ||
      (h.localIndex != v.curr.localIndex && h.localIndex != v.prev.localIndex && h.localIndex != v.next.localIndex)
    requires h.valid && h.initiator && h.localIndex == 0 ==> v.handshake.valid && v.handshake.initiator && v.handshake.localIndex == 0
    ensures Inv(v.(handshake := h))
  {
  }

  /* ---- What the invariant says ---- */

  /** The slot, if any, in which get_peer_keypair_for_idx finds an index. */
  predicate Holds(v: View, slot: Slot, index: u32)
  {
    v.At(slot).valid && v.At(slot).localIndex == index
  }

  lemma AtMostOneHolds(v: View, a: Slot, b: Slot, index: u32)
    requires Inv(v) && Holds(v, a, index) && Holds(v, b, index)
    ensures a == b
  {
  }

  /** Every session is in at most one valid slot. */
  lemma OneSlotPerSession(v: View, a: Slot, b: Slot)
    requires Inv(v) && v.At(a).valid && v.At(b).valid && v.At(a).session == v.At(b).session
    ensures a == b
  {
  }

  /** A valid slot never answers to the outstanding handshake's index. */
  lemma SlotsAvoidHandshake(v: View, slot: Slot, index: u32)
    requires Inv(v) && Holds(v, slot, index)
    ensures index != 0 && index != v.handshake.localIndex
  {
  }
}
