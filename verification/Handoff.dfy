/** The hand-over of the RTSP socket between the two cores, as an interleaving of their steps.
    Every access to a volatile variable is one step. The two waits never expire here: a core
    that waits in vain simply takes no step. */
module Handoff {

  /** Where Core 0 goes once requestStreamStop, or the check before it, is over. */
  datatype After =
    | Done                        // httpActionServerStop
    | StopTask(always: bool)      // overheat always stops the audio task, the others only when streaming
    | Restart(wasStreaming: bool) // restartI2S
    | TeardownReply

  datatype Pc0 =
    | Idle
    | NegotiateCheck              // `if (!isStreaming)` in loop
    | Negotiate                   // accepting, reassigning, reading, writing or stopping rtspClient
    | PlayRequest | PlayDone | PlayClient | PlayStreaming // the four flags of PLAY
    | Start                       // startAudioCaptureTask
    | StopCheck(after: After)     // `if (isStreaming) requestStreamStop(...)`
    | RequestStreaming(after: After) | RequestClient(after: After) // `!isStreaming && streamClient == NULL`
    | RequestSet(after: After)
    | Poll(after: After) | CheckDone(after: After)
    | ClearStreaming(after: After) | ClearClient(after: After) | ClearRequest(after: After) | ClearDone(after: After)
    | Returned(after: After)
    | Kill(after: After) | KillFlag(after: After) | KillTake(after: After) | KillHandle(after: After) // stopAudioCaptureTask
    | RestartQuery | RestartClient | RestartStreaming

  datatype Pc1 =
    | Dead                        // no task
    | Begin | Allocate | AllocFailed
    | While | CheckRequest
    | StopLoad | StopTest | StopSocket | StopClient | StopStreaming | StopDone | WaitRequest | WaitRunning
    | CheckStreaming | CheckClient | LoadClient | Capture
    | Connected | Write           // sendRTPPacket
    | SelfStop(teardown: bool) | SelfClient(teardown: bool) | SelfStreaming(teardown: bool)
    | Rtsp | Available | Read | Reply(teardown: bool)
    | Exit | Give

  datatype State = State(
    pc0: Pc0, pc1: Pc1,
    isStreaming: bool,
    streamClient: bool,        // not NULL
    stopRequested: bool, cleanupDone: bool, taskRunning: bool,
    handle: bool,              // audioCaptureTaskHandle is not NULL
    semaphore: bool,
    client: bool)              // Core 1's local pointer is not NULL

  /* ---- Steps of Core 1: audioCaptureTask ---- */

  /** Start and end of the audio task. */
  ghost predicate Life1(s: State, t: State)
  {
    && t == s.(pc1 := t.pc1, semaphore := s.semaphore || s.pc1.Give?,
               taskRunning := (s.taskRunning || s.pc1.Begin?) && !s.pc1.AllocFailed? && !s.pc1.Exit?)
    && match s.pc1
       case Begin => t.pc1.Allocate?
       case Allocate => t.pc1.While? || t.pc1.AllocFailed?
       case AllocFailed => t.pc1.Dead?
       case Exit => t.pc1.Give?
       case Give => t.pc1.Dead?
       case _ => false
  }

  /** The top of the audio loop. */
  ghost predicate Control1(s: State, t: State)
  {
    && t == s.(pc1 := t.pc1)
    && match s.pc1
       case While => t.pc1 == if s.taskRunning then CheckRequest else Exit
       case CheckRequest => t.pc1 == if s.stopRequested then StopLoad else CheckStreaming
       case CheckStreaming => t.pc1 == if s.isStreaming then CheckClient else While
       case CheckClient => t.pc1 == if s.streamClient then LoadClient else While
       case _ => false
  }

  /** Serving a stop request. */
  ghost predicate Stop1(s: State, t: State)
  {
    && t == s.(pc1 := t.pc1, client := if s.pc1.StopLoad? then s.streamClient else s.client,
               streamClient := s.streamClient && !s.pc1.StopClient?, isStreaming := s.isStreaming && !s.pc1.StopStreaming?,
               cleanupDone := s.cleanupDone || s.pc1.StopDone?)
    && match s.pc1
       case StopLoad => t.pc1.StopTest?
       case StopTest => t.pc1 == if s.client then StopSocket else StopClient
       case StopSocket => t.pc1.StopClient?
       case StopClient => t.pc1.StopStreaming?
       case StopStreaming => t.pc1.StopDone?
       case StopDone => t.pc1.WaitRequest?
       case WaitRequest => t.pc1 == if s.stopRequested then WaitRunning else While
       case WaitRunning => t.pc1 == if s.taskRunning then WaitRequest else While
       case _ => false
  }

  /** Capturing and sending. */
  ghost predicate Send1(s: State, t: State)
  {
    && t == s.(pc1 := t.pc1, client := if s.pc1.LoadClient? then s.streamClient else s.client)
    && match s.pc1
       case LoadClient => t.pc1.Capture?
       case Capture => t.pc1.While? || t.pc1.Connected?
       case Connected => t.pc1.Write? || t.pc1 == SelfStop(false)
       case Write => t.pc1.Write? || t.pc1.Rtsp? || t.pc1 == SelfStop(false)
       case _ => false
  }

  /** Disconnecting by itself: the socket, then streamClient, then isStreaming. */
  ghost predicate Leave1(s: State, t: State)
  {
    && t == s.(pc1 := t.pc1, streamClient := s.streamClient && !s.pc1.SelfClient?, isStreaming := s.isStreaming && !s.pc1.SelfStreaming?)
    && match s.pc1
       case SelfStop(teardown) => t.pc1 == SelfClient(teardown)
       case SelfClient(teardown) => t.pc1 == SelfStreaming(teardown)
       case SelfStreaming(teardown) => t.pc1 == if teardown then While else Rtsp
       case _ => false
  }

  /** Reading RTSP commands while streaming. */
  ghost predicate Rtsp1(s: State, t: State)
  {
    && t == s.(pc1 := t.pc1)
    && match s.pc1
       case Rtsp => t.pc1.While? || (s.client && s.isStreaming && t.pc1.Available?)
       case Available => t.pc1.While? || t.pc1.Read?
       case Read => t.pc1.While? || t.pc1.Reply?
       case Reply(teardown) => t.pc1 == if teardown then SelfStop(true) else While
       case _ => false
  }

  ghost predicate Next1(s: State, t: State)
  {
    Life1(s, t) || Control1(s, t) || Stop1(s, t) || Send1(s, t) || Leave1(s, t) || Rtsp1(s, t)
  }

  /* ---- Steps of Core 0 ---- */

  /** What follows a stop request, or the finding that nothing streams. */
  function Then(after: After, streamed: bool): Pc0
  {
    match after
    case Done => Idle
    case StopTask(always) => if always || streamed then Kill(after) else Idle
    case Restart(_) => Kill(after)
    case TeardownReply => Negotiate
  }

  /** What the main loop turns to next. */
  ghost predicate Choose0(s: State, t: State)
  {
    && s.pc0.Idle? && t == s.(pc0 := t.pc0)
    && (t.pc0.NegotiateCheck? || (t.pc0.StopCheck? && !t.pc0.after.TeardownReply? && (t.pc0.after.Restart? ==> t.pc0.after.wasStreaming == s.isStreaming)))
  }

  /** RTSP negotiation, up to PLAY or TEARDOWN. */
  ghost predicate Serve0(s: State, t: State)
  {
    && t == s.(pc0 := t.pc0)
    && match s.pc0
       case NegotiateCheck => t.pc0 == if s.isStreaming then Idle else Negotiate
       case Negotiate => t.pc0.Negotiate? || t.pc0.Idle? || t.pc0.PlayRequest? || t.pc0 == StopCheck(TeardownReply)
       case _ => false
  }

  /** The flags of PLAY. */
  ghost predicate Offer0(s: State, t: State)
  {
    && t == s.(pc0 := t.pc0, stopRequested := s.stopRequested && !s.pc0.PlayRequest?, cleanupDone := s.cleanupDone && !s.pc0.PlayDone?,
               streamClient := s.streamClient || s.pc0.PlayClient?, isStreaming := s.isStreaming || s.pc0.PlayStreaming?)
    && match s.pc0
       case PlayRequest => t.pc0.PlayDone?
       case PlayDone => t.pc0.PlayClient?
       case PlayClient => t.pc0.PlayStreaming?
       case PlayStreaming => t.pc0.Start?
       case _ => false
  }

  /** startAudioCaptureTask, which may fail. */
  ghost predicate Start0(s: State, t: State)
  {
    && s.pc0.Start?
    && (t == s.(pc0 := Idle) || (!s.handle && t == s.(handle := true, pc1 := Begin, pc0 := Idle)))
  }

  /** The end of restartI2S. */
  ghost predicate Resume0(s: State, t: State)
  {
    && t == s.(pc0 := t.pc0, streamClient := s.streamClient || s.pc0.RestartClient?, isStreaming := s.isStreaming || s.pc0.RestartStreaming?)
    && match s.pc0
       case RestartQuery => t.pc0.Idle? || t.pc0.RestartClient?
       case RestartClient => t.pc0.RestartStreaming?
       case RestartStreaming => t.pc0.Start?
       case _ => false
  }

  /** requestStreamStop up to the confirmation. */
  ghost predicate Request0(s: State, t: State)
  {
    && t == s.(pc0 := t.pc0, stopRequested := s.stopRequested || s.pc0.RequestSet?)
    && match s.pc0
       case StopCheck(a) => t.pc0 == if s.isStreaming then RequestStreaming(a) else Then(a, false)
       case RequestStreaming(a) => t.pc0 == if s.isStreaming then RequestSet(a) else RequestClient(a)
       case RequestClient(a) => t.pc0 == if s.streamClient then RequestSet(a) else Returned(a)
       case RequestSet(a) => t.pc0 == Poll(a)
       case Poll(a) => t.pc0 == if s.cleanupDone then CheckDone(a) else Poll(a)
       case CheckDone(a) => s.cleanupDone && t.pc0 == ClearStreaming(a)
       case _ => false
  }

  /** requestStreamStop after the confirmation. */
  ghost predicate Clear0(s: State, t: State)
  {
    match s.pc0
    case ClearStreaming(a) => t == s.(isStreaming := false, pc0 := ClearClient(a))
    case ClearClient(a) => t == s.(streamClient := false, pc0 := ClearRequest(a))
    case ClearRequest(a) => t == s.(stopRequested := false, pc0 := ClearDone(a))
    case ClearDone(a) => t == s.(cleanupDone := false, pc0 := Returned(a))
    case Returned(a) => t == s.(pc0 := Then(a, true))
    case _ => false
  }

  /** stopAudioCaptureTask. */
  ghost predicate Kill0(s: State, t: State)
  {
    match s.pc0
    case Kill(a) => t == s.(pc0 := if s.handle then KillFlag(a) else AfterKill(a))
    case KillFlag(a) => t == s.(taskRunning := false, pc0 := KillTake(a))
    case KillTake(a) => s.semaphore && t == s.(semaphore := false, pc0 := KillHandle(a))
    case KillHandle(a) => t == s.(handle := false, pc0 := AfterKill(a))
    case _ => false
  }

  ghost predicate Next0(s: State, t: State)
  {
    Choose0(s, t) || Serve0(s, t) || Offer0(s, t) || Start0(s, t) || Resume0(s, t) || Request0(s, t) || Clear0(s, t) || Kill0(s, t)
  }

  function AfterKill(a: After): Pc0
  {
    if a == Restart(true) then RestartQuery else Idle
  }

  ghost predicate Next(s: State, t: State)
  {
    Next0(s, t) || Next1(s, t)
  }

  predicate Init(s: State)
  {
    s == State(Idle, Dead, false, false, false, false, false, false, false, false)
  }

  /* ---- What the program must avoid ---- */

  /** Core 1's next step reads, writes or stops the socket through its pointer. */
  predicate Uses1(pc: Pc1)
  {
    pc.StopSocket? || pc.Connected? || pc.Write? || pc.SelfStop? || pc.Available? || pc.Read? || pc.Reply?
  }

  /** Core 0's next step reads, writes, stops or reassigns the socket. */
  predicate Uses0(pc: Pc0)
  {
    pc.Negotiate? || pc.RestartQuery?
  }

  /** Core 1 owns the socket from the moment isStreaming is set until it has cleared it, and while it
      serves a stop request. */
  predicate Owns1(s: State)
  {
    s.isStreaming || Uses1(s.pc1)
  }

  /* ---- The invariant ---- */

  /** Between finding isStreaming set and clearing it. */
  predicate Streaming1(pc: Pc1)
  {
    pc.CheckClient? || pc.LoadClient? || pc.Capture? || pc.Connected? || pc.Write? || pc.SelfStop? || pc.SelfClient?
    || pc.SelfStreaming? || pc.Available? || pc.Read? || pc.Reply?
  }

  /** Serving a stop request, up to the confirmation. */
  predicate Stopping1(pc: Pc1)
  {
    pc.StopLoad? || pc.StopTest? || pc.StopSocket? || pc.StopClient? || pc.StopStreaming? || pc.StopDone?
  }

  predicate Waiting1(pc: Pc1)
  {
    pc.WaitRequest? || pc.WaitRunning?
  }

  /** The request is pending. */
  predicate Requesting0(pc: Pc0)
  {
    pc.Poll? || pc.CheckDone? || pc.ClearStreaming? || pc.ClearClient? || pc.ClearRequest?
  }

  predicate Confirmed0(pc: Pc0)
  {
    pc.CheckDone? || pc.ClearStreaming? || pc.ClearClient? || pc.ClearRequest? || pc.ClearDone?
  }

  /** Core 0 has seen isStreaming clear and has not set it since. */
  predicate Quiet0(pc: Pc0)
  {
    pc.Negotiate? || pc.PlayRequest? || pc.PlayDone? || pc.PlayClient? || pc.PlayStreaming? || pc.RequestClient?
    || pc.Returned? || pc.Kill? || pc.KillFlag? || pc.KillTake? || pc.KillHandle? || pc.RestartQuery? || pc.RestartClient? || pc.RestartStreaming?
  }

  /** Core 0 is about to set isStreaming, having set streamClient. */
  predicate Offering0(pc: Pc0)
  {
    pc.PlayStreaming? || pc.RestartStreaming?
  }

  predicate Flags(s: State)
  {
    && (s.stopRequested <==> Requesting0(s.pc0))
    && (Quiet0(s.pc0) ==> !s.isStreaming)
    && (Offering0(s.pc0) ==> s.streamClient)
    && (s.streamClient ==> s.isStreaming || Offering0(s.pc0))
    && (s.pc1.SelfStreaming? ==> !s.streamClient)
    && (s.isStreaming ==> s.streamClient || s.pc1.SelfStreaming? || s.pc1.StopStreaming?)
  }

  predicate Confirmation(s: State)
  {
    && (Confirmed0(s.pc0) ==> s.cleanupDone)
    && (s.cleanupDone ==> (s.pc0.Poll? || Confirmed0(s.pc0)) && !s.isStreaming && !s.streamClient)
    && (s.cleanupDone && s.stopRequested ==> Waiting1(s.pc1))
    && (Stopping1(s.pc1) ==> s.pc0.Poll? && !s.cleanupDone)
    && (s.pc1.StopSocket? || (s.pc1.StopTest? && s.client) ==> s.streamClient)
    && (s.pc1.StopDone? ==> !s.isStreaming)
    && (s.pc1.StopStreaming? || s.pc1.StopDone? ==> !s.streamClient)
  }

  predicate LocalClient(s: State)
  {
    && (Streaming1(s.pc1) ==> s.isStreaming)
    && (Streaming1(s.pc1) && !s.pc1.SelfStreaming? ==> s.streamClient)
    && (Streaming1(s.pc1) && !s.pc1.CheckClient? && !s.pc1.LoadClient? ==> s.client)
    && (s.pc1.StopSocket? ==> s.client)
  }

  /** The audio task runs only under a handle, and the semaphore means it is gone. */
  predicate Life(s: State)
  {
    && (!s.pc1.Dead? ==> s.handle)
    && (s.semaphore ==> s.pc1.Dead? && s.pc0.KillTake?)
    && (s.pc0.KillFlag? || s.pc0.KillTake? || s.pc0.KillHandle? ==> s.handle)
    && (s.pc0.KillHandle? || s.pc0.RestartQuery? || s.pc0.RestartClient? || s.pc0.RestartStreaming? ==> s.pc1.Dead?)
    && (s.pc1.Exit? || s.pc1.Give? ==> s.pc0.KillTake?)
    && (Looping1(s.pc1) ==> s.taskRunning || s.pc0.KillTake?)
  }

  predicate Looping1(pc: Pc1)
  {
    !(pc.Dead? || pc.Begin? || pc.AllocFailed? || pc.Exit? || pc.Give?)
  }

  /** No loop yet, or none any more, but not by way of the semaphore. */
  predicate NotLooping1(s: State)
  {
    s.pc1.Begin? || s.pc1.Allocate? || s.pc1.AllocFailed? || (s.pc1.Dead? && s.handle && !s.semaphore && !s.pc0.KillHandle?)
  }

  /** A handle without a loop is only there while isStreaming is set, so stopAudioCaptureTask, which
      comes after the stop, finds a loop that ends. */
  predicate Ending(s: State)
  {
    && (NotLooping1(s) ==> s.isStreaming)
    && (s.pc0.Start? && !s.handle ==> s.isStreaming)
    && (s.pc0.KillTake? && Looping1(s.pc1) ==> !s.taskRunning)
  }

  predicate Inv(s: State)
  {
    Flags(s) && Confirmation(s) && LocalClient(s) && Life(s) && Ending(s)
  }

  /** requestStreamStop returns true: at once, or after Core 1's confirmation. */
  predicate ReturnsTrue(s: State, t: State)
  {
    (s.pc0.RequestClient? && t.pc0.Returned?) || (s.pc0.ClearDone? && t.pc0.Returned?)
  }

  /** Core 0 sets streamClient. */
  predicate HandsOver(s: State, t: State)
  {
    Offering0(t.pc0) && !Offering0(s.pc0)
  }

  predicate Stopped(s: State)
  {
    !s.isStreaming && !s.streamClient && !Offering0(s.pc0)
  }

  /** A stop, once reported, lasts until the next hand-over. */
  predicate StopLasts(s: State, t: State)
  {
    (ReturnsTrue(s, t) || (Stopped(s) && !HandsOver(s, t))) ==> Stopped(t)
  }

  lemma InitHolds(s: State)
    requires Init(s)
    ensures Inv(s)
  {
  }

  lemma Serve0Keeps(s: State, t: State)
    requires Inv(s) && Serve0(s, t)
    ensures Inv(t) && StopLasts(s, t)
  {
  }

  lemma Request0Keeps(s: State, t: State)
    requires Inv(s) && Request0(s, t)
    ensures Inv(t) && StopLasts(s, t)
  {
  }

  lemma Clear0Keeps(s: State, t: State)
    requires Inv(s) && Clear0(s, t)
    ensures Inv(t) && StopLasts(s, t)
  {
  }

  lemma Kill0Keeps(s: State, t: State)
    requires Inv(s) && Kill0(s, t)
    ensures Inv(t) && StopLasts(s, t)
  {
  }

  lemma Control1Keeps(s: State, t: State)
    requires Inv(s) && Control1(s, t)
    ensures Inv(t) && StopLasts(s, t)
  {
  }

  lemma Stop1Keeps(s: State, t: State)
    requires Inv(s) && Stop1(s, t)
    ensures Inv(t) && StopLasts(s, t)
  {
  }

  lemma Send1Keeps(s: State, t: State)
    requires Inv(s) && Send1(s, t)
    ensures Inv(t) && StopLasts(s, t)
  {
  }

  lemma Leave1Keeps(s: State, t: State)
    requires Inv(s) && Leave1(s, t)
    ensures Inv(t) && StopLasts(s, t)
  {
  }

  lemma Rtsp1Keeps(s: State, t: State)
    requires Inv(s) && Rtsp1(s, t)
    ensures Inv(t) && StopLasts(s, t)
  {
  }

  lemma Offer0Keeps(s: State, t: State)
    requires Inv(s) && Offer0(s, t)
    ensures Inv(t) && StopLasts(s, t)
  {
  }

  lemma Life1Keeps(s: State, t: State)
    requires Inv(s) && Life1(s, t)
    ensures Inv(t) && StopLasts(s, t)
  {
  }

  lemma Choose0Keeps(s: State, t: State)
    requires Inv(s) && Choose0(s, t)
    ensures Inv(t) && StopLasts(s, t)
  {
  }

  lemma Resume0Keeps(s: State, t: State)
    requires Inv(s) && Resume0(s, t)
    ensures Inv(t) && StopLasts(s, t)
  {
  }

  lemma Start0Keeps(s: State, t: State)
    requires Inv(s) && Start0(s, t)
    ensures Inv(t) && StopLasts(s, t)
  {
  }

  lemma StepKeeps(s: State, t: State)
    requires Inv(s) && Next(s, t)
    ensures Inv(t) && StopLasts(s, t)
  {
    hide StopLasts, Choose0, Serve0, Offer0, Start0, Resume0, Request0, Clear0, Kill0, Life1, Control1, Stop1, Send1, Leave1, Rtsp1, Inv;
    if Choose0(s, t) {
      Choose0Keeps(s, t);
    } else if Serve0(s, t) {
      Serve0Keeps(s, t);
    } else if Offer0(s, t) {
      Offer0Keeps(s, t);
    } else if Start0(s, t) {
      Start0Keeps(s, t);
    } else if Resume0(s, t) {
      Resume0Keeps(s, t);
    } else if Request0(s, t) {
      Request0Keeps(s, t);
    } else if Clear0(s, t) {
      Clear0Keeps(s, t);
    } else if Kill0(s, t) {
      Kill0Keeps(s, t);
    } else if Life1(s, t) {
      Life1Keeps(s, t);
    } else if Control1(s, t) {
      Control1Keeps(s, t);
    } else if Stop1(s, t) {
      Stop1Keeps(s, t);
    } else if Send1(s, t) {
      Send1Keeps(s, t);
    } else if Leave1(s, t) {
      Leave1Keeps(s, t);
    } else {
      Rtsp1Keeps(s, t);
    }
  }

  /* ---- Whole runs ---- */

  /** Any interleaving of the two cores, from power-up. */
  ghost predicate Run(trace: seq<State>)
  {
    |trace| > 0 && Init(trace[0]) && forall i :: 0 <= i < |trace| - 1 ==> Next(trace[i], trace[i + 1])
  }

  lemma {:induction false} RunKeeps(trace: seq<State>, i: nat)
    requires Run(trace) && i < |trace|
    ensures Inv(trace[i])
  {
    hide Inv, Next;
    if i == 0 {
      InitHolds(trace[0]);
    } else {
      RunKeeps(trace, i - 1);
      assert Next(trace[i - 1], trace[i - 1 + 1]);
      StepKeeps(trace[i - 1], trace[i]);
    }
  }

  /** In every reachable state Core 1 dereferences only a client, and Core 0 leaves the socket alone
      while Core 1 owns it. */
  lemma NeverShared(trace: seq<State>, i: nat)
    requires Run(trace) && i < |trace|
    ensures Uses1(trace[i].pc1) ==> trace[i].client
    ensures Uses0(trace[i].pc0) ==> !Owns1(trace[i])
  {
    RunKeeps(trace, i);
    SafeState(trace[i]);
  }

  lemma SafeState(s: State)
    requires Inv(s)
    ensures Uses1(s.pc1) ==> s.client
    ensures Uses0(s.pc0) ==> !Owns1(s)
  {
  }

  /** Once requestStreamStop has returned true, Core 1 performs no read, write or stop on the socket
      until Core 0 next sets streamClient. */
  lemma {:induction false} QuietAfterStop(trace: seq<State>, i: nat, j: nat)
    requires Run(trace) && i < j < |trace| && ReturnsTrue(trace[i], trace[i + 1])
    requires forall k :: i < k < j ==> !HandsOver(trace[k], trace[k + 1])
    ensures Stopped(trace[j]) && !Uses1(trace[j].pc1)
  {
    hide Next, Inv, Uses1, HandsOver, ReturnsTrue, Stopped;
    if j > i + 1 {
      QuietAfterStop(trace, i, j - 1);
      assert !HandsOver(trace[j - 1], trace[j - 1 + 1]);
    }
    RunKeeps(trace, j - 1);
    assert Next(trace[j - 1], trace[j - 1 + 1]);
    StepKeeps(trace[j - 1], trace[j]);
    StoppedIsQuiet(trace[j]);
  }

  lemma StoppedIsQuiet(s: State)
    requires Inv(s) && Stopped(s)
    ensures !Uses1(s.pc1)
  {
  }

  /* ---- When a stop request is confirmed ---- */

  /** Core 0 polls, and Core 1 has no task, is losing it for want of memory, or still waits for the
      request before this one to be withdrawn. */
  predicate Hopeless(s: State)
  {
    s.pc0.Poll? && !s.cleanupDone && (s.pc1.Dead? || s.pc1.AllocFailed? || Waiting1(s.pc1))
  }

  /** Neither core gets on: only the time limits, which this model excludes, end the wait. */
  lemma HopelessStays(s: State, t: State)
    requires Inv(s) && Hopeless(s) && Next(s, t)
    ensures Hopeless(t)
  {
  }

  lemma {:induction false} NeverConfirmed(trace: seq<State>, i: nat, j: nat)
    requires Run(trace) && i <= j < |trace| && Hopeless(trace[i])
    ensures Hopeless(trace[j])
  {
    hide Next, Inv, Hopeless;
    if i < j {
      NeverConfirmed(trace, i, j - 1);
      RunKeeps(trace, j - 1);
      assert Next(trace[j - 1], trace[j - 1 + 1]);
      HopelessStays(trace[j - 1], trace[j]);
    }
  }

  /** Core 0 polls for a confirmation that can still come. */
  predicate Waits(s: State)
  {
    s.pc0.Poll? && !s.cleanupDone && !Hopeless(s)
  }

  /** How many steps Core 1 is at most away from the confirmation. */
  function Rank(pc: Pc1): nat
  {
    match pc
    case Begin => 26
    case Allocate => 25
    case CheckStreaming => 24
    case CheckClient => 23
    case LoadClient => 22
    case Capture => 21
    case Connected => 20
    case Write => 19
    case SelfStop(teardown) => if teardown then 11 else 18
    case SelfClient(teardown) => if teardown then 10 else 17
    case SelfStreaming(teardown) => if teardown then 9 else 16
    case Rtsp => 15
    case Available => 14
    case Read => 13
    case Reply(_) => 12
    case While => 8
    case CheckRequest => 7
    case StopLoad => 6
    case StopTest => 5
    case StopSocket => 4
    case StopClient => 3
    case StopStreaming => 2
    case StopDone => 1
    case _ => 0
  }

  /** The confirmation has come, the audio task has given up for want of memory, or the confirmation is nearer. */
  predicate Nearer(s: State, t: State)
  {
    || t.cleanupDone
    || (s.pc1.Allocate? && t.pc1.AllocFailed? && Hopeless(t))
    || (Waits(t) && Rank(t.pc1) < Rank(s.pc1))
  }

  /** While a request can be confirmed, every step that changes anything is one of Core 1 and brings
      the confirmation nearer, unless the audio task fails to allocate its buffers. */
  lemma ConfirmationNears(s: State, t: State)
    requires Inv(s) && Waits(s) && Next(s, t) && t != s
    ensures Next1(s, t) && Nearer(s, t)
  {
    hide Next0, Life1, Control1, Stop1, Send1, Leave1, Rtsp1, Nearer, Inv, Hopeless;
    FlagOfRequest(s);
    if Next0(s, t) {
      OnlyPolls(s, t);
    } else if Life1(s, t) {
      LifeNears(s, t);
    } else if Control1(s, t) {
      ControlLoops(s, t);
      ControlNears(s, t);
    } else if Stop1(s, t) {
      StopNears(s, t);
    } else if Send1(s, t) {
      SendNears(s, t);
    } else if Leave1(s, t) {
      LeaveNears(s, t);
    } else {
      RtspNears(s, t);
    }
  }

  lemma OnlyPolls(s: State, t: State)
    requires s.pc0.Poll? && !s.cleanupDone && Next0(s, t)
    ensures t == s
  {
    PollRequests(s, t);
    hide Next0;
    assert t == s.(pc0 := t.pc0);
  }

  lemma PollRequests(s: State, t: State)
    requires s.pc0.Poll? && Next0(s, t)
    ensures Request0(s, t)
  {
    hide Request0;
  }

  lemma RankNears(s: State, t: State)
    requires s.pc0.Poll? && t.pc0 == s.pc0 && !t.cleanupDone && 0 < Rank(t.pc1) < Rank(s.pc1)
    ensures Nearer(s, t)
  {
  }

  lemma LifeNears(s: State, t: State)
    requires Waits(s) && !s.pc1.Exit? && !s.pc1.Give? && Life1(s, t)
    ensures Nearer(s, t)
  {
  }

  lemma ControlLoops(s: State, t: State)
    requires Control1(s, t)
    ensures Looping1(s.pc1)
  {
  }

  lemma ControlNears(s: State, t: State)
    requires Waits(s) && s.stopRequested && s.taskRunning && Control1(s, t)
    ensures Nearer(s, t)
  {
  }

  lemma StopNears(s: State, t: State)
    requires Waits(s) && Stop1(s, t)
    ensures Nearer(s, t)
  {
    hide Nearer;
    if s.pc1.StopDone? {
      DoneIsNearer(s, t);
    } else {
      RankNears(s, t);
    }
  }

  lemma DoneIsNearer(s: State, t: State)
    requires t.cleanupDone
    ensures Nearer(s, t)
  {
  }

  lemma SendNears(s: State, t: State)
    requires s.pc0.Poll? && !s.cleanupDone && Send1(s, t) && t != s
    ensures Nearer(s, t)
  {
    hide Nearer;
    RankNears(s, t);
  }

  lemma LeaveNears(s: State, t: State)
    requires s.pc0.Poll? && !s.cleanupDone && Leave1(s, t)
    ensures Nearer(s, t)
  {
    hide Nearer;
    RankNears(s, t);
  }

  lemma RtspNears(s: State, t: State)
    requires s.pc0.Poll? && !s.cleanupDone && Rtsp1(s, t)
    ensures Nearer(s, t)
  {
    hide Nearer;
    RankNears(s, t);
  }

  lemma FlagOfRequest(s: State)
    requires Inv(s) && s.pc0.Poll?
    ensures s.stopRequested && (Looping1(s.pc1) ==> s.taskRunning) && !s.pc1.Exit? && !s.pc1.Give?
  {
  }

  /** Core 1's next step when allocation succeeds, writes go through and nothing else is to do. */
  function Onward(s: State): State
  {
    match s.pc1
    case Begin => s.(taskRunning := true, pc1 := Allocate)
    case Allocate => s.(pc1 := While)
    case While => s.(pc1 := if s.taskRunning then CheckRequest else Exit)
    case CheckRequest => s.(pc1 := if s.stopRequested then StopLoad else CheckStreaming)
    case CheckStreaming => s.(pc1 := if s.isStreaming then CheckClient else While)
    case CheckClient => s.(pc1 := if s.streamClient then LoadClient else While)
    case LoadClient => s.(client := s.streamClient, pc1 := Capture)
    case Connected => s.(pc1 := Write)
    case Write => s.(pc1 := Rtsp)
    case SelfStop(b) => s.(pc1 := SelfClient(b))
    case SelfClient(b) => s.(streamClient := false, pc1 := SelfStreaming(b))
    case SelfStreaming(b) => s.(isStreaming := false, pc1 := if b then While else Rtsp)
    case Reply(b) => s.(pc1 := if b then SelfStop(true) else While)
    case StopLoad => s.(client := s.streamClient, pc1 := StopTest)
    case StopTest => s.(pc1 := if s.client then StopSocket else StopClient)
    case StopSocket => s.(pc1 := StopClient)
    case StopClient => s.(streamClient := false, pc1 := StopStreaming)
    case StopStreaming => s.(isStreaming := false, pc1 := StopDone)
    case StopDone => s.(cleanupDone := true, pc1 := WaitRequest)
    case Exit => s.(taskRunning := false, pc1 := Give)
    case Give => s.(semaphore := true, pc1 := Dead)
    case _ => s.(pc1 := While)
  }

  lemma OnwardIsAStep(s: State)
    requires Inv(s) && Waits(s)
    ensures Next1(s, Onward(s)) && Onward(s) != s && !Onward(s).pc1.AllocFailed?
  {
    FlagOfRequest(s);
  }

  /** Steps of Core 1 alone, from s on. */
  ghost predicate Steps1(s: State, trace: seq<State>)
  {
    |trace| > 0 && trace[0] == s && forall i :: 0 <= i < |trace| - 1 ==> Next1(trace[i], trace[i + 1])
  }

  /** Steps of Core 1 from s to the confirmation. */
  ghost predicate Confirms(s: State, trace: seq<State>)
  {
    Steps1(s, trace) && trace[|trace| - 1].cleanupDone
  }

  lemma {:induction false} WaitsConfirms(s: State) returns (trace: seq<State>)
    requires Inv(s) && Waits(s)
    ensures Confirms(s, trace)
    decreases Rank(s.pc1)
  {
    hide Inv, Rank, Onward, Next1, Hopeless, Next0;
    var t := Onward(s);
    OnwardIsAStep(s);
    ConfirmationNears(s, t);
    StepKeeps(s, t);
    trace := [s, t];
    if !t.cleanupDone {
      var rest := WaitsConfirms(t);
      trace := [s] + rest;
    }
  }

  lemma {:induction false} HopelessNeverConfirms(s: State, trace: seq<State>)
    requires Inv(s) && Hopeless(s)
    ensures !Confirms(s, trace)
    decreases |trace|
  {
    hide Inv, Next1, Next0;
    if Confirms(s, trace) {
      var t := trace[1];
      assert Next1(trace[0], trace[0 + 1]);
      StepKeeps(s, t);
      HopelessStays(s, t);
      ConfirmsOn(s, trace);
      HopelessNeverConfirms(t, trace[1..]);
    }
  }

  lemma ConfirmsOn(s: State, trace: seq<State>)
    requires Confirms(s, trace) && |trace| > 1
    ensures Confirms(trace[1], trace[1..])
  {
    hide Next1;
    var rest := trace[1..];
    forall i | 0 <= i < |rest| - 1
      ensures Next1(rest[i], rest[i + 1])
    {
      assert Next1(trace[i + 1], trace[i + 1 + 1]);
    }
  }

  /** A pending request can be confirmed exactly when the state is not one of the hopeless ones. */
  lemma ConfirmedExactly(s: State)
    requires Inv(s) && s.pc0.Poll?
    ensures (exists trace :: Confirms(s, trace)) <==> !Hopeless(s)
  {
    hide Inv, Next1, Next0;
    if s.cleanupDone {
      assert Confirms(s, [s]);
    } else if Hopeless(s) {
      forall trace
        ensures !Confirms(s, trace)
      {
        HopelessNeverConfirms(s, trace);
      }
    } else {
      var trace := WaitsConfirms(s);
    }
  }

  /* ---- When the audio task is gone ---- */

  /** stopAudioCaptureTask waits for the exit semaphore. */
  predicate AwaitsExit(s: State)
  {
    s.pc0.KillTake? && !s.semaphore
  }

  /** How many steps Core 1 is at most away from giving the semaphore. */
  function ExitRank(pc: Pc1): nat
  {
    match pc
    case CheckRequest => 5
    case CheckStreaming => 4
    case WaitRequest => 4
    case WaitRunning => 4
    case Rtsp => 4
    case While => 3
    case Exit => 2
    case Give => 1
    case _ => 0
  }

  /** Where Core 1 can be at that moment. */
  predicate Leaving1(pc: Pc1)
  {
    pc.CheckRequest? || pc.CheckStreaming? || Waiting1(pc) || pc.Rtsp? || pc.While? || pc.Exit? || pc.Give?
  }

  lemma LeavingState(s: State)
    requires Inv(s) && AwaitsExit(s)
    ensures Leaving1(s.pc1) && !s.isStreaming && !s.stopRequested && (Looping1(s.pc1) ==> !s.taskRunning)
  {
  }

  /** While Core 0 waits for the semaphore, every step that changes anything is one of Core 1 and brings
      the semaphore nearer, which always comes. */
  lemma ExitNears(s: State, t: State)
    requires Inv(s) && AwaitsExit(s) && Next(s, t) && t != s
    ensures Next1(s, t) && t.pc0 == s.pc0 && (t.semaphore || ExitRank(t.pc1) < ExitRank(s.pc1))
  {
    LeavingState(s);
    hide Inv;
  }

  /** From every such state that a run reaches, Core 1 alone comes to give the semaphore. */
  lemma SemaphoreComes(run: seq<State>, i: nat) returns (trace: seq<State>)
    requires Run(run) && i < |run| && run[i].pc0.KillTake?
    ensures Steps1(run[i], trace) && trace[|trace| - 1].semaphore && trace[|trace| - 1].pc0 == run[i].pc0
  {
    RunKeeps(run, i);
    trace := ExitComes(run[i]);
  }

  lemma {:induction false} ExitComes(s: State) returns (trace: seq<State>)
    requires Inv(s) && s.pc0.KillTake?
    ensures Steps1(s, trace) && trace[|trace| - 1].semaphore && trace[|trace| - 1].pc0 == s.pc0
    decreases ExitRank(s.pc1)
  {
    hide Inv, ExitRank, Onward, Next1, Next0;
    trace := [s];
    if !s.semaphore {
      var t := Onward(s);
      OnwardLeaves(s);
      ExitNears(s, t);
      StepKeeps(s, t);
      trace := [s, t];
      if !t.semaphore {
        var rest := ExitComes(t);
        trace := [s] + rest;
      }
    }
  }

  lemma OnwardLeaves(s: State)
    requires Inv(s) && AwaitsExit(s)
    ensures Next1(s, Onward(s)) && Onward(s) != s
  {
    LeavingState(s);
    hide Inv;
  }

  /* ---- Hopeless states that runs reach ---- */

  ghost predicate Reachable(s: State)
  {
    exists trace :: Run(trace) && trace[|trace| - 1] == s
  }

  lemma PowerUp(s: State)
    requires Init(s)
    ensures Reachable(s)
  {
    assert Run([s]);
  }

  lemma ReachStep(s: State, t: State)
    requires Reachable(s) && Next(s, t)
    ensures Reachable(t)
  {
    hide Next;
    var trace :| Run(trace) && trace[|trace| - 1] == s;
    var longer := trace + [t];
    forall i | 0 <= i < |longer| - 1
      ensures Next(longer[i], longer[i + 1])
    {
      if i < |trace| - 1 {
        assert Next(trace[i], trace[i + 1]);
      }
    }
    assert Run(longer);
  }

  lemma ReachServe(s: State, t: State)
    requires Reachable(s) && Serve0(s, t)
    ensures Reachable(t)
  {
    hide Serve0, Reachable;
    ReachStep(s, t);
  }

  lemma ReachOffer(s: State, t: State)
    requires Reachable(s) && Offer0(s, t)
    ensures Reachable(t)
  {
    hide Offer0, Reachable;
    ReachStep(s, t);
  }

  lemma ReachRequest(s: State, t: State)
    requires Reachable(s) && Request0(s, t)
    ensures Reachable(t)
  {
    hide Request0, Reachable;
    ReachStep(s, t);
  }

  lemma ReachClear(s: State, t: State)
    requires Reachable(s) && Clear0(s, t)
    ensures Reachable(t)
  {
    hide Clear0, Reachable;
    ReachStep(s, t);
  }

  lemma ReachStop(s: State, t: State)
    requires Reachable(s) && Stop1(s, t)
    ensures Reachable(t)
  {
    hide Stop1, Reachable;
    ReachStep(s, t);
  }

  /** From the idle main loop to the point where PLAY has set all its flags. */
  lemma Plays(s: State)
    requires Reachable(s) && s.pc0.Idle? && !s.isStreaming
    ensures Reachable(s.(pc0 := Start, stopRequested := false, cleanupDone := false, streamClient := true, isStreaming := true))
  {
    hide Reachable, Next1;
    Negotiates(s);
    var t := s.(pc0 := PlayDone, stopRequested := false);
    ReachOffer(s.(pc0 := PlayRequest), t);
    ReachOffer(t, t.(pc0 := PlayClient, cleanupDone := false));
    t := t.(pc0 := PlayClient, cleanupDone := false);
    ReachOffer(t, t.(pc0 := PlayStreaming, streamClient := true));
    t := t.(pc0 := PlayStreaming, streamClient := true);
    ReachOffer(t, t.(pc0 := Start, isStreaming := true));
  }

  lemma Negotiates(s: State)
    requires Reachable(s) && s.pc0.Idle? && !s.isStreaming
    ensures Reachable(s.(pc0 := PlayRequest))
  {
    hide Reachable, Next1;
    ReachStep(s, s.(pc0 := NegotiateCheck));
    ReachServe(s.(pc0 := NegotiateCheck), s.(pc0 := Negotiate));
    ReachServe(s.(pc0 := Negotiate), s.(pc0 := PlayRequest));
  }

  /** From the idle main loop to polling for a stop request of httpActionServerStop. */
  lemma Requests(s: State)
    requires Reachable(s) && s.pc0.Idle? && s.isStreaming
    ensures Reachable(s.(pc0 := Poll(Done), stopRequested := true))
  {
    hide Reachable, Next1;
    ReachStep(s, s.(pc0 := StopCheck(Done)));
    ReachRequest(s.(pc0 := StopCheck(Done)), s.(pc0 := RequestStreaming(Done)));
    ReachRequest(s.(pc0 := RequestStreaming(Done)), s.(pc0 := RequestSet(Done)));
    ReachRequest(s.(pc0 := RequestSet(Done)), s.(pc0 := Poll(Done), stopRequested := true));
  }

  const POWERED := State(Idle, Dead, false, false, false, false, false, false, false, false)

  /** PLAY sets isStreaming before it learns that the audio task could not be created. */
  lemma CreationFails()
    ensures var s := State(Poll(Done), Dead, true, true, true, false, false, false, false, false);
      Reachable(s) && Hopeless(s)
  {
    hide Reachable, Next0, Next1;
    PowerUp(POWERED);
    Plays(POWERED);
    var s := POWERED.(pc0 := Start, streamClient := true, isStreaming := true);
    FailedStart(s);
    Requests(s.(pc0 := Idle));
  }

  lemma FailedStart(s: State)
    requires Reachable(s) && s.pc0.Start?
    ensures Reachable(s.(pc0 := Idle))
  {
    hide Reachable;
    ReachStep(s, s.(pc0 := Idle));
  }

  /** The first PLAY after power-up, with its audio task created. */
  const PLAYING := State(Idle, Begin, true, true, false, false, false, true, false, false)

  lemma PlayingReached()
    ensures Reachable(PLAYING)
  {
    hide Reachable, Next1;
    PowerUp(POWERED);
    Plays(POWERED);
    ReachStep(POWERED.(pc0 := Start, streamClient := true, isStreaming := true), PLAYING);
  }

  /** The audio task finds no memory for its buffers and leaves with isStreaming still set. */
  lemma AllocationFails()
    ensures var s := State(Poll(Done), AllocFailed, true, true, true, false, true, true, false, false);
      && Reachable(s) && Hopeless(s)
      && Reachable(s.(pc1 := Dead, taskRunning := false)) && Hopeless(s.(pc1 := Dead, taskRunning := false))
  {
    hide Reachable, Next0;
    PlayingReached();
    var s := PLAYING;
    ReachStep(s, s.(taskRunning := true, pc1 := Allocate));
    s := s.(taskRunning := true, pc1 := Allocate);
    ReachStep(s, s.(pc1 := AllocFailed));
    s := s.(pc1 := AllocFailed);
    Requests(s);
    s := s.(pc0 := Poll(Done), stopRequested := true);
    ReachStep(s, s.(taskRunning := false, pc1 := Dead));
  }

  /** Core 1 confirms a request and waits for its withdrawal. */
  lemma ServesRequest(s: State)
    requires Reachable(s) && s.pc1.CheckRequest? && s.stopRequested && s.streamClient
    ensures Reachable(s.(pc1 := WaitRequest, client := true, streamClient := false, isStreaming := false, cleanupDone := true))
  {
    hide Reachable, Next0;
    StopsSocket(s);
    var t := s.(pc1 := StopStreaming, client := true, streamClient := false);
    ReachStop(s.(pc1 := StopClient, client := true), t);
    ReachStop(t, t.(pc1 := StopDone, isStreaming := false));
    t := t.(pc1 := StopDone, isStreaming := false);
    ReachStop(t, t.(pc1 := WaitRequest, cleanupDone := true));
  }

  lemma StopsSocket(s: State)
    requires Reachable(s) && s.pc1.CheckRequest? && s.stopRequested && s.streamClient
    ensures Reachable(s.(pc1 := StopClient, client := true))
  {
    hide Reachable, Next0;
    ReachStep(s, s.(pc1 := StopLoad));
    var t := s.(pc1 := StopTest, client := true);
    ReachStop(s.(pc1 := StopLoad), t);
    ReachStop(t, t.(pc1 := StopSocket));
    ReachStop(t.(pc1 := StopSocket), t.(pc1 := StopClient));
  }

  /** Core 0 sees the confirmation and withdraws the request. */
  lemma Withdraws(s: State)
    requires Reachable(s) && s.pc0 == Poll(Done) && s.cleanupDone
    ensures Reachable(s.(pc0 := Idle, isStreaming := false, streamClient := false, stopRequested := false, cleanupDone := false))
  {
    hide Reachable, Next1, Request0;
    SeesConfirmation(s);
    var t := s.(pc0 := ClearClient(Done), isStreaming := false);
    ReachClear(s.(pc0 := ClearStreaming(Done)), t);
    ReachClear(t, t.(pc0 := ClearRequest(Done), streamClient := false));
    t := t.(pc0 := ClearRequest(Done), streamClient := false);
    ReachClear(t, t.(pc0 := ClearDone(Done), stopRequested := false));
    t := t.(pc0 := ClearDone(Done), stopRequested := false);
    ReachClear(t, t.(pc0 := Returned(Done), cleanupDone := false));
    t := t.(pc0 := Returned(Done), cleanupDone := false);
    ReachClear(t, t.(pc0 := Idle));
  }

  lemma SeesConfirmation(s: State)
    requires Reachable(s) && s.pc0 == Poll(Done) && s.cleanupDone
    ensures Reachable(s.(pc0 := ClearStreaming(Done)))
  {
    hide Reachable, Next1;
    ReachRequest(s, s.(pc0 := CheckDone(Done)));
    ReachRequest(s.(pc0 := CheckDone(Done)), s.(pc0 := ClearStreaming(Done)));
  }

  /** A stop, a new PLAY and a second stop, all before Core 1 looks whether the first request was
      withdrawn: it goes on waiting for that. */
  lemma SecondRequest()
    ensures var s := State(Poll(Done), WaitRequest, true, true, true, false, true, true, false, true);
      Reachable(s) && Hopeless(s)
  {
    hide Reachable, Next0, Next1;
    LoopingReached();
    var s := PLAYING.(taskRunning := true, pc1 := CheckRequest);
    Requests(s);
    s := s.(pc0 := Poll(Done), stopRequested := true);
    ServesRequest(s);
    s := s.(pc1 := WaitRequest, client := true, streamClient := false, isStreaming := false, cleanupDone := true);
    Withdraws(s);
    s := s.(pc0 := Idle, stopRequested := false, cleanupDone := false);
    Plays(s);
    s := s.(pc0 := Start, streamClient := true, isStreaming := true);
    FailedStart(s);
    Requests(s.(pc0 := Idle));
  }

  lemma LoopingReached()
    ensures Reachable(PLAYING.(taskRunning := true, pc1 := CheckRequest))
  {
    hide Reachable, Next0;
    PlayingReached();
    var s := PLAYING.(taskRunning := true, pc1 := Allocate);
    ReachStep(PLAYING, s);
    ReachStep(s, s.(pc1 := While));
    ReachStep(s.(pc1 := While), s.(pc1 := CheckRequest));
  }
}
