/**
 The agent's two threads over the packet queue: a reader that pushes what it receives and saves the
 queue, and a sender that pops a packet once it is acknowledged. A step is one access to the shared
 queue or one answer of the line.
 */
module Agent {
  import opened Frames
  import opened PacketStore

  const ACK: Byte := 0x06

  /** FrameCommandType is DataRequest: the command behind the head is "ra". */
  predicate IsRa(p: seq<Byte>) {
    |p| > 4 && p[3] == 0x72 && p[4] == 0x61
  }

  /** IsAck and IsAckNo: an acknowledgement that carries this number. */
  predicate Acknowledges(ack: seq<Byte>, no: nat) {
    |ack| >= 6 && ack[0] == ACK && (ack[4] as nat) * 256 + ack[5] == no
  }

  /** Why a packet left the queue. */
  datatype Reason = NotRa | Answered(ack: seq<Byte>)

  datatype Departure = Departure(packet: seq<Byte>, reason: Reason)

  /** The sender: outside SendCurrentData, at the head of its loop, or waiting for the answer to a packet. */
  datatype Sender = Outside | Ready | Waiting(packet: seq<Byte>)

  /**
   The queue, the packets taken in and those that left it so far, the sender with its retry counter and
   the unacknowledged attempts in a row, the file, whether the reader is in the middle of a save, and which of the
   packets taken in the last save has written whole.
   */
  datatype State = State(
    queue: seq<seq<Byte>>, accepted: seq<seq<Byte>>, gone: seq<Departure>, sender: Sender, retry: nat, failures: nat,
    file: seq<Byte>, saving: bool, savedFrom: nat, savedTo: nat)

  datatype Step =
    | Push(p: seq<Byte>)
    | SaveBegin
    | SaveEnd(room: nat)
    | Enter
    | Drop
    | Send
    | Answer(ack: seq<Byte>, powerOff: bool)
    | Disconnected(resume: bool)
    | Leave

  ghost predicate Enabled(s: State, crc: seq<Byte> -> nat, step: Step) {
    match step
    case Push(p) => !s.saving && (p == [] || (FrameOk(crc, p) && |p| < 5000))
    case SaveBegin => !s.saving && s.queue != []
    case SaveEnd(_) => s.saving
    case Enter => s.sender == Outside
    case Drop => s.sender == Ready && s.queue != [] && !IsRa(s.queue[0])
    case Send => s.sender == Ready && s.queue != [] && IsRa(s.queue[0])
    case Answer(_, _) => s.sender.Waiting?
    case Disconnected(_) => s.sender.Waiting?
    case Leave => s.sender == Ready && s.queue == []
  }

  /** What the sender does with the answer to a packet: pop it, try again, or give up. */
  function AfterAnswer(s: State, ack: seq<Byte>, powerOff: bool): State
    requires s.sender.Waiting? && s.queue != []
  {
    var p := s.sender.packet;
    if powerOff then s.(sender := Outside)
    else if Acknowledges(ack, DataNo(p)) then
      s.(queue := s.queue[1..], gone := s.gone + [Departure(s.queue[0], Answered(ack))],
          sender := Ready, retry := 0, failures := 0)
    else if s.retry > 3 then s.(sender := Outside, failures := s.failures + 1)
    else s.(sender := Ready, retry := s.retry + 1, failures := s.failures + 1)
  }

  ghost function Apply(s: State, step: Step): State
    requires (step.Drop? || step.Send? || step.Answer? ==> s.queue != []) && (step.Answer? ==> s.sender.Waiting?)
  {
    match step
    case Push(p) =>
      var queue := Pushed(s.queue, p);
      s.(queue := queue, accepted := if |queue| > |s.queue| then s.accepted + [p] else s.accepted)
    case SaveBegin => s.(saving := true, file := [])
    case SaveEnd(room) =>
      var n := Least(room, |Image(s.queue)|);
      s.(saving := false, file := Image(s.queue)[..n], savedFrom := |s.gone|,
         savedTo := |s.gone| + Whole(s.queue, 0, n))
    case Enter => s.(sender := Ready, retry := 0, failures := 0)
    case Drop => s.(queue := s.queue[1..], gone := s.gone + [Departure(s.queue[0], NotRa)])
    case Send => s.(sender := Waiting(s.queue[0]))
    case Answer(ack, powerOff) => AfterAnswer(s, ack, powerOff)
    case Disconnected(resume) => s.(sender := if resume then Ready else Outside)
    case Leave => s.(sender := Outside)
  }

  // ----- What every step keeps

  function Packets(gone: seq<Departure>): seq<seq<Byte>> {
    if gone == [] then [] else Packets(gone[..|gone| - 1]) + [gone[|gone| - 1].packet]
  }

  lemma {:induction false} PacketsLength(gone: seq<Departure>)
    ensures |Packets(gone)| == |gone|
  {
    if gone != [] {
      PacketsLength(gone[..|gone| - 1]);
    }
  }

  /** The bytes behind the head of the frame are "ra". */
  ghost predicate DataFrame(p: seq<Byte>) {
    |p| > 4 && p[3] == 'r' as int && p[4] == 'a' as int
  }

  /** The answer starts with ACK and repeats the two bytes of the packet's number. */
  ghost predicate AnswersTo(ack: seq<Byte>, p: seq<Byte>) {
    |ack| >= 6 && ack[0] == 6 && (|p| >= 9 ==> ack[4] == p[7] && ack[5] == p[8])
  }

  /** A packet left because it was no data packet, or because an acknowledgement with its number came. */
  ghost predicate Justified(d: Departure) {
    match d.reason
    case NotRa => !DataFrame(d.packet)
    case Answered(ack) => DataFrame(d.packet) && AnswersTo(ack, d.packet)
  }

  /** The sender tells data frames by their command and answers by ACK and number. */
  lemma TellsFrames(p: seq<Byte>, ack: seq<Byte>)
    ensures IsRa(p) <==> DataFrame(p)
    ensures Acknowledges(ack, DataNo(p)) ==> AnswersTo(ack, p)
    ensures |p| >= 9 && AnswersTo(ack, p) ==> Acknowledges(ack, DataNo(p))
  {
  }

  /** A frame built of the command, a length and a number is a data frame with that number. */
  lemma DataFrameBuilt(crc: seq<Byte> -> nat, machine: Byte, length: nat, no: nat, data: seq<Byte>)
    requires Crc16(crc) && length < 65536 && no < 65536
    ensures var p := Build(crc, machine, [0x72, 0x61, length / 256, length % 256, no / 256, no % 256] + data);
      IsRa(p) && DataNo(p) == no && FrameOk(crc, p) && DataNo([]) == 0
  {
    var content := [0x72, 0x61, length / 256, length % 256, no / 256, no % 256] + data;
    BuiltIsOk(crc, machine, content);
    var p := Build(crc, machine, content);
    assert p[3..][..6] == content[..6];
    assert p[7] == p[3..][4] && p[8] == p[3..][5] && p[3] == p[3..][0] && p[4] == p[3..][1];
  }

  /** Nothing is lost or reordered in memory, and every departure is justified. */
  ghost predicate Conserved(s: State) {
    && s.accepted == Packets(s.gone) + s.queue
    && AllJustified(s.gone)
  }

  ghost predicate AllJustified(gone: seq<Departure>) {
    forall i :: 0 <= i < |gone| ==> Justified(gone[i])
  }

  /** The sender waits for the packet at the front, and counts its failures. */
  ghost predicate SenderOk(s: State) {
    && (s.sender.Waiting? ==> s.queue != [] && s.queue[0] == s.sender.packet && IsRa(s.sender.packet))
    && (s.sender != Outside ==> s.retry == s.failures <= 4)
    && s.failures <= 5
  }

  /** Outside a save the file loads as the packets that the last save has written whole. */
  ghost predicate FileOk(s: State, crc: seq<Byte> -> nat) {
    && s.savedFrom <= s.savedTo <= |s.accepted| && s.savedFrom <= |s.gone|
    && (!s.saving ==> Loaded(crc, s.file, []) == s.accepted[s.savedFrom..s.savedTo])
  }

  /** Only whole frames are taken in. */
  ghost predicate AllFrames(crc: seq<Byte> -> nat, packets: seq<seq<Byte>>) {
    forall i :: 0 <= i < |packets| ==> FrameOk(crc, packets[i])
  }

  ghost predicate Ok(s: State, crc: seq<Byte> -> nat) {
    match s case State(queue, accepted, _, _, _, _, _, _, _, _) =>
      QueueOk(crc, queue) && AllFrames(crc, accepted) && Conserved(s) && SenderOk(s) && FileOk(s, crc)
  }

  lemma PopKeeps(s: State, crc: seq<Byte> -> nat, reason: Reason)
    requires Ok(s, crc) && s.queue != [] && Justified(Departure(s.queue[0], reason))
    ensures var s' := s.(queue := s.queue[1..], gone := s.gone + [Departure(s.queue[0], reason)]);
      QueueOk(crc, s'.queue) && Conserved(s') && FileOk(s', crc)
  {
    PopConserved(s, reason);
    TailOk(crc, s.queue);
  }

  lemma PopConserved(s: State, reason: Reason)
    requires Conserved(s) && s.queue != [] && Justified(Departure(s.queue[0], reason))
    ensures Conserved(s.(queue := s.queue[1..], gone := s.gone + [Departure(s.queue[0], reason)]))
  {
  }

  lemma TailOk(crc: seq<Byte> -> nat, queue: seq<seq<Byte>>)
    requires QueueOk(crc, queue) && queue != []
    ensures QueueOk(crc, queue[1..])
  {
  }

  lemma PushKeeps(s: State, crc: seq<Byte> -> nat, step: Step)
    requires Ok(s, crc) && Enabled(s, crc, step) && step.Push?
    ensures Ok(Apply(s, step), crc)
  {
    PushedOk(crc, s.queue, step.p);
    var s' := Apply(s, step);
    if |s'.queue| > |s.queue| {
      assert Packets(s.gone) + (s.queue + [step.p]) == Packets(s.gone) + s.queue + [step.p];
      assert s'.accepted[s.savedFrom..s.savedTo] == s.accepted[s.savedFrom..s.savedTo];
    }
  }

  lemma QueuedSlice<T>(a: seq<T>, b: seq<T>, m: nat)
    requires m <= |b|
    ensures (a + b)[|a|..|a| + m] == b[..m]
  {
  }

  lemma SaveKeeps(s: State, crc: seq<Byte> -> nat, step: Step)
    requires Ok(s, crc) && Enabled(s, crc, step) && (step.SaveBegin? || step.SaveEnd?)
    ensures Ok(Apply(s, step), crc)
  {
    if step.SaveEnd? {
      var n := Least(step.room, |Image(s.queue)|);
      CutFileLoadsPrefix(crc, s.queue, 0, n);
      assert s.queue[0..] == s.queue && s.queue[..0] == [];
      PacketsLength(s.gone);
      QueuedSlice(Packets(s.gone), s.queue, Whole(s.queue, 0, n));
    }
  }

  lemma AnswerKeeps(s: State, crc: seq<Byte> -> nat, step: Step)
    requires Ok(s, crc) && Enabled(s, crc, step) && step.Answer?
    ensures Ok(Apply(s, step), crc)
  {
    if !step.powerOff && Acknowledges(step.ack, DataNo(s.sender.packet)) {
      PopKeeps(s, crc, Answered(step.ack));
    } else {
      SameQueueKeeps(s, Apply(s, step), crc);
    }
  }

  /** The packets and the file do not depend on the sender's counters. */
  lemma SameQueueKeeps(s: State, s': State, crc: seq<Byte> -> nat)
    requires Ok(s, crc) && SenderOk(s') && s' == s.(sender := s'.sender, retry := s'.retry, failures := s'.failures)
    ensures Ok(s', crc)
  {
  }

  lemma StepKeeps(s: State, crc: seq<Byte> -> nat, step: Step)
    requires Ok(s, crc) && Enabled(s, crc, step)
    ensures Ok(Apply(s, step), crc)
  {
    match step
    case Push(_) => PushKeeps(s, crc, step);
    case SaveBegin => SaveKeeps(s, crc, step);
    case SaveEnd(_) => SaveKeeps(s, crc, step);
    case Drop => PopKeeps(s, crc, NotRa);
    case Answer(_, _) => AnswerKeeps(s, crc, step);
    case Enter => SameQueueKeeps(s, Apply(s, step), crc);
    case Send => SameQueueKeeps(s, Apply(s, step), crc);
    case Disconnected(_) => SameQueueKeeps(s, Apply(s, step), crc);
    case Leave => SameQueueKeeps(s, Apply(s, step), crc);
  }

  // ----- Runs

  /** The agent starts with what it loads from its file. */
  ghost predicate Starts(s: State, crc: seq<Byte> -> nat) {
    && s.queue == Loaded(crc, s.file, []) && s.accepted == s.queue && s.gone == []
    && s.sender == Outside && s.failures == 0 && !s.saving && s.savedFrom == 0 && s.savedTo == |s.queue|
  }

  ghost predicate IsRun(states: seq<State>, steps: seq<Step>, crc: seq<Byte> -> nat) {
    && |states| == |steps| + 1 && Starts(states[0], crc)
    && forall i :: 0 <= i < |steps| ==>
      Enabled(states[i], crc, steps[i]) && (Ok(states[i], crc) ==> states[i + 1] == Apply(states[i], steps[i]))
  }

  lemma {:induction false} RunKeeps(states: seq<State>, steps: seq<Step>, crc: seq<Byte> -> nat, n: nat)
    requires IsRun(states, steps, crc) && n < |states|
    ensures Ok(states[n], crc)
  {
    if n == 0 {
      LoadedOk(crc, states[0].file, []);
      assert Packets([]) + states[0].queue == states[0].queue;
      assert states[0].accepted[0..|states[0].queue|] == states[0].queue;
    } else {
      RunKeeps(states, steps, crc, n - 1);
      StepKeeps(states[n - 1], crc, steps[n - 1]);
    }
  }

  /**
   In every interleaving the packets taken in are those gone, in order, and then those queued, and every departure is
   justified.
   */
  lemma NothingIsLost(states: seq<State>, steps: seq<Step>, crc: seq<Byte> -> nat, n: nat)
    requires IsRun(states, steps, crc) && n < |states|
    ensures states[n].accepted == Packets(states[n].gone) + states[n].queue
    ensures forall i :: 0 <= i < |states[n].gone| ==> Justified(states[n].gone[i])
    ensures forall i :: 0 <= i < |states[n].gone| && states[n].gone[i].reason.Answered? ==>
      var p, ack := states[n].gone[i].packet, states[n].gone[i].reason.ack;
      |p| >= 9 && |ack| >= 6 && ack[0] == 0x06 && ack[4] == p[7] && ack[5] == p[8]
  {
    RunKeeps(states, steps, crc, n);
    var s := states[n];
    PacketsOf(s.gone);
    forall i | 0 <= i < |s.gone| ensures |s.gone[i].packet| >= 9 {
      assert s.accepted[i] == Packets(s.gone)[i] == s.gone[i].packet;
    }
  }

  /** A call of SendCurrentData ends with the fifth unacknowledged attempt in a row; reconnections do not count. */
  lemma FiveFailuresEndTheCall(states: seq<State>, steps: seq<Step>, crc: seq<Byte> -> nat, n: nat)
    requires IsRun(states, steps, crc) && n < |states|
    ensures states[n].failures <= 5 && (states[n].failures == 5 ==> states[n].sender == Outside)
  {
    RunKeeps(states, steps, crc, n);
  }

  /**
   What an answer does: the packet leaves exactly if power is on and the answer is its own; the sender leaves the call
   exactly if power is off or this is the fifth failure in a row; otherwise it goes on with the head of the queue.
   */
  lemma AnswerExactly(s: State, crc: seq<Byte> -> nat, ack: seq<Byte>, powerOff: bool)
    requires Ok(s, crc) && s.sender.Waiting?
    ensures var s', right := AfterAnswer(s, ack, powerOff), AnswersTo(ack, s.queue[0]);
      && s'.queue == (if !powerOff && right then s.queue[1..] else s.queue)
      && s'.sender == (if powerOff || (!right && s.failures == 4) then Outside else Ready)
      && s'.failures == (if powerOff then s.failures else if right then 0 else s.failures + 1)
  {
    TellsFrames(s.queue[0], ack);
  }

  /** A call begins at the head of the loop with no failures, and ends when the queue is empty. */
  lemma CallExactly(s: State, crc: seq<Byte> -> nat)
    ensures Apply(s, Enter).sender == Ready && Apply(s, Enter).failures == 0 && Apply(s, Enter).queue == s.queue
    ensures s.sender == Ready ==> (Enabled(s, crc, Leave) <==> s.queue == []) && Apply(s, Leave).sender == Outside
  {
  }

  /** A broken connection costs neither the packet nor an attempt; the sender stays in the call if it reconnects. */
  lemma BreakExactly(s: State, resume: bool)
    requires s.sender.Waiting?
    ensures var s' := Apply(s, Disconnected(resume));
      s'.queue == s.queue && s'.failures == s.failures && (s'.sender == Ready <==> resume) && !s'.sender.Waiting?
  {
  }

  /** A packet that is answered leaves with two steps from the head of the loop, whatever the file and the reader do. */
  lemma AnsweredLeaves(s: State, crc: seq<Byte> -> nat, ack: seq<Byte>)
    requires Ok(s, crc) && s.sender == Ready && s.queue != [] && DataFrame(s.queue[0]) && AnswersTo(ack, s.queue[0])
    ensures Enabled(s, crc, Send) && Enabled(Apply(s, Send), crc, Answer(ack, false))
    ensures var s' := Apply(Apply(s, Send), Answer(ack, false));
      s'.queue == s.queue[1..] && s'.sender == Ready && s'.gone == s.gone + [Departure(s.queue[0], Answered(ack))]
  {
    TellsFrames(s.queue[0], ack);
  }

  /** An unanswered attempt is counted, whatever came between. */
  lemma FailureIsCounted(s: State, crc: seq<Byte> -> nat, ack: seq<Byte>)
    requires Ok(s, crc) && s.sender.Waiting? && !Acknowledges(ack, DataNo(s.queue[0]))
    ensures AfterAnswer(s, ack, false).failures == s.failures + 1
    ensures AfterAnswer(s, ack, false).sender == Outside <==> s.failures == 4
  {
  }

  /**
   What a crash outside a save leaves of a packet still queued: loading the file gives it exactly if the last save
   wrote it whole, or wrote a packet with the same bytes that has left the queue since.
   */
  lemma CrashKeepsSaved(states: seq<State>, steps: seq<Step>, crc: seq<Byte> -> nat, n: nat, i: nat)
    requires IsRun(states, steps, crc) && n < |states| && !states[n].saving
    requires |states[n].gone| <= i < |states[n].accepted|
    ensures var s := states[n];
      s.accepted[i] in Loaded(crc, s.file, []) <==> i < s.savedTo || LeftSaved(s, s.accepted[i])
  {
    RunKeeps(states, steps, crc, n);
    SavedIsLoaded(states[n], crc, i);
  }

  /** A packet with these bytes was written whole by the last save and has left the queue since. */
  ghost predicate LeftSaved(s: State, p: seq<Byte>) {
    exists j :: s.savedFrom <= j < s.savedTo && j < |s.gone| && j < |s.accepted| && s.accepted[j] == p
  }

  lemma SavedIsLoaded(s: State, crc: seq<Byte> -> nat, i: nat)
    requires Ok(s, crc) && !s.saving && |s.gone| <= i < |s.accepted|
    ensures s.accepted[i] in Loaded(crc, s.file, []) <==> i < s.savedTo || LeftSaved(s, s.accepted[i])
  {
    var saved := s.accepted[s.savedFrom..s.savedTo];
    assert forall j :: s.savedFrom <= j < s.savedTo ==> saved[j - s.savedFrom] == s.accepted[j];
    if s.accepted[i] in saved && i >= s.savedTo {
      var k :| 0 <= k < |saved| && saved[k] == s.accepted[i];
      QueuedDiffer(s, crc, s.savedFrom + k, i);
    }
  }

  /** Different places of the queue hold different packets. */
  lemma QueuedDiffer(s: State, crc: seq<Byte> -> nat, j: nat, i: nat)
    requires Ok(s, crc) && j < i < |s.accepted| && s.accepted[j] == s.accepted[i]
    ensures j < |s.gone|
  {
    PacketsLength(s.gone);
    var k := |s.gone|;
    assert forall m :: k <= m < |s.accepted| ==> s.accepted[m] == s.queue[m - k];
  }

  /** A crash after a save loses no queued packet exactly if the disk had room for the whole image. */
  lemma SaveKeepsAllExactly(s: State, crc: seq<Byte> -> nat, room: nat)
    requires Ok(s, crc) && s.saving
    ensures (forall j :: 0 <= j < |s.queue| ==> s.queue[j] in Loaded(crc, Apply(s, SaveEnd(room)).file, [])) <==>
      room >= |Image(s.queue)|
  {
    var n := Least(room, |Image(s.queue)|);
    forall j | 0 <= j < |s.queue|
      ensures s.queue[j] in Loaded(crc, Image(s.queue)[..n], []) <==> j < Whole(s.queue, 0, n)
    {
      SavedExactly(crc, s.queue, n, j);
    }
    assert s.queue[0..] == s.queue;
    AllWhole(s.queue, 0, n);
    if Whole(s.queue, 0, n) < |s.queue| {
      assert s.queue[|s.queue| - 1] !in Loaded(crc, Image(s.queue)[..n], []);
    }
  }

  /**
   A save cut short and then a crash lose packets that an earlier save had: p is pushed and saved, q is pushed, and the
   next save, which has truncated the file, finds room for less than the record of p.
   */
  lemma ShortSaveLoses(crc: seq<Byte> -> nat, p: seq<Byte>, q: seq<Byte>, room: nat)
    returns (states: seq<State>, steps: seq<Step>)
    requires FrameOk(crc, p) && FrameOk(crc, q) && |p| < 5000 && |q| < 5000 && DataNo(p) != DataNo(q) && room < |p| + 4
    ensures IsRun(states, steps, crc) && |steps| == 6 && Loaded(crc, states[3].file, []) == [p]
    ensures states[6].queue == [p, q] && !states[6].saving && Loaded(crc, states[6].file, []) == []
  {
    ImageOfTwo(p, q);
    steps := LosingSteps(p, q, room);
    states := LosingStates(p, q, room);
    LosingIsRun(crc, p, q, room);
    OneSaved(crc, p);
    NoneSaved(crc, p, q, room);
  }

  lemma ImageOfTwo(p: seq<Byte>, q: seq<Byte>)
    requires p != [] && q != []
    ensures Image([p]) == Record(p) && Image([p, q]) == Record(p) + Record(q)
  {
    assert [p][1..] == [] && [q][1..] == [] && [p, q][1..] == [q];
    assert Image([p, q]) == Record(p) + Image([q]);
  }

  /** The first save is whole. */
  lemma OneSaved(crc: seq<Byte> -> nat, p: seq<Byte>)
    requires FrameOk(crc, p) && |p| < 5000
    ensures Loaded(crc, Image([p]), []) == [p]
  {
    assert [p][0..] == [p] && [p][..0] == [];
    LoadUndoesSave(crc, [p], 0);
  }

  /** The second save stores nothing. */
  lemma NoneSaved(crc: seq<Byte> -> nat, p: seq<Byte>, q: seq<Byte>, room: nat)
    requires FrameOk(crc, p) && FrameOk(crc, q) && |p| < 5000 && |q| < 5000 && DataNo(p) != DataNo(q)
    requires room < |p| + 4 && room <= |Image([p, q])|
    ensures Whole([p, q], 0, room) == 0 && Loaded(crc, Image([p, q])[..room], []) == []
  {
    var queue := [p, q];
    assert queue[0..] == queue && queue[..0] == [];
    CutFileLoadsPrefix(crc, queue, 0, room);
  }

  lemma FirstSave(p: seq<Byte>)
    requires 0 < |p| < 5000
    ensures Apply(Reading([p], [], true, 0), SaveEnd(5004)) == Reading([p], Image([p]), false, 1)
  {
    ImageOfTwo(p, p);
    var n := Least(5004, |Image([p])|);
    assert Image([p])[..n] == Image([p]) && Whole([p], 0, n) == 1;
  }

  lemma SecondSave(p: seq<Byte>, q: seq<Byte>, room: nat)
    requires room < |Record(p)| && room <= |Image([p, q])|
    ensures Apply(Reading([p, q], [], true, 1), SaveEnd(room)) == Reading([p, q], Image([p, q])[..room], false, 0)
  {
    assert Whole([p, q], 0, room) == 0;
  }

  lemma FirstPush(p: seq<Byte>)
    requires p != []
    ensures Apply(Reading([], [], false, 0), Push(p)) == Reading([p], [], false, 0)
  {
    assert Pushed([], p) == [] + [p] == [p];
  }

  lemma SecondPush(p: seq<Byte>, q: seq<Byte>, file: seq<Byte>)
    requires p != [] && q != [] && DataNo(p) != DataNo(q)
    ensures Apply(Reading([p], file, false, 1), Push(q)) == Reading([p, q], file, false, 1)
  {
    assert !Numbered([p], DataNo(q));
    assert Pushed([p], q) == [p] + [q] == [p, q];
  }

  lemma LosingIsRun(crc: seq<Byte> -> nat, p: seq<Byte>, q: seq<Byte>, room: nat)
    requires FrameOk(crc, p) && FrameOk(crc, q) && |p| < 5000 && |q| < 5000 && DataNo(p) != DataNo(q)
    requires room < |p| + 4 && room <= |Image([p, q])|
    ensures IsRun(LosingStates(p, q, room), LosingSteps(p, q, room), crc)
  {
    FirstHalf(crc, p);
    SecondHalf(crc, p, q, room);
    var states, steps := LosingStates(p, q, room), LosingSteps(p, q, room);
    EverySix(i => 0 <= i < 6 && LeadsTo(states[i], crc, states[i + 1], steps[i]));
    LeadsIsRun(states, steps, crc);
  }

  lemma EverySix(p: nat -> bool)
    requires p(0) && p(1) && p(2) && p(3) && p(4) && p(5)
    ensures forall i: nat {:trigger p(i)} :: i < 6 ==> p(i)
  {
  }

  lemma LeadsIsRun(states: seq<State>, steps: seq<Step>, crc: seq<Byte> -> nat)
    requires |states| == |steps| + 1 && Starts(states[0], crc)
    requires forall i :: 0 <= i < |steps| ==> LeadsTo(states[i], crc, states[i + 1], steps[i])
    ensures IsRun(states, steps, crc)
  {
    forall i | 0 <= i < |steps|
      ensures Enabled(states[i], crc, steps[i]) && (Ok(states[i], crc) ==> states[i + 1] == Apply(states[i], steps[i]))
    {
      assert LeadsTo(states[i], crc, states[i + 1], steps[i]);
    }
  }

  lemma FirstHalf(crc: seq<Byte> -> nat, p: seq<Byte>)
    requires FrameOk(crc, p) && |p| < 5000
    ensures LeadsTo(Reading([], [], false, 0), crc, Reading([p], [], false, 0), Push(p))
    ensures LeadsTo(Reading([p], [], false, 0), crc, Reading([p], [], true, 0), SaveBegin)
    ensures LeadsTo(Reading([p], [], true, 0), crc, Reading([p], Image([p]), false, 1), SaveEnd(5004))
  {
    FirstPush(p);
    FirstSave(p);
  }

  lemma SecondHalf(crc: seq<Byte> -> nat, p: seq<Byte>, q: seq<Byte>, room: nat)
    requires FrameOk(crc, p) && FrameOk(crc, q) && |p| < 5000 && |q| < 5000 && DataNo(p) != DataNo(q)
    requires room < |p| + 4 && room <= |Image([p, q])|
    ensures LeadsTo(Reading([p], Image([p]), false, 1), crc, Reading([p, q], Image([p]), false, 1), Push(q))
    ensures LeadsTo(Reading([p, q], Image([p]), false, 1), crc, Reading([p, q], [], true, 1), SaveBegin)
    ensures LeadsTo(Reading([p, q], [], true, 1), crc, Reading([p, q], Image([p, q])[..room], false, 0), SaveEnd(room))
  {
    SecondPush(p, q, Image([p]));
    SecondSave(p, q, room);
  }

  /** The reader's step may be taken and leads from s to s'. */
  ghost predicate LeadsTo(s: State, crc: seq<Byte> -> nat, s': State, step: Step) {
    match step
    case Push(_) => Enabled(s, crc, step) && s' == Apply(s, step)
    case SaveBegin => Enabled(s, crc, step) && s' == Apply(s, step)
    case SaveEnd(_) => Enabled(s, crc, step) && s' == Apply(s, step)
    case _ => false
  }

  function LosingSteps(p: seq<Byte>, q: seq<Byte>, room: nat): seq<Step> {
    [Push(p), SaveBegin, SaveEnd(5004), Push(q), SaveBegin, SaveEnd(room)]
  }

  function Reading(queue: seq<seq<Byte>>, file: seq<Byte>, saving: bool, savedTo: nat): State {
    State(queue, queue, [], Outside, 0, 0, file, saving, 0, savedTo)
  }

  function LosingStates(p: seq<Byte>, q: seq<Byte>, room: nat): seq<State>
    requires room <= |Image([p, q])|
  {
    [Reading([], [], false, 0), Reading([p], [], false, 0), Reading([p], [], true, 0),
     Reading([p], Image([p]), false, 1), Reading([p, q], Image([p]), false, 1), Reading([p, q], [], true, 1),
     Reading([p, q], Image([p, q])[..room], false, 0)]
  }

  // ----- The sender's loop

  /** What comes of one transmission: an answer, perhaps empty, or a broken connection. */
  datatype Outcome = Reply(ack: seq<Byte>, powerOff: bool) | Broken(resume: bool)

  /** What a call of SendCurrentData leaves: the packets that left, those still queued, and whether it gave up. */
  datatype Sending = Sending(gone: seq<Departure>, left: seq<seq<Byte>>, gaveUp: bool)

  function After(d: Departure, s: Sending): Sending {
    s.(gone := [d] + s.gone)
  }

  /** SendCurrentData from a state of its retry counter on, when line tells the outcomes of its transmissions. */
  function Sent(queue: seq<seq<Byte>>, line: seq<Outcome>, retry: nat): Sending
    decreases |line|, |queue|
  {
    if queue == [] then Sending([], queue, false)
    else if !IsRa(queue[0]) then After(Departure(queue[0], NotRa), Sent(queue[1..], line, retry))
    else if line == [] then Sending([], queue, false)
    else match line[0]
      case Broken(resume) => if resume then Sent(queue, line[1..], retry) else Sending([], queue, false)
      case Reply(ack, powerOff) =>
        if powerOff then Sending([], queue, false)
        else if Acknowledges(ack, DataNo(queue[0])) then
          After(Departure(queue[0], Answered(ack)), Sent(queue[1..], line[1..], 0))
        else if retry > 3 then Sending([], queue, true)
        else Sent(queue, line[1..], retry + 1)
  }

  /** The replies that do not acknowledge packet no. */
  function Refusals(line: seq<Outcome>, no: nat): nat {
    if line == [] then 0
    else Refusals(line[1..], no) + if line[0].Reply? && !Acknowledges(line[0].ack, no) then 1 else 0
  }

  /** What a call should leave of queue: nothing lost or reordered, nothing popped without reason. */
  ghost predicate Conserves(queue: seq<seq<Byte>>, s: Sending) {
    match s case Sending(gone, left, _) => queue == Packets(gone) + left && AllJustified(gone)
  }

  /** A call conserves the packets and their order, and pops none without reason. */
  lemma {:induction false} SentConserves(queue: seq<seq<Byte>>, line: seq<Outcome>, retry: nat)
    ensures Conserves(queue, Sent(queue, line, retry))
    decreases |line|, |queue|
  {
    if queue == [] || (IsRa(queue[0]) && Stops(line, DataNo(queue[0]), retry)) {
      NoneGone(queue, Sent(queue, line, retry).gaveUp);
    } else if !IsRa(queue[0]) {
      SentConserves(queue[1..], line, retry);
      FirstGone(queue, Departure(queue[0], NotRa), Sent(queue[1..], line, retry));
    } else if line[0].Broken? {
      SentConserves(queue, line[1..], retry);
    } else if Acknowledges(line[0].ack, DataNo(queue[0])) {
      SentConserves(queue[1..], line[1..], 0);
      FirstGone(queue, Departure(queue[0], Answered(line[0].ack)), Sent(queue[1..], line[1..], 0));
    } else {
      SentConserves(queue, line[1..], retry + 1);
    }
  }

  /** The next outcome for a data packet ends the call. */
  predicate Stops(line: seq<Outcome>, no: nat, retry: nat) {
    line == [] || match line[0]
      case Broken(resume) => !resume
      case Reply(ack, powerOff) => powerOff || (!Acknowledges(ack, no) && retry > 3)
  }

  lemma NoneGone(queue: seq<seq<Byte>>, gaveUp: bool)
    ensures Conserves(queue, Sending([], queue, gaveUp))
  {
  }

  /** A data packet at the front leaves only with an answer. */
  lemma {:induction false} FrontStays(queue: seq<seq<Byte>>, line: seq<Outcome>, retry: nat)
    requires queue != [] && IsRa(queue[0])
    ensures var s := Sent(queue, line, retry); AnyAnswered(s.gone) || s.left == queue
  {
    SentConserves(queue, line, retry);
    var s := Sent(queue, line, retry);
    PacketsOf(s.gone);
    if s.gone != [] {
      assert Packets(s.gone)[0] == queue[0];
      assert s.gone[0].reason.Answered?;
    } else {
      assert Packets(s.gone) == [];
    }
  }

  /** A call gives up only on a data packet, refused often enough since the last acknowledgement. */
  lemma {:induction false} GivesUpOnRefusals(queue: seq<seq<Byte>>, line: seq<Outcome>, retry: nat)
    requires Sent(queue, line, retry).gaveUp
    ensures var s := Sent(queue, line, retry);
      s.left != [] && IsRa(s.left[0]) &&
      Refusals(line, DataNo(s.left[0])) + (if AnyAnswered(s.gone) then 0 else retry) >= 5
    decreases |line|, |queue|
  {
    if !IsRa(queue[0]) {
      GivesUpOnRefusals(queue[1..], line, retry);
      FirstAnswered(Departure(queue[0], NotRa), Sent(queue[1..], line, retry));
    } else if line[0].Broken? {
      GivesUpOnRefusals(queue, line[1..], retry);
    } else if Acknowledges(line[0].ack, DataNo(queue[0])) {
      GivesUpOnRefusals(queue[1..], line[1..], 0);
      FirstAnswered(Departure(queue[0], Answered(line[0].ack)), Sent(queue[1..], line[1..], 0));
    } else if retry <= 3 {
      GivesUpOnRefusals(queue, line[1..], retry + 1);
      FrontStays(queue, line[1..], retry + 1);
    }
  }

  /** While a data packet at the front is only refused, the fifth refusal ends the call and the packet stays. */
  lemma {:induction false} FifthRefusalEnds(queue: seq<seq<Byte>>, line: seq<Outcome>, retry: nat)
    requires queue != [] && IsRa(queue[0]) && retry <= 4
    requires forall i :: 0 <= i < |line| ==>
      if line[i].Reply? then !line[i].powerOff && !Acknowledges(line[i].ack, DataNo(queue[0])) else line[i].resume
    ensures Sent(queue, line, retry) == Sending([], queue, Refusals(line, DataNo(queue[0])) + retry >= 5)
    decreases |line|
  {
    if line != [] {
      assert forall i :: 0 <= i < |line| - 1 ==> line[1..][i] == line[i + 1];
      if line[0].Broken? || retry <= 3 {
        FifthRefusalEnds(queue, line[1..], if line[0].Broken? then retry else retry + 1);
      }
    }
  }

  ghost predicate AnyAnswered(gone: seq<Departure>) {
    exists i :: 0 <= i < |gone| && gone[i].reason.Answered?
  }

  lemma FirstGone(queue: seq<seq<Byte>>, d: Departure, s: Sending)
    requires queue != [] && d.packet == queue[0] && Conserves(queue[1..], s) && Justified(d)
    ensures Conserves(queue, After(d, s))
  {
    PacketsOf([d] + s.gone);
    PacketsOf(s.gone);
    assert Packets([d] + s.gone) == [d.packet] + Packets(s.gone);
    assert [d.packet] + Packets(s.gone) + s.left == [d.packet] + queue[1..] == queue;
  }

  lemma FirstAnswered(d: Departure, s: Sending)
    ensures AnyAnswered(After(d, s).gone) <==> d.reason.Answered? || AnyAnswered(s.gone)
  {
    var all := [d] + s.gone;
    if AnyAnswered(s.gone) {
      var i :| 0 <= i < |s.gone| && s.gone[i].reason.Answered?;
      assert all[i + 1].reason.Answered?;
    }
    if d.reason.Answered? {
      assert all[0].reason.Answered?;
    }
  }

  lemma {:induction false} PacketsOf(gone: seq<Departure>)
    ensures |Packets(gone)| == |gone| && forall i :: 0 <= i < |gone| ==> Packets(gone)[i] == gone[i].packet
  {
    if gone != [] {
      PacketsOf(gone[..|gone| - 1]);
    }
  }

  lemma Joined(gone: seq<Departure>, d: Departure, s: Sending)
    ensures gone + After(d, s).gone == gone + [d] + s.gone
  {
  }

  /** The line gives every data packet of the queue its answer, with breaks that are mended in between. */
  ghost predicate AnswersAll(queue: seq<seq<Byte>>, line: seq<Outcome>)
    decreases |line|, |queue|
  {
    if queue == [] then true
    else if !DataFrame(queue[0]) then AnswersAll(queue[1..], line)
    else line != [] && match line[0]
      case Broken(resume) => resume && AnswersAll(queue, line[1..])
      case Reply(ack, powerOff) =>
        !powerOff && |queue[0]| >= 9 && AnswersTo(ack, queue[0]) && AnswersAll(queue[1..], line[1..])
  }

  /** Then the call empties the queue. */
  lemma {:induction false} AnsweredEmpties(queue: seq<seq<Byte>>, line: seq<Outcome>, retry: nat)
    requires AnswersAll(queue, line)
    ensures Sent(queue, line, retry).left == [] && !Sent(queue, line, retry).gaveUp
    decreases |line|, |queue|
  {
    if queue != [] {
      TellsFrames(queue[0], if line != [] && line[0].Reply? then line[0].ack else []);
      if !DataFrame(queue[0]) {
        AnsweredEmpties(queue[1..], line, retry);
      } else if line[0].Broken? {
        AnsweredEmpties(queue, line[1..], retry);
      } else {
        AnsweredEmpties(queue[1..], line[1..], 0);
      }
    }
  }

  /** SendCurrentData on its own, given the outcomes of its transmissions. */
  method SendCurrentData(q: DataPacketQueue, line: seq<Outcome>) returns (gone: seq<Departure>, gaveUp: bool)
    modifies q
    ensures Sending(gone, q.queue, gaveUp) == Sent(old(q.queue), line, 0)
  {
    var retry, i := 0, 0;
    gone, gaveUp := [], false;
    ghost var goal := Sent(q.queue, line, 0);
    assert line[0..] == line;
    while q.queue != [] && (i < |line| || !IsRa(q.queue[0]))
      invariant i <= |line|
      invariant var s := Sent(q.queue, line[i..], retry); goal == s.(gone := gone + s.gone)
      decreases |line| - i, |q.queue|
    {
      var packet := q.queue[0];
      if !IsRa(packet) {
        Joined(gone, Departure(packet, NotRa), Sent(q.queue[1..], line[i..], retry));
        gone := gone + [Departure(packet, NotRa)];
        q.Pop();
        continue;
      }
      assert line[i..][1..] == line[i + 1..];
      var outcome := line[i];
      i := i + 1;
      match outcome {
        case Broken(resume) =>
          if !resume {
            return;
          }
        case Reply(ack, powerOff) =>
          if powerOff {
            return;
          }
          if Acknowledges(ack, DataNo(packet)) {
            Joined(gone, Departure(packet, Answered(ack)), Sent(q.queue[1..], line[i..], 0));
            gone := gone + [Departure(packet, Answered(ack))];
            q.Pop();
            retry := 0;
          } else {
            if retry > 3 {
              gaveUp := true;
              return;
            }
            retry := retry + 1;
          }
      }
    }
  }
}
