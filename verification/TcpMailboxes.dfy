/**
 The TCP mailbox: remote ends that send a section's values over one connection each and commit them in two phases,
 and a local end whose reads can be undone.
 */
module TcpMailboxes {

  type Value = int

  datatype Option<+T> = None | Some(value: T)

  /** What a remote end sends; each is one tag with what follows it. */
  datatype Frame = Begin | Val(v: Value) | PreCommit | Commit

  /** What handleConn answers. */
  datatype Ack = PreCommitAck | CommitAck

  // ----- the receiving end of a connection

  /** `localBuffer`, or None while no section has begun. */
  type Buffer = Option<seq<Value>>

  /** What handling one frame does: the buffer, the answer, and the batch for the channel. Panic is a frame out of place. */
  datatype Handled = Panic | Handled(buf: Buffer, ack: Option<Ack>, batch: Option<seq<Value>>)

  function Handle(buf: Buffer, f: Frame): Handled {
    match f
    case Begin => Handled(Some([]), None, None)
    case Val(v) => if buf.None? then Panic else Handled(Some(buf.value + [v]), None, None)
    case PreCommit => if buf.None? then Panic else Handled(buf, Some(PreCommitAck), None)
    case Commit =>
      if buf.None? then Panic
      else Handled(None, Some(CommitAck), if buf.value == [] then None else Some(buf.value))
  }

  class HandleConn {
    var localBuffer: seq<Value>
    var hasBegun: bool

    ghost function Contents(): Buffer
      reads this
    {
      if hasBegun then Some(localBuffer) else None
    }

    constructor ()
      ensures Contents() == None
    {
      localBuffer, hasBegun := [], false;
    }

    /** One round of the loop; the two panics are the case the precondition leaves out. */
    method Round(tag: Frame) returns (ack: Option<Ack>, batch: Option<seq<Value>>)
      requires Handle(Contents(), tag).Handled?
      modifies this
      ensures Handled(Contents(), ack, batch) == Handle(old(Contents()), tag)
    {
      ack, batch := None, None;
      match tag {
        case Begin =>
          localBuffer := [];
          hasBegun := true;
        case Val(v) =>
          localBuffer := localBuffer + [v];
        case PreCommit =>
          ack := Some(PreCommitAck);
        case Commit =>
          ack := Some(CommitAck);
          if |localBuffer| > 0 {
            batch := Some(localBuffer);
          }
          localBuffer := [];
          hasBegun := false;
      }
    }
  }

  // ----- the local end

  /** `channel` holds whole batches; the rest are single values. */
  datatype Mailbox = Mailbox(readsInProgress: seq<Value>, readBacklog: seq<Value>, channel: seq<seq<Value>>)

  function ReadFrom(m: Mailbox): Option<(Mailbox, Value)> {
    if m.readBacklog != [] then
      Some((m.(readBacklog := m.readBacklog[1..], readsInProgress := m.readsInProgress + [m.readBacklog[0]]), m.readBacklog[0]))
    else if m.channel != [] && m.channel[0] != [] then
      Some((Mailbox(m.readsInProgress + [m.channel[0][0]], m.channel[0][1..], m.channel[1..]), m.channel[0][0]))
    else None
  }

  function CommitReads(m: Mailbox): Mailbox {
    m.(readsInProgress := [])
  }

  function AbortReads(m: Mailbox): Mailbox {
    m.(readsInProgress := [], readBacklog := m.readsInProgress + m.readBacklog)
  }

  class TcpMailboxesLocal {
    var readBacklog: seq<Value>
    var readsInProgress: seq<Value>
    var msgChannel: seq<seq<Value>>

    ghost function Contents(): Mailbox
      reads this
    {
      Mailbox(readsInProgress, readBacklog, msgChannel)
    }

    constructor ()
      ensures Contents() == Mailbox([], [], [])
    {
      readBacklog, readsInProgress, msgChannel := [], [], [];
    }

    /** None is the timeout that aborts the reading section. Batches in the channel are never empty. */
    method ReadValue() returns (v: Option<Value>)
      requires msgChannel != [] ==> msgChannel[0] != []
      modifies this
      ensures match ReadFrom(old(Contents()))
              case Some((m, x)) => Contents() == m && v == Some(x)
              case None => Contents() == old(Contents()) && v == None
    {
      if |readBacklog| > 0 {
        var record := readBacklog[0];
        readBacklog := readBacklog[1..];
        readsInProgress := readsInProgress + [record];
        return Some(record);
      }
      if |msgChannel| == 0 {
        return None;
      }
      var values := msgChannel[0];
      msgChannel := msgChannel[1..];
      for k := 1 to |values|
        invariant readBacklog == values[1..k] && readsInProgress == old(readsInProgress) && msgChannel == old(msgChannel)[1..]
      {
        readBacklog := readBacklog + [values[k]];
      }
      readsInProgress := readsInProgress + [values[0]];
      return Some(values[0]);
    }

    method Commit()
      modifies this
      ensures Contents() == CommitReads(old(Contents()))
    {
      readsInProgress := [];
    }

    method Abort()
      modifies this
      ensures Contents() == AbortReads(old(Contents()))
    {
      readBacklog := readsInProgress + readBacklog;
      readsInProgress := [];
    }
  }

  // ----- the remote end

  /** Where a remote end is with its section: working on it, or in one of the two handshakes. */
  datatype Phase = Open | AwaitPreCommit | Prepared | AwaitCommit

  /** `cur` is what the section has written so far; the code keeps it in its resend buffer. */
  datatype Remote = Remote(inCriticalSection: bool, phase: Phase, cur: seq<Value>)

  function FramesOfWrite(x: Remote, v: Value): seq<Frame> {
    if x.inCriticalSection then [Val(v)] else [Begin, Val(v)]
  }

  class TcpMailboxesRemote {
    var inCriticalSection: bool
    var resendBuffer: seq<Frame>
    var sent: seq<Frame>       // everything encoded on the connection so far

    constructor ()
      ensures !inCriticalSection && resendBuffer == [] && sent == []
    {
      inCriticalSection, resendBuffer, sent := false, [], [];
    }

    method WriteValue(v: Value)
      modifies this
      ensures inCriticalSection
      ensures sent == old(sent) + FramesOfWrite(Remote(old(inCriticalSection), Open, []), v)
      ensures resendBuffer == old(resendBuffer) + sent[|old(sent)|..]
    {
      if !inCriticalSection {
        inCriticalSection := true;
        sent := sent + [Begin];
        resendBuffer := resendBuffer + [Begin];
      }
      sent := sent + [Val(v)];
      resendBuffer := resendBuffer + [Val(v)];
    }

    method Abort()
      modifies this
      ensures !inCriticalSection && resendBuffer == [] && sent == old(sent)
    {
      inCriticalSection := false;
      resendBuffer := [];
    }

    /** Sends its half of a handshake, unless the section has written nothing. */
    method StartPreCommit() returns (waits: bool)
      modifies this
      ensures waits == old(inCriticalSection) == inCriticalSection && resendBuffer == old(resendBuffer)
      ensures sent == old(sent) + if waits then [PreCommit] else []
    {
      waits := inCriticalSection;
      if waits {
        sent := sent + [PreCommit];
      }
    }

    method StartCommit() returns (waits: bool)
      modifies this
      ensures waits == old(inCriticalSection) == inCriticalSection && resendBuffer == old(resendBuffer)
      ensures sent == old(sent) + if waits then [Commit] else []
    {
      waits := inCriticalSection;
      if waits {
        sent := sent + [Commit];
      }
    }

    method FinishCommit()
      modifies this
      ensures !inCriticalSection && resendBuffer == [] && sent == old(sent)
    {
      inCriticalSection := false;
      resendBuffer := [];
    }
  }

  // ----- one receiver and any number of senders

  /**
   One connection: the remote end, the frames and answers on their way, the buffer of handleConn, and the batch it has
   acknowledged but not yet put into the channel. `committed` and `delivered` list the sender's batches.
   */
  datatype Conn = Conn(remote: Remote, frames: seq<Frame>, acks: seq<Ack>, buf: Buffer, pushing: seq<seq<Value>>,
                       committed: seq<seq<Value>>, delivered: seq<seq<Value>>, failed: bool)

  /** `pushed` lists all batches, with their sender, in the order in which they entered the channel; `consumed` the reads that were committed. */
  datatype System = System(conns: seq<Conn>, mailbox: Mailbox, capacity: nat, pushed: seq<(nat, seq<Value>)>,
                           consumed: seq<Value>)

  datatype Step =
    | WriteStep(i: nat, v: Value)
    | AbortStep(i: nat)
    | PreCommitStep(i: nat)
    | PreparedStep(i: nat)
    | CommitStep(i: nat)
    | CommittedStep(i: nat)
    | HandleStep(i: nat)
    | PushStep(i: nat)
    | ReadStep
    | CommitReadsStep
    | AbortReadsStep

  predicate ConnEnabled(x: Conn, step: Step) {
    match step
    case WriteStep(_, _) => x.remote.phase.Open?
    case AbortStep(_) => x.remote.phase.Open? || x.remote.phase.Prepared?
    case PreCommitStep(_) => x.remote.phase.Open? && x.remote.inCriticalSection
    case PreparedStep(_) => x.remote.phase.AwaitPreCommit? && x.acks != []
    case CommitStep(_) => x.remote.phase.Prepared?
    case CommittedStep(_) => x.remote.phase.AwaitCommit? && x.acks != []
    case HandleStep(_) => x.frames != [] && x.pushing == []
    case PushStep(_) => x.pushing != []
    case _ => false
  }

  predicate Enabled(s: System, step: Step) {
    match step
    case ReadStep => ReadFrom(s.mailbox).Some?
    case CommitReadsStep => true
    case AbortReadsStep => true
    case PushStep(i) => i < |s.conns| && ConnEnabled(s.conns[i], step) && |s.mailbox.channel| < s.capacity
    case _ => step.i < |s.conns| && ConnEnabled(s.conns[step.i], step)
  }

  function ConnDo(x: Conn, step: Step): Conn
    requires ConnEnabled(x, step)
  {
    match step
    case WriteStep(_, v) =>
      x.(remote := Remote(true, Open, x.remote.cur + [v]), frames := x.frames + FramesOfWrite(x.remote, v))
    case AbortStep(_) => x.(remote := Remote(false, Open, []))
    case PreCommitStep(_) => x.(remote := x.remote.(phase := AwaitPreCommit), frames := x.frames + [PreCommit])
    case PreparedStep(_) =>
      x.(remote := x.remote.(phase := Prepared), acks := x.acks[1..], failed := x.failed || x.acks[0] != PreCommitAck)
    case CommitStep(_) =>
      x.(remote := x.remote.(phase := AwaitCommit), frames := x.frames + [Commit], committed := x.committed + [x.remote.cur])
    case CommittedStep(_) =>
      x.(remote := Remote(false, Open, []), acks := x.acks[1..], failed := x.failed || x.acks[0] != CommitAck)
    case HandleStep(_) =>
      (match Handle(x.buf, x.frames[0])
       case Panic => x.(failed := true, frames := x.frames[1..])
       case Handled(buf, ack, batch) =>
         x.(buf := buf, frames := x.frames[1..], acks := x.acks + Listed(ack), pushing := Listed(batch)))
    case PushStep(_) => x.(delivered := x.delivered + [x.pushing[0]], pushing := [])
  }

  function Listed<T>(x: Option<T>): seq<T> {
    if x.Some? then [x.value] else []
  }

  function Do(s: System, step: Step): System
    requires Enabled(s, step)
  {
    match step
    case ReadStep => s.(mailbox := ReadFrom(s.mailbox).value.0)
    case CommitReadsStep => s.(mailbox := CommitReads(s.mailbox), consumed := s.consumed + s.mailbox.readsInProgress)
    case AbortReadsStep => s.(mailbox := AbortReads(s.mailbox))
    case PushStep(i) =>
      var batch := s.conns[i].pushing[0];
      s.(conns := s.conns[i := ConnDo(s.conns[i], step)], pushed := s.pushed + [(i, batch)],
         mailbox := s.mailbox.(channel := s.mailbox.channel + [batch]))
    case _ => s.(conns := s.conns[step.i := ConnDo(s.conns[step.i], step)])
  }

  predicate Init(s: System) {
    && (forall i {:trigger s.conns[i]} :: 0 <= i < |s.conns| ==> s.conns[i] == InitConn())
    && s.mailbox == Mailbox([], [], []) && s.pushed == [] && s.consumed == []
  }

  function InitConn(): Conn {
    Conn(Remote(false, Open, []), [], [], None, [], [], [], false)
  }

  datatype Run = Run(states: seq<System>, steps: seq<Step>)

  predicate StepAt(r: Run, k: nat)
    requires k < |r.steps| && k + 1 < |r.states|
  {
    Enabled(r.states[k], r.steps[k]) && r.states[k + 1] == Do(r.states[k], r.steps[k])
  }

  predicate IsRun(r: Run) {
    && |r.states| == |r.steps| + 1
    && Init(r.states[0])
    && forall k: nat {:trigger StepAt(r, k)} :: k < |r.steps| ==> StepAt(r, k)
  }

  // ----- a connection

  /** What the receiver will make of the frames still on their way. */
  datatype Outcome = Outcome(ok: bool, buf: Buffer, acks: seq<Ack>, batches: seq<seq<Value>>)

  function Then(o: Outcome, f: Frame): Outcome {
    match Handle(o.buf, f)
    case Panic => o.(ok := false)
    case Handled(buf, ack, batch) => Outcome(o.ok, buf, o.acks + Listed(ack), o.batches + Listed(batch))
  }

  function Outlook(o: Outcome, frames: seq<Frame>): Outcome
    decreases |frames|
  {
    if frames == [] then o else Outlook(Then(o, frames[0]), frames[1..])
  }

  lemma {:induction false} OutlookOfMore(o: Outcome, frames: seq<Frame>, f: Frame)
    ensures Outlook(o, frames + [f]) == Then(Outlook(o, frames), f)
    decreases |frames|
  {
    if frames == [] {
      assert ([] + [f])[1..] == [];
    } else {
      assert (frames + [f])[1..] == frames[1..] + [f];
      OutlookOfMore(Then(o, frames[0]), frames[1..], f);
    }
  }

  function Now(x: Conn): Outcome {
    Outcome(true, x.buf, x.acks, x.delivered + x.pushing)
  }

  /** The frames on their way will be taken in without a panic, and then the receiver will agree with the sender. */
  predicate ConnOk(x: Conn) {
    var o := Outlook(Now(x), x.frames);
    && !x.failed && o.ok
    && o.batches == x.committed
    && (!x.remote.inCriticalSection ==> x.remote.phase.Open? && x.remote.cur == [])
    && (match x.remote.phase
        case Open => o.acks == [] && (x.remote.inCriticalSection ==> o.buf == Some(x.remote.cur) && x.remote.cur != [])
        case AwaitPreCommit => o.acks == [PreCommitAck] && o.buf == Some(x.remote.cur) && x.remote.cur != []
        case Prepared => o.acks == [] && o.buf == Some(x.remote.cur) && x.remote.cur != []
        case AwaitCommit => o.acks == [CommitAck] && o.buf == None)
    && |x.pushing| <= 1
    && (forall b :: b in x.delivered + x.pushing ==> b != [])
  }

  /** What is taken in first is answered first. */
  lemma {:induction false} OutlookExtends(o: Outcome, frames: seq<Frame>)
    ensures var p := Outlook(o, frames);
            o.acks <= p.acks && o.batches <= p.batches
            && forall dropped: nat :: dropped <= |o.acks| ==>
                 Outlook(o.(acks := o.acks[dropped..]), frames) == p.(acks := p.acks[dropped..])
    decreases |frames|
  {
    if frames != [] {
      var o' := Then(o, frames[0]);
      OutlookExtends(o', frames[1..]);
      forall dropped: nat | dropped <= |o.acks|
        ensures Then(o.(acks := o.acks[dropped..]), frames[0]) == o'.(acks := o'.acks[dropped..])
      {
        match Handle(o.buf, frames[0])
        case Panic =>
        case Handled(buf, ack, batch) =>
          assert o.acks[dropped..] + Listed(ack) == (o.acks + Listed(ack))[dropped..];
      }
    }
  }

  lemma SenderStep(x: Conn, step: Step)
    requires ConnOk(x) && ConnEnabled(x, step)
    requires step.WriteStep? || step.AbortStep? || step.PreCommitStep? || step.CommitStep?
    ensures ConnOk(ConnDo(x, step))
  {
    match step
    case WriteStep(_, v) =>
      if !x.remote.inCriticalSection {
        OutlookOfMore(Now(x), x.frames, Begin);
        OutlookOfMore(Now(x), x.frames + [Begin], Val(v));
        assert x.frames + [Begin] + [Val(v)] == x.frames + [Begin, Val(v)];
      } else {
        OutlookOfMore(Now(x), x.frames, Val(v));
      }
    case AbortStep(_) =>
    case PreCommitStep(_) => OutlookOfMore(Now(x), x.frames, PreCommit);
    case CommitStep(_) => OutlookOfMore(Now(x), x.frames, Commit);
  }

  lemma AnswerStep(x: Conn, step: Step)
    requires ConnOk(x) && ConnEnabled(x, step) && (step.PreparedStep? || step.CommittedStep?)
    ensures ConnOk(ConnDo(x, step))
  {
    OutlookExtends(Now(x), x.frames);
    var x' := ConnDo(x, step);
    assert x.acks[0] == Outlook(Now(x), x.frames).acks[0];
    assert Now(x') == Now(x).(acks := x.acks[1..]);
  }

  lemma ReceiverStep(x: Conn, step: Step)
    requires ConnOk(x) && ConnEnabled(x, step) && (step.HandleStep? || step.PushStep?)
    ensures ConnOk(ConnDo(x, step))
  {
    var x' := ConnDo(x, step);
    if step.HandleStep? {
      OkFromStart(Then(Now(x), x.frames[0]), x.frames[1..]);
      assert Handle(x.buf, x.frames[0]).Handled?;
      assert Now(x') == Then(Now(x), x.frames[0]);
    } else {
      assert x'.delivered + x'.pushing == x.delivered + x.pushing;
      assert Now(x') == Now(x);
    }
  }

  lemma {:induction false} OkFromStart(o: Outcome, frames: seq<Frame>)
    ensures Outlook(o, frames).ok ==> o.ok
    decreases |frames|
  {
    if frames != [] {
      OkFromStart(Then(o, frames[0]), frames[1..]);
    }
  }

  lemma ConnStep(x: Conn, step: Step)
    requires ConnOk(x) && ConnEnabled(x, step)
    ensures ConnOk(ConnDo(x, step))
  {
    match step
    case PreparedStep(_) => AnswerStep(x, step);
    case CommittedStep(_) => AnswerStep(x, step);
    case HandleStep(_) => ReceiverStep(x, step);
    case PushStep(_) => ReceiverStep(x, step);
    case _ => SenderStep(x, step);
  }

  // ----- the mailbox

  function Flatten(batches: seq<seq<Value>>): seq<Value> {
    if batches == [] then [] else batches[0] + Flatten(batches[1..])
  }

  lemma {:induction false} FlattenMore(batches: seq<seq<Value>>, batch: seq<Value>)
    ensures Flatten(batches + [batch]) == Flatten(batches) + batch
    decreases |batches|
  {
    if batches == [] {
      assert ([] + [batch])[1..] == [];
    } else {
      assert (batches + [batch])[1..] == batches[1..] + [batch];
      FlattenMore(batches[1..], batch);
    }
  }

  function Batches(pushed: seq<(nat, seq<Value>)>): seq<seq<Value>> {
    seq(|pushed|, k requires 0 <= k < |pushed| => pushed[k].1)
  }

  /** The batches of one sender. */
  function From(pushed: seq<(nat, seq<Value>)>, i: nat): seq<seq<Value>> {
    if pushed == [] then []
    else From(pushed[..|pushed| - 1], i) + if pushed[|pushed| - 1].0 == i then [pushed[|pushed| - 1].1] else []
  }

  lemma PushedMore(pushed: seq<(nat, seq<Value>)>, i: nat, batch: seq<Value>, j: nat)
    ensures Batches(pushed + [(i, batch)]) == Batches(pushed) + [batch]
    ensures From(pushed + [(i, batch)], j) == From(pushed, j) + if i == j then [batch] else []
  {
    assert (pushed + [(i, batch)])[..|pushed|] == pushed;
  }

  /** Everything a mailbox still holds, in the order in which it will be read. */
  function Held(m: Mailbox): seq<Value> {
    m.readsInProgress + m.readBacklog + Flatten(m.channel)
  }

  lemma ReadConserves(m: Mailbox)
    requires ReadFrom(m).Some?
    ensures var (m', v) := ReadFrom(m).value;
            Held(m') == Held(m) && m'.readsInProgress == m.readsInProgress + [v]
  {
    var (m', v) := ReadFrom(m).value;
    if m.readBacklog != [] {
      assert m.readBacklog == [v] + m'.readBacklog;
    } else {
      assert m.channel[0] == [v] + m'.readBacklog;
    }
  }

  /** A read gets the next value there is, from the backlog or else the channel, and times out only if there is none. */
  lemma ReadsWhatIsNext(m: Mailbox)
    requires m.channel != [] ==> m.channel[0] != []
    ensures var rest := m.readBacklog + Flatten(m.channel);
            && (ReadFrom(m).Some? <==> rest != [])
            && (ReadFrom(m).Some? ==> ReadFrom(m).value.1 == rest[0])
  {
    assert m.channel != [] ==> Flatten(m.channel) == m.channel[0] + Flatten(m.channel[1..]);
  }

  lemma PushConserves(consumed: seq<Value>, m: Mailbox, pushed: seq<(nat, seq<Value>)>, i: nat, batch: seq<Value>)
    requires consumed + Held(m) == Flatten(Batches(pushed))
    ensures consumed + Held(m.(channel := m.channel + [batch])) == Flatten(Batches(pushed + [(i, batch)]))
  {
    PushedMore(pushed, i, batch, i);
    FlattenMore(Batches(pushed), batch);
    FlattenMore(m.channel, batch);
    assert Held(m.(channel := m.channel + [batch])) == Held(m) + batch;
  }

  predicate NoneEmpty(batches: seq<seq<Value>>) {
    forall k {:trigger batches[k]} :: 0 <= k < |batches| ==> batches[k] != []
  }

  predicate MailboxOk(s: System) {
    s.consumed + Held(s.mailbox) == Flatten(Batches(s.pushed)) && NoneEmpty(s.mailbox.channel)
  }

  lemma MailboxStep(s: System, step: Step)
    requires MailboxOk(s) && Enabled(s, step)
    requires step.PushStep? ==> s.conns[step.i].pushing[0] != []
    ensures MailboxOk(Do(s, step))
  {
    match step
    case ReadStep => ReadConserves(s.mailbox);
    case CommitReadsStep =>
      var m := s.mailbox;
      assert s.consumed + Held(m) == (s.consumed + m.readsInProgress) + Held(CommitReads(m));
    case AbortReadsStep => assert Held(AbortReads(s.mailbox)) == Held(s.mailbox);
    case PushStep(i) => PushConserves(s.consumed, s.mailbox, s.pushed, i, s.conns[i].pushing[0]);
    case _ =>
  }

  /** What entered the channel from each sender is what its connection delivered. */
  ghost predicate SendersOk(s: System) {
    forall i: nat {:trigger From(s.pushed, i)} :: i < |s.conns| ==> From(s.pushed, i) == s.conns[i].delivered
  }

  lemma SendersStep(s: System, step: Step)
    requires SendersOk(s) && Enabled(s, step)
    ensures SendersOk(Do(s, step))
  {
    var s' := Do(s, step);
    forall i: nat | i < |s'.conns| ensures From(s'.pushed, i) == s'.conns[i].delivered {
      assert From(s.pushed, i) == s.conns[i].delivered;
      if step.PushStep? {
        PushedMore(s.pushed, step.i, s.conns[step.i].pushing[0], i);
      }
    }
  }

  ghost predicate Inv(s: System) {
    && SendersOk(s)
    && (forall i {:trigger ConnOk(s.conns[i])} :: 0 <= i < |s.conns| ==> ConnOk(s.conns[i]))
    && MailboxOk(s)
  }

  lemma StepKeepsInv(s: System, step: Step)
    requires Inv(s) && Enabled(s, step)
    ensures Inv(Do(s, step))
  {
    hide ConnOk, Then, Held, Flatten, Batches;
    if step.PushStep? {
      assert ConnOk(s.conns[step.i]);
      PushesNoneEmpty(s.conns[step.i]);
    }
    MailboxStep(s, step);
    SendersStep(s, step);
    if !step.ReadStep? && !step.CommitReadsStep? && !step.AbortReadsStep? {
      assert ConnOk(s.conns[step.i]);
      ConnStep(s.conns[step.i], step);
    }
  }

  lemma PushesNoneEmpty(x: Conn)
    requires ConnOk(x) && x.pushing != []
    ensures x.pushing[0] != []
  {
    assert x.pushing[0] in x.delivered + x.pushing;
  }

  lemma {:induction false} RunKeepsInv(r: Run, k: nat)
    requires IsRun(r) && k < |r.states|
    ensures Inv(r.states[k])
  {
    if k > 0 {
      RunKeepsInv(r, k - 1);
      assert StepAt(r, k - 1);
      StepKeepsInv(r.states[k - 1], r.steps[k - 1]);
    } else {
      forall i | 0 <= i < |r.states[0].conns| ensures ConnOk(r.states[0].conns[i]) {
        assert r.states[0].conns[i] == InitConn();
      }
    }
  }

  // ----- the claims

  /** The receiver never meets a frame of a section that has not begun, and every answer is the one being waited for. */
  lemma NothingPanics(r: Run, k: nat, i: nat)
    requires IsRun(r) && k < |r.states| && i < |r.states[k].conns|
    ensures !r.states[k].conns[i].failed
    ensures var x := r.states[k].conns[i]; x.frames != [] ==> Handle(x.buf, x.frames[0]).Handled?
  {
    RunKeepsInv(r, k);
    var x := r.states[k].conns[i];
    assert ConnOk(x);
    if x.frames != [] {
      OkFromStart(Then(Now(x), x.frames[0]), x.frames[1..]);
    }
  }

  /** No empty batch ever enters the channel, so in every run a read gets the next value, or times out for want of one. */
  lemma NextValueIsRead(r: Run, k: nat)
    requires IsRun(r) && k < |r.states|
    ensures var m := r.states[k].mailbox;
            var rest := m.readBacklog + Flatten(m.channel);
            && NoneEmpty(m.channel)
            && (ReadFrom(m).Some? <==> rest != [])
            && (ReadFrom(m).Some? ==> ReadFrom(m).value.1 == rest[0])
  {
    RunKeepsInv(r, k);
    ReadsWhatIsNext(r.states[k].mailbox);
  }

  /**
   Batches reach the channel whole, only if their sender committed them, in its commit order: what a sender delivered is
   a prefix of what it committed, and all of it once nothing of it is on its way.
   */
  lemma DeliveredInCommitOrder(r: Run, k: nat, i: nat)
    requires IsRun(r) && k < |r.states| && i < |r.states[k].conns|
    ensures var x := r.states[k].conns[i];
            && From(r.states[k].pushed, i) == x.delivered <= x.committed
            && (x.frames == [] && x.pushing == [] ==> x.delivered == x.committed)
  {
    RunKeepsInv(r, k);
    var x := r.states[k].conns[i];
    assert ConnOk(x);
    OutlookExtends(Now(x), x.frames);
  }

  /** Nothing is lost, repeated or reordered by reads that abort: committed reads are the beginning of what was pushed. */
  lemma ReadsAreConserved(r: Run, k: nat)
    requires IsRun(r) && k < |r.states|
    ensures var s := r.states[k];
            && s.consumed + s.mailbox.readsInProgress + s.mailbox.readBacklog + Flatten(s.mailbox.channel)
                 == Flatten(Batches(s.pushed))
            && s.consumed <= Flatten(Batches(s.pushed))
  {
    RunKeepsInv(r, k);
    var s := r.states[k];
    assert s.consumed + s.mailbox.readsInProgress + s.mailbox.readBacklog + Flatten(s.mailbox.channel)
        == s.consumed + Held(s.mailbox);
  }

  // ----- sections, told from the steps alone

  /** The step ends a section of sender `i`. */
  predicate EndsSection(step: Step, i: nat) {
    step == AbortStep(i) || step == CommittedStep(i)
  }

  /** What sender `i` has written since its last section ended, before state `k`. */
  function Written(r: Run, k: nat, i: nat): seq<Value>
    requires k <= |r.steps|
  {
    if k == 0 || EndsSection(r.steps[k - 1], i) then []
    else Written(r, k - 1, i) + if r.steps[k - 1].WriteStep? && r.steps[k - 1].i == i then [r.steps[k - 1].v] else []
  }

  /** The sections it has committed: each is what was written in it. */
  function CommittedSections(r: Run, k: nat, i: nat): seq<seq<Value>>
    requires k <= |r.steps|
  {
    if k == 0 then []
    else CommittedSections(r, k - 1, i) + if r.steps[k - 1] == CommitStep(i) then [Written(r, k - 1, i)] else []
  }

  lemma {:induction false} SameConns(r: Run, k: nat)
    requires IsRun(r) && k < |r.states|
    ensures |r.states[k].conns| == |r.states[0].conns|
  {
    if k > 0 {
      SameConns(r, k - 1);
      assert StepAt(r, k - 1);
    }
  }

  lemma {:induction false} SectionIsWhatWasWritten(r: Run, k: nat, i: nat)
    requires IsRun(r) && k < |r.states| && i < |r.states[0].conns|
    ensures i < |r.states[k].conns|
    ensures r.states[k].conns[i].remote.cur == Written(r, k, i) && r.states[k].conns[i].committed == CommittedSections(r, k, i)
  {
    SameConns(r, k);
    if k == 0 {
      assert r.states[0].conns[i] == InitConn();
    } else {
      SectionIsWhatWasWritten(r, k - 1, i);
      assert StepAt(r, k - 1);
    }
  }

  /**
   So what enters the channel from a sender is, whole and in order, what it wrote in the sections it committed and
   nothing of those it aborted, and all of it once nothing is on its way.
   */
  lemma OnlyCommittedWritesArrive(r: Run, k: nat, i: nat)
    requires IsRun(r) && k < |r.states| && i < |r.states[0].conns| && i < |r.states[k].conns|
    ensures From(r.states[k].pushed, i) <= CommittedSections(r, k, i)
    ensures var x := r.states[k].conns[i];
            x.frames == [] && x.pushing == [] ==> From(r.states[k].pushed, i) == CommittedSections(r, k, i)
  {
    DeliveredInCommitOrder(r, k, i);
    SectionIsWhatWasWritten(r, k, i);
  }

  /** What the receiver's section has read before state `k`. */
  function SectionReads(r: Run, k: nat): seq<Value>
    requires IsRun(r) && k < |r.states|
  {
    if k == 0 || r.steps[k - 1].CommitReadsStep? || r.steps[k - 1].AbortReadsStep? then []
    else if r.steps[k - 1].ReadStep? then assert StepAt(r, k - 1); SectionReads(r, k - 1) + [ReadFrom(r.states[k - 1].mailbox).value.1]
    else SectionReads(r, k - 1)
  }

  /** What its committed sections have read. */
  function CommittedReads(r: Run, k: nat): seq<Value>
    requires IsRun(r) && k < |r.states|
  {
    if k == 0 then []
    else CommittedReads(r, k - 1) + if r.steps[k - 1].CommitReadsStep? then SectionReads(r, k - 1) else []
  }

  lemma {:induction false} ReadsAreAsRead(r: Run, k: nat)
    requires IsRun(r) && k < |r.states|
    ensures r.states[k].mailbox.readsInProgress == SectionReads(r, k) && r.states[k].consumed == CommittedReads(r, k)
  {
    if k > 0 {
      ReadsAreAsRead(r, k - 1);
      assert StepAt(r, k - 1);
      if r.steps[k - 1].ReadStep? {
        ReadConserves(r.states[k - 1].mailbox);
      }
    }
  }

  /**
   The values committed sections read, then those the running one has read, are the beginning of what was pushed, and the
   next read returns the value right behind them: a section that aborts leaves its values to be read again.
   */
  lemma SectionsReadInOrder(r: Run, k: nat)
    requires IsRun(r) && k < |r.states|
    ensures var m, all := r.states[k].mailbox, Flatten(Batches(r.states[k].pushed));
            var sofar := CommittedReads(r, k) + SectionReads(r, k);
            && sofar <= all
            && (ReadFrom(m).Some? <==> |sofar| < |all|)
            && (ReadFrom(m).Some? ==> ReadFrom(m).value.1 == all[|sofar|])
  {
    ReadsAreAsRead(r, k);
    ReadsAreConserved(r, k);
    NextValueIsRead(r, k);
    var m, all := r.states[k].mailbox, Flatten(Batches(r.states[k].pushed));
    var sofar := CommittedReads(r, k) + SectionReads(r, k);
    var rest := m.readBacklog + Flatten(m.channel);
    assert all == sofar + rest;
  }
}
