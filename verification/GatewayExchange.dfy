/**
 The numbered command stream between the caller and its Gateway child: any number of caller
 threads behind one command lock, two FIFO pipes, and the child's command loop.
 */
module GatewayExchange {
  import opened Prelude

  const MAX_COMMANDS: int := 256

  datatype Action = InstallPolicy | IssueGrant | RevokeGrant | Stop

  /** tag stands for the arguments: it tells commands apart that have the same action. */
  datatype Command = Command(sequence: int, action: Action, tag: nat)

  /** answers is history: the command the child was serving when it wrote the reply. */
  datatype Reply = Reply(sequence: int, stopped: bool, answers: Command)

  /** Where the thread that holds the command lock is; every other thread is waiting for the lock. */
  datatype Pc = Holding(action: Action, tag: nat) | Sending(command: Command) | Receiving(command: Command) | AwaitingEnd(command: Command)

  datatype Child = Awaiting | Serving(command: Command) | Ended

  /** torn: a partial command is the last thing in the command pipe. accepted is history. */
  datatype State = State(
    holder: Option<Pc>, sequence: nat, stopped: bool, stopRequested: bool, aborted: bool,
    commands: seq<Command>, torn: bool, replies: seq<Reply>,
    child: Child, expected: int, gap: bool,
    accepted: seq<(Command, Reply)>)

  datatype Step =
    | Acquire(action: Action, tag: nat)
    | Refuse
    | Number
    | Send
    | SendFails(delivered: bool, torn: bool)
    | Receive
    | ReceiveFails(lost: bool)
    | SeeEnd
    | MissEnd
    | Abort
    | ChildReads
    | ChildReplies
    | ChildEnds

  /** After the child's listening reply, which the starting caller has read. */
  function Init(): State { State(None, 0, false, false, false, [], false, [], Awaiting, 1, false, []) }

  predicate Enabled(s: State, step: Step) {
    match step
    case Acquire(_, _) => s.holder == None
    case Refuse => s.holder.Some? && s.holder.value.Holding?
    case Number => s.holder.Some? && s.holder.value.Holding? && !s.stopped && !s.aborted
    case Send => s.holder.Some? && s.holder.value.Sending? && s.holder.value.command.sequence <= MAX_COMMANDS && !s.torn
    case SendFails(_, _) => s.holder.Some? && s.holder.value.Sending?
    case Receive => s.holder.Some? && s.holder.value.Receiving? && s.replies != []
    case ReceiveFails(_) => s.holder.Some? && s.holder.value.Receiving?
    case SeeEnd => s.holder.Some? && s.holder.value.AwaitingEnd? && s.child.Ended? && s.replies == []
    case MissEnd => s.holder.Some? && s.holder.value.AwaitingEnd?
    case Abort => true
    case ChildReads => s.child.Awaiting? && s.commands != []
    case ChildReplies => s.child.Serving?
    case ChildEnds => !s.child.Ended?
  }

  function Released(s: State): State { s.(holder := None) }

  /** What the parent checks of a reply: its number, and for a stop also its status. */
  predicate Fits(command: Command, reply: Reply) {
    reply.sequence == command.sequence && (command.action == Stop ==> reply.stopped)
  }

  function Apply(s: State, step: Step): State
    requires Enabled(s, step)
  {
    match step
    case Acquire(action, tag) => s.(holder := Some(Holding(action, tag)))
    case Refuse => Released(s)
    case Number =>
      var pc := s.holder.value;
      s.(sequence := s.sequence + 1, stopRequested := s.stopRequested || pc.action == Stop,
         holder := Some(Sending(Command(s.sequence + 1, pc.action, pc.tag))))
    case Send =>
      var c := s.holder.value.command;
      s.(commands := s.commands + [c], holder := Some(Receiving(c)))
    case SendFails(delivered, torn) =>
      var c := s.holder.value.command;
      var t := Released(s).(aborted := true);
      if c.sequence > MAX_COMMANDS || s.torn then t
      else if delivered then t.(commands := s.commands + [c])
      else t.(torn := torn)
    case Receive =>
      var (c, r) := (s.holder.value.command, s.replies[0]);
      var t := s.(replies := s.replies[1..]);
      if !Fits(c, r) then Released(t).(aborted := true)
      else if c.action == Stop then t.(accepted := s.accepted + [(c, r)], holder := Some(AwaitingEnd(c)))
      else Released(t).(accepted := s.accepted + [(c, r)])
    case ReceiveFails(lost) =>
      Released(s).(aborted := true, replies := if lost && s.replies != [] then s.replies[1..] else s.replies)
    case SeeEnd => Released(s).(stopped := true)
    case MissEnd => Released(s).(aborted := true)
    case Abort => s.(aborted := true)
    case ChildReads =>
      var c := s.commands[0];
      var t := s.(commands := s.commands[1..]);
      if c.sequence != s.expected || s.expected > MAX_COMMANDS then t.(child := Ended, gap := true)
      else t.(child := Serving(c))
    case ChildReplies =>
      var c := s.child.command;
      var t := s.(replies := s.replies + [Reply(s.expected, c.action == Stop, c)], expected := s.expected + 1);
      if c.action == Stop || s.expected == MAX_COMMANDS then t.(child := Ended) else t.(child := Awaiting)
    case ChildEnds => s.(child := Ended)
  }

  /** The i-th state is left by the i-th step. */
  predicate Follows(trace: seq<State>, steps: seq<Step>, i: nat) {
    i < |steps| && i + 1 < |trace| && Enabled(trace[i], steps[i]) && trace[i + 1] == Apply(trace[i], steps[i])
  }

  ghost predicate Run(trace: seq<State>, steps: seq<Step>) {
    && |trace| == |steps| + 1
    && trace[0] == Init()
    && forall i :: 0 <= i < |steps| ==> Follows(trace, steps, i)
  }

  // ----- invariant -----

  /** At most one command is anywhere: in its pipe, with the child, or answered. */
  function InFlight(s: State): nat {
    |s.commands| + (if s.child.Serving? then 1 else 0) + |s.replies|
  }

  /** The pipes and the child carry at most one command, with the number the child expects. */
  predicate PipesOk(s: State) {
    && InFlight(s) <= 1
    && (s.commands != [] && !s.child.Ended? ==> s.commands[0].sequence == s.expected <= MAX_COMMANDS)
    && (s.child.Serving? ==> s.child.command.sequence == s.expected <= MAX_COMMANDS)
    && (s.replies != [] ==> OwnReply(s.replies[0], s.replies[0].answers) && s.replies[0].sequence + 1 == s.expected &&
                            (s.replies[0].stopped ==> s.child.Ended?))
    && !s.gap
  }

  predicate OwnReply(r: Reply, c: Command) {
    r.answers == c && r.sequence == c.sequence && r.stopped == (c.action == Stop)
  }

  /** Nothing is under way and the next number is the one the child expects, if it still lives. */
  predicate Quiet(s: State, next: int) {
    InFlight(s) == 0 && !s.torn && (s.child.Ended? || s.expected == next)
  }

  /** What is in flight is this command, or was until the child ended. */
  predicate Carries(s: State, c: Command) {
    && !s.torn
    && (s.commands != [] ==> s.commands[0] == c)
    && (s.child.Serving? ==> s.child.command == c)
    && (s.replies != [] ==> s.replies[0].answers == c)
    && (InFlight(s) == 0 ==> s.child.Ended?)
  }

  /** What the lock holder can rely on; with nobody in the middle, only an abort leaves things in flight. */
  predicate HolderOk(s: State) {
    match s.holder
    case None => s.aborted || Quiet(s, s.sequence + 1)
    case Some(Holding(_, _)) => s.aborted || Quiet(s, s.sequence + 1)
    case Some(Sending(c)) => Quiet(s, c.sequence) && 1 <= c.sequence == s.sequence && !s.stopped
    case Some(Receiving(c)) => Carries(s, c) && 1 <= c.sequence == s.sequence && !s.stopped
    case Some(AwaitingEnd(c)) => Quiet(s, 0) && s.child.Ended? && c.action == Stop && !s.stopped &&
                                 s.accepted != [] && s.accepted[|s.accepted| - 1].0 == c
  }

  /** Every accepted reply is the child's reply to that command, and the accepted numbers rise. */
  predicate AcceptedOk(s: State) {
    && (forall i :: 0 <= i < |s.accepted| ==>
          OwnReply(s.accepted[i].1, s.accepted[i].0) && 1 <= s.accepted[i].0.sequence <= s.sequence)
    && (forall i, j :: 0 <= i < j < |s.accepted| ==> s.accepted[i].0.sequence < s.accepted[j].0.sequence)
    && (s.holder.Some? && (s.holder.value.Sending? || s.holder.value.Receiving?) ==>
          forall i :: 0 <= i < |s.accepted| ==> s.accepted[i].0.sequence < s.sequence)
    && (forall i :: 0 <= i < |s.accepted| && s.accepted[i].1.stopped ==>
          i == |s.accepted| - 1 && s.child.Ended? && InFlight(s) == 0 && Winding(s))
  }

  /** No new command is or can be under way. */
  predicate Winding(s: State) {
    if s.holder.None? || s.holder.value.Holding? then s.aborted || s.stopped else s.holder.value.AwaitingEnd?
  }

  predicate StoppedOk(s: State) {
    s.stopped ==> s.child.Ended? && InFlight(s) == 0 && s.accepted != [] && s.accepted[|s.accepted| - 1].1.stopped
  }

  predicate Inv(s: State) {
    PipesOk(s) && HolderOk(s) && AcceptedOk(s) && StoppedOk(s)
  }

  predicate ParentStep(step: Step) {
    !step.ChildReads? && !step.ChildReplies? && !step.ChildEnds?
  }

  lemma ParentKeepsPipes(s: State, step: Step)
    requires Inv(s) && Enabled(s, step) && ParentStep(step)
    ensures PipesOk(Apply(s, step)) && HolderOk(Apply(s, step))
  {
    if step.Send? || step.SendFails? {
      SendingKeepsPipes(s, step);
    } else if step.Receive? || step.ReceiveFails? {
      ReceivingKeepsPipes(s, step);
    } else {
      LockingKeepsPipes(s, step);
    }
  }

  lemma SendingKeepsPipes(s: State, step: Step)
    requires Inv(s) && Enabled(s, step) && (step.Send? || step.SendFails?)
    ensures PipesOk(Apply(s, step)) && HolderOk(Apply(s, step))
  {
  }

  lemma ReceivingKeepsPipes(s: State, step: Step)
    requires Inv(s) && Enabled(s, step) && (step.Receive? || step.ReceiveFails?)
    ensures PipesOk(Apply(s, step)) && HolderOk(Apply(s, step))
  {
  }

  lemma LockingKeepsPipes(s: State, step: Step)
    requires Inv(s) && Enabled(s, step) && ParentStep(step)
    requires !step.Send? && !step.SendFails? && !step.Receive? && !step.ReceiveFails?
    ensures PipesOk(Apply(s, step)) && HolderOk(Apply(s, step))
  {
  }

  lemma ChildKeepsPipes(s: State, step: Step)
    requires Inv(s) && Enabled(s, step) && !ParentStep(step)
    ensures PipesOk(Apply(s, step)) && HolderOk(Apply(s, step))
  {
    if step.ChildReads? {
      ReadingKeepsPipes(s);
    } else if step.ChildReplies? {
      ReplyingKeepsPipes(s);
    }
  }

  lemma ReadingKeepsPipes(s: State)
    requires Inv(s) && Enabled(s, ChildReads)
    ensures PipesOk(Apply(s, ChildReads)) && HolderOk(Apply(s, ChildReads))
  {
  }

  lemma ReplyingKeepsPipes(s: State)
    requires Inv(s) && Enabled(s, ChildReplies)
    ensures PipesOk(Apply(s, ChildReplies)) && HolderOk(Apply(s, ChildReplies))
  {
  }

  lemma ReceiveKeepsAccepted(s: State)
    requires Inv(s) && Enabled(s, Receive)
    ensures AcceptedOk(Apply(s, Receive)) && StoppedOk(Apply(s, Receive))
  {
    var (c, r) := (s.holder.value.command, s.replies[0]);
    assert OwnReply(r, c);
    var t := Apply(s, Receive);
    forall i | 0 <= i < |t.accepted|
      ensures OwnReply(t.accepted[i].1, t.accepted[i].0) && 1 <= t.accepted[i].0.sequence <= t.sequence
    {
      if i < |s.accepted| { assert t.accepted[i] == s.accepted[i]; }
    }
  }

  lemma OthersKeepAccepted(s: State, step: Step)
    requires Inv(s) && Enabled(s, step) && ParentStep(step) && !step.Receive?
    ensures AcceptedOk(Apply(s, step)) && StoppedOk(Apply(s, step))
  {
    if s.accepted != [] && s.accepted[|s.accepted| - 1].1.stopped { WindingStays(s, step); }
    if step.Number? { NumberKeepsAccepted(s); } else { RestKeepsAccepted(s, step); }
  }

  lemma NumberKeepsAccepted(s: State)
    requires Inv(s) && Enabled(s, Number)
    ensures AcceptedOk(Apply(s, Number)) && StoppedOk(Apply(s, Number))
  {
    assert Apply(s, Number).accepted == s.accepted;
  }

  lemma RestKeepsAccepted(s: State, step: Step)
    requires Inv(s) && Enabled(s, step) && ParentStep(step) && !step.Receive? && !step.Number?
    requires s.accepted != [] && s.accepted[|s.accepted| - 1].1.stopped ==>
      Winding(Apply(s, step)) && InFlight(Apply(s, step)) == 0 && Apply(s, step).child == s.child
    ensures AcceptedOk(Apply(s, step)) && StoppedOk(Apply(s, step))
  {
    assert Apply(s, step).accepted == s.accepted;
  }

  lemma WindingStays(s: State, step: Step)
    requires Inv(s) && Enabled(s, step) && ParentStep(step) && !step.Receive? && Winding(s)
    requires s.child.Ended? && InFlight(s) == 0
    ensures Winding(Apply(s, step)) && InFlight(Apply(s, step)) == 0 && Apply(s, step).child == s.child
  {
  }

  lemma ParentKeepsAccepted(s: State, step: Step)
    requires Inv(s) && Enabled(s, step) && ParentStep(step)
    ensures AcceptedOk(Apply(s, step)) && StoppedOk(Apply(s, step))
  {
    if step.Receive? { ReceiveKeepsAccepted(s); } else { OthersKeepAccepted(s, step); }
  }

  lemma ChildKeepsAccepted(s: State, step: Step)
    requires Inv(s) && Enabled(s, step) && !ParentStep(step)
    ensures AcceptedOk(Apply(s, step)) && StoppedOk(Apply(s, step))
  {
    ChildLeavesParent(s, step);
    ChildMovesAlive(s, step);
  }

  lemma ChildLeavesParent(s: State, step: Step)
    requires Enabled(s, step) && !ParentStep(step)
    ensures var t := Apply(s, step);
      t.accepted == s.accepted && t.holder == s.holder && t.sequence == s.sequence && t.stopped == s.stopped && t.aborted == s.aborted
  {
  }

  lemma ChildMovesAlive(s: State, step: Step)
    requires Enabled(s, step) && !ParentStep(step)
    ensures !s.child.Ended?
  {
  }

  lemma StepKeepsInv(s: State, step: Step)
    requires Inv(s) && Enabled(s, step)
    ensures Inv(Apply(s, step))
  {
    if ParentStep(step) {
      ParentKeepsPipes(s, step);
      ParentKeepsAccepted(s, step);
    } else {
      ChildKeepsPipes(s, step);
      ChildKeepsAccepted(s, step);
    }
  }

  lemma {:induction false} RunKeepsInv(trace: seq<State>, steps: seq<Step>, i: nat)
    requires Run(trace, steps) && i < |trace|
    ensures Inv(trace[i])
  {
    if i > 0 {
      RunKeepsInv(trace, steps, i - 1);
      assert Follows(trace, steps, i - 1);
      StepKeepsInv(trace[i - 1], steps[i - 1]);
    }
  }

  // ----- what holds of every run -----

  /** An accepted reply is the child's reply to that very command, and commands are answered in order. */
  lemma AcceptedRepliesAreOwn(trace: seq<State>, steps: seq<Step>, i: nat, k: nat)
    requires Run(trace, steps) && i < |trace| && k < |trace[i].accepted|
    ensures OwnReply(trace[i].accepted[k].1, trace[i].accepted[k].0)
    ensures k > 0 ==> trace[i].accepted[k - 1].0.sequence < trace[i].accepted[k].0.sequence
  {
    RunKeepsInv(trace, steps, i);
  }

  /** The child never reads a command out of turn within its 256, however threads, aborts and lost replies interleave. */
  lemma ChildSeesNoGap(trace: seq<State>, steps: seq<Step>, i: nat)
    requires Run(trace, steps) && i < |trace|
    ensures !trace[i].gap
    ensures trace[i].child.Awaiting? && trace[i].commands != [] ==>
      trace[i].commands[0].sequence == trace[i].expected <= MAX_COMMANDS
  {
    RunKeepsInv(trace, steps, i);
  }

  lemma {:induction false} StoppedStays(trace: seq<State>, steps: seq<Step>, i: nat, j: nat)
    requires Run(trace, steps) && i <= j < |trace| && trace[i].stopped
    ensures SameEnd(trace[i], trace[j])
  {
    if i < j {
      StoppedStays(trace, steps, i, j - 1);
      StoppedAtNext(trace, steps, j - 1);
    }
  }

  lemma StoppedAtNext(trace: seq<State>, steps: seq<Step>, j: nat)
    requires Run(trace, steps) && j + 1 < |trace| && trace[j].stopped
    ensures SameEnd(trace[j], trace[j + 1])
  {
    RunKeepsInv(trace, steps, j);
    assert Follows(trace, steps, j);
    StoppedStep(trace[j], steps[j]);
  }

  lemma StoppedIsQuiet(s: State)
    requires Inv(s) && s.stopped
    ensures OverAndQuiet(s)
  {
  }

  /** A stop that succeeded ends both streams: nothing is in flight then and nothing is ever sent or accepted again. */
  lemma StoppedIsLast(trace: seq<State>, steps: seq<Step>, i: nat, j: nat)
    requires Run(trace, steps) && i <= j < |trace| && trace[i].stopped
    ensures SameEnd(trace[i], trace[j]) && OverAndQuiet(trace[j])
  {
    StoppedStays(trace, steps, i, j);
    RunKeepsInv(trace, steps, j);
    StoppedIsQuiet(trace[j]);
  }

  /** Stopped with the same numbers and the same accepted replies. */
  predicate SameEnd(s: State, t: State) { t.stopped && t.accepted == s.accepted && t.sequence == s.sequence }

  predicate OverAndQuiet(s: State) {
    s.child.Ended? && InFlight(s) == 0 && s.accepted != [] && s.accepted[|s.accepted| - 1].1.stopped
  }

  lemma StoppedStep(s: State, step: Step)
    requires Inv(s) && s.stopped && Enabled(s, step)
    ensures SameEnd(s, Apply(s, step))
  {
  }

  /** Even before its end of stream is seen, an accepted "stopped" leaves no reply behind it. */
  lemma NothingFollowsStopped(trace: seq<State>, steps: seq<Step>, i: nat, k: nat)
    requires Run(trace, steps) && i < |trace| && k < |trace[i].accepted| && trace[i].accepted[k].1.stopped
    ensures k == |trace[i].accepted| - 1 && trace[i].accepted[k].0.action == Stop
    ensures trace[i].child.Ended? && trace[i].replies == [] && trace[i].commands == []
  {
    RunKeepsInv(trace, steps, i);
  }

  // ----- calls that nothing comes between -----

  /** The steps, taken in a row, lead from s to t. */
  predicate Leads(s: State, steps: seq<Step>, t: State)
    decreases |steps|
  {
    if steps == [] then s == t else Enabled(s, steps[0]) && Leads(Apply(s, steps[0]), steps[1..], t)
  }

  lemma LeadsCons(s: State, step: Step, n: State, steps: seq<Step>, t: State)
    requires Enabled(s, step) && n == Apply(s, step) && Leads(n, steps, t)
    ensures Leads(s, [step] + steps, t)
  {
    assert ([step] + steps)[1..] == steps;
  }

  /** No call is under way and the child waits for one. */
  predicate Ready(s: State) { s.holder.None? && !s.stopped && !s.aborted && s.child.Awaiting? }

  lemma ReadyIsQuiet(s: State)
    requires Inv(s) && Ready(s)
    ensures s.commands == [] && s.replies == [] && !s.torn && s.expected == s.sequence + 1
  {
  }

  /** The command of the next call, and the state in which the child serves it. */
  function Next(s: State, action: Action, tag: nat): Command { Command(s.sequence + 1, action, tag) }

  function Asked(s: State, c: Command): State {
    s.(sequence := s.sequence + 1, stopRequested := s.stopRequested || c.action == Stop, holder := Some(Receiving(c)), child := Serving(c))
  }

  function AskSteps(action: Action, tag: nat): seq<Step> { [Acquire(action, tag)] + ([Number] + ([Send] + [ChildReads])) }

  lemma SentIsServed(s: State, c: Command)
    requires s.holder == Some(Sending(c)) && s.commands == [] && !s.torn && s.child.Awaiting?
    requires c.sequence == s.expected <= MAX_COMMANDS
    ensures Leads(s, [Send] + [ChildReads], s.(holder := Some(Receiving(c)), child := Serving(c)))
  {
    var n := s.(commands := [c], holder := Some(Receiving(c)));
    var t := s.(holder := Some(Receiving(c)), child := Serving(c));
    assert n.commands[1..] == [];
    LeadsCons(n, ChildReads, t, [], t);
    LeadsCons(s, Send, n, [ChildReads], t);
  }

  /** Every call that a ready child can still number reaches it. */
  lemma CallReachesTheChild(s: State, action: Action, tag: nat)
    requires Inv(s) && Ready(s) && s.sequence < 256
    ensures Leads(s, AskSteps(action, tag), Asked(s, Next(s, action, tag)))
  {
    ReadyIsQuiet(s);
    var c := Next(s, action, tag);
    var s1 := s.(holder := Some(Holding(action, tag)));
    var s2 := s1.(sequence := s.sequence + 1, stopRequested := s.stopRequested || action == Stop, holder := Some(Sending(c)));
    SentIsServed(s2, c);
    assert s2.(holder := Some(Receiving(c)), child := Serving(c)) == Asked(s, c);
    LeadsCons(s1, Number, s2, [Send] + [ChildReads], Asked(s, c));
    LeadsCons(s, Acquire(action, tag), s1, [Number] + ([Send] + [ChildReads]), Asked(s, c));
  }

  /** The state after a call of another action than stop. */
  function Told(s: State, c: Command): State {
    s.(sequence := s.sequence + 1, expected := s.sequence + 2, child := if s.sequence == 255 then Ended else Awaiting,
       accepted := s.accepted + [(c, Reply(c.sequence, false, c))])
  }

  /** Its reply is accepted, nothing is aborted, and the child waits for the next call until its 256th. */
  lemma ExchangeCompletes(s: State, action: Action, tag: nat)
    requires Inv(s) && Ready(s) && s.sequence < 256 && action != Stop
    ensures Leads(Asked(s, Next(s, action, tag)), [ChildReplies] + [Receive], Told(s, Next(s, action, tag)))
  {
    ReadyIsQuiet(s);
    var c := Next(s, action, tag);
    var (a, t) := (Asked(s, c), Told(s, c));
    var r := a.(replies := [Reply(c.sequence, false, c)], expected := s.sequence + 2, child := t.child);
    assert r.replies[1..] == [];
    LeadsCons(r, Receive, t, [], t);
    LeadsCons(a, ChildReplies, r, [Receive], t);
  }

  /** The state after Stop. */
  function StoppedBy(s: State, c: Command): State {
    s.(sequence := s.sequence + 1, stopRequested := true, stopped := true, expected := s.sequence + 2, child := Ended,
       accepted := s.accepted + [(c, Reply(c.sequence, true, c))])
  }

  /** Stop succeeds: its own "stopped" is accepted and the end of the stream is seen. */
  lemma StopCompletes(s: State, tag: nat)
    requires Inv(s) && Ready(s) && s.sequence < 256
    ensures Leads(Asked(s, Next(s, Stop, tag)), [ChildReplies] + ([Receive] + [SeeEnd]), StoppedBy(s, Next(s, Stop, tag)))
  {
    ReadyIsQuiet(s);
    var c := Next(s, Stop, tag);
    var (a, t) := (Asked(s, c), StoppedBy(s, c));
    var r := a.(replies := [Reply(c.sequence, true, c)], expected := s.sequence + 2, child := Ended);
    var e := r.(replies := [], accepted := t.accepted, holder := Some(AwaitingEnd(c)));
    assert r.replies[1..] == [];
    LeadsCons(e, SeeEnd, t, [], t);
    LeadsCons(r, Receive, e, [SeeEnd], t);
    LeadsCons(a, ChildReplies, r, [Receive] + [SeeEnd], t);
  }
}
