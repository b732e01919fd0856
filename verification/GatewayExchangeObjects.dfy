/**
 Both ends of the command stream as the code they are: the child's loop and the caller's service
 object.  Each is tied to the steps of GatewayExchange that it takes.
 */
module GatewayExchangeObjects {
  import opened Prelude
  import opened GatewayExchange

  // ----- the child -----

  /** The commands ahead of the first that cannot be decoded. */
  function Readable(input: seq<Option<Command>>): seq<Command> {
    if input == [] || input[0].None? then [] else [input[0].value] + Readable(input[1..])
  }

  /** The child's steps for as long as it has a command to read. */
  function ServeAll(s: State): State
    decreases |s.commands|
  {
    if !s.child.Awaiting? || s.commands == [] then s
    else
      var t := Apply(s, ChildReads);
      if t.child.Serving? then ServeAll(Apply(t, ChildReplies)) else t
  }

  predicate Listens(s: State, expected: int, input: seq<Option<Command>>) {
    s.child == Awaiting && s.expected == expected && s.commands == Readable(input)
  }

  /** What the loop writes when it is to read its sequence-th command next. */
  function Answers(input: seq<Option<Command>>, sequence: int): seq<Reply>
    decreases |input|
  {
    if !Takes(input, sequence) then []
    else [Own(input, sequence)] + (if input[0].value.action == Stop then [] else Answers(input[1..], sequence + 1))
  }

  predicate Takes(input: seq<Option<Command>>, sequence: int) {
    input != [] && sequence <= MAX_COMMANDS && input[0].Some? && input[0].value.sequence == sequence
  }

  function Own(input: seq<Option<Command>>, sequence: int): Reply
    requires Takes(input, sequence)
  {
    Reply(sequence, input[0].value.action == Stop, input[0].value)
  }

  /** The child's state after one turn of the loop that is not its last. */
  function NextTurn(s: State, input: seq<Option<Command>>): State
    requires Takes(input, s.expected)
  {
    s.(commands := Readable(input[1..]), expected := s.expected + 1, replies := s.replies + [Own(input, s.expected)])
  }

  /** One turn of the loop is the child's two steps. */
  lemma ServesOne(s: State, input: seq<Option<Command>>)
    requires Listens(s, s.expected, input) && Takes(input, s.expected)
    requires s.expected < MAX_COMMANDS && input[0].value.action != Stop
    ensures Listens(NextTurn(s, input), s.expected + 1, input[1..]) && ServeAll(s) == ServeAll(NextTurn(s, input))
  {
    assert s.commands[0] == input[0].value && s.commands[1..] == Readable(input[1..]);
    var t := Apply(s, ChildReads);
    assert t == s.(commands := Readable(input[1..]), child := Serving(input[0].value));
    assert Apply(t, ChildReplies) == NextTurn(s, input);
  }

  /** The turn of a stop, or of the 256th command, is the last. */
  lemma ServesLast(s: State, input: seq<Option<Command>>)
    requires Listens(s, s.expected, input) && Takes(input, s.expected)
    requires input[0].value.action == Stop || s.expected == MAX_COMMANDS
    ensures ServeAll(s).replies == s.replies + [Own(input, s.expected)]
    ensures Answers(input, s.expected) == [Own(input, s.expected)]
  {
    assert s.commands[0] == input[0].value;
  }

  /** Nothing readable, or a command out of turn, gets no reply. */
  lemma ServesNone(s: State, input: seq<Option<Command>>)
    requires Listens(s, s.expected, input) && s.expected <= MAX_COMMANDS && !Takes(input, s.expected)
    ensures ServeAll(s).replies == s.replies
  {
  }

  lemma AnswersOne(input: seq<Option<Command>>, sequence: int)
    requires Takes(input, sequence)
    ensures Answers(input, sequence) ==
      [Own(input, sequence)] + (if input[0].value.action == Stop then [] else Answers(input[1..], sequence + 1))
  {
  }

  /** The loop writes exactly the replies of the child's steps on the same commands. */
  lemma {:induction false} ChildAnswers(s: State, input: seq<Option<Command>>)
    requires Listens(s, s.expected, input) && s.expected <= MAX_COMMANDS
    ensures ServeAll(s).replies == s.replies + Answers(input, s.expected)
    decreases |input|
  {
    if !Takes(input, s.expected) {
      ServesNone(s, input);
    } else if input[0].value.action == Stop || s.expected == MAX_COMMANDS {
      ServesLast(s, input);
    } else {
      ServesOne(s, input);
      ChildAnswers(NextTurn(s, input), input[1..]);
      AnswersGrow(s, input);
    }
  }

  lemma AnswersGrow(s: State, input: seq<Option<Command>>)
    requires Takes(input, s.expected) && input[0].value.action != Stop && ServeAll(s) == ServeAll(NextTurn(s, input))
    requires ServeAll(NextTurn(s, input)).replies == NextTurn(s, input).replies + Answers(input[1..], s.expected + 1)
    ensures ServeAll(s).replies == s.replies + Answers(input, s.expected)
  {
    AnswersOne(input, s.expected);
    Regroup(s.replies, Own(input, s.expected), Answers(input[1..], s.expected + 1));
  }

  lemma Regroup(before: seq<Reply>, reply: Reply, after: seq<Reply>)
    ensures before + [reply] + after == before + ([reply] + after)
  {
  }

  /**
   Replies are numbered from the first on and answer the commands in order; only the last can say
   stopped, and the loop ends early only before a command it cannot read or that is out of turn.
   */
  lemma {:induction false} AnswersInOrder(input: seq<Option<Command>>, sequence: int)
    requires 1 <= sequence <= MAX_COMMANDS + 1
    ensures var replies := Answers(input, sequence);
      && |replies| <= |input| && sequence + |replies| <= MAX_COMMANDS + 1
      && (forall i :: 0 <= i < |replies| ==>
            && input[i].Some? && input[i].value.sequence == sequence + i
            && replies[i] == Reply(sequence + i, input[i].value.action == Stop, input[i].value))
      && (forall i :: 0 <= i < |replies| - 1 ==> !replies[i].stopped)
      && (|replies| < |input| && sequence + |replies| <= MAX_COMMANDS && (replies == [] || !replies[|replies| - 1].stopped) ==>
            input[|replies|].None? || input[|replies|].value.sequence != sequence + |replies|)
    decreases |input|
  {
    if Takes(input, sequence) && input[0].value.action != Stop {
      AnswersInOrder(input[1..], sequence + 1);
      var rest := Answers(input[1..], sequence + 1);
      assert Answers(input, sequence) == [Own(input, sequence)] + rest;
      assert forall i :: 0 <= i < |rest| ==> input[1..][i] == input[i + 1];
    }
  }

  predicate SaysStopped(replies: seq<Reply>) { replies != [] && replies[|replies| - 1].stopped }

  /** What is still to come after the replies written so far. */
  predicate Reaches(goal: seq<Reply>, commands: seq<Option<Command>>, replies: seq<Reply>) {
    |replies| <= |commands| && goal == replies + Answers(commands[|replies|..], |replies| + 1)
  }

  /** DecodeCommand on what is left of the input: nothing at its end, or when it is no command. */
  function Decoded(commands: seq<Option<Command>>, k: nat): Option<Command> {
    if k < |commands| then commands[k] else None
  }

  /** The loop has a command to serve. */
  predicate InTurn(commands: seq<Option<Command>>, k: nat) {
    k < MAX_COMMANDS && Decoded(commands, k).Some? && Decoded(commands, k).value.sequence == k + 1
  }

  lemma ReachesStart(commands: seq<Option<Command>>)
    ensures Reaches(Answers(commands, 1), commands, [])
  {
    assert commands[0..] == commands;
  }

  lemma ReachesNext(goal: seq<Reply>, commands: seq<Option<Command>>, replies: seq<Reply>)
    requires Reaches(goal, commands, replies) && InTurn(commands, |replies|)
    ensures var command := Decoded(commands, |replies|).value;
      if command.action == Stop then goal == replies + [Reply(|replies| + 1, true, command)]
      else Reaches(goal, commands, replies + [Reply(|replies| + 1, false, command)])
  {
    var reply := Reply(|replies| + 1, Decoded(commands, |replies|).value.action == Stop, Decoded(commands, |replies|).value);
    var after := if reply.stopped then [] else Answers(commands[|replies| + 1..], |replies| + 2);
    AnswersFrom(commands, |replies|);
    Regroup(replies, reply, after);
    assert after == [] ==> replies + [reply] + after == replies + [reply];
  }

  lemma AnswersFrom(commands: seq<Option<Command>>, k: nat)
    requires InTurn(commands, k)
    ensures var command := Decoded(commands, k).value;
      Answers(commands[k..], k + 1) ==
        [Reply(k + 1, command.action == Stop, command)] + (if command.action == Stop then [] else Answers(commands[k + 1..], k + 2))
  {
    AnswersOne(commands[k..], k + 1);
    assert commands[k..][1..] == commands[k + 1..];
  }

  lemma ReachesEnd(goal: seq<Reply>, commands: seq<Option<Command>>, replies: seq<Reply>)
    requires Reaches(goal, commands, replies) && !InTurn(commands, |replies|)
    ensures goal == replies
  {
  }

  /**
   The child's command loop over what DecodeCommand makes of its input: it stops at the first stop,
   the first command it cannot read or that is out of turn, or after its 256th.
   */
  method CommandLoop(commands: seq<Option<Command>>) returns (replies: seq<Reply>, graceful: bool)
    ensures replies == Answers(commands, 1)
    ensures graceful <==> SaysStopped(replies)
  {
    replies, graceful := [], false;
    ghost var goal := Answers(commands, 1);
    ReachesStart(commands);
    for sequence := 1 to MAX_COMMANDS + 1
      invariant |replies| + 1 == sequence && Reaches(goal, commands, replies)
      invariant !graceful && !SaysStopped(replies)
    {
      var command := Decoded(commands, |replies|);
      if command.None? || command.value.sequence != sequence {
        ReachesEnd(goal, commands, replies);
        return;
      }
      ReachesNext(goal, commands, replies);
      graceful := command.value.action == Stop;
      replies := replies + [Reply(sequence, graceful, command.value)];
      if graceful { return; }
    }
    ReachesEnd(goal, commands, replies);
  }

  // ----- the caller's service object -----

  /** How the child and the pipes answer one exchange. */
  datatype Link = Link(live: bool, written: bool, reply: Option<Reply>, ended: bool)

  /** The caller's part of the machine's state, which is the object's fields. */
  datatype Parent = Parent(sequence: nat, stopped: bool, stopRequested: bool, aborted: bool)

  function ParentOf(s: State): Parent {
    Parent(s.sequence, s.stopped, s.stopRequested, s.aborted)
  }

  predicate Refuses(p: Parent, link: Link) {
    p.stopped || p.aborted || !link.live
  }

  /** With the next number spent. */
  function Numbered(p: Parent, action: Action): Parent {
    p.(sequence := p.sequence + 1, stopRequested := p.stopRequested || action == Stop)
  }

  /** The reply that an exchange with the next number accepts. */
  function Answer(p: Parent, action: Action, link: Link): Option<Reply> {
    if p.sequence + 1 > MAX_COMMANDS || !link.written || link.reply.None? then None
    else if link.reply.value.sequence != p.sequence + 1 then None
    else if action == Stop && !link.reply.value.stopped then None
    else link.reply
  }

  /** The fields after one exchange of another action than stop. */
  function Exchanged(p: Parent, action: Action, link: Link): Parent {
    if Refuses(p, link) then p
    else Numbered(p, action).(aborted := Answer(p, action, link).None?)
  }

  function StopServed(p: Parent, link: Link): Parent {
    if Refuses(p, link) then p
    else if Answer(p, Stop, link).None? || !link.ended then Numbered(p, Stop).(aborted := true)
    else Numbered(p, Stop).(stopped := true)
  }

  class ServiceObject {
    var sequence: nat
    var stopped: bool
    var stopRequested: bool
    var aborted: bool

    function Value(): Parent
      reads this
    {
      Parent(sequence, stopped, stopRequested, aborted)
    }

    constructor ()
      ensures Value() == ParentOf(Init())
    {
      sequence, stopped, stopRequested, aborted := 0, false, false, false;
    }

    method Abort()
      modifies this`aborted
      ensures aborted
    {
      aborted := true;
    }

    /**
     exchange: refused without a trace once stopped, aborted, dead or late; otherwise the next number
     is spent, and either the reply to that number is returned or the service is aborted for good.
     */
    method Exchange(action: Action, tag: nat, link: Link) returns (command: Option<Command>, reply: Option<Reply>)
      requires action != Stop
      modifies this
      ensures Value() == Exchanged(old(Value()), action, link)
      ensures command == if Refuses(old(Value()), link) then None else Some(Command(old(sequence) + 1, action, tag))
      ensures reply == if Refuses(old(Value()), link) then None else Answer(old(Value()), action, link)
      ensures command.Some? <==> !old(stopped) && !old(aborted) && link.live
      ensures reply.Some? <==>
        && !old(stopped) && !old(aborted) && link.live && old(sequence) < 256 && link.written
        && link.reply.Some? && link.reply.value.sequence == old(sequence) + 1
      ensures reply.Some? ==> reply == link.reply
      ensures aborted <==> old(aborted) || (command.Some? && reply.None?)
      ensures sequence == old(sequence) + if command.Some? then 1 else 0
    {
      if stopped || aborted || !link.live { return None, None; }
      sequence := sequence + 1;
      command := Some(Command(sequence, action, tag));
      if sequence > MAX_COMMANDS || !link.written {
        Abort();
        return command, None;
      }
      if link.reply.None? || link.reply.value.sequence != sequence {
        Abort();
        return command, None;
      }
      reply := link.reply;
    }

    /** Stop: graceful only when the reply to its own number says stopped and nothing follows it. */
    method StopService(link: Link) returns (graceful: bool)
      modifies this
      ensures Value() == StopServed(old(Value()), link)
      ensures graceful <==>
        && !old(stopped) && !old(aborted) && link.live && old(sequence) < 256 && link.written
        && link.reply.Some? && link.reply.value.sequence == old(sequence) + 1 && link.reply.value.stopped && link.ended
      ensures stopped <==> old(stopped) || graceful
      ensures aborted <==> old(aborted) || (!old(stopped) && link.live && !graceful)
    {
      if stopped || aborted || !link.live { return false; }
      stopRequested, sequence := true, sequence + 1;
      if sequence > MAX_COMMANDS || !link.written {
        Abort();
        return false;
      }
      if link.reply.None? || link.reply.value.sequence != sequence || !link.reply.value.stopped {
        Abort();
        return false;
      }
      if !link.ended {
        Abort();
        return false;
      }
      stopped := true;
      graceful := true;
    }
  }

  // ----- the steps of one exchange -----

  /** The thread in question holds the lock, with this action. */
  predicate Holds(s: State, action: Action) {
    s.holder.Some? && s.holder.value.Holding? && s.holder.value.action == action
  }

  function NextCommand(s: State): Command
    requires s.holder.Some? && s.holder.value.Holding?
  {
    Command(s.sequence + 1, s.holder.value.action, s.holder.value.tag)
  }

  /** A later state in which the thread still waits for its reply, and finds there what link says. */
  predicate Arrives(s: State, link: Link, arrival: State)
    requires s.holder.Some? && s.holder.value.Holding?
  {
    && arrival.holder == Some(Receiving(NextCommand(s))) && arrival.accepted == s.accepted
    && ParentOf(arrival) == Numbered(ParentOf(s), NextCommand(s).action)
    && (link.reply.Some? ==> arrival.replies != [] && arrival.replies[0] == link.reply.value)
  }

  /** Refused: the step Refuse, with no trace. */
  lemma RefusedIsRefuse(s: State, action: Action, link: Link)
    requires Holds(s, action) && Refuses(ParentOf(s), link)
    ensures Enabled(s, Refuse) && Apply(s, Refuse) == s.(holder := None)
    ensures ParentOf(Apply(s, Refuse)) == Exchanged(ParentOf(s), action, link) == StopServed(ParentOf(s), link)
  {
  }

  /** Not refused: the step Number spends the next number. */
  lemma NotRefusedIsNumber(s: State, action: Action, link: Link)
    requires Holds(s, action) && !Refuses(ParentOf(s), link)
    ensures Enabled(s, Number) && Apply(s, Number).holder == Some(Sending(NextCommand(s)))
    ensures ParentOf(Apply(s, Number)) == Numbered(ParentOf(s), action)
  {
  }

  /** A failed write: the step SendFails, whatever of the command got through, and the service is aborted. */
  lemma UnsentIsSendFails(s: State, action: Action, link: Link, delivered: bool, torn: bool)
    requires Holds(s, action) && !Refuses(ParentOf(s), link) && !(s.sequence + 1 <= MAX_COMMANDS && link.written)
    ensures var n := Apply(s, Number);
      Enabled(n, SendFails(delivered, torn)) && var t := Apply(n, SendFails(delivered, torn));
      t.accepted == s.accepted && t.holder == None &&
      ParentOf(t) == if action == Stop then StopServed(ParentOf(s), link) else Exchanged(ParentOf(s), action, link)
  {
    NotRefusedIsNumber(s, action, link);
    assert Answer(ParentOf(s), action, link).None?;
  }

  /** A write that got through: the step Send, after which the thread waits for its reply. */
  lemma SentIsSend(s: State, action: Action, link: Link)
    requires Inv(s) && Holds(s, action) && !Refuses(ParentOf(s), link) && s.sequence + 1 <= MAX_COMMANDS
    ensures var n := Apply(s, Number);
      Enabled(n, Send) && Apply(n, Send).holder == Some(Receiving(NextCommand(s))) &&
      ParentOf(Apply(n, Send)) == Numbered(ParentOf(s), action)
  {
    NotRefusedIsNumber(s, action, link);
  }

  /** No reply that can be read: the step ReceiveFails. */
  lemma UnansweredIsReceiveFails(s: State, action: Action, link: Link, arrival: State, lost: bool)
    requires Holds(s, action) && !Refuses(ParentOf(s), link) && Arrives(s, link, arrival) && link.reply.None?
    ensures Enabled(arrival, ReceiveFails(lost)) && var t := Apply(arrival, ReceiveFails(lost));
      t.accepted == s.accepted && t.holder == None &&
      ParentOf(t) == if action == Stop then StopServed(ParentOf(s), link) else Exchanged(ParentOf(s), action, link)
  {
  }

  /** A reply: the step Receive accepts exactly the reply that exchange returns. */
  lemma AnsweredIsReceive(s: State, action: Action, link: Link, arrival: State)
    requires Holds(s, action) && !Refuses(ParentOf(s), link) && Arrives(s, link, arrival)
    requires s.sequence + 1 <= MAX_COMMANDS && link.written && link.reply.Some?
    ensures Enabled(arrival, Receive) && var t := Apply(arrival, Receive);
      && t.accepted == s.accepted + (if Answer(ParentOf(s), action, link).Some? then [(NextCommand(s), link.reply.value)] else [])
      && (action != Stop ==> t.holder == None && ParentOf(t) == Exchanged(ParentOf(s), action, link))
      && (action == Stop && Answer(ParentOf(s), Stop, link).None? ==> t.holder == None && ParentOf(t) == StopServed(ParentOf(s), link))
      && (action == Stop && Answer(ParentOf(s), Stop, link).Some? ==>
            t.holder == Some(AwaitingEnd(NextCommand(s))) && ParentOf(t) == Numbered(ParentOf(s), Stop))
  {
    assert Fits(NextCommand(s), link.reply.value) <==> Answer(ParentOf(s), action, link).Some?;
  }

  /** After its "stopped", Stop ends by SeeEnd at the end of the stream, and by MissEnd at anything else. */
  lemma EndIsSeen(s: State, link: Link, ending: State)
    requires Holds(s, Stop) && !Refuses(ParentOf(s), link) && Answer(ParentOf(s), Stop, link).Some?
    requires ending.holder == Some(AwaitingEnd(NextCommand(s))) && ParentOf(ending) == Numbered(ParentOf(s), Stop)
    requires link.ended ==> ending.child.Ended? && ending.replies == []
    ensures var step := if link.ended then SeeEnd else MissEnd;
      Enabled(ending, step) && ParentOf(Apply(ending, step)) == StopServed(ParentOf(s), link)
  {
  }
}
