/**
  The JSON-RPC client of the Codex app-server (codex_rpc.py): one ordered stream of messages, of which
  a request takes its own response and buffers what came before it, in order.
 */
module AppServers {
  import opened Common
  import opened Ledgers
  import opened AgentOutput

  /** What the adapter acts on; every other notification is Other. */
  datatype Notification =
    | ItemCompleted(turn: TurnId, item: AgentItem)
    | TurnCompletedNote(turn: TurnId, terminal: Option<Terminal>)
    | Other

  /** An error may name the turn that is really active (`mismatched_active_turn`), or say that none is. */
  datatype Answer = Error(actual: Option<TurnId>, inactive: bool) | Turn(id: Option<TurnId>)

  datatype Message = Response(id: nat, answer: Answer) | Note(note: Notification)

  /** The messages before the response to `id`, or all of them when it is not there. */
  function ResponseAt(stream: seq<Message>, id: nat): (n: nat)
    ensures n <= |stream| && (n < |stream| ==> stream[n].Response? && stream[n].id == id)
    ensures forall k :: 0 <= k < n ==> !(stream[k].Response? && stream[k].id == id)
  {
    if stream == [] || (stream[0].Response? && stream[0].id == id) then 0 else 1 + ResponseAt(stream[1..], id)
  }

  /** What a request finds in the stream: the answer, the messages before it, and what it leaves unread. */
  datatype Reply = Reply(answer: Option<Answer>, before: seq<Message>, rest: seq<Message>)

  function ReplyTo(stream: seq<Message>, id: nat): Reply {
    var n := ResponseAt(stream, id);
    if n < |stream| then Reply(Some(stream[n].answer), stream[..n], stream[n + 1..]) else Reply(None, stream, [])
  }

  /** The own response is the first with that id, what came before it is kept in order, and nothing after it is read. */
  lemma ReplyIsFirst(stream: seq<Message>, id: nat)
    ensures var r := ReplyTo(stream, id);
            && (forall k :: 0 <= k < |r.before| ==> !(r.before[k].Response? && r.before[k].id == id))
            && stream == r.before + (if r.answer.Some? then [Response(id, r.answer.value)] + r.rest else [])
            && (r.answer.None? ==> r.rest == [])
  {
    var n := ResponseAt(stream, id);
    if n < |stream| {
      assert stream == stream[..n] + [stream[n]] + stream[n + 1..];
    }
  }

  /** A steer of turn `x`: when the refusal names another active turn, that one is asked, once. */
  function SteerReply(stream: seq<Message>, id: nat, x: TurnId): (Reply, TurnId) {
    var first := ReplyTo(stream, id);
    if first.answer.Some? && first.answer.value.Error? && first.answer.value.actual.Some?
    then
      var second := ReplyTo(first.rest, id + 1);
      (second.(before := first.before + second.before), first.answer.value.actual.value)
    else (first, x)
  }

  lemma SteerReplyIs(stream: seq<Message>, id: nat, x: TurnId)
    ensures var first := ReplyTo(stream, id);
            var second := ReplyTo(first.rest, id + 1);
            SteerReply(stream, id, x) == match first.answer
                                         case Some(Error(Some(y), _)) => (Reply(second.answer, first.before + second.before, second.rest), y)
                                         case _ => (first, x)
  {
    hide ReplyTo;
  }

  /** The answers to request `id` name turns of the thread that was asked. */
  ghost predicate AnswersOn(stream: seq<Message>, id: nat, t: ThreadId) {
    forall k :: 0 <= k < |stream| && stream[k].Response? && stream[k].id == id ==>
      match stream[k].answer
      case Error(actual, _) => actual.Some? ==> actual.value.thread == t
      case Turn(turn) => turn.Some? ==> turn.value.thread == t
  }

  lemma AnswerIsOn(stream: seq<Message>, id: nat, later: nat, t: ThreadId)
    requires AnswersOn(stream, id, t) && AnswersOn(stream, later, t)
    ensures match ReplyTo(stream, id).answer
            case Some(Error(Some(y), _)) => y.thread == t
            case Some(Turn(Some(y))) => y.thread == t
            case _ => true
    ensures AnswersOn(ReplyTo(stream, id).rest, later, t)
  {
    var n := ResponseAt(stream, id);
    forall k | n < k < |stream| ensures stream[n + 1..][k - n - 1] == stream[k] {
    }
  }

  class AppServer {
    var nextId: nat
    var incoming: seq<Message>
    var pending: seq<Message>

    constructor (incoming: seq<Message>)
      ensures nextId == 1 && this.incoming == incoming && pending == []
    {
      this.nextId, this.incoming, this.pending := 1, incoming, [];
    }

    /** `request`: None when the stream ends (timeout or exit) without the response. */
    method Request() returns (answer: Option<Answer>)
      modifies this
      ensures nextId == old(nextId) + 1
      ensures var reply := ReplyTo(old(incoming), old(nextId));
              answer == reply.answer && incoming == reply.rest && pending == old(pending) + reply.before
    {
      var id := nextId;
      nextId := nextId + 1;
      ghost var n, read := ResponseAt(incoming, id), 0;
      while incoming != []
        invariant 0 <= read <= n && nextId == old(nextId) + 1
        invariant incoming == old(incoming)[read..] && pending == old(pending) + old(incoming)[..read]
        decreases |incoming|
      {
        var message := incoming[0];
        assert message == old(incoming)[read];
        incoming := incoming[1..];
        if message.Response? && message.id == id {
          assert read == n;
          return Some(message.answer);
        }
        assert old(incoming)[..read + 1] == old(incoming)[..read] + [message];
        pending := pending + [message];
        read := read + 1;
      }
      assert old(incoming)[..read] == old(incoming)[..n];
      answer := None;
    }

    /** `read_message` with a deadline: the next message, or None when none came in time. */
    method Read(intime: bool) returns (message: Option<Message>)
      modifies `incoming
      ensures message.None? <==> !intime || old(incoming) == []
      ensures incoming == if message.None? then old(incoming) else old(incoming)[1..]
      ensures message.Some? ==> message.value == old(incoming)[0]
    {
      if !intime || incoming == [] {
        return None;
      }
      message := Some(incoming[0]);
      incoming := incoming[1..];
    }

    /** The oldest buffered message. */
    method Take() returns (message: Message)
      requires pending != []
      modifies `pending
      ensures old(pending) == [message] + pending
    {
      message := pending[0];
      pending := pending[1..];
    }
  }
}
