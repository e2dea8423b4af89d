/**
  The persistent adapter (codex_adapter_v2.py): output, dispatch and recovery as methods over the
  store and the app-server client. Clock readings are arbitrary; a store call whose fence fails, like
  an RPC error that is not handled, ends the method with `ok == false`.

  Whatever the methods do is a legal run of AdapterRuns: `run` is that run, and `Valid` says that it
  ends in the ledger as it is, so the theorems about runs hold of the code's own order of effects.
 */
module CodexAdapter {
  import opened Common
  import opened Leases
  import opened Ledgers
  import opened LedgerInvariants
  import opened AgentOutput
  import opened AdapterRuns
  import opened RecoverySteps
  import opened AdapterTraces
  import opened AttentionStores
  import opened AppServers
  import opened Notices
  import opened Dispatches

  const LEASE_TTL_MS := 45_000
  const RETRY_DELAY_MS := 1_000

  /** `turn_for_client_message`: search the user messages of the history in order. */
  method FindTurn(turns: seq<RemoteTurn>, a: AttId) returns (found: Option<TurnId>)
    ensures found == TurnForClientMessage(Histories(turns), a)
    ensures found.Some? ==> InHistory(turns, found.value)
  {
    ghost var all := Histories(turns);
    for k := 0 to |turns|
      invariant TurnForClientMessage(all, a) == TurnForClientMessage(all[k..], a)
    {
      assert all[k..][0] == turns[k].history && all[k..][1..] == all[k + 1..];
      if a in turns[k].history.inputs {
        return Some(turns[k].history.id);
      }
    }
    found := None;
  }

  /** `latest_unknown_item`: the newest held item of the turn. */
  method LatestUnknownItem(relays: seq<Relay>, x: TurnId) returns (held: Option<Relay>)
    ensures held.Some? ==> LatestCandidate(relays, x, held.value)
    ensures held.None? ==> forall r :: r in relays ==> !(r.op.turn == x && r.op.kind.Candidate?)
  {
    held := None;
    for k := 0 to |relays|
      invariant held.None? ==> forall r :: r in relays[..k] ==> !(r.op.turn == x && r.op.kind.Candidate?)
      invariant held.Some? ==> LatestCandidate(relays[..k], x, held.value)
    {
      assert relays[..k + 1] == relays[..k] + [relays[k]];
      var r := relays[k];
      if r.op.turn == x && r.op.kind.Candidate? && (held.None? || held.value.createdAt <= r.createdAt) {
        held := Some(r);
      }
    }
    assert relays[..|relays|] == relays;
  }

  method FindRemote(turns: seq<RemoteTurn>, x: TurnId) returns (found: Option<RemoteTurn>)
    ensures found == FirstShown(turns, x)
  {
    for k := 0 to |turns|
      invariant FirstShown(turns, x) == FirstShown(turns[k..], x)
    {
      assert turns[k..][0] == turns[k] && turns[k..][1..] == turns[k + 1..];
      if turns[k].history.id == x {
        return Some(turns[k]);
      }
    }
    found := None;
  }

  /** What `dispatch_one` does next, and for which attention. */
  datatype Decision =
    | NothingDue
    | Retire(a: AttId)
    | HandleStop(a: AttId)
    | HandleClosure(a: AttId)
    | NeedsThread(a: AttId)
    | SteerInto(a: AttId, t: ThreadId, x: TurnId)
    | StartOn(a: AttId, t: ThreadId)

  class PersistentCodexAdapter {
    const store: AttentionStore
    const client: AppServer
    const owner: Owner
    const live: bool
    /** The readings of the wall clock, in order; `ticks` of them have been taken. */
    const clock: nat -> int
    var ticks: nat
    var epoch: nat
    var activeTurns: map<ThreadId, TurnId>
    var scopeThreads: map<Scope, ThreadId>
    ghost var run: seq<At>
    ghost var world: World

    /** A new process on a ledger that some run left behind; `run` ends where the process before it did. */
    constructor (store: AttentionStore, client: AppServer, owner: Owner, live: bool, clock: nat -> int, ghost run: seq<At>, ghost world: World)
      requires Traced(run, world) && world.db == Unleased(store.State()) && world.phase.Down? && world.cache == map[]
      requires Fenced(run, Epoch(store.lease))
      ensures Valid() && this.run == run && this.world == world
      ensures this.store == store && this.client == client && this.owner == owner && this.live == live && this.clock == clock
      ensures epoch == 0 && ticks == 0 && activeTurns == map[] && scopeThreads == map[]
    {
      this.store, this.client, this.owner, this.live, this.clock := store, client, owner, live, clock;
      this.epoch, this.ticks, this.activeTurns, this.scopeThreads := 0, 0, map[], map[];
      this.run, this.world := run, world;
    }

    /** The ledger is that of a legal run whose calls carry no epoch above the lease's. */
    ghost predicate Recorded()
      reads `run, `world, `epoch, store
    {
      && Traced(run, world) && world.db == Unleased(store.State())
      && Fenced(run, Epoch(store.lease)) && epoch <= Epoch(store.lease)
    }

    /** And the thread cache is the run's. */
    ghost predicate Valid()
      reads `run, `world, `scopeThreads, `epoch, store
    {
      Recorded() && world.cache == scopeThreads
    }

    /** The run went on, in the same phase and under the same lease; no input was accepted. */
    twostate predicate Proceeds()
      reads `run, `world, `scopeThreads, `epoch, `ticks, store
    {
      && Valid() && Continues(old(run), old(world), run, world)
      && old(ticks) <= ticks && store.lease == old(store.lease)
    }

    /** The run went on, under the same lease, and exactly these inputs were accepted. */
    twostate predicate Accepts(taken: seq<Input>)
      reads `run, `world, `scopeThreads, `epoch, `ticks, store
    {
      && Valid() && old(run) <= run && world.cache == old(world.cache) && Takes(old(world), world, taken)
      && old(ticks) <= ticks && store.lease == old(store.lease)
    }

    /** The adapter did not hold the lease at some reading taken since. */
    ghost predicate Lapsed(from: nat)
      reads `epoch, `ticks, store
    {
      exists i :: from <= i < ticks && !Holds(store.lease, owner, epoch, clock(i))
    }

    method Now() returns (now: int)
      modifies `ticks
      ensures ticks == old(ticks) + 1 && now == clock(old(ticks))
    {
      now := clock(ticks);
      ticks := ticks + 1;
    }

    /** One more event of the run. */
    ghost method Log(e: Event, now: int)
      requires Traced(run, world) && Enabled(world, e, now)
      requires Fenced(run, Epoch(store.lease)) && epoch <= Epoch(store.lease)
      requires Apply(world, At(e, now, epoch)).db == Unleased(store.State())
      requires Apply(world, At(e, now, epoch)).cache == scopeThreads
      modifies `run, `world
      ensures Valid() && world == Apply(old(world), At(e, now, epoch)) && run == old(run) + [At(e, now, epoch)]
    {
      hide Apply, Enabled;
      Extends(run, world, At(e, now, epoch));
      world := Apply(world, At(e, now, epoch));
      run := run + [At(e, now, epoch)];
    }

    // ---- Output ----

    /** `create_output`: cover the turn's nonterminal members, or those of them a held item covered. */
    method CreateOutput(x: TurnId, item: ItemId, text: string, kind: RelayKind, within: Option<set<AttId>>, now: int) returns (ok: bool)
      modifies store
      ensures var covered := AcceptedForTurn(old(store.State()), x) * within.GetOr(AcceptedForTurn(old(store.State()), x));
              ok ==> store.State() == AgentOutput.CreateOutput(old(store.State()), OpId(covered, x, item, kind), text, live, epoch, now)
      ensures !ok ==> store.State() == old(store.State()) && !Holds(store.lease, owner, epoch, now)
    {
      var covered := AcceptedForTurn(store.State(), x);
      match within {
        case Some(original) => covered := covered * original;
        case None => assert covered * covered == covered;
      }
      if covered == {} {
        return true;
      }
      var outcome, created := store.CreateRelayItem(OpId(covered, x, item, kind), text, OutputStatus(kind, live), owner, epoch, now);
      ok := outcome == Committed;
    }

    /** The row an item leaves. */
    method RecordItem(x: TurnId, item: AgentItem) returns (ok: bool, ghost now: int)
      requires Valid() && Up(world.phase) && item.text != "" && !HasItem(store.State().relays, x, item.id)
      modifies store, `ticks, `run, `world
      ensures Proceeds()
      ensures if ok then store.State() == AgentOutput.RecordItem(old(store.State()), x, item, live, epoch, now)
              else store.State() == old(store.State()) && Lapsed(old(ticks))
    {
      hide Traced, Fenced, Enabled, Apply, AgentOutput.CreateOutput;
      ghost var l := store.State();
      var kind := OutputKind(store.State(), x, item);
      var at := Now();
      now := at;
      ok := CreateOutput(x, item.id, item.text, kind, None, at);
      assert AcceptedForTurn(l, x) * AcceptedForTurn(l, x) == AcceptedForTurn(l, x);
      if ok {
        ItemAdds(world, l, x, item, live, epoch, now);
        Log(ItemRecorded(x, item, live), now);
      }
    }

    /** `handle_agent_item`. */
    method HandleAgentItem(x: TurnId, item: AgentItem) returns (ok: bool)
      requires Valid() && Up(world.phase)
      modifies store, `ticks, `run, `world
      ensures Proceeds() && Outputs(old(store.State()), store.State(), {})
      ensures if ok then Handled(old(store.State()), Note(ItemCompleted(x, item)), store.State(), live, epoch) else Lapsed(old(ticks))
    {
      hide Traced, Fenced, Enabled, Apply, AcceptedForTurn, AllowsCommentary, Uncovered;
      NothingOutput(store.State());
      ghost var before, now := store.State(), 0;
      hide Outputs;
      if item.text == "" || HasItem(store.State().relays, x, item.id) {
        assert store.State() == HandleItem(before, x, item, live, epoch, now);
        return true;
      }
      var kind := OutputKind(store.State(), x, item);
      ok, now := RecordItem(x, item);
      if !ok {
        return;
      }
      ItemOutputs(before, x, item, live, epoch, now);
      if kind.NoReply? {
        ok := WaiveReply(x);
        OutputsChain(before, AgentOutput.RecordItem(before, x, item, live, epoch, now), store.State(), {});
      }
      assert ok ==> store.State() == HandleItem(before, x, item, live, epoch, now);
    }

    /** The sentinel also waives the optional attentions of the turn. */
    method WaiveReply(x: TurnId) returns (ok: bool)
      requires Valid() && Up(world.phase)
      modifies store, `ticks, `run, `world
      ensures Proceeds() && Outputs(old(store.State()), store.State(), {})
      ensures if ok then store.State() == TurnNoReply(old(store.State()), x) else store.State() == old(store.State()) && Lapsed(old(ticks))
    {
      hide Traced, Fenced, Enabled, Apply;
      ghost var l := store.State();
      NothingOutput(l);
      NoReplyOutputs(l, x);
      var now := Now();
      NoReplyAdds(world, l, x, epoch, now);
      var outcome, waived := store.MarkTurnNoReply(x, owner, epoch, now);
      ok := outcome == Committed;
      if ok {
        Log(NoReplyMarked(x), now);
      }
    }

    /** The held item becomes a final, if it still answers someone. */
    method Promote(x: TurnId, terminal: Option<Terminal>) returns (ok: bool)
      requires Valid() && Up(world.phase)
      modifies store, `ticks, `run, `world
      ensures Proceeds() && Outputs(old(store.State()), store.State(), {})
      ensures if ok then Promoted(old(store.State()), store.State(), x, terminal, live, epoch)
              else store.State() == old(store.State()) && Lapsed(old(ticks))
    {
      hide Traced, Fenced, Enabled, Apply;
      ghost var before := store.State();
      NothingOutput(before);
      hide Outputs;
      ok := true;
      if terminal.None? && Uncovered(store.State(), x) != {} {
        var held := LatestUnknownItem(store.relays, x);
        if held.Some? && Promotes(store.State(), x, held.value) {
          var now := Now();
          FallbackAdds(world, before, x, held.value, live, epoch, now);
          ok := CreateOutput(x, Fallback(held.value.op.item), held.value.text, Final, Some(held.value.op.covered), now);
          if !ok {
            return;
          }
          CreateOutputs(before, OpId(AcceptedForTurn(before, x) * held.value.op.covered, x, Fallback(held.value.op.item), Final), held.value.text, live, epoch, now);
          assert store.State() == RecordFallback(before, x, held.value, live, epoch, now);
          Log(FallbackRecorded(x, held.value, live), now);
        }
        assert held.Some? ==> PromotedAs(before, store.State(), x, held.value, live, epoch);
      } else {
        NobodyToPromote(before, x, terminal, live, epoch);
      }
    }

    /** `handle_turn_completed`: promote the held item if it still answers someone, then close the turn. */
    method HandleTurnCompleted(x: TurnId, terminal: Option<Terminal>) returns (ok: bool)
      requires Valid() && Up(world.phase)
      modifies store, `ticks, `activeTurns, `run, `world
      ensures Proceeds() && Outputs(old(store.State()), store.State(), {x})
      ensures if ok then Handled(old(store.State()), Note(TurnCompletedNote(x, terminal)), store.State(), live, epoch) else Lapsed(old(ticks))
      ensures activeTurns == if ok then AfterEnds(old(activeTurns), [Note(TurnCompletedNote(x, terminal))]) else old(activeTurns)
    {
      hide Traced, Fenced, Outputs, Promoted, TurnCompleted;
      ghost var before := store.State();
      ok := Promote(x, terminal);
      ghost var mid := store.State();
      MoreMayClose(before, mid, {}, {x});
      if !ok {
        return;
      }
      ok := CloseTurn(x, terminal);
      OutputsChain(before, mid, store.State(), {x});
      if !ok {
        return;
      }
      EndOf(activeTurns, x, terminal);
      if x.thread in activeTurns && activeTurns[x.thread] == x {
        activeTurns := activeTurns - {x.thread};
      }
    }

    method CloseTurn(x: TurnId, terminal: Option<Terminal>) returns (ok: bool)
      requires Valid() && Up(world.phase)
      modifies store, `ticks, `run, `world
      ensures Proceeds() && Outputs(old(store.State()), store.State(), {x})
      ensures if ok then exists now :: store.State() == TurnCompleted(old(store.State()), x, terminal, now)
              else store.State() == old(store.State()) && Lapsed(old(ticks))
    {
      hide Traced, Fenced, Enabled, Apply, Outputs;
      ghost var l := store.State();
      NothingOutput(l);
      MoreMayClose(l, l, {}, {x});
      var now := Now();
      CompletionOutputs(l, x, terminal, now);
      CompletionAdds(world, l, x, terminal, epoch, now);
      var outcome := store.MarkTurnCompleted(x, terminal, owner, epoch, now);
      ok := outcome == Committed;
      if ok {
        Log(Completed(x, terminal), now);
      }
    }

    /** `handle_message` for one buffered or freshly read message. */
    method HandleMessage(message: Message) returns (ok: bool, ghost closed: set<TurnId>)
      requires Valid() && Up(world.phase)
      modifies store, `ticks, `activeTurns, `run, `world
      ensures Proceeds() && Outputs(old(store.State()), store.State(), closed)
      ensures if ok then Handled(old(store.State()), message, store.State(), live, epoch) else Lapsed(old(ticks))
      ensures ok ==> activeTurns == AfterEnds(old(activeTurns), [message])
    {
      hide Traced, Fenced;
      closed := {};
      NothingOutput(store.State());
      hide Outputs;
      if !(message.Note? && message.note.TurnCompletedNote?) {
        EndOfOther(activeTurns, message);
      }
      match message {
        case Note(ItemCompleted(x, item)) => ok := HandleAgentItem(x, item);
        case Note(TurnCompletedNote(x, terminal)) =>
          ok := HandleTurnCompleted(x, terminal);
          closed := {x};
        case _ => ok := true;
      }
    }

    // ---- Dispatch ----

    /** Handle everything the client buffered, in order; nothing more is read from the stream. */
    method Drain() returns (ok: bool, ghost closed: set<TurnId>)
      requires Valid() && Up(world.phase)
      modifies store, `ticks, `activeTurns, client`pending, `run, `world
      ensures Proceeds() && Outputs(old(store.State()), store.State(), closed)
      ensures if ok then client.pending == [] && HandledAll(old(store.State()), old(client.pending), store.State(), live, epoch) else Lapsed(old(ticks))
      ensures ok ==> activeTurns == AfterEnds(old(activeTurns), old(client.pending))
    {
      hide Traced, Fenced, Handled;
      closed := {};
      NothingOutput(store.State());
      ghost var before, all, done := store.State(), client.pending, [];
      assert HandledAll(before, done, before, live, epoch) && AfterEnds(activeTurns, done) == activeTurns;
      hide Outputs, HandledAll, AfterEnds;
      while client.pending != []
        invariant Proceeds() && Up(world.phase)
        invariant Outputs(before, store.State(), closed)
        invariant all == done + client.pending && HandledAll(before, done, store.State(), live, epoch)
        invariant activeTurns == AfterEnds(old(activeTurns), done)
        decreases |client.pending|
      {
        ghost var mid, more := store.State(), {};
        var message := client.Take();
        ok, more := HandleMessage(message);
        Chain(before, mid, store.State(), closed, more);
        closed := closed + more;
        if !ok {
          return;
        }
        OneMoreHandled(before, done, mid, message, store.State(), live, epoch);
        OneMoreEnd(old(activeTurns), done, message);
        done := done + [message];
      }
      assert all == done;
      ok := true;
    }

    /** `drain_messages`: what is buffered, then what the stream gives until nothing comes in time. */
    method DrainMessages(arrivals: nat) returns (ok: bool, ghost closed: set<TurnId>)
      requires Valid() && Up(world.phase)
      modifies store, `ticks, `activeTurns, client`pending, client`incoming, `run, `world
      ensures Proceeds() && Outputs(old(store.State()), store.State(), closed)
      ensures !ok ==> Lapsed(old(ticks))
      ensures var n := Min(arrivals, |old(client.incoming)|);
              ok ==>
                && client.pending == [] && client.incoming == old(client.incoming)[n..]
                && HandledAll(old(store.State()), old(client.pending) + old(client.incoming)[..n], store.State(), live, epoch)
                && activeTurns == AfterEnds(old(activeTurns), old(client.pending) + old(client.incoming)[..n])
    {
      hide Traced, Fenced, Outputs, Handled, HandledAll, AfterEnds;
      ghost var before, stream, done := store.State(), client.incoming, client.pending;
      ok, closed := Drain();
      if !ok {
        return;
      }
      var read := 0;
      assert done + stream[..0] == done;
      while true
        invariant Proceeds() && Up(world.phase)
        invariant Outputs(before, store.State(), closed) && client.pending == []
        invariant 0 <= read <= arrivals && read <= |stream| && client.incoming == stream[read..]
        invariant HandledAll(before, done + stream[..read], store.State(), live, epoch)
        invariant activeTurns == AfterEnds(old(activeTurns), done + stream[..read])
        decreases |client.incoming|
      {
        var message := client.Read(read < arrivals);
        if message.None? {
          break;
        }
        ghost var mid, more := store.State(), {};
        ok, more := HandleMessage(message.value);
        Chain(before, mid, store.State(), closed, more);
        closed := closed + more;
        if !ok {
          return;
        }
        OneMoreHandled(before, done + stream[..read], mid, message.value, store.State(), live, epoch);
        OneMoreEnd(old(activeTurns), done + stream[..read], message.value);
        assert done + stream[..read + 1] == done + stream[..read] + [message.value];
        read := read + 1;
      }
      ok := true;
    }

    /** `turn/steer`, with one retry on the turn that the app-server says is active. */
    method RequestSteer(t: ThreadId, x: TurnId) returns (answer: Option<Answer>, active: TurnId, ghost read: seq<Message>)
      requires x.thread == t
      requires AnswersOn(client.incoming, client.nextId, t) && AnswersOn(client.incoming, client.nextId + 1, t)
      modifies client, `activeTurns
      ensures (Reply(answer, read, client.incoming), active) == SteerReply(old(client.incoming), old(client.nextId), x)
      ensures client.pending == old(client.pending) + read && client.nextId > old(client.nextId)
      ensures activeTurns == Repointed(old(activeTurns), t, old(client.incoming), old(client.nextId))
      ensures active.thread == t && (answer.Some? && answer.value.Turn? && answer.value.id.Some? ==> answer.value.id.value.thread == t)
    {
      hide AnswersOn, ReplyTo;
      active := x;
      ghost var first := ReplyTo(client.incoming, client.nextId);
      ghost var second := ReplyTo(first.rest, client.nextId + 1);
      AnswerIsOn(client.incoming, client.nextId, client.nextId + 1, t);
      AnswerIsOn(first.rest, client.nextId + 1, client.nextId + 1, t);
      SteerReplyIs(client.incoming, client.nextId, x);
      RepointedIs(activeTurns, t, client.incoming, client.nextId);
      hide SteerReply, Repointed;
      answer := client.Request();
      read := first.before;
      if answer.Some? && answer.value.Error? && answer.value.actual.Some? {
        active := answer.value.actual.value;
        activeTurns := activeTurns[t := active];
        answer := client.Request();
        read := first.before + second.before;
        assert client.pending == old(client.pending) + read;
      }
    }

    /**
      `dispatch_one` up to its branches: the least due attention, by what its event asks for. Work goes to its
      room's thread, by a steer exactly when a turn runs there.
     */
    method Decide() returns (next: Decision)
      requires Valid()
      modifies `ticks
      ensures Valid() && ticks == old(ticks) + 1
      ensures next.NothingDue? <==> forall a :: a in store.attentions ==> !Due(store.attentions[a], clock(old(ticks)))
      ensures !next.NothingDue? ==>
                && next.a in store.attentions && Due(store.attentions[next.a], clock(old(ticks)))
                && (forall b :: b in store.attentions && Due(store.attentions[b], clock(old(ticks))) ==>
                      NoLater(store.attentions[next.a], next.a, store.attentions[b], b))
                && var att := store.attentions[next.a];
                   match att.event
                   case RetiredMetadata => next.Retire?
                   case StopControl => next.HandleStop?
                   case RoomClosedControl => next.HandleClosure?
                   case _ =>
                     if att.scope !in scopeThreads then next.NeedsThread?
                     else
                       var t := scopeThreads[att.scope];
                       if t in activeTurns then next == SteerInto(next.a, t, activeTurns[t]) else next == StartOn(next.a, t)
    {
      var now := Now();
      var found := store.NextPending(now);
      match found {
        case None => next := NothingDue;
        case Some(a) =>
          var att := store.attentions[a];
          match att.event {
            case RetiredMetadata => next := Retire(a);
            case StopControl => next := HandleStop(a);
            case RoomClosedControl => next := HandleClosure(a);
            case _ =>
              if att.scope !in scopeThreads {
                next := NeedsThread(a);
              } else {
                var t := scopeThreads[att.scope];
                next := if t in activeTurns then SteerInto(a, t, activeTurns[t]) else StartOn(a, t);
              }
          }
      }
    }

    /** Retired metadata is not dispatched. */
    method RetireNext(a: AttId) returns (ok: bool)
      requires Valid() && world.phase.Idle?
      modifies store, `ticks, `run, `world
      ensures Proceeds()
      ensures if ok then store.State() == RetireLegacy(old(store.State()), a) else store.State() == old(store.State()) && Lapsed(old(ticks))
    {
      hide Traced, Fenced, Enabled, Apply;
      var now := Now();
      RetirementAdds(world, store.State(), a, epoch, now);
      var outcome, retired := store.RetireLegacyContext(a, owner, epoch, now);
      ok := outcome == Committed;
      if ok {
        Log(LegacyRetired(a), now);
      }
    }

    /** The attention waits, in a room whose thread is `t`. */
    ghost predicate Dispatchable(a: AttId, t: ThreadId)
      reads `world, `scopeThreads, store
    {
      && world.phase.Idle? && a in store.attentions && Waiting(store.attentions[a])
      && (store.attentions[a].event.Work? || store.attentions[a].event.OtherControl?)
      && store.attentions[a].scope in scopeThreads && scopeThreads[store.attentions[a].scope] == t
    }

    /**
      A steer into the active turn `x`. Everything that came before the response in the stream is
      handled before the attention joins the turn, so none of that output covers it; nothing that
      came after the response has been read. `history` and `idle` are what the thread shows if the
      app-server says that no turn is active.
     */
    method Steer(a: AttId, t: ThreadId, x: TurnId, history: seq<RemoteTurn>, idle: bool) returns (ok: bool, turn: Option<TurnId>)
      requires Valid() && Dispatchable(a, t) && x.thread == t
      requires AnswersOn(client.incoming, client.nextId, t) && AnswersOn(client.incoming, client.nextId + 1, t)
      requires forall r :: r in history ==> r.history.id.thread == t
      modifies store, `ticks, `activeTurns, client, `run, `world
      ensures ok ==> world.phase.Idle?
      ensures forall i :: |old(store.relays)| <= i < |store.relays| ==> a !in store.relays[i].op.covered
      ensures Ops(old(store.relays)) <= Ops(store.relays)
      ensures var (reply, active) := SteerReply(old(client.incoming), old(client.nextId), x);
              && Accepts(if client.nextId == old(client.nextId) then [] else SteerTaken(reply.answer, active, a))
              && (ok ==> client.nextId > old(client.nextId) && reply.answer.Some? && client.incoming == reply.rest)
              && (!ok ==> Lapsed(old(ticks)) || reply.answer.None?)
              && turn == (if ok && reply.answer.value.Turn? then Some(reply.answer.value.id.GetOr(active)) else None)
              && (turn.Some? ==>
                    && client.pending == []
                    && Joins(old(store.State()), store.State(), a, t, SteerTurn, turn.value, old(client.pending) + reply.before, live, epoch)
                    && activeTurns == AfterEnds(Repointed(old(activeTurns), t, old(client.incoming), old(client.nextId)), old(client.pending) + reply.before))
              && (ok && turn.None? ==>
                    && client.pending == old(client.pending) + reply.before
                    && SteerRefused(old(store.State()), store.State(), a, t, active, reply.answer.value.inactive, history, idle, RETRY_DELAY_MS, live, epoch))
    {
      hide Traced, Fenced, Quiet, AfterEnds, HandledAll, SteerReply, Repointed, Takes, Joins, AfterRefusal;
      ghost var before, start, begun, read := store.State(), world, 0, [];
      TakesNothing(world, world);
      ok, begun := Begin(a, t, SteerTurn);
      if !ok {
        return false, None;
      }
      ghost var prepared, sending := store.State(), world;
      Unjoined(run, world, prepared, a);
      var answer, active;
      answer, active, read := RequestSteer(t, x);
      TakesOnly(start, start, sending, world, []) by { TakesNothing(start, start); TakesNothing(world, world); }
      if answer.None? {
        return false, None;
      }
      if answer.value.Error? {
        ok := Refuse(a, t, active, answer.value.inactive, history, idle);
        TakesOnly(start, start, sending, world, []) by { TakesNothing(start, start); }
        QuietCovers(prepared, store.State());
        QuietFor(prepared, store.State(), a);
        return ok, None;
      }
      var joined := if answer.value.id.Some? then answer.value.id.value else active;
      ok := Join(a, t, joined);
      TakesOnly(start, sending, world, world, [Input(joined, a)]) by { TakesNothing(world, world); }
      JoinedFrom(before, prepared, store.State(), a, t, SteerTurn, begun, joined, old(client.pending) + read, live, epoch);
      QuietFor(prepared, store.State(), a);
      turn := if ok then Some(joined) else None;
    }

    /** An accepted steer: what came before the response is handled, then the attention joins the turn. */
    method Join(a: AttId, t: ThreadId, x: TurnId) returns (ok: bool)
      requires Valid() && world.phase == Sending(a, t) && x.thread == t
      modifies store, `ticks, `activeTurns, client`pending, `run, `world
      ensures Accepts([Input(x, a)]) && (ok ==> world.phase.Idle?)
      ensures ok ==> client.pending == [] && activeTurns == AfterEnds(old(activeTurns), old(client.pending))
      ensures if ok then JoinsAfter(old(store.State()), store.State(), a, t, x, old(client.pending), live, epoch) else Lapsed(old(ticks))
      ensures NewCovered(old(store.relays), store.relays, old(store.slots))
    {
      hide Traced, Fenced, AfterEnds, HandledAll, Takes, Outputs, BoundAs;
      ghost var start, l := world, store.State();
      LogAcceptance(a, t, x);
      ghost var taken := world;
      ghost var closed;
      ok, closed := Drain();
      TakesOnly(start, start, taken, world, [Input(x, a)]) by { TakesNothing(start, start); TakesNothing(taken, world); }
      NewlyCovered(l, store.State(), closed);
      if !ok {
        return;
      }
      ghost var drained := world;
      ok := Bind(a, t, x);
      TakesOnly(start, start, drained, world, [Input(x, a)]) by { TakesNothing(start, start); }
    }

    ghost method LogAcceptance(a: AttId, t: ThreadId, x: TurnId)
      requires Valid() && world.phase == Sending(a, t) && x.thread == t
      modifies `run, `world
      ensures Accepts([Input(x, a)]) && world.phase == Bound(a, t, x)
    {
      hide Traced, Fenced, Enabled, Apply;
      AcceptanceAdds(world, x, epoch, clock(ticks));
      Log(InputAccepted(x), clock(ticks));
    }

    ghost method LogRefusal(a: AttId, t: ThreadId)
      requires Valid() && world.phase == Sending(a, t)
      modifies `run, `world
      ensures Accepts([]) && world.phase == Refused(a)
    {
      hide Traced, Fenced, Enabled, Apply;
      RefusalAdds(world, epoch, clock(ticks));
      Log(InputRefused, clock(ticks));
      assert Senders([]) == [];
    }

    method Begin(a: AttId, t: ThreadId, operation: Operation) returns (ok: bool, ghost now: int)
      requires Valid() && Dispatchable(a, t)
      modifies store, `ticks, `run, `world
      ensures Accepts([]) && world.phase == if ok then Sending(a, t) else old(world.phase)
      ensures if ok then store.State() == Prepare(old(store.State()), a, t, operation, epoch, now)
              else store.State() == old(store.State()) && Lapsed(old(ticks))
    {
      hide Traced, Fenced, Enabled, Apply;
      assert Senders([]) == [];
      var at := Now();
      now := at;
      BeginningAdds(world, store.State(), a, t, operation, epoch, now);
      var outcome := store.PrepareDispatch(a, t, operation, owner, epoch, at);
      ok := outcome == Committed;
      if ok {
        Log(Began(a, operation), now);
      }
    }

    /** `finalize_dispatch` after the response. */
    method Bind(a: AttId, t: ThreadId, x: TurnId) returns (ok: bool)
      requires Valid() && world.phase == Bound(a, t, x)
      modifies store, `ticks, `run, `world
      ensures Accepts([]) && (ok ==> world.phase.Idle?) && store.relays == old(store.relays)
      ensures if ok then BoundAs(old(store.State()), store.State(), a, t, x, epoch) else Lapsed(old(ticks))
    {
      hide Traced, Fenced, Enabled, Apply;
      assert Senders([]) == [];
      ghost var l := store.State();
      BoundIsKnown(run, world, l);
      var now := Now();
      var outcome := store.FinalizeDispatch(a, t, x, owner, epoch, false, now);
      ok := outcome == Committed;
      if ok {
        BindingAdds(world, l, epoch, now);
        Log(Finalized, now);
      }
    }

    /** A refused steer: if no turn is active, the orphan is reconciled first; then the attention is retried. */
    method Refuse(a: AttId, t: ThreadId, x: TurnId, inactive: bool, history: seq<RemoteTurn>, idle: bool) returns (ok: bool)
      requires Valid() && world.phase == Sending(a, t) && x.thread == t
      requires forall r :: r in history ==> r.history.id.thread == t
      modifies store, `ticks, `activeTurns, `run, `world
      ensures Accepts([]) && (ok ==> world.phase.Idle?) && Quiet(old(store.State()), store.State())
      ensures if ok then AfterRefusal(old(store.State()), store.State(), a, x, inactive, history, idle, RETRY_DELAY_MS, live, epoch) else Lapsed(old(ticks))
    {
      hide Traced, Fenced, Quiet, Reconciles, PutOff;
      assert Senders([]) == [];
      ghost var before := store.State();
      LogRefusal(a, t);
      QuietSelf(before);
      var recovered := false;
      if inactive {
        ok, recovered := ReconcileActiveTurn(t, x, history, idle, true);
        if !ok {
          return;
        }
      }
      ghost var mid := store.State();
      ok := Reject(a, if recovered then 0 else RETRY_DELAY_MS);
      QuietChain(before, mid, store.State());
    }

    /** A new turn: nothing is drained, and an answer without a turn id leaves the dispatch prepared. */
    method StartNewTurn(a: AttId, t: ThreadId) returns (ok: bool, turn: Option<TurnId>)
      requires Valid() && Dispatchable(a, t) && AnswersOn(client.incoming, client.nextId, t)
      modifies store, `ticks, `activeTurns, client, `run, `world
      ensures ok ==> world.phase.Idle?
      ensures store.relays == old(store.relays)
      ensures var reply := ReplyTo(old(client.incoming), old(client.nextId));
              && Accepts(if client.nextId == old(client.nextId) then [] else StartTaken(reply.answer, a))
              && (ok ==>
                    && client.nextId > old(client.nextId) && reply.answer.Some?
                    && client.incoming == reply.rest && client.pending == old(client.pending) + reply.before)
              && (!ok ==> Lapsed(old(ticks)) || reply.answer == None || reply.answer == Some(Turn(None)))
              && turn == (if ok && reply.answer.value.Turn? then reply.answer.value.id else None)
              && (ok && reply.answer.value.Turn? ==>
                    && turn.Some? && activeTurns == old(activeTurns)[t := turn.value]
                    && Joins(old(store.State()), store.State(), a, t, Operation.StartTurn, turn.value, [], live, epoch))
              && (ok && reply.answer.value.Error? ==>
                    && activeTurns == old(activeTurns)
                    && StartRefused(old(store.State()), store.State(), a, t, RETRY_DELAY_MS, epoch))
    {
      hide Traced, Fenced, PutOff, JoinsAfter, Takes, Joins, ReplyTo;
      ghost var before, start, begun := store.State(), world, 0;
      TakesNothing(world, world);
      ok, begun := Begin(a, t, Operation.StartTurn);
      if !ok {
        return false, None;
      }
      ghost var prepared, sending := store.State(), world;
      var answer := client.Request();
      TakesOnly(start, start, sending, world, []) by { TakesNothing(start, start); TakesNothing(world, world); }
      if answer.None? || (answer.value.Turn? && answer.value.id.None?) {
        return false, None;
      }
      if answer.value.Error? {
        LogRefusal(a, t);
        ghost var refused := world;
        ok := Reject(a, RETRY_DELAY_MS);
        TakesOnly(start, start, sending, refused, []) by { TakesNothing(start, start); }
        TakesOnly(start, start, refused, world, []) by { TakesNothing(start, start); }
        return ok, None;
      }
      var x := answer.value.id.value;
      AnswerIsOn(old(client.incoming), old(client.nextId), old(client.nextId), t);
      activeTurns := activeTurns[t := x];
      ok := Take(a, t, x);
      TakesOnly(start, sending, world, world, [Input(x, a)]) by { TakesNothing(world, world); }
      JoinedFrom(before, prepared, store.State(), a, t, Operation.StartTurn, begun, x, [], live, epoch);
      turn := if ok then Some(x) else None;
    }

    /** An accepted start. */
    method Take(a: AttId, t: ThreadId, x: TurnId) returns (ok: bool)
      requires Valid() && world.phase == Sending(a, t) && x.thread == t
      modifies store, `ticks, `run, `world
      ensures Accepts([Input(x, a)]) && (ok ==> world.phase.Idle?) && store.relays == old(store.relays)
      ensures if ok then JoinsAfter(old(store.State()), store.State(), a, t, x, [], live, epoch) else Lapsed(old(ticks))
    {
      hide Traced, Fenced, Takes, BoundAs;
      ghost var start, l := world, store.State();
      assert HandledAll(l, [], l, live, epoch);
      LogAcceptance(a, t, x);
      ghost var taken := world;
      ok := Bind(a, t, x);
      TakesOnly(start, start, taken, world, [Input(x, a)]) by { TakesNothing(start, start); }
    }

    /** The input was refused: retry later, with the backoff of `DeferAttention`. */
    method Reject(a: AttId, delay: int) returns (ok: bool)
      requires Valid() && world.phase == Refused(a)
      modifies store, `ticks, `run, `world
      ensures Accepts([]) && (ok ==> world.phase.Idle?)
      ensures store.relays == old(store.relays) && Quiet(old(store.State()), store.State())
      ensures if ok then PutOff(old(store.State()), store.State(), a, delay, epoch) else Lapsed(old(ticks))
    {
      hide Traced, Fenced, Enabled, Apply, RetryUnobserved, Defer, Quiet;
      assert Senders([]) == [];
      ghost var l := store.State();
      QuietSelf(l);
      var now := Now();
      RetryAdds(world, l, epoch, now);
      RetryIsQuiet(l, a, epoch, now);
      var outcome := store.RetryUnobservedDispatch(a, owner, epoch, now);
      if outcome != Committed {
        return false;
      }
      Log(RefusalRecorded, now);
      ghost var m := store.State();
      var later := Now();
      DeferralAdds(world, m, delay, epoch, later);
      DeferIsQuiet(m, a, delay, later);
      QuietChain(l, m, Defer(m, a, delay, later));
      outcome := store.DeferAttention(a, delay, owner, epoch, later);
      ok := outcome == Committed;
      if ok {
        Log(RefusalDeferred(delay), later);
      }
    }

    /** `reconcile_active_turn`: replay an ended turn, or give back one that the app-server no longer knows. */
    method ReconcileActiveTurn(t: ThreadId, x: TurnId, history: seq<RemoteTurn>, idle: bool, force: bool) returns (ok: bool, recovered: bool)
      requires Valid() && (world.phase.Idle? || world.phase.Refused?) && x.thread == t
      requires forall r :: r in history ==> r.history.id.thread == t
      modifies store, `ticks, `activeTurns, `run, `world
      ensures Proceeds() && Quiet(old(store.State()), store.State())
      ensures if ok then Reconciles(old(store.State()), store.State(), x, history, idle, force, recovered, live, epoch) else Lapsed(old(ticks))
      ensures ok ==> activeTurns == if recovered && t in old(activeTurns) && old(activeTurns)[t] == x then old(activeTurns) - {t} else old(activeTurns)
    {
      hide Traced, Fenced, Enabled, Apply, Quiet, Outputs, HandledAll;
      ghost var before := store.State();
      QuietSelf(before);
      ok, recovered := true, false;
      var found := FindRemote(history, x);
      if found.Some? && found.value.status.Ended? {
        ok := ReplayTurn(found.value);
        OutputsAreQuiet(before, store.State(), {x});
        return ok, true;
      }
      if !force && (found.Some? || !idle) {
        return;
      }
      ok, recovered := GiveUpTurn(t, x);
      if recovered && t in activeTurns && activeTurns[t] == x {
        activeTurns := activeTurns - {t};
      }
    }

    method GiveUpTurn(t: ThreadId, x: TurnId) returns (ok: bool, requeued: bool)
      requires Valid() && (world.phase.Recovering? || world.phase.Idle? || world.phase.Refused?) && x.thread == t
      modifies store, `ticks, `run, `world
      ensures Proceeds() && Quiet(old(store.State()), store.State())
      ensures if ok then exists now :: store.State() == RequeueMissingTurn(old(store.State()), t, x, now)
              else store.State() == old(store.State()) && !requeued && Lapsed(old(ticks))
      ensures ok ==> (requeued <==> x in LostTurns(old(store.State()), t) && GivenBack(old(store.State()), {x}) != {})
    {
      hide Traced, Fenced, Enabled, Apply, Quiet;
      ghost var l := store.State();
      QuietSelf(l);
      var now := Now();
      GivingUpAdds(world, l, x, epoch, now);
      GivingUpIsQuiet(l, x, now);
      hide Ledgers.RequeueMissingTurn, LostTurns, GivenBack;
      var outcome, count := store.RequeueMissingTurn(t, x, owner, epoch, now);
      ok, requeued := outcome == Committed, count > 0;
      if ok {
        Log(TurnGivenUp(x), now);
      }
    }

    /** Replay the items of a turn of the history, and its completion if it is over. */
    method ReplayTurn(r: RemoteTurn) returns (ok: bool)
      requires Valid() && Up(world.phase)
      modifies store, `ticks, `activeTurns, `run, `world
      ensures var x := r.history.id; Proceeds() && Outputs(old(store.State()), store.State(), if r.status.Ended? then {x} else {})
      ensures if ok then HandledAll(old(store.State()), Replay(r), store.State(), live, epoch) else Lapsed(old(ticks))
      ensures ok ==> activeTurns == AfterReplay(old(activeTurns), r)
    {
      hide Traced, Fenced, Outputs, Handled;
      var x := r.history.id;
      ghost var l, xs := store.State(), if r.status.Ended? then {x} else {};
      NothingOutput(l);
      MoreMayClose(l, l, {}, xs);
      assert ItemsOf(x, r.items[..0]) == [];
      assert HandledAll(l, [], l, live, epoch);
      hide HandledAll;
      for k := 0 to |r.items|
        invariant Proceeds() && Up(world.phase)
        invariant Outputs(l, store.State(), xs) && HandledAll(l, ItemsOf(x, r.items[..k]), store.State(), live, epoch)
        invariant activeTurns == old(activeTurns)
      {
        ghost var mid := store.State();
        ok := HandleAgentItem(x, r.items[k]);
        MoreMayClose(mid, store.State(), {}, xs);
        OutputsChain(l, mid, store.State(), xs);
        if !ok {
          return;
        }
        OneMoreHandled(l, ItemsOf(x, r.items[..k]), mid, Note(ItemCompleted(x, r.items[k])), store.State(), live, epoch);
        assert ItemsOf(x, r.items[..k + 1]) == ItemsOf(x, r.items[..k]) + [Note(ItemCompleted(x, r.items[k]))];
      }
      assert r.items[..|r.items|] == r.items;
      ok := true;
      if r.status.Ended? {
        ghost var mid := store.State();
        EndOf(activeTurns, x, r.status.terminal);
        ok := HandleTurnCompleted(x, r.status.terminal);
        OutputsChain(l, mid, store.State(), xs);
        if ok {
          OneMoreHandled(l, ItemsOf(x, r.items), mid, Note(TurnCompletedNote(x, r.status.terminal)), store.State(), live, epoch);
        }
      } else {
        assert Replay(r) == ItemsOf(x, r.items);
      }
    }

    // ---- Controls ----

    /** The turn running in a room, as far as the adapter knows. */
    function ActiveIn(scope: Scope): Option<TurnId>
      reads `scopeThreads, `activeTurns
    {
      if scope in scopeThreads && scopeThreads[scope] in activeTurns then Some(activeTurns[scopeThreads[scope]]) else None
    }

    /**
      `handle_stop_control`: interrupt the room's active turn, then cancel older disposable chat. If the
      app-server refuses the interrupt, the control is only deferred.
     */
    method HandleStopControl(c: AttId) returns (ok: bool, done: bool)
      requires Valid() && world.phase.Idle? && c in store.attentions && store.attentions[c].event.StopControl?
      modifies store, `ticks, `activeTurns, client, `run, `world
      ensures Accepts([]) && (ok ==> world.phase.Idle?)
      ensures var (active, reply) := (old(ActiveIn(store.attentions[c].scope)), ReplyTo(old(client.incoming), old(client.nextId)));
              && (ok ==> (active.None? || reply.answer.Some?) && (done <==> active.None? || reply.answer.value.Turn?))
              && (!ok ==> Lapsed(old(ticks)) || (active.Some? && reply.answer.None?))
              && (ok && done ==> Stops(old(store.State()), store.State(), c, active, epoch))
              && (ok && !done ==> activeTurns == old(activeTurns) && exists now :: store.State() == Defer(old(store.State()), c, RETRY_DELAY_MS, now))
      ensures ok && done ==> activeTurns == old(activeTurns) - (if old(ActiveIn(store.attentions[c].scope)).Some? then {old(scopeThreads[store.attentions[c].scope])} else {})
    {
      hide Traced, Fenced, Takes, CancelPending, Defer, Interrupts, ReplyTo;
      ghost var before, start := store.State(), world;
      TakesNothing(start, start);
      var scope := store.attentions[c].scope;
      var active := ActiveIn(scope);
      if active.Some? {
        var answer := client.Request();
        if answer.None? {
          return false, false;
        }
        if answer.value.Error? {
          ok := DeferStop(c);
          return ok, false;
        }
        ok := Interrupt(c, active.value);
        if !ok {
          return false, false;
        }
        activeTurns := activeTurns - {scopeThreads[scope]};
      } else {
        NothingToInterrupt(before);
      }
      ghost var between := world;
      ok := AcknowledgeStop(c);
      TakesOnly(start, start, between, world, []) by { TakesNothing(start, start); }
      done := ok;
    }

    /** The interrupt was refused: the control itself is due again later. */
    method DeferStop(c: AttId) returns (ok: bool)
      requires Valid() && world.phase.Idle? && c in store.attentions && store.attentions[c].event.StopControl?
      modifies store, `ticks, `run, `world
      ensures Accepts([]) && world.phase.Idle?
      ensures if ok then exists now :: store.State() == Defer(old(store.State()), c, RETRY_DELAY_MS, now) else Lapsed(old(ticks))
    {
      hide Traced, Fenced, Enabled, Apply, Defer;
      assert Senders([]) == [];
      var now := Now();
      StopDeferralAdds(world, store.State(), c, RETRY_DELAY_MS, epoch, now);
      var outcome := store.DeferAttention(c, RETRY_DELAY_MS, owner, epoch, now);
      ok := outcome == Committed;
      if ok {
        Log(StopDeferred(c, RETRY_DELAY_MS), now);
      }
    }

    method Interrupt(c: AttId, x: TurnId) returns (ok: bool)
      requires Valid() && world.phase.Idle? && c in store.attentions && store.attentions[c].event.StopControl?
      modifies store, `ticks, `run, `world
      ensures Accepts([]) && world.phase.Idle? && c in store.attentions && store.attentions[c].event.StopControl?
      ensures if ok then Interrupts(old(store.State()), store.State(), Some(x)) else Lapsed(old(ticks))
    {
      hide Traced, Fenced, Enabled, Apply, InterruptTurn;
      assert Senders([]) == [];
      ghost var l := store.State();
      var now := Now();
      StopAdds(world, l, x, epoch, now);
      InterruptKeepsEvents(l, x, now);
      var outcome, requeued := store.InterruptTurnForControl(x, owner, epoch, now);
      ok := outcome == Committed;
      if ok {
        Log(Stopped(x), now);
      }
    }

    method AcknowledgeStop(c: AttId) returns (ok: bool)
      requires Valid() && world.phase.Idle? && c in store.attentions && store.attentions[c].event.StopControl?
      modifies store, `ticks, `run, `world
      ensures Accepts([]) && world.phase.Idle?
      ensures if ok then exists now :: store.State() == CancelPending(old(store.State()), c, epoch, now) else Lapsed(old(ticks))
    {
      hide Traced, Fenced, Enabled, Apply, CancelPending;
      assert Senders([]) == [];
      var now := Now();
      StopClosingAdds(world, store.State(), c, epoch, now);
      var outcome, cancelled := store.CancelPendingBeforeControl(c, owner, epoch, now);
      ok := outcome == Committed;
      if ok {
        Log(StopAcknowledged(c), now);
      }
    }

    /** `handle_room_closed_control`: the room's thread is dropped and its work ended, whatever the interrupt answers. */
    method HandleRoomClosedControl(c: AttId) returns (ok: bool)
      requires Valid() && world.phase.Idle? && c in store.attentions && store.attentions[c].event.RoomClosedControl?
      modifies store, `ticks, `activeTurns, `scopeThreads, client, `run, `world
      ensures Recorded() && old(run) <= run && Up(world.phase) && SameInputs(old(world), world) && (ok ==> Valid() && world.phase.Idle?)
      ensures store.lease == old(store.lease)
      ensures if ok then exists now :: store.State() == CloseRoom(old(store.State()), c, epoch, now)
              else Lapsed(old(ticks)) || (old(ActiveIn(store.attentions[c].scope)).Some? && ReplyTo(old(client.incoming), old(client.nextId)).answer.None?)
      ensures ok ==> scopeThreads == map s | s in old(scopeThreads) && s != old(store.attentions[c].scope) :: old(scopeThreads)[s]
      ensures ok ==> activeTurns == old(activeTurns) - (if old(ActiveIn(store.attentions[c].scope)).Some? then {old(scopeThreads[store.attentions[c].scope])} else {})
    {
      hide Traced, Fenced, Enabled, Apply, CloseRoom;
      ghost var before := store.State();
      var scope := store.attentions[c].scope;
      var active := ActiveIn(scope);
      if active.Some? {
        var answer := client.Request();
        if answer.None? {
          return false;
        }
        activeTurns := activeTurns - {scopeThreads[scope]};
      }
      var now := Now();
      ClosureAdds(world, before, c, epoch, now);
      scopeThreads := map s | s in scopeThreads && s != scope :: scopeThreads[s];
      var outcome := store.CloseRoomForControl(c, owner, epoch, now);
      ok := outcome == Committed;
      if ok {
        Log(RoomShut(c), now);
      }
    }

    /** One output is sent and marked, or fails and backs off. */
    method RelayOne(op: OpId, sent: bool) returns (ok: bool, ghost now: int)
      requires Valid() && Up(world.phase) && exists r :: r in store.relays && r.op == op && r.status.Pending?
      modifies store, `ticks, `run, `world
      ensures Proceeds() && ticks == old(ticks) + 1 && now == clock(old(ticks))
      ensures if ok then store.State() == if sent then RelayAccepted(old(store.State()), op, now) else RelayFailed(old(store.State()), op, RETRY_DELAY_MS, now)
              else store.State() == old(store.State()) && Lapsed(old(ticks))
    {
      hide Traced, Fenced, Enabled, Apply, RelayAccepted, RelayFailed;
      var at := Now();
      now := at;
      ghost var l := store.State();
      var outcome;
      if sent {
        SendingAdds(world, l, op, epoch, now);
        outcome := store.MarkRelayAccepted(op, owner, epoch, at);
        if outcome == Committed {
          Log(RelaySent(op), now);
        }
      } else {
        NotSendingAdds(world, l, op, RETRY_DELAY_MS, epoch, now);
        outcome := store.MarkRelayFailed(op, RETRY_DELAY_MS, owner, epoch, at);
        if outcome == Committed {
          Log(RelayUnsent(op, RETRY_DELAY_MS), now);
        }
      }
      ok := outcome == Committed;
    }

    /** `process_relays`: every due output once; `sends` is the room server's answer. */
    method ProcessRelays(sends: OpId -> bool) returns (ok: bool)
      requires Valid() && Up(world.phase)
      modifies store, `ticks, `run, `world
      ensures Proceeds() && (!ok ==> Lapsed(old(ticks)))
      ensures !live ==> ok && store.State() == old(store.State())
      ensures live && ok ==> Relayed(old(store.State()), store.State(), DueOps(old(store.relays), clock(old(ticks))), sends, clock, old(ticks), ticks)
    {
      hide Traced, Fenced, Relayed, DueOps;
      if !live {
        return true;
      }
      var now := Now();
      ghost var first := store.State();
      NoneRelayed(first, sends, clock, old(ticks), ticks);
      ok := RelayEach(DueOps(store.relays, now), sends, now, first, old(ticks));
    }

    method RelayEach(due: set<OpId>, sends: OpId -> bool, now: int, ghost first: Ledger, ghost from: nat) returns (ok: bool)
      requires Valid() && Up(world.phase) && due == DueOps(first.relays, now) && from <= ticks
      requires store.State() == first && Relayed(first, first, {}, sends, clock, from, ticks)
      modifies store, `ticks, `run, `world
      ensures Proceeds() && (if ok then Relayed(first, store.State(), due, sends, clock, from, ticks) else Lapsed(old(ticks)))
    {
      hide Traced, Fenced, Relayed, DueOps, RelayAccepted, RelayFailed;
      var todo := due;
      assert due - todo == {};
      while todo != {}
        invariant Proceeds() && Up(world.phase) && todo <= due
        invariant Relayed(first, store.State(), due - todo, sends, clock, from, ticks)
        decreases |todo|
      {
        var op :| op in todo;
        ok := RelayNext(op, due - todo, sends, now, first, from);
        assert due - todo + {op} == due - (todo - {op});
        todo := todo - {op};
        if !ok {
          return;
        }
      }
      assert due - todo == due;
      ok := true;
    }

    method RelayNext(op: OpId, ghost done: set<OpId>, sends: OpId -> bool, ghost now: int, ghost first: Ledger, ghost from: nat) returns (ok: bool)
      requires Valid() && Up(world.phase) && op in DueOps(first.relays, now) && op !in done && from <= ticks
      requires Relayed(first, store.State(), done, sends, clock, from, ticks)
      modifies store, `ticks, `run, `world
      ensures Proceeds() && (if ok then Relayed(first, store.State(), done + {op}, sends, clock, from, ticks) else Lapsed(old(ticks)))
    {
      hide Traced, Fenced, Relayed, DueOps, RelayAccepted, RelayFailed;
      ghost var l, at := store.State(), 0;
      StillPending(first, l, done, op, now, sends, clock, from, ticks);
      ok, at := RelayOne(op, sends(op));
      if ok {
        RelayedOne(first, l, done, op, sends, clock, from, ticks - 1);
      }
    }

    // ---- Recovery ----

    /** One prepared dispatch: bound to the turn of the history that shows its input, or retried. */
    method ReconcileDispatch(a: AttId, t: ThreadId, turns: seq<RemoteTurn>, ghost known: set<ThreadId>, ghost probes: Probes) returns (ok: bool)
      requires Valid() && Recovering(t) && PreparedOn(store.State(), t, a)
      requires Honest(probes) && t in known && probes(t).Live? && turns == probes(t).turns
      modifies store, `ticks, `run, `world
      ensures Proceeds() && Recovers(old(store.turns), store.turns, epoch, known, probes)
      ensures if ok then ResolvesOne(old(store.State()), store.State(), a, t, Histories(turns), epoch)
              else store.State() == old(store.State()) && Lapsed(old(ticks))
    {
      hide Traced, Fenced, Enabled, Apply, Recovers;
      var found := FindTurn(turns, a);
      ghost var l := store.State();
      KnownRows(run, world, l, a);
      RecoversSelf(store.turns, epoch, known, probes);
      assert forall h :: h in Histories(turns) ==> h.id.thread == t;
      var now := Now();
      var outcome;
      if found.Some? {
        RebindingAdds(world, l, a, t, Histories(turns), found.value, epoch, now);
        BoundRecovers(l, a, t, found.value, epoch, now, known, probes);
        outcome := store.FinalizeDispatch(a, t, found.value, owner, epoch, true, now);
      } else {
        RetryingAdds(world, l, a, t, Histories(turns), epoch, now);
        outcome := store.RetryUnobservedDispatch(a, owner, epoch, now);
      }
      ok := outcome == Committed;
      if ok {
        Log(DispatchReconciled(a, Histories(turns)), now);
      }
    }

    /** The thread is one of those still to recover. */
    ghost predicate Recovering(t: ThreadId)
      reads `world
    {
      world.phase.Recovering? && t in world.phase.todo
    }

    /** `reconcile_dispatches`: every prepared dispatch of the thread is bound to the history or retried. */
    method ReconcileDispatches(t: ThreadId, turns: seq<RemoteTurn>, ghost known: set<ThreadId>, ghost probes: Probes) returns (ok: bool)
      requires Valid() && Recovering(t)
      requires Honest(probes) && t in known && probes(t).Live? && turns == probes(t).turns
      modifies store, `ticks, `run, `world
      ensures Proceeds() && Recovers(old(store.turns), store.turns, epoch, known, probes) && store.threads == old(store.threads)
      ensures if ok then DispatchesResolved(old(store.State()), store.State(), t, Histories(turns)) && NoPreparedOn(store.intents, t) else Lapsed(old(ticks))
    {
      hide Traced, Fenced, Recovers, ResolvesOne, ResolvedBut;
      KnownTurns(run, world, store.State());
      RecoversSelf(store.turns, epoch, known, probes);
      var todo := set a: AttId | a in store.intents && store.intents[a].status.Prepared? && store.intents[a].thread == t;
      ghost var first := store.State();
      NoneResolved(first, t, Histories(turns), todo);
      while todo != {}
        invariant Proceeds() && store.threads == first.threads
        invariant Recovers(first.turns, store.turns, epoch, known, probes)
        invariant ResolvedBut(first, store.State(), t, Histories(turns), todo)
        invariant forall a :: a in todo ==> PreparedOn(first, t, a)
        decreases |todo|
      {
        var a: AttId :| a in todo;
        ghost var mid, left := store.State(), todo;
        StillPrepared(first, mid, t, Histories(turns), todo, a);
        ok := ReconcileDispatch(a, t, turns, known, probes);
        RecoversChain(first.turns, mid.turns, store.turns, epoch, known, probes);
        todo := todo - {a};
        if !ok {
          return;
        }
        ResolvedOne(first, mid, store.State(), t, Histories(turns), left, a, epoch);
        SameThreadsResolved(first, store.State(), t, Histories(turns), todo);
      }
      NoneLeftPrepared(first, store.State(), t, Histories(turns));
      ok := true;
    }

    /** One turn without a known end: adopt it if it is proven, else give it back. */
    method ReconcileAcceptedTurn(t: ThreadId, x: TurnId, turns: seq<RemoteTurn>, idle: set<TurnId>, ghost known: set<ThreadId>, ghost probes: Probes)
      returns (ok: bool)
      requires Valid() && Recovering(t) && x.thread == t
      requires t in known && probes(t) == Live(turns, idle)
      modifies store, `ticks, `activeTurns, `run, `world
      ensures Proceeds() && Recovers(old(store.turns), store.turns, epoch, known, probes)
      ensures if ok then SettlesOne(old(store.State()), store.State(), x, turns, idle, epoch)
              else store.State() == old(store.State()) && Lapsed(old(ticks))
      ensures activeTurns == if ok && !InHistory(turns, x) && x !in idle && t !in old(activeTurns) then old(activeTurns)[t := x] else old(activeTurns)
      ensures ok && x in store.turns && Open(store.turns[x]) && Proven(known, probes, x) ==> store.turns[x].epoch == epoch
    {
      hide Traced, Fenced, Enabled, Apply, Recovers;
      ghost var l := store.State();
      KnownTurns(run, world, l);
      RecoversSelf(l.turns, epoch, known, probes);
      if InHistory(turns, x) || x !in idle {
        var now := Now();
        AdoptionAdds(world, l, x, epoch, now);
        AdoptRecovers(l, x, epoch, known, probes);
        var outcome := store.AdoptRecoveredTurn(x, owner, epoch, now);
        ok := outcome == Committed;
        if ok {
          Log(Adopted(x), now);
          if !InHistory(turns, x) && t !in activeTurns {
            activeTurns := activeTurns[t := x];
          }
        }
      } else {
        var requeued;
        ok, requeued := GiveUpTurn(t, x);
        forall at {
          MissingTurnRecovers(l, x, at, epoch, known, probes);
        }
      }
    }

    /** `reconcile_accepted_turns(force=True)`: adopt what is proven, give back what is not. */
    method ReconcileAcceptedTurns(t: ThreadId, turns: seq<RemoteTurn>, idle: set<TurnId>, ghost known: set<ThreadId>, ghost probes: Probes) returns (ok: bool)
      requires Valid() && Recovering(t)
      requires t in known && probes(t) == Live(turns, idle)
      modifies store, `ticks, `activeTurns, `run, `world
      ensures Proceeds() && Recovers(old(store.turns), store.turns, epoch, known, probes)
      ensures store.threads == old(store.threads) && store.intents == old(store.intents)
      ensures if ok then TurnsSettled(old(store.State()), store.State(), t, turns, idle, epoch) && AllAdopted(store.turns, t, epoch, known, probes)
              else Lapsed(old(ticks))
    {
      hide Traced, Fenced, Recovers, SettledBut, SettlesOne;
      KnownTurns(run, world, store.State());
      RecoversSelf(store.turns, epoch, known, probes);
      var todo := store.IncompleteTurns(t);
      ghost var first := store.State();
      NoneSettled(first, t, turns, idle, epoch);
      while todo != {}
        invariant Proceeds() && store.threads == first.threads && store.intents == first.intents
        invariant Recovers(first.turns, store.turns, epoch, known, probes)
        invariant SettledBut(first, store.State(), t, turns, idle, epoch, todo)
        invariant todo <= OpenOn(first.turns, t) && forall x :: x in todo ==> x.thread == t
        invariant forall x :: x in store.turns && x.thread == t && Open(store.turns[x]) && Proven(known, probes, x) && x !in todo ==>
                    store.turns[x].epoch == epoch
        decreases |todo|
      {
        var x :| x in todo;
        ghost var mid, left := store.State(), todo;
        todo := todo - {x};
        ok := ReconcileAcceptedTurn(t, x, turns, idle, known, probes);
        RecoversChain(first.turns, mid.turns, store.turns, epoch, known, probes);
        if !ok {
          return;
        }
        OthersStayAdopted(mid.turns, store.turns, x, t, todo, epoch, known, probes);
        SettledOne(first, mid, store.State(), t, turns, idle, epoch, left, x);
        SameTablesSettled(first, store.State(), t, turns, idle, epoch, todo);
      }
      ok := true;
    }

    /** `recover_turn`: replay the items of a turn of the history, and its completion if it is over. */
    method RecoverTurn(r: RemoteTurn, ghost known: set<ThreadId>, ghost probes: Probes) returns (ok: bool)
      requires Honest(probes) && probes(r.history.id.thread).Live? && r in probes(r.history.id.thread).turns
      requires Valid() && Up(world.phase)
      modifies store, `ticks, `activeTurns, `run, `world
      ensures Proceeds() && Recovers(old(store.turns), store.turns, epoch, known, probes)
      ensures store.threads == old(store.threads) && store.intents == old(store.intents)
      ensures if ok then HandledAll(old(store.State()), Replay(r), store.State(), live, epoch) && activeTurns == AfterReplay(old(activeTurns), r)
              else Lapsed(old(ticks))
    {
      hide Traced, Fenced, Outputs, Recovers, HandledAll;
      ghost var l, xs := store.State(), if r.status.Ended? then {r.history.id} else {};
      KnownTurns(run, world, l);
      ok := ReplayTurn(r);
      assert forall x :: x in xs ==> Over(probes, x);
      OutputRecovers(l, store.State(), xs, epoch, known, probes);
      KeptTables(l, store.State(), xs);
    }

    /** One saved thread of `recover_existing_threads`. */
    method RecoverThread(scope: Scope, t: ThreadId, probe: Probe, ghost known: set<ThreadId>, ghost probes: Probes) returns (ok: bool)
      requires Valid() && Recovering(t) && scope in store.threads && store.threads[scope] == t && t !in scopeThreads.Values
      requires Honest(probes) && t in known && probe == probes(t)
      modifies store, `ticks, `activeTurns, `scopeThreads, `run, `world
      ensures Valid() && old(run) <= run && SameInputs(old(world), world) && old(ticks) <= ticks && store.lease == old(store.lease)
      ensures Recovers(old(store.turns), store.turns, epoch, known, probes)
      ensures ok ==> world.phase == AdapterRuns.Phase.Recovering(old(world.phase.todo) - {t})
      ensures ok ==> scopeThreads == if probe.Missing? then old(scopeThreads) else old(scopeThreads)[scope := t]
      ensures ok ==> forall s :: s in old(store.threads) && old(store.threads)[s] != t ==> s in store.threads && store.threads[s] == old(store.threads)[s]
      ensures ok ==> match probe
                     case Missing => GoneRecovered(old(store.State()), store.State(), t)
                     case Live(turns, idle) => LiveRecovered(old(store.State()), store.State(), t, turns, idle, live, epoch)
      ensures ok ==> AllAdopted(store.turns, t, epoch, known, probes) && AllEnded(store.turns, t, probes) && AddedOn(old(store.turns), store.turns, t)
      ensures !ok ==> Lapsed(old(ticks))
    {
      hide Traced, Fenced, Enabled, Apply, Recovers, AllAdopted, LiveRecovered, GoneRecovered, AllEnded;
      ghost var first := store.State();
      KnownTurns(run, world, store.State());
      RecoversSelf(first.turns, epoch, known, probes);
      if probe.Missing? {
        ok := GiveUpThread(t, known, probes);
        if ok {
          GoneEnds(first, store.State(), t, probes);
        }
        return;
      }
      var now := Now();
      ResumptionAdds(world, store.State(), scope, t, epoch, now);
      var outcome := store.SetThread(scope, t, owner, epoch, now);
      if outcome != Committed {
        return false;
      }
      assert store.State() == first;
      scopeThreads := scopeThreads[scope := t];
      Log(ThreadResumed(scope), now);
      ok := RecoverLiveThread(t, probe.turns, probe.idle, known, probes);
      if !ok {
        return;
      }
      KnownTurns(run, world, store.State());
      RecoveredEnds(first, store.State(), t, probe.turns, probe.idle, probes, live, epoch);
      assert scope in world.cache && world.cache[scope] == t;
      var at := Now();
      DoneAdds(world, t, epoch, at);
      Log(ThreadDone(t), at);
    }

    /** What a thread that is still there needs: its dispatches, its open turns, then their replay. */
    method RecoverLiveThread(t: ThreadId, turns: seq<RemoteTurn>, idle: set<TurnId>, ghost known: set<ThreadId>, ghost probes: Probes) returns (ok: bool)
      requires Valid() && Recovering(t)
      requires Honest(probes) && t in known && probes(t) == Live(turns, idle)
      modifies store, `ticks, `activeTurns, `run, `world
      ensures Proceeds() && Recovers(old(store.turns), store.turns, epoch, known, probes) && store.threads == old(store.threads)
      ensures ok ==> AllAdopted(store.turns, t, epoch, known, probes) && NoPreparedOn(store.intents, t)
      ensures if ok then LiveRecovered(old(store.State()), store.State(), t, turns, idle, live, epoch) else Lapsed(old(ticks))
    {
      hide Traced, Fenced, Recovers, AllAdopted, NoPreparedOn, DispatchesResolved, TurnsSettled, HandledAll;
      ghost var first := store.turns;
      ok := ReconcileDispatches(t, turns, known, probes);
      if !ok {
        return;
      }
      ghost var second := store.turns;
      ok := ReconcileAcceptedTurns(t, turns, idle, known, probes);
      RecoversChain(first, second, store.turns, epoch, known, probes);
      if !ok {
        return;
      }
      ghost var third := store.turns;
      ok := RecoverTurns(t, turns, known, probes);
      RecoversChain(first, third, store.turns, epoch, known, probes);
      StaysAdopted(third, store.turns, t, epoch, known, probes);
    }

    /** The thread is gone: retry its dispatches, give back its output-free turns, forget it. */
    method GiveUpThread(t: ThreadId, ghost known: set<ThreadId>, ghost probes: Probes) returns (ok: bool)
      requires Valid() && Recovering(t) && probes(t).Missing? && t !in scopeThreads.Values
      modifies store, `ticks, `run, `world
      ensures Valid() && old(run) <= run && SameInputs(old(world), world) && world.cache == old(world.cache)
      ensures old(ticks) <= ticks && store.lease == old(store.lease)
      ensures Recovers(old(store.turns), store.turns, epoch, known, probes)
      ensures ok ==> AllAdopted(store.turns, t, epoch, known, probes)
      ensures ok ==> world.phase == AdapterRuns.Phase.Recovering(old(world.phase.todo) - {t})
      ensures ok ==> store.threads == map s | s in old(store.threads) && old(store.threads)[s] != t :: old(store.threads)[s]
      ensures if ok then GoneRecovered(old(store.State()), store.State(), t) else Lapsed(old(ticks))
    {
      hide Traced, Fenced, Enabled, Apply, Recovers, AllAdopted, DispatchesResolved;
      KnownTurns(run, world, store.State());
      RecoversSelf(store.turns, epoch, known, probes);
      ok := LoseDispatches(t);
      if !ok {
        return;
      }
      var now := Now();
      GoneAdds(world, store.State(), t, epoch, now);
      MissingThreadRecovers(store.State(), t, now, epoch, known, probes);
      var outcome := store.RequeueMissingThread(t, owner, epoch, now);
      ok := outcome == Committed;
      if ok {
        Log(ThreadGone(t), now);
      }
    }

    /** Retry every prepared dispatch of a thread that is gone: nothing shows their inputs. */
    method LoseDispatches(t: ThreadId) returns (ok: bool)
      requires Valid() && Recovering(t)
      modifies store, `ticks, `run, `world
      ensures Proceeds() && store.turns == old(store.turns) && store.threads == old(store.threads)
      ensures if ok then DispatchesResolved(old(store.State()), store.State(), t, []) && NoPreparedOn(store.intents, t) else Lapsed(old(ticks))
    {
      hide Traced, Fenced, ResolvedBut, ResolvesOne;
      var todo := set a: AttId | a in store.intents && store.intents[a].status.Prepared? && store.intents[a].thread == t;
      ghost var first := store.State();
      NoneResolved(first, t, [], todo);
      while todo != {}
        invariant Proceeds() && store.turns == first.turns && store.threads == first.threads
        invariant ResolvedBut(first, store.State(), t, [], todo)
        invariant forall a :: a in todo ==> PreparedOn(first, t, a)
        decreases |todo|
      {
        var a: AttId :| a in todo;
        ghost var mid, left := store.State(), todo;
        StillPrepared(first, mid, t, [], todo, a);
        todo := todo - {a};
        ok := LoseDispatch(a, t);
        if !ok {
          return;
        }
        ResolvedOne(first, mid, store.State(), t, [], left, a, epoch);
      }
      NoneLeftPrepared(first, store.State(), t, []);
      ok := true;
    }

    method LoseDispatch(a: AttId, t: ThreadId) returns (ok: bool)
      requires Valid() && Recovering(t) && PreparedOn(store.State(), t, a)
      modifies store, `ticks, `run, `world
      ensures Proceeds() && store.turns == old(store.turns) && store.threads == old(store.threads)
      ensures if ok then ResolvesOne(old(store.State()), store.State(), a, t, [], epoch) else Lapsed(old(ticks))
    {
      hide Traced, Fenced, Enabled, Apply, RetryUnobserved, ResolvesOne;
      ghost var l := store.State();
      KnownRows(run, world, l, a);
      var now := Now();
      LossAdds(world, l, a, epoch, now);
      RetryFrame(l, a, epoch, now);
      var outcome := store.RetryUnobservedDispatch(a, owner, epoch, now);
      ok := outcome == Committed;
      if ok {
        Log(IntentLost(a), now);
        LostOne(l, store.State(), a, t, epoch, now);
      }
    }

    /** The turns of the history that are unfinished in the ledger or still in progress. */
    method RecoverTurns(t: ThreadId, turns: seq<RemoteTurn>, ghost known: set<ThreadId>, ghost probes: Probes) returns (ok: bool)
      requires Valid() && Recovering(t)
      requires Honest(probes) && t in known && probes(t).Live? && turns == probes(t).turns
      modifies store, `ticks, `activeTurns, `run, `world
      ensures Proceeds() && Recovers(old(store.turns), store.turns, epoch, known, probes)
      ensures store.threads == old(store.threads) && store.intents == old(store.intents)
      ensures !ok ==> Lapsed(old(ticks))
      ensures var unfinished := OpenOn(old(store.turns), t);
              ok ==> HandledAll(old(store.State()), ReplayAll(turns, unfinished), store.State(), live, epoch)
                     && activeTurns == AfterReplays(old(activeTurns), t, turns, unfinished)
    {
      hide Traced, Fenced, Recovers;
      KnownTurns(run, world, store.State());
      RecoversSelf(store.turns, epoch, known, probes);
      ghost var first := store.State();
      var unfinished := store.IncompleteTurns(t);
      assert HandledAll(first, ReplayAll(turns[..0], unfinished), first, live, epoch);
      hide HandledAll, ReplayOf, AfterShown, ReplayAll, AfterReplays;
      for k := 0 to |turns|
        invariant Proceeds() && store.threads == first.threads && store.intents == first.intents
        invariant Recovers(first.turns, store.turns, epoch, known, probes)
        invariant HandledAll(first, ReplayAll(turns[..k], unfinished), store.State(), live, epoch)
        invariant activeTurns == AfterReplays(old(activeTurns), t, turns[..k], unfinished)
      {
        ghost var mid := store.State();
        ok := RecoverShown(t, turns[k], unfinished, known, probes);
        RecoversChain(first.turns, mid.turns, store.turns, epoch, known, probes);
        if !ok {
          return;
        }
        OneMoreReplay(turns, unfinished, k);
        HandledInTurn(first, ReplayAll(turns[..k], unfinished), mid, ReplayOf(turns[k], unfinished), store.State(), live, epoch);
        OneMoreRunning(old(activeTurns), t, turns, unfinished, k);
      }
      assert turns[..|turns|] == turns;
      ok := true;
    }

    /** One turn of the history, if it is unfinished in the ledger or still in progress. */
    method RecoverShown(t: ThreadId, r: RemoteTurn, unfinished: set<TurnId>, ghost known: set<ThreadId>, ghost probes: Probes) returns (ok: bool)
      requires Valid() && Up(world.phase)
      requires Honest(probes) && probes(t).Live? && r in probes(t).turns
      modifies store, `ticks, `activeTurns, `run, `world
      ensures Proceeds() && Recovers(old(store.turns), store.turns, epoch, known, probes)
      ensures store.threads == old(store.threads) && store.intents == old(store.intents)
      ensures if ok then HandledAll(old(store.State()), ReplayOf(r, unfinished), store.State(), live, epoch)
                         && activeTurns == AfterShown(old(activeTurns), t, r, unfinished)
              else Lapsed(old(ticks))
    {
      hide Traced, Fenced, Recovers;
      KnownTurns(run, world, store.State());
      RecoversSelf(store.turns, epoch, known, probes);
      ok := true;
      if r.history.id in unfinished || r.status.InProgress? {
        if r.status.InProgress? {
          activeTurns := activeTurns[t := r.history.id];
        }
        ok := RecoverTurn(r, known, probes);
      }
    }

    /**
      `initialize`: claim a new epoch, recover every saved thread, reap the rest. Then every open
      turn carries the new epoch, was in durable history or on a thread not proven idle, and is not
      over by that history; and every such turn that was open before still is.
     */
    method Initialize(probes: Probes, holderAlive: bool) returns (ok: bool)
      requires Valid() && world.phase.Down? && scopeThreads == map[] && Honest(probes)
      requires store.lease.Some? ==> store.lease.value.owner != owner
      modifies this, store
      ensures Valid() && old(run) <= run && SameInputs(old(world), world) && (ok ==> world.phase.Idle?)
      ensures MayClaim(old(store.lease), owner, clock(old(ticks)), holderAlive) ==> epoch == Epoch(old(store.lease)) + 1
      ensures !ok ==> Lapsed(old(ticks)) || !MayClaim(old(store.lease), owner, clock(old(ticks)), holderAlive)
      ensures ok ==> MayClaim(old(store.lease), owner, clock(old(ticks)), holderAlive)
      ensures ok ==> forall x :: x in store.turns && Open(store.turns[x]) ==>
                store.turns[x].epoch == epoch && Proven(old(store.threads.Values), probes, x) && !Over(probes, x)
      ensures var known := old(store.threads.Values);
              ok ==> AllKept(old(store.turns), store.turns, epoch, known, probes)
    {
      hide Traced, Enabled, Apply, Recovers, AllAdopted, AllKept, Proven, AllEnded, Over;
      ghost var first, known := store.turns, store.threads.Values;
      OldEpochs(run, world, store.State());
      var now := Now();
      var outcome, claimed := store.ClaimLease(owner, LEASE_TTL_MS, now, holderAlive);
      if outcome != Committed {
        return false;
      }
      epoch := claimed;
      StartAdds(world, epoch, now);
      Log(Started, now);
      ok := RecoverExistingThreads(probes, known);
      if !ok {
        return;
      }
      ok := ReapUnproven(first, probes, known);
    }

    /** `reap_stale_turns_after_recovery`. */
    method ReapUnproven(ghost first: Turns, ghost probes: Probes, ghost known: set<ThreadId>) returns (ok: bool)
      requires Valid() && world.phase == AdapterRuns.Phase.Recovering({})
      requires Recovers(first, store.turns, epoch, known, probes)
      requires forall t :: t in known ==> AllAdopted(store.turns, t, epoch, known, probes) && AllEnded(store.turns, t, probes)
      requires forall x :: x in first ==> first[x].epoch < epoch
      modifies store, `ticks, `run, `world
      ensures Valid() && old(run) <= run && SameInputs(old(world), world) && old(ticks) <= ticks && store.lease == old(store.lease)
      ensures if ok then world.phase.Idle? else Lapsed(old(ticks))
      ensures ok ==> forall x :: x in store.turns && Open(store.turns[x]) ==>
                store.turns[x].epoch == epoch && Proven(known, probes, x) && !Over(probes, x)
      ensures ok ==> AllKept(first, store.turns, epoch, known, probes)
    {
      hide Traced, Fenced, Enabled, Apply, Recovers, AllAdopted, Over;
      var now := Now();
      ghost var l := store.State();
      KnownTurns(run, world, l);
      ReapCompletes(first, l, epoch, now, known, probes);
      ReapEnds(l, epoch, now, known, probes);
      ReapingAdds(world, l, epoch, now);
      hide Proven, AllEnded;
      var outcome, reaped := store.ReapStaleTurns(owner, epoch, now);
      ok := outcome == Committed;
      if ok {
        Log(Reaped, now);
      }
    }

    method RecoverExistingThreads(probes: Probes, ghost known: set<ThreadId>) returns (ok: bool)
      requires Valid() && Honest(probes) && known == store.threads.Values && scopeThreads == map[]
      requires world.phase == AdapterRuns.Phase.Recovering(store.threads.Values)
      modifies store, `ticks, `activeTurns, `scopeThreads, `run, `world
      ensures Valid() && old(run) <= run && SameInputs(old(world), world) && old(ticks) <= ticks && store.lease == old(store.lease)
      ensures if ok then world.phase == AdapterRuns.Phase.Recovering({}) else Lapsed(old(ticks))
      ensures Recovers(old(store.turns), store.turns, epoch, known, probes)
      ensures ok ==> forall t :: t in known ==> AllAdopted(store.turns, t, epoch, known, probes) && AllEnded(store.turns, t, probes)
    {
      hide Traced, Fenced, Recovers, AllAdopted, ThreadsOf, Untouched, DoneBut, AllEnded, AddedOn, LiveRecovered, GoneRecovered;
      KnownTurns(run, world, store.State());
      OneThreadEach(run, world);
      RecoversSelf(store.turns, epoch, known, probes);
      ghost var first := store.turns;
      var saved := store.threads;
      var todo := saved.Keys;
      AtFirst(saved, store.turns, epoch, known, probes);
      while todo != {}
        invariant todo <= saved.Keys && Valid() && old(run) <= run && SameInputs(old(world), world)
        invariant old(ticks) <= ticks && store.lease == old(store.lease)
        invariant world.phase == AdapterRuns.Phase.Recovering(ThreadsOf(saved, todo))
        invariant Untouched(saved, todo, store.threads, scopeThreads)
        invariant Recovers(first, store.turns, epoch, known, probes)
        invariant DoneBut(saved, todo, store.turns, epoch, known, probes)
        decreases |todo|
      {
        var scope :| scope in todo;
        ghost var mid, threads, cached, before := store.turns, store.threads, scopeThreads, todo;
        NextOne(saved, todo, scope, threads, cached);
        ok := RecoverThread(scope, saved[scope], probes(saved[scope]), known, probes);
        RecoversChain(first, mid, store.turns, epoch, known, probes);
        if !ok {
          return;
        }
        todo := todo - {scope};
        StaysUntouched(saved, before, scope, threads, store.threads, cached, scopeThreads);
        DoneOne(saved, before, scope, mid, store.turns, epoch, known, probes);
      }
      AtLast(saved, store.turns, epoch, known, probes);
      ok := true;
    }
  }

  /** The threads of the scopes still to recover. */
  ghost function ThreadsOf(saved: Threads, todo: set<Scope>): set<ThreadId>
    requires todo <= saved.Keys
  {
    set s | s in todo :: saved[s]
  }

  /** The scopes still to recover have their threads, and none is cached yet. */
  ghost predicate Untouched(saved: Threads, todo: set<Scope>, threads: Threads, cache: Threads)
    requires todo <= saved.Keys
  {
    forall s :: s in todo ==> s in threads && threads[s] == saved[s] && saved[s] !in cache.Values
  }

  /** The threads already recovered: what is proven is adopted, what is over is closed. */
  ghost predicate DoneBut(saved: Threads, todo: set<Scope>, turns: Turns, epoch: nat, known: set<ThreadId>, probes: Probes) {
    forall s :: s in saved && s !in todo ==> AllAdopted(turns, saved[s], epoch, known, probes) && AllEnded(turns, saved[s], probes)
  }

  /** New turns are of this thread. */
  ghost predicate AddedOn(before: Turns, after: Turns, t: ThreadId) {
    forall x :: x in after && x !in before ==> x.thread == t
  }

  lemma AtFirst(saved: Threads, turns: Turns, epoch: nat, known: set<ThreadId>, probes: Probes)
    ensures ThreadsOf(saved, saved.Keys) == saved.Values && Untouched(saved, saved.Keys, saved, map[])
    ensures DoneBut(saved, saved.Keys, turns, epoch, known, probes)
  {
  }

  lemma AtLast(saved: Threads, turns: Turns, epoch: nat, known: set<ThreadId>, probes: Probes)
    requires DoneBut(saved, {}, turns, epoch, known, probes) && known == saved.Values
    ensures ThreadsOf(saved, {}) == {}
    ensures forall t :: t in known ==> AllAdopted(turns, t, epoch, known, probes) && AllEnded(turns, t, probes)
  {
    hide AllAdopted, AllEnded;
    forall t | t in known ensures AllAdopted(turns, t, epoch, known, probes) && AllEnded(turns, t, probes) {
      var s :| s in saved && saved[s] == t;
    }
  }

  lemma NextOne(saved: Threads, todo: set<Scope>, scope: Scope, threads: Threads, cache: Threads)
    requires todo <= saved.Keys && scope in todo && Untouched(saved, todo, threads, cache) && Injective(saved)
    ensures saved[scope] in ThreadsOf(saved, todo) && scope in threads && threads[scope] == saved[scope] && saved[scope] !in cache.Values
    ensures saved[scope] in saved.Values && ThreadsOf(saved, todo) - {saved[scope]} == ThreadsOf(saved, todo - {scope})
  {
  }

  lemma StaysUntouched(saved: Threads, todo: set<Scope>, scope: Scope, threads: Threads, fewer: Threads, before: Threads, after: Threads)
    requires Injective(saved) && todo <= saved.Keys && scope in todo && Untouched(saved, todo, threads, before)
    requires forall s :: s in threads && threads[s] != saved[scope] ==> s in fewer && fewer[s] == threads[s]
    requires after == before || after == before[scope := saved[scope]]
    ensures Untouched(saved, todo - {scope}, fewer, after)
  {
    forall s, r | s in todo - {scope} && r in after ensures after[r] != saved[s] {
      assert r != scope || after == before ==> r in before && after[r] == before[r] && before[r] in before.Values;
    }
  }

  lemma DoneOne(saved: Threads, todo: set<Scope>, scope: Scope, before: Turns, after: Turns, epoch: nat, known: set<ThreadId>, probes: Probes)
    requires DoneBut(saved, todo, before, epoch, known, probes) && Recovers(before, after, epoch, known, probes) && Injective(saved)
    requires scope in saved && AllAdopted(after, saved[scope], epoch, known, probes) && AllEnded(after, saved[scope], probes)
    requires AddedOn(before, after, saved[scope])
    ensures DoneBut(saved, todo - {scope}, after, epoch, known, probes)
  {
    hide AllAdopted, Recovers, AllEnded, AddedOn;
    forall s | s in saved && s !in todo - {scope}
      ensures AllAdopted(after, saved[s], epoch, known, probes) && AllEnded(after, saved[s], probes)
    {
      if s != scope {
        StaysAdopted(before, after, saved[s], epoch, known, probes);
        StaysEnded(before, after, saved[s], saved[scope], epoch, known, probes);
      }
    }
  }

  lemma StaysEnded(before: Turns, after: Turns, t: ThreadId, u: ThreadId, epoch: nat, known: set<ThreadId>, probes: Probes)
    requires AllEnded(before, t, probes) && Recovers(before, after, epoch, known, probes) && AddedOn(before, after, u) && t != u
    ensures AllEnded(after, t, probes)
  {
    hide Proven, Over;
  }

  /** The reaper only closes, so nothing that is over stays open. */
  lemma ReapEnds(l: Ledger, epoch: nat, now: int, known: set<ThreadId>, probes: Probes)
    requires forall t :: t in known ==> AllEnded(l.turns, t, probes)
    ensures var turns := Reap(l, epoch, now).turns;
            forall x :: x in turns && Open(turns[x]) && Proven(known, probes, x) ==> !Over(probes, x)
  {
    hide Over;
    var turns := Reap(l, epoch, now).turns;
    forall x | x in turns && Open(turns[x]) && Proven(known, probes, x) ensures !Over(probes, x) {
      assert x in l.turns && Open(l.turns[x]) && AllEnded(l.turns, x.thread, probes);
    }
  }

  lemma GoneEnds(l: Ledger, m: Ledger, t: ThreadId, probes: Probes)
    requires GoneRecovered(l, m, t) && probes(t).Missing?
    ensures AllEnded(m.turns, t, probes) && AddedOn(l.turns, m.turns, t)
  {
  }

  /** Wherever a process ends, what it leaves is what the next one starts from. */
  lemma NextProcess(run: seq<At>, w: World, l: Ledger, epoch: nat, now: int)
    requires Traced(run, w) && w.db == Unleased(l) && Fenced(run, Epoch(l.lease)) && epoch <= Epoch(l.lease) && Up(w.phase)
    ensures var crash := At(Crashed, now, epoch); var v := w.(phase := Down, cache := map[]);
            Traced(run + [crash], v) && v.db == Unleased(l) && Fenced(run + [crash], Epoch(l.lease))
  {
    Extends(run, w, At(Crashed, now, epoch));
    hide Traced;
  }

  /** One thread per scope. */
  ghost predicate Injective(threads: Threads) {
    forall s, r :: s in threads && r in threads && threads[s] == threads[r] ==> s == r
  }

  lemma OneThreadEach(run: seq<At>, w: World)
    requires Traced(run, w)
    ensures Injective(w.db.threads)
  {
    TracedFacts(run, w);
  }

  lemma KnownTurns(run: seq<At>, w: World, l: Ledger)
    requires Traced(run, w) && w.db == Unleased(l)
    ensures TurnRowsOk(l.turns)
  {
    TracedFacts(run, w);
  }

  lemma BoundIsKnown(run: seq<At>, w: World, l: Ledger)
    requires Traced(run, w) && w.db == Unleased(l) && w.phase.Bound?
    ensures w.phase.a in l.attentions && w.phase.a in l.intents
  {
    TracedFacts(run, w);
    assert IntentOk(w.db.attentions, w.phase.a, w.db.intents[w.phase.a]);
  }

  /** A prepared dispatch is of a known attention. */
  lemma KnownRows(run: seq<At>, w: World, l: Ledger, a: AttId)
    requires Traced(run, w) && w.db == Unleased(l) && a in l.intents
    ensures a in l.attentions && TurnRowsOk(l.turns)
  {
    TracedFacts(run, w);
    assert IntentOk(w.db.attentions, a, w.db.intents[a]);
  }

  /** Every turn row was written under an epoch the lease has reached. */
  lemma OldEpochs(run: seq<At>, w: World, l: Ledger)
    requires Traced(run, w) && w.db == Unleased(l) && Fenced(run, Epoch(l.lease))
    ensures forall x :: x in l.turns ==> l.turns[x].epoch <= Epoch(l.lease)
  {
    EpochsAreFenced(run, Epoch(l.lease));
  }

  lemma Chain(l: Ledger, m: Ledger, n: Ledger, xs: set<TurnId>, ys: set<TurnId>)
    requires Outputs(l, m, xs) && Outputs(m, n, ys)
    ensures Outputs(l, n, xs + ys)
  {
    hide Outputs;
    MoreMayClose(l, m, xs, xs + ys);
    MoreMayClose(m, n, ys, xs + ys);
    OutputsChain(l, m, n, xs + ys);
  }

  // ---- Controls and relays ----

  /** The room's active turn is interrupted, if there is one. */
  ghost predicate Interrupts(l: Ledger, m: Ledger, active: Option<TurnId>) {
    if active.Some? then exists now :: m == InterruptTurn(l, active.value, now) else m == l
  }

  lemma NothingToInterrupt(l: Ledger)
    ensures Interrupts(l, l, None)
  {
  }

  /** Then the older disposable chat is cancelled and the control closed. */
  ghost predicate Stops(l: Ledger, m: Ledger, c: AttId, active: Option<TurnId>, epoch: nat) {
    exists mid, now :: Interrupts(l, mid, active) && c in mid.attentions && m == CancelPending(mid, c, epoch, now)
  }

  lemma InterruptKeepsEvents(l: Ledger, x: TurnId, now: int)
    ensures var m := InterruptTurn(l, x, now);
            m.attentions.Keys == l.attentions.Keys && forall a :: a in l.attentions ==> m.attentions[a].event == l.attentions[a].event
  {
  }

  /** The ids `pending_relays` returns. */
  function DueOps(relays: seq<Relay>, now: int): set<OpId> {
    set r | r in relays && r.status.Pending? && r.nextAttempt <= now :: r.op
  }

  /** Between those readings of the clock, a row that was tried: sent, or due again after its backoff. */
  ghost predicate TriedRow(p: Relay, q: Relay, sent: bool, clock: nat -> int, from: nat, to: nat) {
    && q.op == p.op && q.text == p.text && q.createdAt == p.createdAt && q.attempts == p.attempts + 1
    && exists i :: from <= i < to &&
         if sent then q.status.Sent? && q.acceptedAt == Some(clock(i))
         else q.status == p.status && q.acceptedAt == p.acceptedAt
              && q.nextAttempt == clock(i) + Min(60_000, RETRY_DELAY_MS * Pow2(Min(p.attempts, 6)))
  }

  /** Covered by an output that was sent, or by a final that was. */
  predicate SentTo(done: set<OpId>, sends: OpId -> bool, a: AttId, final: bool) {
    exists op :: op in done && sends(op) && a in op.covered && (final ==> op.kind.Final?)
  }

  /** Its first and final response are set if such an output was sent, and nothing else of it changes. */
  ghost predicate AnsweredRow(p: Attention, q: Attention, first: bool, final: bool) {
    && q == p.(firstResponse := q.firstResponse, finalResponse := q.finalResponse)
    && (if p.firstResponse.Some? then q.firstResponse == p.firstResponse else q.firstResponse.Some? <==> first)
    && (if p.finalResponse.Some? then q.finalResponse == p.finalResponse else q.finalResponse.Some? <==> final)
  }

  /** Exactly the rows of `done` were tried, and exactly those whom a sent one covers are answered. */
  ghost predicate Relayed(l: Ledger, m: Ledger, done: set<OpId>, sends: OpId -> bool, clock: nat -> int, from: nat, to: nat) {
    && m == l.(relays := m.relays, attentions := m.attentions)
    && RelayedRows(l.relays, m.relays, done, sends, clock, from, to) && RelayedTo(l.attentions, m.attentions, done, sends)
  }

  ghost predicate RelayedRows(before: seq<Relay>, after: seq<Relay>, done: set<OpId>, sends: OpId -> bool, clock: nat -> int, from: nat, to: nat) {
    |after| == |before| && forall i :: 0 <= i < |before| ==>
      if before[i].op in done then TriedRow(before[i], after[i], sends(before[i].op), clock, from, to) else after[i] == before[i]
  }

  ghost predicate RelayedTo(before: Rows, after: Rows, done: set<OpId>, sends: OpId -> bool) {
    after.Keys == before.Keys && forall a :: a in before ==>
      AnsweredRow(before[a], after[a], SentTo(done, sends, a, false), SentTo(done, sends, a, true))
  }

  lemma NoneRelayed(l: Ledger, sends: OpId -> bool, clock: nat -> int, from: nat, to: nat)
    ensures Relayed(l, l, {}, sends, clock, from, to)
  {
  }

  lemma StillPending(first: Ledger, l: Ledger, done: set<OpId>, op: OpId, now: int, sends: OpId -> bool, clock: nat -> int, from: nat, to: nat)
    requires Relayed(first, l, done, sends, clock, from, to) && op in DueOps(first.relays, now) && op !in done
    ensures exists r :: r in l.relays && r.op == op && r.status.Pending?
  {
    var i :| 0 <= i < |first.relays| && first.relays[i].op == op && first.relays[i].status.Pending?;
    assert l.relays[i] in l.relays;
  }

  lemma RelayedOne(first: Ledger, l: Ledger, done: set<OpId>, op: OpId, sends: OpId -> bool, clock: nat -> int, from: nat, at: nat)
    requires Relayed(first, l, done, sends, clock, from, at) && op !in done && from <= at
    ensures Relayed(first, if sends(op) then RelayAccepted(l, op, clock(at)) else RelayFailed(l, op, RETRY_DELAY_MS, clock(at)), done + {op}, sends, clock, from, at + 1)
  {
    var m := if sends(op) then RelayAccepted(l, op, clock(at)) else RelayFailed(l, op, RETRY_DELAY_MS, clock(at));
    assert RelayedTo(first.attentions, m.attentions, done + {op}, sends) by { RelayedToOne(first.attentions, l.attentions, done, op, sends, clock(at)); }
    forall i | 0 <= i < |first.relays|
      ensures var p := first.relays[i]; if p.op in done + {op} then TriedRow(p, m.relays[i], sends(p.op), clock, from, at + 1) else m.relays[i] == p
    {
    }
  }

  lemma RelayedToOne(before: Rows, rows: Rows, done: set<OpId>, op: OpId, sends: OpId -> bool, now: int)
    requires RelayedTo(before, rows, done, sends)
    ensures RelayedTo(before, if sends(op) then AnswerRows(rows, op.covered, op.kind == Final, now) else rows, done + {op}, sends)
  {
    forall a, final ensures SentTo(done + {op}, sends, a, final) <==> SentTo(done, sends, a, final) || (sends(op) && a in op.covered && (final ==> op.kind.Final?)) {
    }
  }

  /** Nobody is accepted; relays are only appended, and the new ones cover members of their turn. */
  ghost predicate Quiet(l: Ledger, m: Ledger) {
    && m.attentions.Keys == l.attentions.Keys
    && (forall a :: a in l.attentions && l.attentions[a].accepted.None? ==> m.attentions[a].accepted.None?)
    && NewCovered(l.relays, m.relays, l.slots)
    && (forall x :: Members(m.slots, x) <= Members(l.slots, x))
  }

  lemma QuietSelf(l: Ledger)
    ensures Quiet(l, l)
  {
  }

  lemma QuietChain(l: Ledger, m: Ledger, n: Ledger)
    requires Quiet(l, m) && Quiet(m, n)
    ensures Quiet(l, n)
  {
    forall i | |l.relays| <= i < |n.relays| ensures n.relays[i].op.covered <= Members(l.slots, n.relays[i].op.turn) {
      if i < |m.relays| {
        assert Ops(n.relays)[i] == Ops(m.relays)[i];
      }
    }
  }

  lemma RetryIsQuiet(l: Ledger, a: AttId, epoch: nat, now: int)
    ensures var m := RetryUnobserved(l, a, epoch, now); Quiet(l, m) && m.relays == l.relays
  {
  }

  lemma DeferIsQuiet(l: Ledger, a: AttId, delay: int, now: int)
    ensures var m := Defer(l, a, delay, now); Quiet(l, m) && m.relays == l.relays
  {
    hide Backoff;
  }

  lemma OutputsAreQuiet(l: Ledger, m: Ledger, xs: set<TurnId>)
    requires Outputs(l, m, xs)
    ensures Quiet(l, m)
  {
  }

  lemma GivingUpIsQuiet(l: Ledger, x: TurnId, now: int)
    ensures Quiet(l, RequeueMissingTurn(l, x.thread, x, now))
    ensures x in LostTurns(l, x.thread) ==> !Open(RequeueMissingTurn(l, x.thread, x, now).turns[x])
  {
    var m := RequeueMissingTurn(l, x.thread, x, now);
    forall y ensures Members(m.slots, y) <= Members(l.slots, y) {
    }
  }

  /** An attention that waits is a member of no turn. */
  ghost predicate Unmet(l: Ledger, a: AttId) {
    a in l.attentions && l.attentions[a].accepted.None? && forall x :: a !in Members(l.slots, x)
  }

  lemma Unjoined(run: seq<At>, w: World, l: Ledger, a: AttId)
    requires Traced(run, w) && w.db == Unleased(l) && a in l.attentions && l.attentions[a].accepted.None?
    ensures Unmet(l, a)
  {
    TracedFacts(run, w);
    assert MembersOk(w.db.attentions, w.db.turns, w.db.slots);
    hide Inv, Good, Traced;
    forall x ensures a !in Members(l.slots, x) {
    }
  }

  lemma QuietCovers(l: Ledger, m: Ledger)
    requires Quiet(l, m)
    ensures NewCovered(l.relays, m.relays, l.slots)
  {
  }

  /** Nothing output in between covers an attention that was a member of no turn. */
  lemma QuietFor(l: Ledger, m: Ledger, a: AttId)
    requires NewCovered(l.relays, m.relays, l.slots) && Unmet(l, a)
    ensures Ops(l.relays) <= Ops(m.relays)
    ensures forall i :: |l.relays| <= i < |m.relays| ==> a !in m.relays[i].op.covered
  {
  }

  /** Every proven open turn that the history does not call over is still open, under the new epoch. */
  ghost predicate AllKept(before: Turns, after: Turns, epoch: nat, known: set<ThreadId>, probes: Probes) {
    forall x :: x in before && Open(before[x]) && Proven(known, probes, x) && !Over(probes, x) ==>
      x in after && Open(after[x]) && after[x].epoch == epoch
  }

  lemma OthersStayAdopted(before: Turns, after: Turns, x: TurnId, t: ThreadId, todo: set<TurnId>, epoch: nat, known: set<ThreadId>, probes: Probes)
    requires Recovers(before, after, epoch, known, probes)
    requires forall y :: y in before && y.thread == t && Open(before[y]) && Proven(known, probes, y) && y !in todo && y != x ==>
               before[y].epoch == epoch
    requires x in after && Open(after[x]) && Proven(known, probes, x) ==> after[x].epoch == epoch
    ensures forall y :: y in after && y.thread == t && Open(after[y]) && Proven(known, probes, y) && y !in todo ==>
              after[y].epoch == epoch
  {
    hide Proven, Over;
  }

  lemma NewlyCovered(l: Ledger, m: Ledger, xs: set<TurnId>)
    requires Outputs(l, m, xs)
    ensures NewCovered(l.relays, m.relays, l.slots)
  {
  }

  lemma KeptTables(l: Ledger, m: Ledger, xs: set<TurnId>)
    requires Outputs(l, m, xs)
    ensures m.threads == l.threads && m.intents == l.intents
  {
  }
}
