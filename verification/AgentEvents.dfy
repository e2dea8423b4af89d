/**
  The recursive filter that keeps retired knowledge metadata from agents (wiki_state.py, `agent_event`).
 */
module AgentEvents {
  import opened Common

  datatype Kind = Memory | MemoryVersion | Turn | OtherKind(name: string)

  /**
    An event with or without a list of messages; `retired` says that it has any of the retired keys.
    Opaque is a list element that is no object.
   */
  datatype Event =
    | Plain(kind: Kind, retired: bool, rest: string)
    | Bundle(kind: Kind, retired: bool, messages: seq<Event>, rest: string)
    | Opaque(text: string)

  function CleanAll(ms: seq<Event>): seq<Event>
    decreases ms
  {
    if ms == [] then []
    else
      var first := if ms[0].Opaque? then Some(ms[0]) else Clean(ms[0]);
      (if first.Some? then [first.value] else []) + CleanAll(ms[1..])
  }

  /** Drop retired keys at every level, drop retired messages, and drop a turn that loses them all. */
  function Clean(e: Event): Option<Event>
    requires !e.Opaque?
    decreases e
  {
    if e.kind.Memory? || e.kind.MemoryVersion? then None
    else if e.Plain? then Some(Plain(e.kind, false, e.rest))
    else
      var kept := CleanAll(e.messages);
      if kept != e.messages && e.kind.Turn? && kept == [] then None
      else Some(Bundle(e.kind, false, kept, e.rest))
  }

  /** Nothing retired at any level. */
  predicate Public(e: Event)
    decreases e
  {
    e.Opaque? ||
    (!e.kind.Memory? && !e.kind.MemoryVersion? && !e.retired && (e.Bundle? ==> AllPublic(e.messages)))
  }

  predicate AllPublic(ms: seq<Event>)
    decreases ms
  {
    ms == [] || (Public(ms[0]) && AllPublic(ms[1..]))
  }

  lemma {:induction false} CleanIsPublic(e: Event)
    requires !e.Opaque?
    ensures Clean(e).Some? ==> Public(Clean(e).value)
    decreases e
  {
    if e.Bundle? {
      CleanAllIsPublic(e.messages);
    }
  }

  lemma {:induction false} CleanAllIsPublic(ms: seq<Event>)
    ensures AllPublic(CleanAll(ms))
    decreases ms
  {
    if ms != [] {
      CleanAllIsPublic(ms[1..]);
      var first := if ms[0].Opaque? then Some(ms[0]) else Clean(ms[0]);
      if !ms[0].Opaque? {
        CleanIsPublic(ms[0]);
      }
      if first.Some? {
        assert CleanAll(ms)[0] == first.value && CleanAll(ms)[1..] == CleanAll(ms[1..]);
      } else {
        assert CleanAll(ms) == CleanAll(ms[1..]);
      }
    }
  }

  lemma {:induction false} PublicIsKept(e: Event)
    requires !e.Opaque? && Public(e)
    ensures Clean(e) == Some(e)
    decreases e
  {
    if e.Bundle? {
      AllPublicIsKept(e.messages);
    }
  }

  lemma {:induction false} AllPublicIsKept(ms: seq<Event>)
    requires AllPublic(ms)
    ensures CleanAll(ms) == ms
    decreases ms
  {
    if ms != [] {
      AllPublicIsKept(ms[1..]);
      if !ms[0].Opaque? {
        PublicIsKept(ms[0]);
      }
    }
  }

  /** An event passes unchanged exactly when it holds nothing retired, and filtering twice is filtering once. */
  lemma FilterIsAFixpoint(e: Event)
    requires !e.Opaque?
    ensures Clean(e) == Some(e) <==> Public(e)
    ensures Clean(e).Some? ==> Clean(Clean(e).value) == Clean(e)
  {
    CleanIsPublic(e);
    if Public(e) {
      PublicIsKept(e);
    }
    if Clean(e).Some? {
      PublicIsKept(Clean(e).value);
    }
  }

  /** A list is filtered message by message, in order; what is no object stays. */
  lemma {:induction false} MessagesOneByOne(some: seq<Event>, m: Event, more: seq<Event>)
    ensures CleanAll(some + [m] + more) == CleanAll(some) + CleanAll([m]) + CleanAll(more)
    ensures CleanAll([m]) == if m.Opaque? then [m] else if Clean(m).Some? then [Clean(m).value] else []
    decreases some
  {
    assert [m][1..] == [] && CleanAll([]) == [];
    if some == [] {
      assert some + [m] + more == [m] + more && ([m] + more)[1..] == more;
    } else {
      MessagesOneByOne(some[1..], m, more);
      assert (some + [m] + more)[1..] == some[1..] + [m] + more;
    }
  }

  predicate FilteredOut(m: Event) {
    !m.Opaque? && Clean(m).None?
  }

  lemma {:induction false} NothingStays(ms: seq<Event>)
    ensures CleanAll(ms) == [] <==> forall k :: 0 <= k < |ms| ==> FilteredOut(ms[k])
  {
    if ms != [] {
      NothingStays(ms[1..]);
      assert forall k :: 1 <= k < |ms| ==> ms[k] == ms[1..][k - 1];
    }
  }

  /**
    What the filter does: a retired frame goes; any other event keeps its kind and text and loses its retired keys,
    and its messages are filtered; and a turn goes if it had messages and none stays.
   */
  lemma FilterMeans(e: Event)
    requires !e.Opaque?
    ensures e.kind.Memory? || e.kind.MemoryVersion? ==> Clean(e).None?
    ensures !e.kind.Memory? && !e.kind.MemoryVersion? && e.Plain? ==> Clean(e) == Some(Plain(e.kind, false, e.rest))
    ensures !e.kind.Memory? && !e.kind.MemoryVersion? && e.Bundle? ==>
              Clean(e) == if e.kind.Turn? && e.messages != [] && forall k :: 0 <= k < |e.messages| ==> FilteredOut(e.messages[k])
                          then None else Some(Bundle(e.kind, false, CleanAll(e.messages), e.rest))
  {
    if e.Bundle? {
      NothingStays(e.messages);
    }
  }
}
