/**
  Repair of a torn append-only log (listen.py, `open_durable_jsonl`): only an unterminated final line
  is dropped, found by reading backwards in blocks.
 */
module DurableLog {
  import opened Common

  const BLOCK := 4096

  /** The longest prefix that is empty or ends with a newline. */
  function Committed(s: string): (kept: string)
    ensures kept <= s && (kept == "" || kept[|kept| - 1] == '\n')
  {
    if s == "" || s[|s| - 1] == '\n' then s else Committed(s[..|s| - 1])
  }

  /** It is the longest: every terminated prefix is part of it. */
  lemma {:induction false} CommittedIsLongest(s: string, p: string)
    requires p <= s && (p == "" || p[|p| - 1] == '\n')
    ensures p <= Committed(s)
  {
    if s != "" && s[|s| - 1] != '\n' {
      assert p <= s[..|s| - 1];
      CommittedIsLongest(s[..|s| - 1], p);
    }
  }

  /** What a crash tore off an append is dropped, and nothing that was complete. */
  lemma {:induction false} TornAppendIsUndone(log: string, torn: string)
    requires (log == "" || log[|log| - 1] == '\n') && '\n' !in torn
    ensures Committed(log + torn) == log
  {
    if torn == "" {
      assert log + torn == log;
    } else {
      var n := |torn| - 1;
      assert (log + torn)[..|log + torn| - 1] == log + torn[..n];
      TornAppendIsUndone(log, torn[..n]);
    }
  }

  /** Without a newline in its last part, the committed prefix is that of the first part. */
  lemma {:induction false} CommittedBefore(s: string, n: nat)
    requires n <= |s| && forall k :: n <= k < |s| ==> s[k] != '\n'
    ensures Committed(s) == Committed(s[..n])
    decreases |s| - n
  {
    if n == |s| {
      assert s[..n] == s;
    } else {
      CommittedBefore(s, n + 1);
      assert s[..n + 1][..n] == s[..n];
    }
  }

  class LogFile {
    var data: string

    constructor (data: string)
      ensures this.data == data
    {
      this.data := data;
    }

    /** The last newline of a block, or -1. */
    static method LastNewline(chunk: string) returns (at: int)
      ensures -1 <= at < |chunk| && (at >= 0 ==> chunk[at] == '\n')
      ensures forall k :: at < k < |chunk| ==> chunk[k] != '\n'
    {
      at := |chunk| - 1;
      while at >= 0 && chunk[at] != '\n'
        invariant -1 <= at < |chunk| && forall k :: at < k < |chunk| ==> chunk[k] != '\n'
      {
        at := at - 1;
      }
    }

    method OpenDurable()
      modifies this
      ensures data == Committed(old(data))
    {
      var end := |data|;
      if end == 0 || data[end - 1] == '\n' {
        return;
      }
      var position, keep := end, 0;
      while position > 0
        invariant 0 <= position <= end && keep == 0 && data == old(data)
        invariant forall k :: position <= k < end ==> data[k] != '\n'
      {
        var start := if position > BLOCK then position - BLOCK else 0;
        var chunk := data[start..position];
        var newline := LastNewline(chunk);
        if newline >= 0 {
          keep := start + newline + 1;
          assert data[keep - 1] == '\n';
          assert forall k :: keep <= k < position ==> data[k] == chunk[k - start];
          CommittedBefore(data, keep);
          data := data[..keep];
          return;
        }
        assert forall k :: start <= k < position ==> data[k] == chunk[k - start];
        position := start;
      }
      CommittedBefore(data, 0);
      data := data[..keep];
    }
  }
}
