/**
  Page deltas (wiki_context.py, `prepare`): the non-equal opcodes of a line diff, and their
  application to the old body.
 */
module WikiDeltas {
  import opened Common

  // ---- Lines: str.splitlines(keepends=True) and "".join ----

  predicate LineBreak(c: char) {
    c in {'\n', '\r', '\U{0B}', '\U{0C}', '\U{1C}', '\U{1D}', '\U{1E}', '\U{85}', '\U{2028}', '\U{2029}'}
  }

  /** The length of the first line, its terminator included; CR LF is one terminator. */
  function FirstLine(s: string): (n: nat)
    requires s != ""
    ensures 1 <= n <= |s|
  {
    if s[0] == '\r' && |s| > 1 && s[1] == '\n' then 2
    else if LineBreak(s[0]) || |s| == 1 then 1
    else 1 + FirstLine(s[1..])
  }

  function SplitLines(s: string): seq<string> {
    if s == "" then [] else [s[..FirstLine(s)]] + SplitLines(s[FirstLine(s)..])
  }

  function Join(lines: seq<string>): string {
    if lines == [] then "" else lines[0] + Join(lines[1..])
  }

  lemma {:induction false} JoinSplit(s: string)
    ensures Join(SplitLines(s)) == s
  {
    if s != "" {
      JoinSplit(s[FirstLine(s)..]);
    }
  }

  lemma {:induction false} JoinConcat(a: seq<string>, b: seq<string>)
    ensures Join(a + b) == Join(a) + Join(b)
  {
    if a == [] {
      assert a + b == b;
    } else {
      assert (a + b)[1..] == a[1..] + b;
      JoinConcat(a[1..], b);
    }
  }

  // ---- Opcodes and sections ----

  datatype Tag = Equal | Replace | Delete | Insert

  datatype Opcode = Opcode(tag: Tag, oldStart: nat, oldEnd: nat, newStart: nat, newEnd: nat)

  datatype Section = Section(operation: Tag, startLine: nat, endLine: nat, removed: string, inserted: string)

  /** From (i, j) on, the opcodes tile both line lists, and equal spans are equal. */
  predicate TilesFrom(ops: seq<Opcode>, old_: seq<string>, new_: seq<string>, i: nat, j: nat) {
    if ops == [] then i == |old_| && j == |new_|
    else
      var op := ops[0];
      && op.oldStart == i <= op.oldEnd <= |old_| && op.newStart == j <= op.newEnd <= |new_|
      && (op.tag.Equal? ==> old_[i..op.oldEnd] == new_[j..op.newEnd])
      && TilesFrom(ops[1..], old_, new_, op.oldEnd, op.newEnd)
  }

  /** What is assumed of SequenceMatcher.get_opcodes. */
  predicate Tiles(ops: seq<Opcode>, old_: seq<string>, new_: seq<string>) {
    TilesFrom(ops, old_, new_, 0, 0)
  }

  predicate InRange(ops: seq<Opcode>, old_: seq<string>, new_: seq<string>) {
    forall k :: 0 <= k < |ops| ==> ops[k].oldStart <= ops[k].oldEnd <= |old_| && ops[k].newStart <= ops[k].newEnd <= |new_|
  }

  lemma {:induction false} TilesInRange(ops: seq<Opcode>, old_: seq<string>, new_: seq<string>, i: nat, j: nat)
    requires TilesFrom(ops, old_, new_, i, j)
    ensures InRange(ops, old_, new_)
  {
    if ops != [] {
      TilesInRange(ops[1..], old_, new_, ops[0].oldEnd, ops[0].newEnd);
    }
  }

  function SectionOf(op: Opcode, old_: seq<string>, new_: seq<string>): Section
    requires op.oldStart <= op.oldEnd <= |old_| && op.newStart <= op.newEnd <= |new_|
  {
    Section(op.tag, op.oldStart, op.oldEnd, Join(old_[op.oldStart..op.oldEnd]), Join(new_[op.newStart..op.newEnd]))
  }

  /** The sections a delta carries: one for each opcode that is not equal, in order. */
  function Sections(ops: seq<Opcode>, old_: seq<string>, new_: seq<string>): seq<Section>
    requires InRange(ops, old_, new_)
  {
    if ops == [] then []
    else (if ops[0].tag.Equal? then [] else [SectionOf(ops[0], old_, new_)]) + Sections(ops[1..], old_, new_)
  }

  /** The loop that collects them. */
  method CollectSections(ops: seq<Opcode>, old_: seq<string>, new_: seq<string>) returns (sections: seq<Section>)
    requires InRange(ops, old_, new_)
    ensures sections == Sections(ops, old_, new_)
  {
    hide SectionOf;
    sections := [];
    for k := 0 to |ops|
      invariant sections + Sections(ops[k..], old_, new_) == Sections(ops, old_, new_)
    {
      assert ops[k..][0] == ops[k] && ops[k..][1..] == ops[k + 1..];
      if !ops[k].tag.Equal? {
        sections := sections + [SectionOf(ops[k], old_, new_)];
      }
    }
  }

  // ---- Applying a delta ----

  /** Sections in order, inside the old lines, and removing what they say they remove. */
  predicate Fits(sections: seq<Section>, old_: seq<string>, from: nat) {
    if sections == [] then from <= |old_|
    else
      && from <= sections[0].startLine <= sections[0].endLine <= |old_|
      && sections[0].removed == Join(old_[sections[0].startLine..sections[0].endLine])
      && Fits(sections[1..], old_, sections[0].endLine)
  }

  /** Copy the old lines from `from` on, replacing each section's lines by its insertion. */
  function Patched(sections: seq<Section>, old_: seq<string>, from: nat): string
    requires Fits(sections, old_, from)
  {
    if sections == [] then Join(old_[from..])
    else Join(old_[from..sections[0].startLine]) + sections[0].inserted
         + Patched(sections[1..], old_, sections[0].endLine)
  }

  lemma {:induction false} FitsEarlier(sections: seq<Section>, old_: seq<string>, from: nat, at: nat)
    requires Fits(sections, old_, at) && from <= at <= |old_|
    ensures Fits(sections, old_, from)
    ensures Patched(sections, old_, from) == Join(old_[from..at]) + Patched(sections, old_, at)
  {
    if sections == [] {
      assert old_[from..] == old_[from..at] + old_[at..];
      JoinConcat(old_[from..at], old_[at..]);
    } else {
      var start := sections[0].startLine;
      assert old_[from..start] == old_[from..at] + old_[at..start];
      JoinConcat(old_[from..at], old_[at..start]);
    }
  }

  /** One opcode in front of sections that rebuild what follows it. */
  lemma OpcodeRebuilds(op: Opcode, rest: seq<Section>, old_: seq<string>, new_: seq<string>)
    requires op.oldStart <= op.oldEnd <= |old_| && op.newStart <= op.newEnd <= |new_|
    requires op.tag.Equal? ==> old_[op.oldStart..op.oldEnd] == new_[op.newStart..op.newEnd]
    requires Fits(rest, old_, op.oldEnd) && Patched(rest, old_, op.oldEnd) == Join(new_[op.newEnd..])
    ensures var sections := (if op.tag.Equal? then [] else [SectionOf(op, old_, new_)]) + rest;
            Fits(sections, old_, op.oldStart) && Patched(sections, old_, op.oldStart) == Join(new_[op.newStart..])
  {
    assert new_[op.newStart..] == new_[op.newStart..op.newEnd] + new_[op.newEnd..];
    JoinConcat(new_[op.newStart..op.newEnd], new_[op.newEnd..]);
    hide Join;
    if op.tag.Equal? {
      assert [] + rest == rest;
      FitsEarlier(rest, old_, op.oldStart, op.oldEnd);
    } else {
      var sections := [SectionOf(op, old_, new_)] + rest;
      assert sections[1..] == rest && old_[op.oldStart..op.oldStart] == [];
    }
  }

  lemma {:induction false} SectionsRebuild(ops: seq<Opcode>, old_: seq<string>, new_: seq<string>, i: nat, j: nat)
    requires i <= |old_| && j <= |new_| && TilesFrom(ops, old_, new_, i, j) && InRange(ops, old_, new_)
    ensures Fits(Sections(ops, old_, new_), old_, i)
    ensures Patched(Sections(ops, old_, new_), old_, i) == Join(new_[j..])
  {
    if ops != [] {
      hide Fits, Patched, SectionOf, Join;
      SectionsRebuild(ops[1..], old_, new_, ops[0].oldEnd, ops[0].newEnd);
      OpcodeRebuilds(ops[0], Sections(ops[1..], old_, new_), old_, new_);
    }
  }

  /** The body the model has after applying a delta to the body it was computed from. */
  function Patch(body: string, sections: seq<Section>): string {
    if Fits(sections, SplitLines(body), 0) then Patched(sections, SplitLines(body), 0) else body
  }

  /** For every tiling opcode list, the sections fit the old body and rebuild the new one exactly. */
  lemma DeltaRoundTrip(oldBody: string, newBody: string, ops: seq<Opcode>)
    requires Tiles(ops, SplitLines(oldBody), SplitLines(newBody))
    ensures InRange(ops, SplitLines(oldBody), SplitLines(newBody))
    ensures var sections := Sections(ops, SplitLines(oldBody), SplitLines(newBody));
            Fits(sections, SplitLines(oldBody), 0) && Patch(oldBody, sections) == newBody
  {
    var before, after := SplitLines(oldBody), SplitLines(newBody);
    TilesInRange(ops, before, after, 0, 0);
    SectionsRebuild(ops, before, after, 0, 0);
    assert after[0..] == after;
    JoinSplit(newBody);
  }
}
