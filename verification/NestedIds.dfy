/** Identities of nested tool calls (harness/codemode/handler.go). A string is its sequence of bytes. */
module NestedIds {

  // ---------------------------------------------------------------------
  // strconv.Itoa on non-negative numbers.

  function Digit(n: nat): char
    requires n < 10
  {
    "0123456789"[n]
  }

  function Itoa(n: nat): string
    decreases n
  {
    if n < 10 then [Digit(n)] else Itoa(n / 10) + [Digit(n % 10)]
  }

  function Value(digits: string): int {
    if digits == "" then 0 else 10 * Value(digits[..|digits| - 1]) + (digits[|digits| - 1] as int - '0' as int)
  }

  lemma {:induction false} ItoaReadsBack(n: nat)
    ensures Value(Itoa(n)) == n && Itoa(n) != "" && ':' !in Itoa(n)
    decreases n
  {
    if n >= 10 {
      ItoaReadsBack(n / 10);
      var s := Itoa(n);
      assert s[..|s| - 1] == Itoa(n / 10) && s[|s| - 1] == Digit(n % 10);
    } else {
      assert Itoa(n)[..0] == "";
    }
  }

  lemma ItoaInjective(a: nat, b: nat)
    ensures Itoa(a) == Itoa(b) <==> a == b
  {
    ItoaReadsBack(a);
    ItoaReadsBack(b);
  }

  // ---------------------------------------------------------------------
  // nestedCallID.

  /** A length, a colon, and that many bytes. */
  function Framed(text: string): string {
    Itoa(|text|) + ":" + text
  }

  function NestedCallId(outer: string, step: nat, executor: string): string {
    "codemode:" + Framed(outer) + ":" + Itoa(step) + ":" + Framed(executor)
  }

  /** Text without the separator ends where the separator first stands. */
  lemma HeadUnique(mark: char, a: string, b: string, x: string, y: string)
    requires mark !in a && mark !in b && a + [mark] + x == b + [mark] + y
    ensures a == b && x == y
  {
    var left, right := a + [mark] + x, b + [mark] + y;
    assert |a| == |b| by {
      assert left[|a|] == mark && right[|b|] == mark;
    }
    assert left[..|a|] == a && right[..|b|] == b;
    assert left[|a| + 1..] == x && right[|b| + 1..] == y;
  }

  /** A framed text ends where its length says, whatever follows and whatever it contains. */
  lemma FrameUnique(s: string, t: string, x: string, y: string)
    requires Framed(s) + x == Framed(t) + y
    ensures s == t && x == y
  {
    ItoaReadsBack(|s|);
    ItoaReadsBack(|t|);
    assert Framed(s) + x == Itoa(|s|) + ":" + (s + x);
    assert Framed(t) + y == Itoa(|t|) + ":" + (t + y);
    HeadUnique(':', Itoa(|s|), Itoa(|t|), s + x, t + y);
    assert (s + x)[..|s|] == s && (t + y)[..|t|] == t;
    assert (s + x)[|s|..] == x && (t + y)[|t|..] == y;
  }

  /** Opaque outer and executor IDs, separators included, never alias: equal nested IDs come from the same call. */
  lemma NestedIdInjective(outer: string, step: nat, executor: string, outer2: string, step2: nat, executor2: string)
    ensures NestedCallId(outer, step, executor) == NestedCallId(outer2, step2, executor2) <==>
      outer == outer2 && step == step2 && executor == executor2
  {
    hide Framed, Itoa;
    var a, b := NestedCallId(outer, step, executor), NestedCallId(outer2, step2, executor2);
    if a == b {
      var x, y := TailOf(step, executor), TailOf(step2, executor2);
      Regrouped(outer, step, executor);
      Regrouped(outer2, step2, executor2);
      assert a[9..] == Framed(outer) + x && b[9..] == Framed(outer2) + y;
      FrameUnique(outer, outer2, x, y);
      TailInjective(step, executor, step2, executor2);
    }
  }

  function TailOf(step: nat, executor: string): string {
    ":" + (Itoa(step) + ":" + Framed(executor))
  }

  lemma Regrouped(outer: string, step: nat, executor: string)
    ensures NestedCallId(outer, step, executor) == "codemode:" + (Framed(outer) + TailOf(step, executor))
  {
    hide Framed, Itoa;
  }

  lemma TailInjective(step: nat, executor: string, step2: nat, executor2: string)
    requires TailOf(step, executor) == TailOf(step2, executor2)
    ensures step == step2 && executor == executor2
  {
    hide Framed, Itoa;
    var x, y := TailOf(step, executor), TailOf(step2, executor2);
    assert x[1..] == Itoa(step) + ":" + Framed(executor) && y[1..] == Itoa(step2) + ":" + Framed(executor2);
    ItoaReadsBack(step);
    ItoaReadsBack(step2);
    HeadUnique(':', Itoa(step), Itoa(step2), Framed(executor), Framed(executor2));
    assert Framed(executor) + "" == Framed(executor2) + "";
    FrameUnique(executor, executor2, "", "");
  }

  // ---------------------------------------------------------------------
  // Operation IDs of the journal records have no such frame.

  function ProgramOperationId(outer: string, step: nat): string {
    outer + "/" + Itoa(step)
  }

  function CallOperationId(outer: string, step: nat, executor: string): string {
    outer + "/" + Itoa(step) + "/" + executor
  }

  /** When the second text has no separator, the join splits there or earlier. */
  lemma LastSlash(a: string, x: string, b: string, y: string)
    requires a + "/" + x == b + "/" + y && '/' !in y && |b| <= |a|
    ensures a == b && x == y
  {
    var left, right := a + "/" + x, b + "/" + y;
    assert left[|a|] == '/' && forall k :: |b| < k < |right| ==> right[k] in y;
    assert a == left[..|a|] == right[..|b|] == b;
    assert x == left[|a| + 1..] == right[|b| + 1..] == y;
  }

  lemma {:induction false} ItoaNoSlash(n: nat)
    ensures '/' !in Itoa(n)
    decreases n
  {
    if n >= 10 {
      ItoaNoSlash(n / 10);
    }
  }

  /** Program records are told apart by their IDs all the same. */
  lemma ProgramOperationInjective(outer: string, step: nat, outer2: string, step2: nat)
    ensures ProgramOperationId(outer, step) == ProgramOperationId(outer2, step2) <==> outer == outer2 && step == step2
  {
    ItoaNoSlash(step);
    ItoaNoSlash(step2);
    if ProgramOperationId(outer, step) == ProgramOperationId(outer2, step2) {
      if |outer2| <= |outer| {
        LastSlash(outer, Itoa(step), outer2, Itoa(step2));
      } else {
        LastSlash(outer2, Itoa(step2), outer, Itoa(step));
      }
      ItoaInjective(step, step2);
    }
  }

  /** The first text stands before the separator of the second: what follows it there begins with the rest. */
  lemma SplitEarlier(a: string, x: string, b: string, y: string) returns (u: string)
    requires a + "/" + x == b + "/" + y && |a| < |b|
    ensures x == u + "/" + y && b == a + "/" + u
  {
    var left, right := a + "/" + x, b + "/" + y;
    u := b[|a| + 1..];
    assert b == left[..|b|] && right[..|b|] == b;
    assert b[|a|] == left[|a|] == '/';
    assert b == b[..|a|] + [b[|a|]] + u && b[..|a|] == left[..|a|] == a;
    assert x == left[|a| + 1..] && right[|a| + 1..] == u + "/" + y;
  }

  lemma CallRecordRegrouped(outer: string, step: nat, executor: string, rest: string)
    ensures CallOperationId(outer, step, executor + "/" + rest) == CallOperationId(outer, step, executor) + "/" + rest
  {
    assert outer + "/" + Itoa(step) + "/" + (executor + "/" + rest) == outer + "/" + Itoa(step) + "/" + executor + "/" + rest;
  }

  /** A call record carries the ID of a program record exactly when the executor's ID is the decimal step of a program whose outer ID is
      that of the call's own program record, or ends in that step and what stands before it gives the outer ID as a call record's. */
  lemma CallRecordAliases(outer: string, step: nat, executor: string, outer2: string, step2: nat)
    ensures CallOperationId(outer, step, executor) == ProgramOperationId(outer2, step2) <==>
      || (outer2 == ProgramOperationId(outer, step) && executor == Itoa(step2))
      || exists u :: executor == u + "/" + Itoa(step2) && outer2 == CallOperationId(outer, step, u)
  {
    ItoaNoSlash(step2);
    hide Itoa;
    var program, rest := ProgramOperationId(outer, step), Itoa(step2);
    if program + "/" + executor == outer2 + "/" + rest {
      if |program| < |outer2| {
        var u := SplitEarlier(program, executor, outer2, rest);
        assert outer2 == CallOperationId(outer, step, u);
      } else {
        LastSlash(program, executor, outer2, rest);
      }
    }
    forall u | executor == u + "/" + rest && outer2 == CallOperationId(outer, step, u)
      ensures CallOperationId(outer, step, executor) == outer2 + "/" + rest
    {
      CallRecordRegrouped(outer, step, u, rest);
    }
  }

  /** Two call records share an ID exactly when they are of one call, or one executor ID ends in the other and what stands before it,
      read as an executor ID, would give its call the ID of the other's program. */
  lemma CallRecordsAlias(outer: string, step: nat, executor: string, outer2: string, step2: nat, executor2: string)
    ensures CallOperationId(outer, step, executor) == CallOperationId(outer2, step2, executor2) <==>
      || (outer == outer2 && step == step2 && executor == executor2)
      || (exists u :: executor == u + "/" + executor2 && CallOperationId(outer, step, u) == ProgramOperationId(outer2, step2))
      || (exists u :: executor2 == u + "/" + executor && CallOperationId(outer2, step2, u) == ProgramOperationId(outer, step))
  {
    hide Itoa;
    var program, program2 := ProgramOperationId(outer, step), ProgramOperationId(outer2, step2);
    ProgramOperationInjective(outer, step, outer2, step2);
    var left, right := program + "/" + executor, program2 + "/" + executor2;
    assert left == CallOperationId(outer, step, executor) && right == CallOperationId(outer2, step2, executor2);
    if left == right {
      if |program| == |program2| {
        assert program == left[..|program|] == program2 && executor == left[|program| + 1..] == executor2;
      } else if |program| < |program2| {
        var u := SplitEarlier(program, executor, program2, executor2);
        assert CallOperationId(outer, step, u) == program2;
      } else {
        var u := SplitEarlier(program2, executor2, program, executor);
        assert CallOperationId(outer2, step2, u) == program;
      }
    }
    forall u | executor == u + "/" + executor2 && CallOperationId(outer, step, u) == program2 ensures left == right {
      CallRecordRegrouped(outer, step, u, executor2);
    }
    forall u | executor2 == u + "/" + executor && CallOperationId(outer2, step2, u) == program ensures left == right {
      CallRecordRegrouped(outer2, step2, u, executor);
    }
  }

  /** The parent call ID a record carries beside its operation ID resolves all of this: under one outer ID no two records alias. */
  lemma SameParentDistinct(outer: string, step: nat, executor: string, step2: nat, executor2: string)
    ensures CallOperationId(outer, step, executor) == CallOperationId(outer, step2, executor2) <==> step == step2 && executor == executor2
    ensures CallOperationId(outer, step, executor) != ProgramOperationId(outer, step2)
  {
    ItoaNoSlash(step);
    ItoaNoSlash(step2);
    ItoaInjective(step, step2);
    hide Itoa;
    var left, right := CallOperationId(outer, step, executor), CallOperationId(outer, step2, executor2);
    var program := ProgramOperationId(outer, step2);
    assert left[|outer| + 1..] == Itoa(step) + "/" + executor && right[|outer| + 1..] == Itoa(step2) + "/" + executor2;
    assert program[|outer| + 1..] == Itoa(step2);
    if left == right {
      HeadUnique('/', Itoa(step), Itoa(step2), executor, executor2);
    }
    assert left[|outer| + 1..][|Itoa(step)|] == '/';
  }

  /** Calls of different outer IDs whose records do share one: with a program's record, and with each other's. */
  lemma AliasesOccur()
    ensures CallOperationId("o", 0, "1") == ProgramOperationId("o/0", 1)
    ensures CallOperationId("o", 0, "a/1") == ProgramOperationId("o/0/a", 1)
    ensures CallOperationId("o", 1, "2/x") == CallOperationId("o/1", 2, "x")
  {
    assert Itoa(0) == "0" && Itoa(1) == "1" && Itoa(2) == "2";
    assert CallOperationId("o", 0, "a/1") == "o/0/a/1";
  }
}
