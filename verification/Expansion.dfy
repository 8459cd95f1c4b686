/**
 $(VAR) expansion, internal/expansion/expand.go.  Go strings are byte sequences,
 and so are these: the code indexes bytes, and turns one byte into a string by
 way of its code point.
 */
module Expansion {
  import opened Common

  type Byte = x: int | 0 <= x < 256
  type Bytes = seq<Byte>

  const DOLLAR: Byte := 36
  const OPEN: Byte := 40
  const CLOSE: Byte := 41

  /** string(b) in Go: the UTF-8 encoding of the code point b. */
  function RuneBytes(b: Byte): Bytes {
    if b < 128 then [b] else [192 + b / 64, 128 + b % 64]
  }

  function SyntaxWrap(name: Bytes): Bytes {
    [DOLLAR, OPEN] + name + [CLOSE]
  }

  /** The first context that binds the name decides; an unbound name stays a reference. */
  function MappingFuncFor(contexts: seq<map<Bytes, Bytes>>, name: Bytes): Bytes {
    if contexts == [] then SyntaxWrap(name)
    else if name in contexts[0] then contexts[0][name]
    else MappingFuncFor(contexts[1..], name)
  }

  /** A bound name gets its value in the first context that has it. */
  lemma {:induction false} FirstBindingWins(contexts: seq<map<Bytes, Bytes>>, name: Bytes, i: nat)
    requires i < |contexts| && name in contexts[i] && forall j :: 0 <= j < i ==> name !in contexts[j]
    ensures MappingFuncFor(contexts, name) == contexts[i][name]
    decreases |contexts|
  {
    if i > 0 { FirstBindingWins(contexts[1..], name, i - 1); }
  }

  lemma {:induction false} UnboundStays(contexts: seq<map<Bytes, Bytes>>, name: Bytes)
    requires forall j :: 0 <= j < |contexts| ==> name !in contexts[j]
    ensures MappingFuncFor(contexts, name) == SyntaxWrap(name)
    decreases |contexts|
  {
    if contexts != [] { UnboundStays(contexts[1..], name); }
  }

  /** Position of the first closing parenthesis at or after `from`, or -1. */
  function FindClose(s: Bytes, from: nat): (r: int)
    requires from <= |s|
    ensures r == -1 || (from <= r < |s| && s[r] == CLOSE)
    ensures forall i :: from <= i < |s| && (r == -1 || i < r) ==> s[i] != CLOSE
    decreases |s| - from
  {
    if from == |s| then -1 else if s[from] == CLOSE then from else FindClose(s, from + 1)
  }

  /** tryReadVariableName: what was read, whether it is a variable name, and how many bytes
      were consumed. */
  function TryRead(s: Bytes): (r: (Bytes, bool, nat))
    requires s != []
    ensures 1 <= r.2 <= |s|
  {
    if s[0] == DOLLAR then ([DOLLAR], false, 1)
    else if s[0] == OPEN then
      var i := FindClose(s, 1);
      if i != -1 then (s[1..i], true, i + 1) else ([DOLLAR, OPEN], false, 1)
    else ([DOLLAR] + RuneBytes(s[0]), false, 1)
  }

  /** What the loop writes for the text behind an operator. */
  function ReadOut(s: Bytes, mapping: Bytes -> Bytes): Bytes
    requires s != []
  {
    if TryRead(s).1 then mapping(TryRead(s).0) else TryRead(s).0
  }

  // ---- the grammar ----

  datatype Token =
    | Literal(b: Byte)      // also a dollar at the very end
    | Escape                // $$
    | Reference(name: Bytes) // $(name)
    | Unclosed              // $( without a closing parenthesis
    | Other(b: Byte)        // $ and any other byte

  function Text(t: Token): Bytes {
    match t
    case Literal(b) => [b]
    case Escape => [DOLLAR, DOLLAR]
    case Reference(name) => SyntaxWrap(name)
    case Unclosed => [DOLLAR, OPEN]
    case Other(b) => [DOLLAR, b]
  }

  function Render(t: Token, mapping: Bytes -> Bytes): Bytes {
    match t
    case Literal(b) => [b]
    case Escape => [DOLLAR]
    case Reference(name) => mapping(name)
    case Unclosed => [DOLLAR, OPEN]
    case Other(b) => [DOLLAR] + RuneBytes(b)
  }

  /** The first token of a string and the number of bytes it takes. */
  function First(s: Bytes): (r: (Token, nat))
    requires s != []
    ensures 1 <= r.1 <= |s| && Text(r.0) == s[..r.1]
  {
    if s[0] != DOLLAR || |s| == 1 then (Literal(s[0]), 1)
    else if s[1] == DOLLAR then (Escape, 2)
    else if s[1] == OPEN then
      var i := FindClose(s, 2);
      if i != -1 then (Reference(s[2..i]), i + 1) else (Unclosed, 2)
    else (Other(s[1]), 2)
  }

  function Parse(s: Bytes): seq<Token> {
    if s == [] then [] else [First(s).0] + Parse(s[First(s).1..])
  }

  function Texts(ts: seq<Token>): Bytes {
    if ts == [] then [] else Text(ts[0]) + Texts(ts[1..])
  }

  function Expanded(s: Bytes, mapping: Bytes -> Bytes): Bytes {
    if s == [] then [] else Render(First(s).0, mapping) + Expanded(s[First(s).1..], mapping)
  }

  lemma TextsCons(t: Token, ts: seq<Token>)
    ensures Texts([t] + ts) == Text(t) + Texts(ts)
  {
    assert ([t] + ts)[1..] == ts;
  }

  lemma Cut(s: Bytes, n: nat)
    requires n <= |s|
    ensures s[..n] + s[n..] == s
  {
  }

  /** Reading a string as tokens loses nothing. */
  lemma {:induction false} ParseIsLossless(s: Bytes)
    ensures Texts(Parse(s)) == s
    decreases |s|
  {
    if s != [] {
      var n := First(s).1;
      var ts := Parse(s[n..]);
      ParseIsLossless(s[n..]);
      TextsCons(First(s).0, ts);
      Cut(s, n);
    }
  }

  /** Expansion renders token by token. */
  lemma {:induction false} ExpansionRendersTokens(s: Bytes, mapping: Bytes -> Bytes)
    ensures Expanded(s, mapping) == Renders(Parse(s), mapping)
    decreases |s|
  {
    if s != [] {
      ExpansionRendersTokens(s[First(s).1..], mapping);
      assert Parse(s)[1..] == Parse(s[First(s).1..]);
    }
  }

  function Renders(ts: seq<Token>, mapping: Bytes -> Bytes): Bytes {
    if ts == [] then [] else Render(ts[0], mapping) + Renders(ts[1..], mapping)
  }

  // ---- what the grammar means ----

  /** A byte that is not a dollar stands for itself, and so does a dollar at the very end. */
  lemma LiteralExpands(b: Byte, rest: Bytes, mapping: Bytes -> Bytes)
    requires b != 36 || rest == []
    ensures Expanded([b] + rest, mapping) == [b] + Expanded(rest, mapping)
  {
    assert ([b] + rest)[1..] == rest;
  }

  /** Two dollars stand for one. */
  lemma EscapeStands(rest: Bytes, mapping: Bytes -> Bytes)
    ensures Expanded([36, 36] + rest, mapping) == [36] + Expanded(rest, mapping)
  {
    assert ([36, 36] + rest)[2..] == rest;
  }

  lemma CloseAt(name: Bytes, rest: Bytes)
    requires 41 !in name
    ensures FindClose([36, 40] + name + [41] + rest, 2) == 2 + |name|
  {
    var s := [36, 40] + name + [41] + rest;
    assert forall i :: 2 <= i < 2 + |name| ==> s[i] == name[i - 2];
    assert s[2 + |name|] == 41;
  }

  /** A reference stands for the value of its name, which ends at the first parenthesis. */
  lemma ReferenceExpands(name: Bytes, rest: Bytes, mapping: Bytes -> Bytes)
    requires 41 !in name
    ensures Expanded([36, 40] + name + [41] + rest, mapping) == mapping(name) + Expanded(rest, mapping)
  {
    var s := [36, 40] + name + [41] + rest;
    CloseAt(name, rest);
    assert s[2..2 + |name|] == name && s[3 + |name|..] == rest;
  }

  /** A reference that is never closed is no reference. */
  lemma UnclosedExpands(rest: Bytes, mapping: Bytes -> Bytes)
    requires 41 !in rest
    ensures Expanded([36, 40] + rest, mapping) == [36, 40] + Expanded(rest, mapping)
  {
    var s := [36, 40] + rest;
    assert forall i :: 2 <= i < |s| ==> s[i] == rest[i - 2];
    assert s[2..] == rest;
  }

  /** A dollar before any other byte stays, with that byte as the text of its code point. */
  lemma DollarExpands(b: Byte, rest: Bytes, mapping: Bytes -> Bytes)
    requires b != 36 && b != 40
    ensures Expanded([36, b] + rest, mapping) ==
            [36] + (if b < 128 then [b] else [192 + b / 64, 128 + b % 64]) + Expanded(rest, mapping)
  {
    assert ([36, b] + rest)[2..] == rest;
  }

  // ---- the loop ----

  lemma FindCloseShift(s: Bytes, from: nat)
    requires 1 <= from <= |s|
    ensures FindClose(s[1..], from - 1) == if FindClose(s, from) == -1 then -1 else FindClose(s, from) - 1
    decreases |s| - from
  {
    if from < |s| && s[from] != CLOSE {
      FindCloseShift(s, from + 1);
    }
  }

  /** What the loop reads after an operator is the token there. */
  lemma ReadIsToken(s: Bytes, mapping: Bytes -> Bytes)
    requires |s| >= 2 && s[0] == DOLLAR
    ensures First(s).1 == TryRead(s[1..]).2 + 1 && Render(First(s).0, mapping) == ReadOut(s[1..], mapping)
  {
    FindCloseShift(s, 2);
    var i := FindClose(s, 2);
    if s[1] == OPEN && i != -1 {
      assert s[1..][1..i - 1] == s[2..i];
    }
  }

  lemma AtOperator(input: Bytes, cursor: nat, mapping: Bytes -> Bytes, out: Bytes, next: nat)
    requires cursor + 1 < |input| && input[cursor] == DOLLAR
    requires out == ReadOut(input[cursor + 1..], mapping) && next == cursor + 1 + TryRead(input[cursor + 1..]).2
    ensures next <= |input| && Expanded(input[cursor..], mapping) == out + Expanded(input[next..], mapping)
  {
    var rest := input[cursor..];
    ReadIsToken(rest, mapping);
    assert rest[1..] == input[cursor + 1..];
    assert rest[next - cursor..] == input[next..];
  }

  lemma AtLiteral(input: Bytes, cursor: nat, mapping: Bytes -> Bytes)
    requires cursor < |input| && (input[cursor] != DOLLAR || cursor + 1 == |input|)
    ensures Expanded(input[cursor..], mapping) == [input[cursor]] + Expanded(input[cursor + 1..], mapping)
  {
    assert input[cursor..][1..] == input[cursor + 1..];
  }

  /** `done` is written, and the rest of the input is still to be expanded. */
  ghost predicate Progress(input: Bytes, mapping: Bytes -> Bytes, done: Bytes, cursor: nat)
    requires cursor <= |input|
  {
    done + Expanded(input[cursor..], mapping) == Expanded(input, mapping)
  }

  lemma Advances(input: Bytes, mapping: Bytes -> Bytes, done: Bytes, cursor: nat, out: Bytes, next: nat)
    requires cursor <= next <= |input| && Progress(input, mapping, done, cursor)
    requires Expanded(input[cursor..], mapping) == out + Expanded(input[next..], mapping)
    ensures Progress(input, mapping, done + out, next)
  {
    var after := Expanded(input[next..], mapping);
    assert done + (out + after) == done + out + after;
  }

  /** What is written is in the buffer or still to be copied from the checkpoint on. */
  ghost predicate Pending(done: Bytes, buf: Bytes, input: Bytes, checkpoint: nat, cursor: nat)
    requires checkpoint <= cursor <= |input|
  {
    done == buf + input[checkpoint..cursor]
  }

  lemma Flushed(buf: Bytes, input: Bytes, i: nat)
    requires i <= |input|
    ensures Pending(buf, buf, input, i, i)
  {
  }

  lemma OneMore(done: Bytes, buf: Bytes, input: Bytes, i: nat, j: nat)
    requires i <= j < |input| && Pending(done, buf, input, i, j)
    ensures Pending(done + [input[j]], buf, input, i, j + 1)
  {
  }

  lemma Finished(input: Bytes, mapping: Bytes -> Bytes, done: Bytes, at: nat, buf: Bytes, i: nat)
    requires at == |input| && i <= at && Progress(input, mapping, done, at) && Pending(done, buf, input, i, at)
    ensures buf + input[i..] == Expanded(input, mapping)
  {
    assert input[at..] == [] && input[i..] == input[i..at];
    assert done + [] == done;
  }

  /** The reading step of the loop: what to write and how far to go. */
  method ReadVariable(input: Bytes, cursor: nat, mapping: Bytes -> Bytes)
    returns (out: Bytes, advance: nat, ghost next: nat)
    requires cursor + 1 < |input| && input[cursor] == DOLLAR
    ensures next == cursor + advance + 1 && next <= |input|
    ensures Expanded(input[cursor..], mapping) == out + Expanded(input[next..], mapping)
  {
    var (read, isVar, consumed) := TryRead(input[cursor + 1..]);
    out := if isVar then mapping(read) else read;
    advance := consumed;
    next := cursor + advance + 1;
    AtOperator(input, cursor, mapping, out, next);
  }

  /** Where the loop stands: what is written and what is left account for the whole input. */
  ghost predicate LoopInv(input: Bytes, mapping: Bytes -> Bytes, done: Bytes, buf: Bytes,
                          checkpoint: nat, cursor: nat)
  {
    && checkpoint <= cursor <= |input|
    && Progress(input, mapping, done, cursor)
    && Pending(done, buf, input, checkpoint, cursor)
  }

  lemma OperatorStep(input: Bytes, mapping: Bytes -> Bytes, done: Bytes, buf: Bytes, checkpoint: nat, cursor: nat,
                     out: Bytes, next: nat)
    requires LoopInv(input, mapping, done, buf, checkpoint, cursor) && cursor <= next <= |input|
    requires Expanded(input[cursor..], mapping) == out + Expanded(input[next..], mapping)
    ensures LoopInv(input, mapping, done + out, buf + input[checkpoint..cursor] + out, next, next)
  {
    Advances(input, mapping, done, cursor, out, next);
    Flushed(buf + input[checkpoint..cursor] + out, input, next);
  }

  lemma LiteralStep(input: Bytes, mapping: Bytes -> Bytes, done: Bytes, buf: Bytes, checkpoint: nat, cursor: nat)
    requires LoopInv(input, mapping, done, buf, checkpoint, cursor) && cursor < |input|
    requires input[cursor] != DOLLAR || cursor + 1 == |input|
    ensures LoopInv(input, mapping, done + [input[cursor]], buf, checkpoint, cursor + 1)
  {
    AtLiteral(input, cursor, mapping);
    Advances(input, mapping, done, cursor, [input[cursor]], cursor + 1);
    OneMore(done, buf, input, checkpoint, cursor);
  }

  lemma LoopEnd(input: Bytes, mapping: Bytes -> Bytes, done: Bytes, buf: Bytes, checkpoint: nat, cursor: nat)
    requires LoopInv(input, mapping, done, buf, checkpoint, cursor) && cursor == |input|
    ensures buf + input[checkpoint..] == Expanded(input, mapping)
  {
    Finished(input, mapping, done, cursor, buf, checkpoint);
  }

  /** Expand: copy up to the operator, read behind it, move cursor and checkpoint past it. */
  method Expand(input: Bytes, mapping: Bytes -> Bytes) returns (r: Bytes)
    ensures r == Expanded(input, mapping)
  {
    var buf: Bytes := [];
    var checkpoint, cursor := 0, 0;
    ghost var done: Bytes := [];
    ghost var from: nat, at: nat := 0, 0;
    assert input[0..] == input;
    while cursor < |input|
      invariant from == checkpoint && at == cursor && LoopInv(input, mapping, done, buf, from, at)
    {
      if input[cursor] == DOLLAR && cursor + 1 < |input| {
        var out, advance, next := ReadVariable(input, cursor, mapping);
        OperatorStep(input, mapping, done, buf, from, at, out, next);
        buf := buf + input[checkpoint..cursor] + out;
        done, from, at := done + out, next, next;
        cursor := cursor + advance;
        checkpoint := cursor + 1;
      } else {
        LiteralStep(input, mapping, done, buf, from, at);
        done, at := done + [input[at]], at + 1;
      }
      cursor := cursor + 1;
    }
    LoopEnd(input, mapping, done, buf, from, at);
    r := buf + input[checkpoint..];
  }

  // ---- escaping ----

  function Escaped(s: Bytes): Bytes {
    if s == [] then []
    else (if s[0] == DOLLAR then [DOLLAR, DOLLAR] else [s[0]]) + Escaped(s[1..])
  }

  /** Doubling every dollar protects any byte string from any mapping. */
  lemma {:induction false} EscapeRoundTrip(s: Bytes, mapping: Bytes -> Bytes)
    ensures Expanded(Escaped(s), mapping) == s
  {
    if s != [] {
      EscapeRoundTrip(s[1..], mapping);
      var e := Escaped(s);
      if s[0] == DOLLAR {
        assert e[2..] == Escaped(s[1..]);
        assert First(e) == (Escape, 2);
      } else {
        assert e[1..] == Escaped(s[1..]);
        assert First(e) == (Literal(s[0]), 1);
      }
      assert s == [s[0]] + s[1..];
    }
  }

  // ---- with nothing bound ----

  /** A token that expansion without variables leaves alone: all but $$ and a dollar
      before a byte outside ASCII. */
  predicate Inert(t: Token) {
    !t.Escape? && (t.Other? ==> t.b < 128)
  }

  predicate AllInert(s: Bytes)
    decreases |s|
  {
    s == [] || (Inert(First(s).0) && AllInert(s[First(s).1..]))
  }

  lemma InertRendersItself(t: Token)
    requires Inert(t)
    ensures Render(t, SyntaxWrap) == Text(t)
  {
  }

  /** An ASCII string free of $$ has only inert tokens. */
  lemma {:induction false} PlainIsInert(s: Bytes)
    requires forall i :: 0 <= i < |s| ==> s[i] < 128
    requires forall i :: 0 < i < |s| ==> s[i - 1] != DOLLAR || s[i] != DOLLAR
    ensures AllInert(s)
    decreases |s|
  {
    if s != [] {
      var n := First(s).1;
      assert |s| > 1 ==> s[1 - 1] != DOLLAR || s[1] != DOLLAR;
      forall i | 0 < i < |s| - n ensures s[n..][i - 1] != DOLLAR || s[n..][i] != DOLLAR {
        assert s[n + i - 1] != DOLLAR || s[n + i] != DOLLAR;
      }
      PlainIsInert(s[n..]);
    }
  }

  function Dollars(k: nat): Bytes {
    seq(k, _ => DOLLAR)
  }

  lemma EscapeExpands(s: Bytes)
    requires s != [] && First(s).0.Escape?
    ensures Expanded(s, SyntaxWrap)[1..] == Expanded(s[2..], SyntaxWrap)
  {
  }

  lemma DollarsShift(s: Bytes, k: nat)
    requires |s| >= 2 && s[0] == DOLLAR && s[1] == DOLLAR
    ensures (Dollars(k) + s)[1..] == Dollars(k + 1) + s[2..]
  {
  }

  /** Unless it starts with an escape, a string does not expand to two dollars in front. */
  lemma OneDollarAtMost(s: Bytes)
    requires s != [] && !First(s).0.Escape?
    ensures var e := Expanded(s, SyntaxWrap);
            || (e == [DOLLAR] && s == [DOLLAR])
            || (|e| > 0 && e[0] != DOLLAR)
            || (s[0] == DOLLAR && |e| > 1 && e[1] != DOLLAR)
  {
    var (t, n) := First(s);
    var e, head := Expanded(s, SyntaxWrap), Render(t, SyntaxWrap);
    assert e == head + Expanded(s[n..], SyntaxWrap);
    if t.Literal? {
      assert e[0] == s[0];
      if |s| == 1 { assert s[n..] == []; }
    } else {
      assert e[1] == head[1];
    }
  }

  lemma NotMoreDollars(s: Bytes, k: nat)
    requires k >= 1 && s != [] && !First(s).0.Escape?
    ensures Expanded(s, SyntaxWrap) != Dollars(k) + s
  {
    OneDollarAtMost(s);
    var want := Dollars(k) + s;
    assert |want| > 1 && want[0] == DOLLAR && (s[0] == DOLLAR ==> want[1] == DOLLAR);
  }

  /** Expansion cannot put back a dollar that an escape has lost. */
  lemma {:induction false} NoDollarsGained(s: Bytes, k: nat)
    requires k >= 1
    ensures Expanded(s, SyntaxWrap) != Dollars(k) + s
    decreases |s|
  {
    if s != [] {
      if First(s).0.Escape? {
        EscapeExpands(s);
        DollarsShift(s, k);
        NoDollarsGained(s[2..], k + 1);
      } else {
        NotMoreDollars(s, k);
      }
    }
  }

  const C3: Byte := 0xC3
  const X83: Byte := 0x83

  /** Nor can it lose the byte that a mangled one has gained. */
  lemma {:induction false} NoByteLost(s: Bytes)
    ensures [X83] + Expanded(s, SyntaxWrap) != s
    decreases |s|
  {
    if s != [] && s[0] == X83 {
      var e := [X83] + Expanded(s, SyntaxWrap);
      assert First(s) == (Literal(X83), 1);
      NoByteLost(s[1..]);
      assert e[1..] == [X83] + Expanded(s[1..], SyntaxWrap);
    }
  }

  lemma InertStep(s: Bytes)
    requires s != [] && Inert(First(s).0)
    ensures var n := First(s).1; Expanded(s, SyntaxWrap) == s <==> Expanded(s[n..], SyntaxWrap) == s[n..]
  {
    var n := First(s).1;
    InertRendersItself(First(s).0);
    assert s == s[..n] + s[n..];
    assert Expanded(s, SyntaxWrap) == s[..n] + Expanded(s[n..], SyntaxWrap);
    assert Expanded(s, SyntaxWrap)[n..] == Expanded(s[n..], SyntaxWrap);
  }

  lemma OneDollar(s: Bytes)
    requires |s| >= 2 && s[1] == DOLLAR
    ensures s[1..] == Dollars(1) + s[2..]
  {
  }

  lemma EscapeBreaks(s: Bytes)
    requires s != [] && First(s).0.Escape?
    ensures Expanded(s, SyntaxWrap) != s
  {
    EscapeExpands(s);
    NoDollarsGained(s[2..], 1);
    OneDollar(s);
  }

  lemma OtherExpands(s: Bytes)
    requires s != [] && First(s).0.Other?
    ensures Expanded(s, SyntaxWrap)[1..] == RuneBytes(First(s).0.b) + Expanded(s[2..], SyntaxWrap)
  {
  }

  /** The only byte outside ASCII whose encoding starts with itself is 0xC3. */
  lemma MangledByte(b: Byte, rest: Bytes, tail: Bytes)
    requires b >= 128 && tail != [X83] + rest
    ensures RuneBytes(b) + rest != [b] + tail
  {
    var e := RuneBytes(b) + rest;
    assert e[0] == 192 + b / 64;
    assert 192 + b / 64 == b ==> b == C3;
    assert b == C3 ==> e[1..] == [X83] + rest;
    assert ([b] + tail)[1..] == tail;
  }

  lemma MangledDiffers(b: Byte, e: Bytes, rest: Bytes, s: Bytes)
    requires b >= 128 && |s| >= 2 && s[1] == b && |e| >= 1 && e[1..] == RuneBytes(b) + rest
    requires [X83] + rest != s[2..]
    ensures e != s
  {
    MangledByte(b, rest, s[2..]);
    assert s[1..] == [b] + s[2..];
  }

  lemma MangledBreaks(s: Bytes)
    requires s != [] && First(s).0.Other? && First(s).0.b >= 128
    ensures Expanded(s, SyntaxWrap) != s
  {
    OtherExpands(s);
    NoByteLost(s[2..]);
    MangledDiffers(First(s).0.b, Expanded(s, SyntaxWrap), Expanded(s[2..], SyntaxWrap), s);
  }

  /** With no variables bound, expansion is the identity on exactly the strings whose
      tokens are all inert. */
  lemma {:induction false} UnboundIsIdentityIff(s: Bytes)
    ensures Expanded(s, SyntaxWrap) == s <==> AllInert(s)
    decreases |s|
  {
    if s != [] {
      if Inert(First(s).0) {
        InertStep(s);
        UnboundIsIdentityIff(s[First(s).1..]);
      } else if First(s).0.Escape? {
        EscapeBreaks(s);
      } else {
        MangledBreaks(s);
      }
    }
  }
}
