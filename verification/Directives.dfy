/** The directive lines of the preprocessor: how a line is recognised, what each directive does to the
    machine of `parsegen`, and what nested conditional groups mean (section 6.10.1 of ISO/IEC 9899:1999). */
module Directives {
  import opened MacroExpansion

  type Line = seq<Token>

  type Evaluator = (MacroTable, seq<Token>) -> bool

  // ----- Stripping white space -----

  function DropLeading(ts: seq<Token>): seq<Token> {
    if ts != [] && ts[0].kind == Whitespace then DropLeading(ts[1..]) else ts
  }

  function DropTrailing(ts: seq<Token>): seq<Token> {
    if ts != [] && ts[|ts| - 1].kind == Whitespace then DropTrailing(ts[..|ts| - 1]) else ts
  }

  /** `tokenstrip(tokens)` */
  function Strip(ts: seq<Token>): seq<Token> {
    DropTrailing(DropLeading(ts))
  }

  predicate Blank(ts: seq<Token>) {
    forall i :: 0 <= i < |ts| ==> ts[i].kind == Whitespace
  }

  /** `r` is what lies between the white space at both ends of `ts`. */
  ghost predicate Stripped(ts: seq<Token>, r: seq<Token>) {
    && (exists pre, post :: ts == pre + r + post && Blank(pre) && Blank(post))
    && (r != [] ==> r[0].kind != Whitespace && r[|r| - 1].kind != Whitespace)
  }

  lemma {:induction false} LeadingDropped(ts: seq<Token>) returns (pre: seq<Token>)
    ensures ts == pre + DropLeading(ts) && Blank(pre)
    ensures DropLeading(ts) != [] ==> DropLeading(ts)[0].kind != Whitespace
  {
    if ts != [] && ts[0].kind == Whitespace {
      var p := LeadingDropped(ts[1..]);
      pre := [ts[0]] + p;
      assert ts == [ts[0]] + ts[1..];
      assert [ts[0]] + (p + DropLeading(ts[1..])) == pre + DropLeading(ts);
    } else {
      pre := [];
    }
  }

  lemma {:induction false} TrailingDropped(ts: seq<Token>) returns (post: seq<Token>)
    ensures ts == DropTrailing(ts) + post && Blank(post)
    ensures DropTrailing(ts) != [] ==> DropTrailing(ts)[|DropTrailing(ts)| - 1].kind != Whitespace
  {
    if ts != [] && ts[|ts| - 1].kind == Whitespace {
      var p := TrailingDropped(ts[..|ts| - 1]);
      post := p + [ts[|ts| - 1]];
      assert ts == ts[..|ts| - 1] + [ts[|ts| - 1]];
    } else {
      post := [];
    }
  }

  /** Stripping does what it says, and nothing else does. */
  lemma StripIsStripped(ts: seq<Token>, r: seq<Token>)
    ensures Stripped(ts, r) <==> r == Strip(ts)
  {
    var l := DropLeading(ts);
    var pre := LeadingDropped(ts);
    var post := TrailingDropped(l);
    assert ts == pre + Strip(ts) + post;
    if Strip(ts) != [] {
      assert l[0] == Strip(ts)[0];
    }
    assert Stripped(ts, Strip(ts));
    if Stripped(ts, r) {
      StrippedOnce(ts, r, Strip(ts));
    }
  }

  /** Where the stripped part sits. */
  ghost predicate Span(ts: seq<Token>, r: seq<Token>, i: nat) {
    && i + |r| <= |ts| && r == ts[i..i + |r|]
    && (forall k :: 0 <= k < i ==> ts[k].kind == Whitespace)
    && (forall k :: i + |r| <= k < |ts| ==> ts[k].kind == Whitespace)
    && (r != [] ==> ts[i].kind != Whitespace && ts[i + |r| - 1].kind != Whitespace)
  }

  lemma StrippedSpan(ts: seq<Token>, r: seq<Token>) returns (i: nat)
    requires Stripped(ts, r)
    ensures Span(ts, r, i)
  {
    var p, q :| ts == p + r + q && Blank(p) && Blank(q);
    i := |p|;
    SpanParts(ts, p, r, q);
  }

  lemma SpanParts(ts: seq<Token>, p: seq<Token>, r: seq<Token>, q: seq<Token>)
    requires ts == p + r + q && Blank(p) && Blank(q)
    requires r != [] ==> r[0].kind != Whitespace && r[|r| - 1].kind != Whitespace
    ensures Span(ts, r, |p|)
  {
    forall k | 0 <= k < |p| ensures ts[k].kind == Whitespace {
      assert ts[k] == p[k];
    }
    forall k | |p| + |r| <= k < |ts| ensures ts[k].kind == Whitespace {
      assert ts[k] == q[k - |p| - |r|];
    }
    assert r != [] ==> ts[|p|] == r[0] && ts[|p| + |r| - 1] == r[|r| - 1];
  }

  lemma SpanOnce(ts: seq<Token>, r: seq<Token>, i: nat, s: seq<Token>, j: nat)
    requires Span(ts, r, i) && Span(ts, s, j)
    ensures |r| <= |s| && (r != [] ==> i == j && |r| == |s|)
  {
  }

  lemma StrippedOnce(ts: seq<Token>, r: seq<Token>, s: seq<Token>)
    requires Stripped(ts, r) && Stripped(ts, s)
    ensures r == s
  {
    var i := StrippedSpan(ts, r);
    var j := StrippedSpan(ts, s);
    SpanOnce(ts, r, i, s, j);
    SpanOnce(ts, s, j, r, i);
  }

  // ----- Reading a line -----

  /** The index of the first token that is not white space, or of the last token. */
  function FirstInk(x: Line): (i: nat)
    requires x != []
    ensures i < |x|
  {
    if x[0].kind != Whitespace || |x| == 1 then 0 else 1 + FirstInk(x[1..])
  }

  predicate IsDirective(x: Line) {
    x != [] && x[FirstInk(x)].value == "#"
  }

  function DirTokens(x: Line): seq<Token>
    requires IsDirective(x)
  {
    Strip(x[FirstInk(x) + 1..])
  }

  function DirName(x: Line): string
    requires IsDirective(x)
  {
    if DirTokens(x) == [] then "" else DirTokens(x)[0].value
  }

  function DirArgs(x: Line): seq<Token>
    requires IsDirective(x)
  {
    if DirTokens(x) == [] then [] else Strip(DirTokens(x)[1..])
  }

  predicate HoldsNewline(t: Token) {
    t.kind == Whitespace && '\n' in t.value
  }

  /** The line breaks of a directive line, kept in the output. */
  function Newlines(x: Line): seq<Token> {
    if x == [] then [] else (if HoldsNewline(x[0]) then [x[0]] else []) + Newlines(x[1..])
  }

  lemma {:induction false} NewlinesStay(m: MacroTable, b: set<string>, x: Line)
    ensures Expand(m, b, Newlines(x)) == Newlines(x)
  {
    if x != [] {
      NewlinesStay(m, b, x[1..]);
      if HoldsNewline(x[0]) {
        assert Newlines(x)[1..] == Newlines(x[1..]);
      } else {
        assert Newlines(x) == Newlines(x[1..]);
      }
    }
  }

  datatype Role = Opens | Continues | Closes | Plain

  /** The part a line plays in conditional groups. */
  function RoleOf(x: Line): Role {
    if !IsDirective(x) then Plain
    else if DirName(x) in {"if", "ifdef", "ifndef"} then Opens
    else if DirName(x) in {"elif", "else"} then Continues
    else if DirName(x) == "endif" then Closes
    else Plain
  }

  // ----- The machine of `parsegen` -----

  /** Macro table, pending text, and output. `ok` becomes false when an exception ends the run (a
      directive that needs an argument has none) or at a directive outside this model: `#include` and
      the definition of a function-like macro. */
  datatype Text = Text(macros: MacroTable, chunk: seq<Token>, out: seq<Token>, ok: bool)

  datatype Machine = Machine(enable: bool, iftrigger: bool, ifstack: seq<(bool, bool)>, text: Text, errors: nat)

  function Flush(s: Text): Text {
    s.(out := s.out + Expand(s.macros, {}, s.chunk), chunk := [])
  }

  /** `define(args)` */
  function Defined(macros: MacroTable, args: seq<Token>): MacroTable
    requires |args| >= 2 ==> args[1].value != "(" || args[1].kind == Whitespace
  {
    if args == [] then macros
    else if |args| == 1 then macros[args[0].value := []]
    else if args[1].kind == Whitespace then macros[args[0].value := Strip(args[2..])]
    else macros
  }

  predicate FunctionLike(args: seq<Token>) {
    |args| >= 2 && args[1].kind != Whitespace && args[1].value == "("
  }

  /** An unconditional directive in an enabled region. */
  function Perform(s: Text, name: string, args: seq<Token>): Text {
    if name == "define" then
      var s := Flush(s);
      if FunctionLike(args) then s.(ok := false) else s.(macros := Defined(s.macros, args))
    else if name == "include" then Flush(s).(ok := false)
    else if name == "undef" then
      var s := Flush(s);
      if args == [] then s.(ok := false) else s.(macros := s.macros - {args[0].value})
    else s
  }

  /** Whether the condition of an opening or continuing line holds. */
  predicate Holds(ev: Evaluator, macros: MacroTable, x: Line)
    requires IsDirective(x)
  {
    var name, args := DirName(x), DirArgs(x);
    if name == "ifdef" then args != [] && args[0].value in macros
    else if name == "ifndef" then args != [] && args[0].value !in macros
    else if name == "else" then true
    else ev(macros, args)
  }

  /** `#ifdef` and `#ifndef` fail without a name. */
  predicate NeedsName(x: Line)
    requires IsDirective(x)
  {
    DirName(x) in {"ifdef", "ifndef"} && DirArgs(x) == []
  }

  /** One line of input. */
  function Step(ev: Evaluator, m: Machine, x: Line): Machine {
    if !m.text.ok then m
    else if !IsDirective(x) then if m.enable then m.(text := m.text.(chunk := m.text.chunk + x)) else m
    else
      var m := m.(text := m.text.(chunk := m.text.chunk + Newlines(x)));
      match RoleOf(x)
      case Opens =>
        var m' := m.(ifstack := m.ifstack + [(m.enable, m.iftrigger)]);
        if !m.enable then m'
        else if NeedsName(x) then m'.(text := m.text.(ok := false))
        else if Holds(ev, m.text.macros, x) then m'.(iftrigger := true)
        else m'.(enable := false, iftrigger := false)
      case Continues =>
        if m.ifstack == [] then m.(errors := m.errors + 1)
        else if !m.ifstack[|m.ifstack| - 1].0 then m
        else if m.enable then m.(enable := false)
        else if !m.iftrigger && Holds(ev, m.text.macros, x) then m.(enable := true, iftrigger := true)
        else m
      case Closes =>
        if m.ifstack == [] then m.(errors := m.errors + 1)
        else
          var top := m.ifstack[|m.ifstack| - 1];
          m.(enable := top.0, iftrigger := top.1, ifstack := m.ifstack[..|m.ifstack| - 1])
      case Plain => if m.enable then m.(text := Perform(m.text, DirName(x), DirArgs(x))) else m
  }

  function RunLines(ev: Evaluator, m: Machine, lines: seq<Line>): Machine
    decreases lines
  {
    if lines == [] then m else RunLines(ev, Step(ev, m, lines[0]), lines[1..])
  }

  lemma {:induction false} RunConcat(ev: Evaluator, m: Machine, a: seq<Line>, b: seq<Line>)
    ensures RunLines(ev, m, a + b) == RunLines(ev, RunLines(ev, m, a), b)
    decreases a
  {
    hide Step;
    if a == [] {
      assert a + b == b;
    } else {
      assert (a + b)[0] == a[0] && (a + b)[1..] == a[1..] + b;
      RunConcat(ev, Step(ev, m, a[0]), a[1..], b);
    }
  }

  lemma RunOneLine(ev: Evaluator, m: Machine, x: Line)
    ensures RunLines(ev, m, [x]) == Step(ev, m, x)
  {
    assert [x][1..] == [];
    assert RunLines(ev, Step(ev, m, x), []) == Step(ev, m, x);
  }

  lemma {:induction false} StoppedRun(ev: Evaluator, m: Machine, lines: seq<Line>)
    requires !m.text.ok
    ensures RunLines(ev, m, lines) == m
    decreases lines
  {
    if lines != [] {
      StoppedRun(ev, m, lines[1..]);
    }
  }

  // ----- Nested conditional groups -----

  /** A line outside conditionals, or a group: its sections, each with the line that heads it, and the
      `#endif` line. */
  datatype Part = One(line: Line) | Group(sections: seq<Section>, close: Line)
  datatype Section = Section(head: Line, body: seq<Part>)

  predicate ValidPart(p: Part)
    decreases p, 0
  {
    match p
    case One(x) => RoleOf(x) == Plain
    case Group(ss, close) =>
      && ss != [] && RoleOf(ss[0].head) == Opens && RoleOf(close) == Closes
      && (forall i :: 1 <= i < |ss| ==> RoleOf(ss[i].head) == Continues)
      && (forall i :: 0 <= i < |ss| ==> ValidParts(ss[i].body))
  }

  predicate ValidParts(ps: seq<Part>)
    decreases ps, 1
  {
    forall i :: 0 <= i < |ps| ==> ValidPart(ps[i])
  }

  function Lines(ps: seq<Part>): seq<Line>
    decreases ps, 1
  {
    if ps == [] then [] else PartLines(ps[0]) + Lines(ps[1..])
  }

  function PartLines(p: Part): seq<Line>
    decreases p, 1
  {
    match p
    case One(x) => [x]
    case Group(ss, close) => SectionLines(ss) + [close]
  }

  function SectionLines(ss: seq<Section>): seq<Line>
    decreases ss, 0
  {
    if ss == [] then [] else [ss[0].head] + Lines(ss[0].body) + SectionLines(ss[1..])
  }

  /** The line breaks of the directive lines in skipped text: all that a skipped region leaves behind. */
  function Skipped(lines: seq<Line>): seq<Token> {
    if lines == [] then [] else (if IsDirective(lines[0]) then Newlines(lines[0]) else []) + Skipped(lines[1..])
  }

  lemma {:induction false} SkippedConcat(a: seq<Line>, b: seq<Line>)
    ensures Skipped(a + b) == Skipped(a) + Skipped(b)
  {
    if a == [] {
      assert a + b == b;
    } else {
      assert (a + b)[0] == a[0] && (a + b)[1..] == a[1..] + b;
      SkippedConcat(a[1..], b);
    }
  }

  lemma {:induction false} SkippedStay(m: MacroTable, b: set<string>, lines: seq<Line>)
    ensures Expand(m, b, Skipped(lines)) == Skipped(lines)
  {
    if lines != [] {
      SkippedStay(m, b, lines[1..]);
      if IsDirective(lines[0]) {
        NewlinesStay(m, b, lines[0]);
        ExpandConcat(m, b, Newlines(lines[0]), Skipped(lines[1..]));
      } else {
        assert Skipped(lines) == Skipped(lines[1..]);
      }
    }
  }

  /** What nested text means: macro table and output, every line expanded at once under the definitions
      in force there. */
  datatype Meaning = Meaning(macros: MacroTable, out: seq<Token>, ok: bool)
  {
    function Emit(ts: seq<Token>): Meaning {
      this.(out := out + ts)
    }
  }

  /** The first section whose condition holds where the group begins, or their number if none does. */
  function Chosen(ev: Evaluator, macros: MacroTable, ss: seq<Section>): (k: nat)
    requires forall i :: 0 <= i < |ss| ==> IsDirective(ss[i].head)
    ensures k <= |ss|
  {
    if ss == [] || Holds(ev, macros, ss[0].head) then 0 else 1 + Chosen(ev, macros, ss[1..])
  }

  /** The chosen section is the first one with a true condition. */
  lemma {:induction false} ChosenIsFirst(ev: Evaluator, macros: MacroTable, ss: seq<Section>)
    requires forall i :: 0 <= i < |ss| ==> IsDirective(ss[i].head)
    ensures var k := Chosen(ev, macros, ss);
      && (k < |ss| ==> Holds(ev, macros, ss[k].head))
      && forall i :: 0 <= i < k ==> !Holds(ev, macros, ss[i].head)
  {
    hide Holds, IsDirective;
    if ss != [] && !Holds(ev, macros, ss[0].head) {
      ChosenIsFirst(ev, macros, ss[1..]);
    }
  }

  function LineMeaning(r: Meaning, x: Line): Meaning {
    if !IsDirective(x) then r.Emit(Expand(r.macros, {}, x))
    else
      var s := Perform(Text(r.macros, [], r.out + Newlines(x), r.ok), DirName(x), DirArgs(x));
      Meaning(s.macros, s.out, s.ok)
  }

  lemma PartHeads(p: Part)
    requires ValidPart(p) && p.Group?
    ensures Heads(p.sections) && IsDirective(p.close) && p.sections != []
  {
  }

  ghost predicate Heads(ss: seq<Section>) {
    forall i :: 0 <= i < |ss| ==> IsDirective(ss[i].head) && ValidParts(ss[i].body)
  }

  /** At most one section is kept: the chosen one. */
  function SectionsMeaning(ev: Evaluator, ss: seq<Section>, r: Meaning): Meaning
    requires Heads(ss)
    decreases ss, 4
  {
    var k := Chosen(ev, r.macros, ss);
    if k == |ss| then r.Emit(Skipped(SectionLines(ss)))
    else
      var r := PartsMeaning(ev, ss[k].body, r.Emit(Skipped(SectionLines(ss[..k]) + [ss[k].head])));
      if r.ok then r.Emit(Skipped(SectionLines(ss[k + 1..]))) else r
  }

  function PartMeaning(ev: Evaluator, p: Part, r: Meaning): Meaning
    requires ValidPart(p)
    decreases p, 2
  {
    if !r.ok then r
    else
      match p
      case One(x) => LineMeaning(r, x)
      case Group(ss, close) =>
        PartHeads(p);
        if NeedsName(ss[0].head) then r.Emit(Newlines(ss[0].head)).(ok := false)
        else
          var r := SectionsMeaning(ev, ss, r);
          if r.ok then r.Emit(Newlines(close)) else r
  }

  function PartsMeaning(ev: Evaluator, ps: seq<Part>, r: Meaning): Meaning
    requires ValidParts(ps)
    decreases ps, 3
  {
    if ps == [] then r else PartsMeaning(ev, ps[1..], PartMeaning(ev, ps[0], r))
  }

  // ----- The machine does what nesting means -----

  /** What the machine's text amounts to: the pending chunk counts as expanded. */
  function Amounts(s: Text): Meaning {
    Meaning(s.macros, s.out + Expand(s.macros, {}, s.chunk), s.ok)
  }

  lemma AmountsMore(s: Text, ts: seq<Token>)
    ensures Amounts(s.(chunk := s.chunk + ts)) == Amounts(s).Emit(Expand(s.macros, {}, ts))
  {
    hide Expand;
    ExpandConcat(s.macros, {}, s.chunk, ts);
  }

  lemma AmountsBreaks(s: Text, x: Line)
    ensures Amounts(s.(chunk := s.chunk + Newlines(x))) == Amounts(s).Emit(Newlines(x))
  {
    AmountsMore(s, Newlines(x));
    NewlinesStay(s.macros, {}, x);
  }

  lemma AmountsSkipped(s: Text, lines: seq<Line>)
    ensures Amounts(s.(chunk := s.chunk + Skipped(lines))) == Amounts(s).Emit(Skipped(lines))
  {
    AmountsMore(s, Skipped(lines));
    SkippedStay(s.macros, {}, lines);
  }

  lemma PlainLine(ev: Evaluator, m: Machine, x: Line)
    requires m.enable && m.text.ok && RoleOf(x) == Plain
    ensures var m' := Step(ev, m, x);
      m' == m.(text := m'.text) && Amounts(m'.text) == LineMeaning(Amounts(m.text), x)
  {
    if !IsDirective(x) {
      AmountsMore(m.text, x);
    } else {
      var s := m.text.(chunk := m.text.chunk + Newlines(x));
      AmountsBreaks(m.text, x);
      PerformAmounts(s, DirName(x), DirArgs(x));
    }
  }

  lemma PerformAmounts(s: Text, name: string, args: seq<Token>)
    ensures var s', a := Perform(s, name, args), Amounts(s);
      var t := Perform(Text(a.macros, [], a.out, a.ok), name, args);
      Amounts(s') == Meaning(t.macros, t.out, t.ok)
  {
    hide Expand;
    assert forall m: MacroTable :: Expand(m, {}, []) == [] by {
      forall m: MacroTable ensures Expand(m, {}, []) == [] {
        NothingExpands(m);
      }
    }
  }

  lemma NothingExpands(m: MacroTable)
    ensures Expand(m, {}, []) == []
  {
  }

  /** The machine with the line breaks of skipped lines added to its pending text. */
  function Skip(m: Machine, lines: seq<Line>): Machine {
    m.(text := m.text.(chunk := m.text.chunk + Skipped(lines)))
  }

  lemma SkipTwice(m: Machine, a: seq<Line>, b: seq<Line>)
    ensures Skip(Skip(m, a), b) == Skip(m, a + b)
  {
    SkippedConcat(a, b);
    assert m.text.chunk + Skipped(a) + Skipped(b) == m.text.chunk + (Skipped(a) + Skipped(b));
  }

  lemma SkippedOne(x: Line)
    ensures Skipped([x]) == if IsDirective(x) then Newlines(x) else []
  {
    assert [x][1..] == [];
    assert Skipped([x]) == (if IsDirective(x) then Newlines(x) else []) + Skipped([]);
  }

  lemma SkipNothing(m: Machine)
    ensures Skip(m, []) == m
  {
    assert m.text.chunk + [] == m.text.chunk;
  }

  /** In a disabled region nothing happens but that line breaks are kept: in particular the macro table
      stays as it is, and the condition state comes back. */
  lemma {:induction false} DisabledParts(ev: Evaluator, m: Machine, ps: seq<Part>)
    requires !m.enable && m.text.ok && ValidParts(ps)
    ensures RunLines(ev, m, Lines(ps)) == Skip(m, Lines(ps))
    decreases ps, 1
  {
    if ps == [] {
      SkipNothing(m);
    } else {
      var a, b := PartLines(ps[0]), Lines(ps[1..]);
      RunConcat(ev, m, a, b);
      DisabledPart(ev, m, ps[0]);
      DisabledParts(ev, Skip(m, a), ps[1..]);
      SkipTwice(m, a, b);
    }
  }

  lemma {:induction false} DisabledPart(ev: Evaluator, m: Machine, p: Part)
    requires !m.enable && m.text.ok && ValidPart(p)
    ensures RunLines(ev, m, PartLines(p)) == Skip(m, PartLines(p))
    decreases p, 2
  {
    hide Step, Skip, Skipped;
    match p
    case One(x) =>
      RunOneLine(ev, m, x);
      DisabledLine(ev, m, x);
    case Group(ss, close) =>
      DisabledGroup(ev, m, ss, close);
  }

  lemma DisabledLine(ev: Evaluator, m: Machine, x: Line)
    requires !m.enable && m.text.ok && RoleOf(x) == Plain
    ensures Step(ev, m, x) == Skip(m, [x])
  {
    SkippedOne(x);
    assert m.text.chunk + [] == m.text.chunk;
  }

  lemma DisabledOpen(ev: Evaluator, m: Machine, x: Line)
    requires !m.enable && m.text.ok && RoleOf(x) == Opens
    ensures Step(ev, m, x) == Skip(m.(ifstack := m.ifstack + [(false, m.iftrigger)]), [x])
  {
    SkippedOne(x);
  }

  lemma DisabledContinue(ev: Evaluator, m: Machine, x: Line)
    requires m.text.ok && RoleOf(x) == Continues && m.ifstack != [] && !m.ifstack[|m.ifstack| - 1].0
    ensures Step(ev, m, x) == Skip(m, [x])
  {
    SkippedOne(x);
  }

  lemma CloseStep(ev: Evaluator, m: Machine, x: Line, rest: seq<(bool, bool)>, top: (bool, bool))
    requires m.text.ok && RoleOf(x) == Closes && m.ifstack == rest + [top]
    ensures Step(ev, m, x) == Skip(m, [x]).(enable := top.0, iftrigger := top.1, ifstack := rest)
  {
    SkippedOne(x);
  }

  lemma {:induction false} DisabledGroup(ev: Evaluator, m: Machine, ss: seq<Section>, close: Line)
    requires !m.enable && m.text.ok && ValidPart(Group(ss, close))
    ensures RunLines(ev, m, SectionLines(ss) + [close]) == Skip(m, SectionLines(ss) + [close])
    decreases ss, 2
  {
    var head, body, rest := [ss[0].head], Lines(ss[0].body), SectionLines(ss[1..]);
    var m0 := m.(ifstack := m.ifstack + [(false, m.iftrigger)]);
    assert ValidParts(ss[0].body) && forall i :: 0 <= i < |ss[1..]| ==> ss[1..][i] == ss[i + 1];
    DisabledParts(ev, Skip(m0, head), ss[0].body);
    DisabledSections(ev, Skip(m0, head + body), ss[1..]);
    hide *;
    RunOneLine(ev, m, ss[0].head);
    DisabledOpen(ev, m, ss[0].head);
    SkipTwice(m0, head, body);
    SkipTwice(m0, head + body, rest);
    RunConcat(ev, m, head, body);
    RunConcat(ev, m, head + body, rest);
    RunConcat(ev, m, head + body + rest, [close]);
    var m3 := Skip(m0, head + body + rest);
    RunOneLine(ev, m3, close);
    SkipKeeps(m0, head + body + rest);
    CloseStep(ev, m3, close, m.ifstack, (false, m.iftrigger));
    SkipTwice(m0, head + body + rest, [close]);
    SkipKeeps(m0, head + body + rest + [close]);
    SkipKeeps(m, head + body + rest + [close]);
    SectionLinesFrom(ss);
  }

  lemma SkipKeeps(m: Machine, lines: seq<Line>)
    ensures var m' := Skip(m, lines); m' == m.(text := m'.text) && m'.text == m.text.(chunk := m.text.chunk + Skipped(lines))
  {
  }

  lemma SectionLinesFrom(ss: seq<Section>)
    requires ss != []
    ensures SectionLines(ss) == [ss[0].head] + Lines(ss[0].body) + SectionLines(ss[1..])
  {
  }

  lemma {:induction false} DisabledSections(ev: Evaluator, m: Machine, ss: seq<Section>)
    requires !m.enable && m.text.ok && m.ifstack != [] && !m.ifstack[|m.ifstack| - 1].0
    requires forall i :: 0 <= i < |ss| ==> RoleOf(ss[i].head) == Continues && ValidParts(ss[i].body)
    ensures RunLines(ev, m, SectionLines(ss)) == Skip(m, SectionLines(ss))
    decreases ss, 1
  {
    if ss == [] {
      SkipNothing(m);
    } else {
      var head, body, rest := [ss[0].head], Lines(ss[0].body), SectionLines(ss[1..]);
      RunConcat(ev, m, head, body);
      RunConcat(ev, m, head + body, rest);
      RunOneLine(ev, m, ss[0].head);
      DisabledContinue(ev, m, ss[0].head);
      DisabledParts(ev, Skip(m, head), ss[0].body);
      SkipTwice(m, head, body);
      DisabledSections(ev, Skip(m, head + body), ss[1..]);
      SkipTwice(m, head + body, rest);
    }
  }

  /** Once a section has been kept, the rest of the group is skipped. */
  lemma {:induction false} DoneSections(ev: Evaluator, m: Machine, ss: seq<Section>)
    requires m.text.ok && m.iftrigger && m.ifstack != [] && m.ifstack[|m.ifstack| - 1].0
    requires forall i :: 0 <= i < |ss| ==> RoleOf(ss[i].head) == Continues && ValidParts(ss[i].body)
    ensures RunLines(ev, m, SectionLines(ss)) == Skip(m, SectionLines(ss)).(enable := ss == [] && m.enable)
    decreases ss
  {
    if ss == [] {
      SkipNothing(m);
    } else {
      var head, body, rest := [ss[0].head], Lines(ss[0].body), SectionLines(ss[1..]);
      var m1 := m.(enable := false);
      RunConcat(ev, m, head, body);
      RunConcat(ev, m, head + body, rest);
      RunOneLine(ev, m, ss[0].head);
      DoneContinue(ev, m, ss[0].head);
      DisabledParts(ev, Skip(m1, head), ss[0].body);
      SkipTwice(m1, head, body);
      DoneSections(ev, Skip(m1, head + body), ss[1..]);
      SkipTwice(m1, head + body, rest);
    }
  }

  lemma DoneContinue(ev: Evaluator, m: Machine, x: Line)
    requires m.text.ok && m.iftrigger && RoleOf(x) == Continues && m.ifstack != [] && m.ifstack[|m.ifstack| - 1].0
    ensures Step(ev, m, x) == Skip(m, [x]).(enable := false)
  {
    SkippedOne(x);
  }

  /** A section of a group none of whose sections has been kept yet. */
  lemma LookingContinue(ev: Evaluator, m: Machine, x: Line)
    requires m.text.ok && !m.enable && !m.iftrigger && RoleOf(x) == Continues && m.ifstack != [] && m.ifstack[|m.ifstack| - 1].0
    ensures Step(ev, m, x) == if Holds(ev, m.text.macros, x) then Skip(m, [x]).(enable := true, iftrigger := true) else Skip(m, [x])
  {
    SkippedOne(x);
  }

  lemma EnabledOpen(ev: Evaluator, m: Machine, x: Line)
    requires m.text.ok && m.enable && RoleOf(x) == Opens
    ensures var m' := Skip(m, [x]).(ifstack := m.ifstack + [(true, m.iftrigger)]);
      Step(ev, m, x) ==
        if NeedsName(x) then m'.(text := m'.text.(ok := false))
        else if Holds(ev, m.text.macros, x) then m'.(iftrigger := true)
        else m'.(enable := false, iftrigger := false)
  {
    SkippedOne(x);
  }

  /** The machine behaves like the meaning `r`: same text, and unless the run has stopped the condition
      state is `enable` and `trigger` over the same stack, with no error reported. */
  ghost predicate Behaves(m0: Machine, m: Machine, enable: bool, trigger: bool, r: Meaning) {
    && Amounts(m.text) == r
    && (r.ok ==> m.enable == enable && m.iftrigger == trigger && m.ifstack == m0.ifstack && m.errors == m0.errors)
  }

  /** The sections after an untaken one. */
  lemma SectionsSkipFirst(ev: Evaluator, ss: seq<Section>, r: Meaning)
    requires ss != [] && Heads(ss) && Heads(ss[1..]) && IsDirective(ss[0].head) && !Holds(ev, r.macros, ss[0].head)
    ensures SectionsMeaning(ev, ss, r) == SectionsMeaning(ev, ss[1..], r.Emit(Skipped([ss[0].head] + Lines(ss[0].body))))
  {
    hide *;
    ChosenLater(ev, r.macros, ss);
    var k := Chosen(ev, r.macros, ss[1..]);
    if k == |ss[1..]| {
      SkipAllSections(ss, r);
      NoneKept(ev, ss, r);
      NoneKept(ev, ss[1..], r.Emit(Skipped([ss[0].head] + Lines(ss[0].body))));
    } else {
      SkipSectionsTo(ss, r, k);
      assert ss[1..][k + 1..] == ss[k + 2..] && ss[1..][k] == ss[k + 1];
      OneKept(ev, ss, r, k + 1);
      OneKept(ev, ss[1..], r.Emit(Skipped([ss[0].head] + Lines(ss[0].body))), k);
    }
  }

  lemma ChosenLater(ev: Evaluator, macros: MacroTable, ss: seq<Section>)
    requires ss != [] && Heads(ss) && Heads(ss[1..]) && IsDirective(ss[0].head) && !Holds(ev, macros, ss[0].head)
    ensures forall i :: 0 <= i < |ss| ==> IsDirective(ss[i].head)
    ensures forall i :: 0 <= i < |ss[1..]| ==> IsDirective(ss[1..][i].head)
    ensures Chosen(ev, macros, ss) == 1 + Chosen(ev, macros, ss[1..])
    ensures forall r: Meaning, ts :: r.Emit(ts).macros == r.macros
  {
    hide Holds, IsDirective;
  }

  lemma NoneKept(ev: Evaluator, ss: seq<Section>, r: Meaning)
    requires Heads(ss) && (forall i :: 0 <= i < |ss| ==> IsDirective(ss[i].head)) && Chosen(ev, r.macros, ss) == |ss|
    ensures SectionsMeaning(ev, ss, r) == r.Emit(Skipped(SectionLines(ss)))
  {
    hide Chosen, IsDirective, ValidParts, Skipped, SectionLines;
  }

  lemma OneKept(ev: Evaluator, ss: seq<Section>, r: Meaning, k: nat)
    requires Heads(ss) && (forall i :: 0 <= i < |ss| ==> IsDirective(ss[i].head)) && Chosen(ev, r.macros, ss) == k < |ss|
    ensures ValidParts(ss[k].body)
    ensures var r' := PartsMeaning(ev, ss[k].body, r.Emit(Skipped(SectionLines(ss[..k]) + [ss[k].head])));
      SectionsMeaning(ev, ss, r) == if r'.ok then r'.Emit(Skipped(SectionLines(ss[k + 1..]))) else r'
  {
    hide Chosen, IsDirective, ValidParts, Skipped, SectionLines, PartsMeaning;
  }

  lemma SkipAllSections(ss: seq<Section>, r: Meaning)
    requires ss != []
    ensures r.Emit(Skipped(SectionLines(ss))) == r.Emit(Skipped([ss[0].head] + Lines(ss[0].body))).Emit(Skipped(SectionLines(ss[1..])))
  {
    hide Lines, Skipped, SectionLines;
    var first, rest := [ss[0].head] + Lines(ss[0].body), SectionLines(ss[1..]);
    SectionLinesFrom(ss);
    SkippedConcat(first, rest);
    assert r.out + Skipped(first) + Skipped(rest) == r.out + (Skipped(first) + Skipped(rest));
  }

  lemma SkipSectionsTo(ss: seq<Section>, r: Meaning, k: nat)
    requires ss != [] && k < |ss[1..]|
    ensures r.Emit(Skipped(SectionLines(ss[..k + 1]) + [ss[k + 1].head])) ==
            r.Emit(Skipped([ss[0].head] + Lines(ss[0].body))).Emit(Skipped(SectionLines(ss[1..][..k]) + [ss[1..][k].head]))
  {
    hide Lines, Skipped, SectionLines;
    var first, more := [ss[0].head] + Lines(ss[0].body), SectionLines(ss[1..][..k]) + [ss[k + 1].head];
    assert ss[..k + 1][1..] == ss[1..][..k];
    SectionLinesFrom(ss[..k + 1]);
    assert SectionLines(ss[..k + 1]) + [ss[k + 1].head] == first + more;
    SkippedConcat(first, more);
    assert r.out + Skipped(first) + Skipped(more) == r.out + (Skipped(first) + Skipped(more));
  }

  lemma SectionsTakeFirst(ev: Evaluator, ss: seq<Section>, r: Meaning)
    requires ss != [] && Heads(ss) && Holds(ev, r.macros, ss[0].head)
    ensures var r' := PartsMeaning(ev, ss[0].body, r.Emit(Skipped([ss[0].head])));
      SectionsMeaning(ev, ss, r) == if r'.ok then r'.Emit(Skipped(SectionLines(ss[1..]))) else r'
  {
    hide Holds, IsDirective, PartsMeaning, Lines, Skipped;
    assert SectionLines(ss[..0]) + [ss[0].head] == [ss[0].head];
  }

  lemma SkipAmounts(m: Machine, lines: seq<Line>)
    ensures Amounts(Skip(m, lines).text) == Amounts(m.text).Emit(Skipped(lines))
  {
    AmountsSkipped(m.text, lines);
  }

  /** The main theorem, for parts in an enabled region: the output is that of nested reading with every
      line expanded in place, and enable, trigger and stack are what they were before. */
  lemma {:induction false} EnabledParts(ev: Evaluator, m: Machine, ps: seq<Part>)
    requires m.enable && m.text.ok && ValidParts(ps)
    ensures Behaves(m, RunLines(ev, m, Lines(ps)), true, m.iftrigger, PartsMeaning(ev, ps, Amounts(m.text)))
    decreases ps, 3
  {
    if ps != [] {
      var a, b := PartLines(ps[0]), Lines(ps[1..]);
      RunConcat(ev, m, a, b);
      EnabledPart(ev, m, ps[0]);
      var m1 := RunLines(ev, m, a);
      if m1.text.ok {
        EnabledParts(ev, m1, ps[1..]);
      } else {
        StoppedRun(ev, m1, b);
        StoppedMeaning(ev, ps[1..], Amounts(m1.text));
      }
    }
  }

  lemma {:induction false} StoppedMeaning(ev: Evaluator, ps: seq<Part>, r: Meaning)
    requires ValidParts(ps) && !r.ok
    ensures PartsMeaning(ev, ps, r) == r
  {
    if ps != [] {
      StoppedMeaning(ev, ps[1..], r);
    }
  }

  lemma {:induction false} EnabledPart(ev: Evaluator, m: Machine, p: Part)
    requires m.enable && m.text.ok && ValidPart(p)
    ensures Behaves(m, RunLines(ev, m, PartLines(p)), true, m.iftrigger, PartMeaning(ev, p, Amounts(m.text)))
    decreases p, 2
  {
    hide Step, RoleOf, IsDirective;
    match p
    case One(x) =>
      RunOneLine(ev, m, x);
      PlainLine(ev, m, x);
    case Group(ss, close) =>
      EnabledGroup(ev, m, ss, close);
  }

  /** The machine's text amounts to `r`, and unless the run has stopped, stack and errors are those of `m0`. */
  ghost predicate Settles(m0: Machine, m: Machine, r: Meaning) {
    Amounts(m.text) == r && (r.ok ==> m.ifstack == m0.ifstack && m.errors == m0.errors)
  }

  /** The section that is kept, and the ones after it. */
  lemma {:induction false} TakenSection(ev: Evaluator, m: Machine, body: seq<Part>, ss: seq<Section>)
    requires m.text.ok && m.enable && m.iftrigger && m.ifstack != [] && m.ifstack[|m.ifstack| - 1].0 && ValidParts(body)
    requires forall i :: 0 <= i < |ss| ==> RoleOf(ss[i].head) == Continues && ValidParts(ss[i].body)
    ensures var r := PartsMeaning(ev, body, Amounts(m.text));
      Settles(m, RunLines(ev, m, Lines(body) + SectionLines(ss)), if r.ok then r.Emit(Skipped(SectionLines(ss))) else r)
    decreases body, 4
  {
    hide RoleOf, ValidParts, Step, Skipped;
    RunConcat(ev, m, Lines(body), SectionLines(ss));
    EnabledParts(ev, m, body);
    var m1 := RunLines(ev, m, Lines(body));
    if m1.text.ok {
      DoneSections(ev, m1, ss);
      SkipAmounts(m1, SectionLines(ss));
    } else {
      StoppedRun(ev, m1, SectionLines(ss));
    }
  }

  lemma {:induction false} LookingSections(ev: Evaluator, m: Machine, ss: seq<Section>)
    requires m.text.ok && !m.enable && !m.iftrigger && m.ifstack != [] && m.ifstack[|m.ifstack| - 1].0
    requires Heads(ss) && forall i :: 0 <= i < |ss| ==> RoleOf(ss[i].head) == Continues && ValidParts(ss[i].body)
    ensures Settles(m, RunLines(ev, m, SectionLines(ss)), SectionsMeaning(ev, ss, Amounts(m.text)))
    decreases ss, 4
  {
    hide RoleOf, ValidParts, IsDirective, Step, Skip, Skipped, Holds, PartsMeaning, Expand;
    if ss == [] {
      NoSections(ev, Amounts(m.text));
    } else {
      var head, body, rest := [ss[0].head], Lines(ss[0].body), SectionLines(ss[1..]);
      var r := Amounts(m.text);
      RunConcat(ev, m, head, body + rest);
      assert SectionLines(ss) == head + (body + rest);
      RunOneLine(ev, m, ss[0].head);
      LookingContinue(ev, m, ss[0].head);
      SkipKeeps(m, head);
      SkipAmounts(m, head);
      if Holds(ev, m.text.macros, ss[0].head) {
        TakenSection(ev, Skip(m, head).(enable := true, iftrigger := true), ss[0].body, ss[1..]);
        SectionsTakeFirst(ev, ss, r);
      } else {
        RunConcat(ev, Skip(m, head), body, rest);
        DisabledParts(ev, Skip(m, head), ss[0].body);
        SkipTwice(m, head, body);
        SkipKeeps(m, head + body);
        SkipAmounts(m, head + body);
        LookingSections(ev, Skip(m, head + body), ss[1..]);
        SectionsSkipFirst(ev, ss, r);
      }
    }
  }

  lemma NoSections(ev: Evaluator, r: Meaning)
    ensures SectionsMeaning(ev, [], r) == r
  {
    assert r.out + [] == r.out;
  }

  lemma {:induction false} GroupSections(ev: Evaluator, m: Machine, ss: seq<Section>)
    requires m.enable && m.text.ok && ss != [] && Heads(ss) && RoleOf(ss[0].head) == Opens && !NeedsName(ss[0].head)
    requires forall i :: 1 <= i < |ss| ==> RoleOf(ss[i].head) == Continues && ValidParts(ss[i].body)
    ensures Settles(m.(ifstack := m.ifstack + [(true, m.iftrigger)]), RunLines(ev, m, SectionLines(ss)),
                    SectionsMeaning(ev, ss, Amounts(m.text)))
    decreases ss, 5
  {
    hide RoleOf, ValidParts, IsDirective, Step, Skip, Skipped, Holds, PartsMeaning, NeedsName, Expand;
    var head, body, rest := [ss[0].head], Lines(ss[0].body), SectionLines(ss[1..]);
    var r, m0 := Amounts(m.text), m.(ifstack := m.ifstack + [(true, m.iftrigger)]);
    assert forall i :: 0 <= i < |ss[1..]| ==> ss[1..][i] == ss[i + 1];
    RunConcat(ev, m, head, body + rest);
    assert SectionLines(ss) == head + (body + rest);
    RunOneLine(ev, m, ss[0].head);
    EnabledOpen(ev, m, ss[0].head);
    SkipKeeps(m, head);
    SkipAmounts(m, head);
    if Holds(ev, m.text.macros, ss[0].head) {
      TakenSection(ev, Skip(m, head).(ifstack := m0.ifstack, iftrigger := true), ss[0].body, ss[1..]);
      SectionsTakeFirst(ev, ss, r);
    } else {
      var m1 := m0.(enable := false, iftrigger := false);
      SkipKeeps(m1, head);
      RunConcat(ev, Skip(m1, head), body, rest);
      DisabledParts(ev, Skip(m1, head), ss[0].body);
      SkipTwice(m1, head, body);
      SkipKeeps(m1, head + body);
      SkipAmounts(m1, head + body);
      LookingSections(ev, Skip(m1, head + body), ss[1..]);
      SectionsSkipFirst(ev, ss, r);
    }
  }

  /** A group in an enabled region. */
  lemma {:induction false} EnabledGroup(ev: Evaluator, m: Machine, ss: seq<Section>, close: Line)
    requires m.enable && m.text.ok && ValidPart(Group(ss, close))
    ensures Behaves(m, RunLines(ev, m, SectionLines(ss) + [close]), true, m.iftrigger, PartMeaning(ev, Group(ss, close), Amounts(m.text)))
    decreases ss, 6
  {
    PartHeads(Group(ss, close));
    hide RoleOf, ValidParts, IsDirective, Step, Skip, Skipped, Holds, SectionsMeaning, NeedsName, Expand, Newlines;
    RunConcat(ev, m, SectionLines(ss), [close]);
    if NeedsName(ss[0].head) {
      NamelessGroup(ev, m, ss, close);
    } else {
      GroupSections(ev, m, ss);
      var m1 := RunLines(ev, m, SectionLines(ss));
      if m1.text.ok {
        RunOneLine(ev, m1, close);
        CloseStep(ev, m1, close, m.ifstack, (true, m.iftrigger));
        SkipAmounts(m1, [close]);
        SkippedOne(close);
      } else {
        StoppedRun(ev, m1, [close]);
      }
    }
  }

  lemma NamelessGroup(ev: Evaluator, m: Machine, ss: seq<Section>, close: Line)
    requires m.enable && m.text.ok && ss != [] && RoleOf(ss[0].head) == Opens && IsDirective(ss[0].head) && NeedsName(ss[0].head)
    ensures var m' := RunLines(ev, m, SectionLines(ss) + [close]);
      !m'.text.ok && Amounts(m'.text) == Amounts(m.text).Emit(Newlines(ss[0].head)).(ok := false)
  {
    hide IsDirective, Step, Holds, NeedsName, Expand, Newlines;
    var head, rest := [ss[0].head], Lines(ss[0].body) + SectionLines(ss[1..]) + [close];
    assert SectionLines(ss) + [close] == head + rest;
    RunConcat(ev, m, head, rest);
    RunOneLine(ev, m, ss[0].head);
    EnabledOpen(ev, m, ss[0].head);
    SkipAmounts(m, head);
    SkippedOne(ss[0].head);
    StoppedRun(ev, Step(ev, m, ss[0].head), rest);
  }

  // ----- Well-nested text -----

  /** Conditional directives match up, with `depth` groups open. */
  predicate WellNested(lines: seq<Line>, depth: nat)
    decreases lines
  {
    if lines == [] then depth == 0
    else match RoleOf(lines[0])
      case Opens => WellNested(lines[1..], depth + 1)
      case Continues => depth > 0 && WellNested(lines[1..], depth)
      case Closes => depth > 0 && WellNested(lines[1..], depth - 1)
      case Plain => WellNested(lines[1..], depth)
  }

  /** Read parts as far as they go. */
  lemma {:induction false} ReadParts(lines: seq<Line>, depth: nat) returns (ps: seq<Part>, rest: seq<Line>)
    requires WellNested(lines, depth)
    ensures lines == Lines(ps) + rest && ValidParts(ps) && WellNested(rest, depth)
    ensures rest != [] ==> RoleOf(rest[0]) in {Continues, Closes}
    decreases |lines|, 1
  {
    hide RoleOf;
    if lines == [] || RoleOf(lines[0]) in {Continues, Closes} {
      ps, rest := [], lines;
    } else {
      var part, after := ReadPart(lines, depth);
      var more;
      more, rest := ReadParts(after, depth);
      ps := [part] + more;
      assert ps[1..] == more;
    }
  }

  lemma {:induction false} ReadPart(lines: seq<Line>, depth: nat) returns (p: Part, rest: seq<Line>)
    requires lines != [] && WellNested(lines, depth) && RoleOf(lines[0]) in {Opens, Plain}
    ensures lines == PartLines(p) + rest && ValidPart(p) && WellNested(rest, depth) && |rest| < |lines|
    decreases |lines|, 0
  {
    hide RoleOf, Lines, SectionLines, ValidParts, LaterSections;
    if RoleOf(lines[0]) == Plain {
      p, rest := One(lines[0]), lines[1..];
      assert lines == [lines[0]] + lines[1..];
    } else {
      var body, after := ReadParts(lines[1..], depth + 1);
      var more, close, beyond := ReadSections(after, depth);
      p, rest := Group([Section(lines[0], body)] + more, close), beyond;
      MakeGroup(lines[0], body, more, close);
      assert lines == [lines[0]] + lines[1..];
      assert lines == [lines[0]] + Lines(body) + SectionLines(more) + [close] + rest;
    }
  }

  lemma MakeGroup(head: Line, body: seq<Part>, more: seq<Section>, close: Line)
    requires RoleOf(head) == Opens && ValidParts(body) && LaterSections(more) && RoleOf(close) == Closes
    ensures ValidPart(Group([Section(head, body)] + more, close))
    ensures PartLines(Group([Section(head, body)] + more, close)) == [head] + Lines(body) + SectionLines(more) + [close]
  {
    hide RoleOf, ValidParts;
    assert ([Section(head, body)] + more)[1..] == more;
  }

  lemma {:induction false} ReadSections(lines: seq<Line>, depth: nat) returns (ss: seq<Section>, close: Line, rest: seq<Line>)
    requires WellNested(lines, depth + 1) && (lines != [] ==> RoleOf(lines[0]) in {Continues, Closes})
    ensures lines == SectionLines(ss) + [close] + rest && RoleOf(close) == Closes && WellNested(rest, depth)
    ensures LaterSections(ss)
    decreases |lines|, 2
  {
    hide RoleOf, Lines, SectionLines, ValidParts, LaterSections;
    NoLaterSections();
    assert lines == [lines[0]] + lines[1..];
    if RoleOf(lines[0]) == Closes {
      ss, close, rest := [], lines[0], lines[1..];
      assert [] + [close] + rest == lines;
    } else {
      var body, after := ReadParts(lines[1..], depth + 1);
      var more;
      more, close, rest := ReadSections(after, depth);
      ss := [Section(lines[0], body)] + more;
      AddSection(lines[0], body, more);
      assert lines == [lines[0]] + Lines(body) + (SectionLines(more) + [close] + rest);
    }
  }

  ghost predicate LaterSections(ss: seq<Section>) {
    forall i :: 0 <= i < |ss| ==> RoleOf(ss[i].head) == Continues && ValidParts(ss[i].body)
  }

  lemma NoLaterSections()
    ensures LaterSections([]) && SectionLines([]) == []
  {
  }

  lemma AddSection(head: Line, body: seq<Part>, more: seq<Section>)
    requires RoleOf(head) == Continues && ValidParts(body) && LaterSections(more)
    ensures LaterSections([Section(head, body)] + more)
    ensures SectionLines([Section(head, body)] + more) == [head] + Lines(body) + SectionLines(more)
  {
    hide RoleOf, ValidParts;
    assert ([Section(head, body)] + more)[1..] == more;
  }

  /** Every well-nested text is the flat form of nested parts, and only such text is. */
  lemma WellNestedIffParts(lines: seq<Line>)
    ensures WellNested(lines, 0) <==> exists ps :: ValidParts(ps) && Lines(ps) == lines
  {
    if WellNested(lines, 0) {
      var ps, rest := ReadParts(lines, 0);
      assert rest == [];
      assert Lines(ps) == lines;
    }
    if ps :| ValidParts(ps) && Lines(ps) == lines {
      NestedParts(ps, [], 0);
      assert Lines(ps) + [] == lines;
    }
  }

  lemma {:induction false} NestedParts(ps: seq<Part>, rest: seq<Line>, depth: nat)
    requires ValidParts(ps)
    ensures WellNested(Lines(ps) + rest, depth) <==> WellNested(rest, depth)
    decreases ps, 1
  {
    if ps == [] {
      assert Lines(ps) + rest == rest;
    } else {
      NestedPart(ps[0], Lines(ps[1..]) + rest, depth);
      NestedParts(ps[1..], rest, depth);
      assert PartLines(ps[0]) + (Lines(ps[1..]) + rest) == Lines(ps) + rest;
    }
  }

  lemma {:induction false} NestedPart(p: Part, rest: seq<Line>, depth: nat)
    requires ValidPart(p)
    ensures WellNested(PartLines(p) + rest, depth) <==> WellNested(rest, depth)
    decreases p, 2
  {
    hide RoleOf;
    match p
    case One(x) => NestedLine(x, rest, depth);
    case Group(ss, close) =>
      var body, more, tail := Lines(ss[0].body), SectionLines(ss[1..]), [close] + rest;
      assert forall i :: 0 <= i < |ss[1..]| ==> ss[1..][i] == ss[i + 1];
      SectionLinesFrom(ss);
      assert PartLines(p) + rest == [ss[0].head] + (body + (more + tail));
      NestedLine(ss[0].head, body + (more + tail), depth);
      NestedParts(ss[0].body, more + tail, depth + 1);
      NestedSections(ss[1..], tail, depth);
      NestedLine(close, rest, depth + 1);
  }

  lemma NestedLine(x: Line, rest: seq<Line>, depth: nat)
    ensures WellNested([x] + rest, depth) <==>
            match RoleOf(x)
            case Opens => WellNested(rest, depth + 1)
            case Continues => depth > 0 && WellNested(rest, depth)
            case Closes => depth > 0 && WellNested(rest, depth - 1)
            case Plain => WellNested(rest, depth)
  {
    hide RoleOf;
    assert ([x] + rest)[1..] == rest;
  }

  lemma {:induction false} NestedSections(ss: seq<Section>, rest: seq<Line>, depth: nat)
    requires forall i :: 0 <= i < |ss| ==> RoleOf(ss[i].head) == Continues && ValidParts(ss[i].body)
    ensures WellNested(SectionLines(ss) + rest, depth + 1) <==> WellNested(rest, depth + 1)
    decreases ss, 0
  {
    hide RoleOf;
    if ss == [] {
      assert SectionLines(ss) + rest == rest;
    } else {
      var body, more := Lines(ss[0].body), SectionLines(ss[1..]);
      assert SectionLines(ss) + rest == [ss[0].head] + (body + (more + rest));
      NestedLine(ss[0].head, body + (more + rest), depth + 1);
      NestedParts(ss[0].body, more + rest, depth + 1);
      NestedSections(ss[1..], rest, depth);
    }
  }
}
