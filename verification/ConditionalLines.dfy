/** What directive lines do, read off their tokens: which token names the directive, what `#define` and
    `#undef` make of the macro table, and which text a conditional group lets through. */
module ConditionalLines {
  import opened MacroExpansion
  import opened Directives

  // ----- Taking a line apart -----

  /** The line is `#`, the name of the directive, and its arguments, with white space anywhere around them. */
  ghost predicate Directs(x: Line, name: Token, args: seq<Token>) {
    && name.kind != Whitespace
    && (args != [] ==> args[0].kind != Whitespace && args[|args| - 1].kind != Whitespace)
    && exists pre, hash, mid, gap, post :: LaidOutAs(x, pre, hash, mid, name, gap, args, post)
  }

  ghost predicate LaidOutAs(x: Line, pre: seq<Token>, hash: Token, mid: seq<Token>, name: Token, gap: seq<Token>, args: seq<Token>,
                            post: seq<Token>)
  {
    && x == pre + [hash] + mid + [name] + gap + args + post
    && hash.kind != Whitespace && hash.value == "#"
    && Blank(pre) && Blank(mid) && Blank(gap) && Blank(post)
  }

  lemma {:induction false} InkBehind(pre: seq<Token>, t: Token, rest: seq<Token>)
    requires Blank(pre) && t.kind != Whitespace
    ensures FirstInk(pre + [t] + rest) == |pre|
  {
    var x := pre + [t] + rest;
    if pre != [] {
      assert x[1..] == pre[1..] + [t] + rest;
      InkBehind(pre[1..], t, rest);
    }
  }

  lemma {:induction false} InkFound(x: Line)
    requires x != []
    ensures forall i :: 0 <= i < FirstInk(x) ==> x[i].kind == Whitespace
    ensures x[FirstInk(x)].kind != Whitespace || FirstInk(x) == |x| - 1
  {
    if x[0].kind == Whitespace && |x| > 1 {
      InkFound(x[1..]);
    }
  }

  /** The directive lines that have a name are those laid out in this way, and name and arguments are the
      tokens they should be. */
  lemma LineTakenApart(x: Line, name: Token, args: seq<Token>)
    ensures Directs(x, name, args) <==>
            IsDirective(x) && DirTokens(x) != [] && DirTokens(x)[0] == name && DirArgs(x) == args
    ensures Directs(x, name, args) ==> DirName(x) == name.value
  {
    if Directs(x, name, args) {
      LineRead(x, name, args);
    }
    if IsDirective(x) && DirTokens(x) != [] && DirTokens(x)[0] == name && DirArgs(x) == args {
      LineLaidOut(x);
    }
  }

  lemma StrippedFrom(ts: seq<Token>, pre: seq<Token>, r: seq<Token>, post: seq<Token>)
    requires ts == pre + r + post && Blank(pre) && Blank(post)
    requires r != [] ==> r[0].kind != Whitespace && r[|r| - 1].kind != Whitespace
    ensures Strip(ts) == r
  {
    assert Stripped(ts, r);
    StripIsStripped(ts, r);
  }

  lemma StripParts(ts: seq<Token>) returns (pre: seq<Token>, post: seq<Token>)
    ensures ts == pre + Strip(ts) + post && Blank(pre) && Blank(post)
    ensures var r := Strip(ts); r != [] ==> r[0].kind != Whitespace && r[|r| - 1].kind != Whitespace
  {
    StripIsStripped(ts, Strip(ts));
    pre, post :| ts == pre + Strip(ts) + post && Blank(pre) && Blank(post);
  }

  lemma LineRead(x: Line, name: Token, args: seq<Token>)
    requires Directs(x, name, args)
    ensures IsDirective(x) && DirTokens(x) != [] && DirTokens(x)[0] == name && DirArgs(x) == args
  {
    hide Blank, Strip;
    var pre, hash, mid, gap, post :| LaidOutAs(x, pre, hash, mid, name, gap, args, post);
    var rest := mid + [name] + gap + args + post;
    assert x == pre + [hash] + rest;
    InkBehind(pre, hash, rest);
    assert x[|pre| + 1..] == rest;
    NameFirst(mid, name, gap, args, post);
  }

  lemma NameFirst(mid: seq<Token>, name: Token, gap: seq<Token>, args: seq<Token>, post: seq<Token>)
    requires Blank(mid) && Blank(gap) && Blank(post) && name.kind != Whitespace
    requires args != [] ==> args[0].kind != Whitespace && args[|args| - 1].kind != Whitespace
    ensures var inner := Strip(mid + [name] + gap + args + post); inner != [] && inner[0] == name && Strip(inner[1..]) == args
  {
    hide Strip;
    var ts := mid + [name] + gap + args + post;
    if args == [] {
      assert ts == mid + [name] + (gap + post);
      StrippedFrom(ts, mid, [name], gap + post);
      assert [name][1..] == [] + args + [];
      StrippedFrom([name][1..], [], args, []);
    } else {
      var r := [name] + gap + args;
      assert ts == mid + r + post;
      StrippedFrom(ts, mid, r, post);
      assert r[1..] == gap + args + [];
      StrippedFrom(r[1..], gap, args, []);
    }
  }

  lemma LineLaidOut(x: Line)
    requires IsDirective(x) && DirTokens(x) != []
    ensures Directs(x, DirTokens(x)[0], DirArgs(x))
  {
    hide Blank, Strip, FirstInk;
    var k := FirstInk(x);
    InkFound(x);
    BlankStart(x, k);
    var mid, end := StripParts(x[k + 1..]);
    var inner, args := DirTokens(x), DirArgs(x);
    var gap, close := StripParts(inner[1..]);
    HashInk(x, k);
    Unfolded(x, k, mid, inner, end, gap, args, close);
    BlankEnds(close, end);
    assert LaidOutAs(x, x[..k], x[k], mid, inner[0], gap, args, close + end);
  }

  lemma Unfolded<T>(x: seq<T>, k: nat, mid: seq<T>, inner: seq<T>, end: seq<T>, gap: seq<T>, args: seq<T>, close: seq<T>)
    requires k < |x| && x[k + 1..] == mid + inner + end && inner != [] && inner[1..] == gap + args + close
    ensures x == x[..k] + [x[k]] + mid + [inner[0]] + gap + args + (close + end)
  {
    var rest := mid + ([inner[0]] + (gap + args + close)) + end;
    assert inner == [inner[0]] + inner[1..];
    assert x == x[..k] + [x[k]] + rest;
    assert rest == mid + [inner[0]] + gap + args + (close + end);
    Regroup(x[..k] + [x[k]], mid, [inner[0]], gap, args, close + end);
  }

  lemma Regroup<T>(a: seq<T>, b: seq<T>, c: seq<T>, e: seq<T>, f: seq<T>, h: seq<T>)
    ensures a + (b + c + e + f + h) == a + b + c + e + f + h
  {
  }

  lemma BlankStart(x: Line, k: nat)
    requires k <= |x| && forall i :: 0 <= i < k ==> x[i].kind == Whitespace
    ensures Blank(x[..k])
  {
  }

  lemma BlankEnds(a: seq<Token>, b: seq<Token>)
    requires Blank(a) && Blank(b)
    ensures Blank(a + b)
  {
  }

  /** The `#` is not white space: there are tokens behind it. */
  lemma HashInk(x: Line, k: nat)
    requires x != [] && k == FirstInk(x) && Strip(x[k + 1..]) != []
    ensures x[k].kind != Whitespace
  {
    InkFound(x);
    NothingToStrip(x[k + 1..]);
  }

  lemma NothingToStrip(ts: seq<Token>)
    ensures ts == [] ==> Strip(ts) == []
  {
  }

  /** A line whose first visible token is no `#` is text. */
  lemma TextLine(x: Line, pre: seq<Token>, t: Token, rest: seq<Token>)
    requires x == pre + [t] + rest && Blank(pre) && t.kind != Whitespace && t.value != "#"
    ensures !IsDirective(x)
  {
    InkBehind(pre, t, rest);
  }

  /** The places of the white space tokens with a line break. */
  ghost predicate BreaksAt(x: Line, at: seq<nat>) {
    && (forall i, j :: 0 <= i < j < |at| ==> at[i] < at[j])
    && (forall k: nat :: k in at <==> k < |x| && x[k].kind == Whitespace && '\n' in x[k].value)
  }

  /** The tokens kept of a directive line are those, in their order. */
  lemma {:induction false} LineBreaksKept(x: Line) returns (at: seq<nat>)
    ensures BreaksAt(x, at) && |Newlines(x)| == |at|
    ensures forall j :: 0 <= j < |at| ==> at[j] < |x| && Newlines(x)[j] == x[at[j]]
  {
    at := [];
    if x != [] {
      hide BreaksAt;
      var later := LineBreaksKept(x[1..]);
      at := BreaksBefore(x, later);
      forall j | 0 <= j < |at| ensures at[j] < |x| && Newlines(x)[j] == x[at[j]] {
        assert Newlines(x) == (if HoldsNewline(x[0]) then [x[0]] else []) + Newlines(x[1..]);
      }
    }
  }

  lemma BreaksBefore(x: Line, later: seq<nat>) returns (at: seq<nat>)
    requires x != [] && BreaksAt(x[1..], later)
    ensures BreaksAt(x, at)
    ensures var n := if HoldsNewline(x[0]) then 1 else 0;
      |at| == n + |later| && (n == 1 ==> at[0] == 0) && forall j :: n <= j < |at| ==> at[j] == later[j - n] + 1
  {
    var moved := seq(|later|, i requires 0 <= i < |later| => later[i] + 1);
    at := (if HoldsNewline(x[0]) then [0] else []) + moved;
    forall k: nat ensures k in at <==> k < |x| && x[k].kind == Whitespace && '\n' in x[k].value {
      MovedOne(later, k);
      assert k > 0 ==> (k - 1 in later <==> k - 1 < |x[1..]| && x[1..][k - 1].kind == Whitespace && '\n' in x[1..][k - 1].value);
    }
  }

  lemma MovedOne(later: seq<nat>, k: nat)
    ensures k in seq(|later|, i requires 0 <= i < |later| => later[i] + 1) <==> k > 0 && k - 1 in later
  {
    if k > 0 && k - 1 in later {
      var j :| 0 <= j < |later| && later[j] == k - 1;
      assert seq(|later|, i requires 0 <= i < |later| => later[i] + 1)[j] == k;
    }
  }

  // ----- Definitions -----

  /** `#define n` followed by white space binds `n` to what lies between the white space at both ends of the
      rest; `#define n` alone binds it to nothing. The text before is expanded under the old definitions. */
  lemma DefineLine(ev: Evaluator, m: Machine, x: Line, word: Token, args: seq<Token>, r: seq<Token>)
    requires m.enable && m.text.ok && Directs(x, word, args) && word.value == "define" && args != []
    requires |args| > 1 ==> args[1].kind == Whitespace && Stripped(args[2..], r)
    requires |args| == 1 ==> r == []
    ensures var m' := Step(ev, m, x);
      && m' == m.(text := m'.text) && m'.text.ok && m'.text.chunk == []
      && m'.text.out == m.text.out + Expand(m.text.macros, {}, m.text.chunk + Newlines(x))
      && m'.text.macros.Keys == m.text.macros.Keys + {args[0].value} && m'.text.macros[args[0].value] == r
      && forall n :: n in m.text.macros && n != args[0].value ==> m'.text.macros[n] == m.text.macros[n]
  {
    hide Expand, IsDirective, DirTokens, DirArgs;
    LineTakenApart(x, word, args);
    if |args| > 1 {
      StripIsStripped(args[2..], r);
    }
  }

  /** `#undef n` removes `n` and nothing else. */
  lemma UndefLine(ev: Evaluator, m: Machine, x: Line, word: Token, args: seq<Token>)
    requires m.enable && m.text.ok && Directs(x, word, args) && word.value == "undef" && args != []
    ensures var m' := Step(ev, m, x);
      && m' == m.(text := m'.text) && m'.text.ok && m'.text.chunk == []
      && m'.text.out == m.text.out + Expand(m.text.macros, {}, m.text.chunk + Newlines(x))
      && m'.text.macros.Keys == m.text.macros.Keys - {args[0].value}
      && forall n :: n in m'.text.macros ==> m'.text.macros[n] == m.text.macros[n]
  {
    hide Expand, IsDirective, DirTokens, DirArgs;
    LineTakenApart(x, word, args);
  }

  /** What follows the name directly is no definition: `#define n(...` starts a function-like macro, which is
      outside this model, and anything else is ignored. */
  lemma NoDefinition(ev: Evaluator, m: Machine, x: Line, word: Token, args: seq<Token>)
    requires m.enable && m.text.ok && Directs(x, word, args) && word.value == "define"
    requires args == [] || (|args| > 1 && args[1].kind != Whitespace)
    ensures Step(ev, m, x).text.ok <==> args == [] || args[1].value != "("
    ensures Step(ev, m, x).text.macros == m.text.macros
  {
    hide Expand, IsDirective, DirTokens, DirArgs;
    LineTakenApart(x, word, args);
  }

  /** Outside groups `#elif`, `#else` and `#endif` are reported and ignored. */
  lemma MisplacedLine(ev: Evaluator, m: Machine, x: Line, word: Token, args: seq<Token>)
    requires m.text.ok && m.ifstack == [] && Directs(x, word, args) && word.value in {"elif", "else", "endif"}
    ensures Step(ev, m, x) == m.(errors := m.errors + 1, text := m.text.(chunk := m.text.chunk + Newlines(x)))
  {
    hide IsDirective, DirTokens, DirArgs;
    LineTakenApart(x, word, args);
  }

  // ----- Conditions -----

  /** In an enabled region: `#ifdef a` leaves it enabled if and only if `a` is defined, `#ifndef a` if and
      only if it is not, `#if` if and only if the expression holds. */
  lemma OpeningLine(ev: Evaluator, m: Machine, x: Line, word: Token, args: seq<Token>)
    requires m.enable && m.text.ok && Directs(x, word, args) && word.value in {"ifdef", "ifndef", "if"}
    ensures var m' := Step(ev, m, x);
      && (word.value == "ifdef" && args != [] ==> (m'.enable <==> args[0].value in m.text.macros))
      && (word.value == "ifndef" && args != [] ==> (m'.enable <==> args[0].value !in m.text.macros))
      && (word.value == "if" ==> (m'.enable <==> ev(m.text.macros, args)))
      && (m'.text.ok <==> word.value == "if" || args != [])
      && m'.text.macros == m.text.macros && m'.text.out == m.text.out && m'.text.chunk == m.text.chunk + Newlines(x)
      && m'.ifstack == m.ifstack + [(true, m.iftrigger)] && (m'.text.ok ==> m'.iftrigger == m'.enable)
  {
    hide IsDirective, DirTokens, DirArgs;
    LineTakenApart(x, word, args);
  }

  /** In a group of an enabled region, with `iftrigger` for a section having been kept: `#else` enables its
      section if and only if none was, `#elif` if moreover its expression holds. */
  lemma ContinuingLine(ev: Evaluator, m: Machine, x: Line, word: Token, args: seq<Token>)
    requires m.text.ok && Directs(x, word, args) && word.value in {"elif", "else"}
    requires m.ifstack != [] && m.ifstack[|m.ifstack| - 1].0 && (m.enable ==> m.iftrigger)
    ensures var m' := Step(ev, m, x);
      && (word.value == "else" ==> (m'.enable <==> !m.iftrigger))
      && (word.value == "elif" ==> (m'.enable <==> !m.iftrigger && ev(m.text.macros, args)))
      && (m'.iftrigger <==> m.iftrigger || m'.enable)
      && m' == m.(enable := m'.enable, iftrigger := m'.iftrigger, text := m.text.(chunk := m.text.chunk + Newlines(x)))
  {
    hide IsDirective, DirTokens, DirArgs;
    LineTakenApart(x, word, args);
  }

  /** The condition of the line `word args`, with these definitions. */
  ghost predicate ConditionHolds(ev: Evaluator, macros: MacroTable, word: string, args: seq<Token>) {
    || (word == "ifdef" && args != [] && args[0].value in macros)
    || (word == "ifndef" && args != [] && args[0].value !in macros)
    || (word in {"if", "elif"} && ev(macros, args))
    || word == "else"
  }

  ghost predicate Fires(ev: Evaluator, macros: MacroTable, x: Line) {
    exists word, args :: Directs(x, word, args) && ConditionHolds(ev, macros, word.value, args)
  }

  lemma HoldsIfFires(ev: Evaluator, macros: MacroTable, x: Line)
    requires RoleOf(x) in {Opens, Continues}
    ensures Holds(ev, macros, x) <==> Fires(ev, macros, x)
  {
    hide IsDirective, DirTokens, DirArgs, Directs;
    assert IsDirective(x) && DirTokens(x) != [] && DirName(x) == DirTokens(x)[0].value by {
      Named(x);
    }
    LineTakenApart(x, DirTokens(x)[0], DirArgs(x));
    if Fires(ev, macros, x) {
      var word, args :| Directs(x, word, args) && ConditionHolds(ev, macros, word.value, args);
      LineTakenApart(x, word, args);
    }
  }

  lemma Named(x: Line)
    requires RoleOf(x) in {Opens, Continues}
    ensures IsDirective(x) && DirTokens(x) != [] && DirName(x) == DirTokens(x)[0].value
  {
  }

  /** A group in an enabled region lets through its first section whose condition holds, and no other. */
  lemma GroupLetsThrough(ev: Evaluator, m: Machine, ss: seq<Section>, close: Line, k: nat)
    requires m.enable && m.text.ok && ValidPart(Group(ss, close)) && k <= |ss|
    requires forall word, args :: Directs(ss[0].head, word, args) && word.value in {"ifdef", "ifndef"} ==> args != []
    requires (forall i :: 0 <= i < k ==> !Fires(ev, m.text.macros, ss[i].head)) && (k < |ss| ==> Fires(ev, m.text.macros, ss[k].head))
    ensures forall i :: 0 <= i < |ss| ==> ValidParts(ss[i].body)
    ensures var m', r := RunLines(ev, m, SectionLines(ss) + [close]), Amounts(m.text);
      if k == |ss| then Behaves(m, m', true, m.iftrigger, r.Emit(Skipped(SectionLines(ss))).Emit(Newlines(close)))
      else
        var kept := PartsMeaning(ev, ss[k].body, r.Emit(Skipped(SectionLines(ss[..k]) + [ss[k].head])));
        Behaves(m, m', true, m.iftrigger, if kept.ok then kept.Emit(Skipped(SectionLines(ss[k + 1..]))).Emit(Newlines(close)) else kept)
  {
    PartHeads(Group(ss, close));
    hide Step, RoleOf, IsDirective, Directs, Holds, Fires, PartsMeaning, ValidParts, Skipped, Newlines, Amounts, Behaves, RunLines;
    EnabledGroup(ev, m, ss, close);
    HeadNamed(ss, close);
    ChosenFires(ev, m.text.macros, ss, close, k);
    AmountsTable(m.text);
  }

  lemma AmountsTable(s: Text)
    ensures Amounts(s).macros == s.macros && Amounts(s).ok == s.ok
  {
  }

  lemma HeadNamed(ss: seq<Section>, close: Line)
    requires ValidPart(Group(ss, close)) && IsDirective(ss[0].head)
    requires forall word, args :: Directs(ss[0].head, word, args) && word.value in {"ifdef", "ifndef"} ==> args != []
    ensures !NeedsName(ss[0].head)
  {
    hide IsDirective, DirTokens, DirArgs, Directs;
    Named(ss[0].head);
    LineTakenApart(ss[0].head, DirTokens(ss[0].head)[0], DirArgs(ss[0].head));
  }

  lemma ChosenFires(ev: Evaluator, macros: MacroTable, ss: seq<Section>, close: Line, k: nat)
    requires ValidPart(Group(ss, close)) && Heads(ss) && k <= |ss|
    requires (forall i :: 0 <= i < k ==> !Fires(ev, macros, ss[i].head)) && (k < |ss| ==> Fires(ev, macros, ss[k].head))
    ensures Chosen(ev, macros, ss) == k
  {
    hide Holds, Fires, IsDirective, RoleOf;
    ChosenIsFirst(ev, macros, ss);
    forall i | 0 <= i < |ss| ensures Holds(ev, macros, ss[i].head) <==> Fires(ev, macros, ss[i].head) {
      assert RoleOf(ss[i].head) in {Opens, Continues};
      HoldsIfFires(ev, macros, ss[i].head);
    }
  }

  // ----- Text -----

  function Tokens(lines: seq<Line>): seq<Token> {
    if lines == [] then [] else lines[0] + Tokens(lines[1..])
  }

  /** A line whose first visible token is no `#`. */
  ghost predicate Textual(x: Line) {
    exists i: nat :: InkAt(x, i)
  }

  ghost predicate InkAt(x: Line, i: nat) {
    i < |x| && Blank(x[..i]) && x[i].kind != Whitespace && x[i].value != "#"
  }

  /** No token of the line names a macro, or is `__LINE__`. */
  ghost predicate Ordinary(macros: MacroTable, x: Line) {
    forall i :: 0 <= i < |x| ==> x[i].kind == Identifier ==> x[i].value !in macros && x[i].value != "__LINE__"
  }

  lemma TextualLine(x: Line)
    requires Textual(x)
    ensures !IsDirective(x)
  {
    var i: nat :| InkAt(x, i);
    assert x == x[..i] + [x[i]] + x[i + 1..];
    TextLine(x, x[..i], x[i], x[i + 1..]);
  }

  /** Lines of text are taken over whole where the machine is enabled, and dropped where it is not. */
  lemma {:induction false} TextTakenOver(ev: Evaluator, m: Machine, lines: seq<Line>)
    requires m.text.ok && forall i :: 0 <= i < |lines| ==> Textual(lines[i])
    ensures RunLines(ev, m, lines) == if m.enable then m.(text := m.text.(chunk := m.text.chunk + Tokens(lines))) else m
    decreases lines
  {
    hide Textual, IsDirective;
    if lines == [] {
      assert m.text.chunk + [] == m.text.chunk;
    } else {
      TextualLine(lines[0]);
      var m' := Step(ev, m, lines[0]);
      TextTakenOver(ev, m', lines[1..]);
      assert m.text.chunk + lines[0] + Tokens(lines[1..]) == m.text.chunk + Tokens(lines);
    }
  }

  lemma {:induction false} OrdinaryLines(macros: MacroTable, lines: seq<Line>)
    requires forall i :: 0 <= i < |lines| ==> Ordinary(macros, lines[i])
    ensures Ordinary(macros, Tokens(lines))
  {
    hide Ordinary;
    if lines == [] {
      OrdinaryJoined(macros, [], []);
      assert Tokens(lines) == [] + [];
    } else {
      OrdinaryLines(macros, lines[1..]);
      OrdinaryJoined(macros, lines[0], Tokens(lines[1..]));
    }
  }

  lemma OrdinaryJoined(macros: MacroTable, a: seq<Token>, b: seq<Token>)
    requires a == [] || Ordinary(macros, a)
    requires b == [] || Ordinary(macros, b)
    ensures Ordinary(macros, a + b)
  {
  }

  /** Pending text grows by ordinary tokens. */
  lemma OrdinaryFlushed(s: Text, ts: seq<Token>)
    requires Ordinary(s.macros, ts)
    ensures Flush(s.(chunk := s.chunk + ts)).out == Flush(s).out + ts
  {
    hide Expand;
    ExpandConcat(s.macros, {}, s.chunk, ts);
    OrdinaryStays(s.macros, {}, ts);
  }

  lemma BreaksOrdinary(macros: MacroTable, x: Line)
    ensures Ordinary(macros, Newlines(x))
  {
    var at := LineBreaksKept(x);
    forall j | 0 <= j < |Newlines(x)| ensures Newlines(x)[j].kind == Whitespace {
      assert at[j] in at;
    }
  }

  /** Ordinary text comes out as it went in. */
  lemma TextComesOut(ev: Evaluator, m: Machine, lines: seq<Line>)
    requires m.text.ok && m.enable && forall i :: 0 <= i < |lines| ==> Textual(lines[i]) && Ordinary(m.text.macros, lines[i])
    ensures Flush(RunLines(ev, m, lines).text).out == Flush(m.text).out + Tokens(lines)
  {
    hide Textual, Ordinary, Flush;
    TextTakenOver(ev, m, lines);
    OrdinaryLines(m.text.macros, lines);
    OrdinaryFlushed(m.text, Tokens(lines));
  }

  /** A line of a group, with the ordinary text behind it. */
  lemma HeadedText(ev: Evaluator, m: Machine, head: Line, lines: seq<Line>)
    requires m.text.ok && forall i :: 0 <= i < |lines| ==> Textual(lines[i]) && Ordinary(m.text.macros, lines[i])
    requires Step(ev, m, head).text == m.text.(chunk := m.text.chunk + Newlines(head))
    ensures var m1, m2 := Step(ev, m, head), RunLines(ev, m, [head] + lines);
      && m2 == m1.(text := m2.text) && m2.text.ok && m2.text.macros == m.text.macros
      && Flush(m2.text).out == Flush(m.text).out + Newlines(head) + (if m1.enable then Tokens(lines) else [])
  {
    hide Textual, Ordinary, Flush, Step, IsDirective, Newlines;
    var m1 := Step(ev, m, head);
    RunFirst(ev, m, head, lines);
    BreaksOrdinary(m.text.macros, head);
    OrdinaryFlushed(m.text, Newlines(head));
    TextTakenOver(ev, m1, lines);
    TextFlushed(m1.text, lines);
  }

  lemma OpenedText(ev: Evaluator, m: Machine, open: Line, w: Token, args: seq<Token>, yes: seq<Line>)
    requires m.enable && m.text.ok && Directs(open, w, args) && w.value in {"ifdef", "ifndef"} && args != []
    requires forall i :: 0 <= i < |yes| ==> Textual(yes[i]) && Ordinary(m.text.macros, yes[i])
    ensures var m', kept := RunLines(ev, m, [open] + yes), (args[0].value in m.text.macros) == (w.value == "ifdef");
      && m'.enable == m'.iftrigger == kept && m'.ifstack == m.ifstack + [(true, m.iftrigger)]
      && m'.text.ok && m'.text.macros == m.text.macros
      && Flush(m'.text).out == Flush(m.text).out + Newlines(open) + (if kept then Tokens(yes) else [])
  {
    hide Textual, Ordinary, Flush, Directs, Step, RunLines, IsDirective, Newlines, Tokens;
    OpeningLine(ev, m, open, w, args);
    HeadedText(ev, m, open, yes);
  }

  lemma ClosedText(ev: Evaluator, m: Machine, middle: Line, v: Token, rest: seq<Token>, no: seq<Line>, close: Line, u: Token,
                   more: seq<Token>, top: (bool, bool), below: seq<(bool, bool)>)
    requires m.text.ok && m.enable == m.iftrigger && m.ifstack == below + [top] && top.0
    requires Directs(middle, v, rest) && v.value == "else" && Directs(close, u, more) && u.value == "endif"
    requires forall i :: 0 <= i < |no| ==> Textual(no[i]) && Ordinary(m.text.macros, no[i])
    ensures var m' := RunLines(ev, m, ([middle] + no) + [close]);
      && m'.enable && m'.text.ok && m'.ifstack == below && m'.text.macros == m.text.macros
      && Flush(m'.text).out ==
         Flush(m.text).out + Newlines(middle) + (if m.enable then [] else Tokens(no)) + Newlines(close)
  {
    hide Textual, Ordinary, Flush, Directs, Step, RunLines, IsDirective, Newlines, Tokens;
    RunConcat(ev, m, [middle] + no, [close]);
    ContinuingLine(ev, m, middle, v, rest);
    HeadedText(ev, m, middle, no);
    var m1 := RunLines(ev, m, [middle] + no);
    RunOneLine(ev, m1, close);
    ClosingLine(ev, m1, close, u, more);
    BreaksOrdinary(m.text.macros, close);
    OrdinaryFlushed(m1.text, Newlines(close));
  }

  /** One group around ordinary text, `#ifdef a`, `yes`, `#else`, `no`, `#endif`: it lets `yes` through if `a`
      is defined and `no` if not, and the other way round for `#ifndef`. */
  lemma OneGroup(ev: Evaluator, m: Machine, open: Line, w: Token, args: seq<Token>, yes: seq<Line>, middle: Line, v: Token, rest: seq<Token>,
                 no: seq<Line>, close: Line, u: Token, more: seq<Token>)
    requires m.enable && m.text.ok && Directs(open, w, args) && w.value in {"ifdef", "ifndef"} && args != []
    requires Directs(middle, v, rest) && v.value == "else" && Directs(close, u, more) && u.value == "endif"
    requires forall i :: 0 <= i < |yes| ==> Textual(yes[i]) && Ordinary(m.text.macros, yes[i])
    requires forall i :: 0 <= i < |no| ==> Textual(no[i]) && Ordinary(m.text.macros, no[i])
    ensures var m' := RunLines(ev, m, ([open] + yes) + (([middle] + no) + [close]));
      && m'.enable && m'.text.ok && m'.ifstack == m.ifstack && m'.text.macros == m.text.macros
      && Flush(m'.text).out ==
         if (args[0].value in m.text.macros) == (w.value == "ifdef")
         then Flush(m.text).out + Newlines(open) + Tokens(yes) + Newlines(middle) + Newlines(close)
         else Flush(m.text).out + Newlines(open) + Newlines(middle) + Tokens(no) + Newlines(close)
  {
    hide *;
    RunConcat(ev, m, [open] + yes, ([middle] + no) + [close]);
    OpenedText(ev, m, open, w, args, yes);
    var m1 := RunLines(ev, m, [open] + yes);
    ClosedText(ev, m1, middle, v, rest, no, close, u, more, (true, m.iftrigger), m.ifstack);
    NoneAdded(Flush(m.text).out + Newlines(open));
    NoneAdded(Flush(m1.text).out + Newlines(middle));
  }

  lemma NoneAdded<T>(s: seq<T>)
    ensures s + [] == s
  {
  }

  lemma RunFirst(ev: Evaluator, m: Machine, x: Line, lines: seq<Line>)
    ensures RunLines(ev, m, [x] + lines) == RunLines(ev, Step(ev, m, x), lines)
  {
    assert ([x] + lines)[1..] == lines;
  }

  lemma TextFlushed(s: Text, lines: seq<Line>)
    requires forall i :: 0 <= i < |lines| ==> Ordinary(s.macros, lines[i])
    ensures Flush(s.(chunk := s.chunk + Tokens(lines))).out == Flush(s).out + Tokens(lines)
  {
    hide Flush, Ordinary;
    OrdinaryLines(s.macros, lines);
    OrdinaryFlushed(s, Tokens(lines));
  }

  /** `#endif` brings back what was in force before the group. */
  lemma ClosingLine(ev: Evaluator, m: Machine, x: Line, word: Token, args: seq<Token>)
    requires m.text.ok && Directs(x, word, args) && word.value == "endif" && m.ifstack != []
    ensures var m', n := Step(ev, m, x), |m.ifstack| - 1;
      && m'.enable == m.ifstack[n].0 && m'.iftrigger == m.ifstack[n].1 && m'.ifstack == m.ifstack[..n] && m'.errors == m.errors
      && m'.text == m.text.(chunk := m.text.chunk + Newlines(x))
  {
    hide IsDirective, DirTokens, DirArgs;
    LineTakenApart(x, word, args);
  }
}
