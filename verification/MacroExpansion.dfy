/** Expansion of object-like macros: a token list is rewritten in place, and a set of the macros being
    expanded keeps the recursion finite (section 6.10.3.4 of ISO/IEC 9899:1999). */
module MacroExpansion {

  /** The token types the preprocessor tells apart. */
  datatype Kind = Identifier | Whitespace | Integer | Other

  datatype Token = Token(kind: Kind, value: string, lineno: nat)

  /** The macro table: the replacement list of each name. */
  type MacroTable = map<string, seq<Token>>

  const LINE_MACRO := "__LINE__"

  function Digit(d: nat): char
    requires d < 10
  {
    "0123456789"[d]
  }

  /** The decimal digits of `n`. */
  function Numeral(n: nat): string {
    if n < 10 then [Digit(n)] else Numeral(n / 10) + [Digit(n % 10)]
  }

  /** The token names a macro that is not being expanded. */
  predicate Expandable(m: MacroTable, blocked: set<string>, t: Token) {
    t.kind == Identifier && t.value in m && t.value !in blocked
  }

  /** What a token that is not expanded turns into: `__LINE__` becomes its line number. */
  function Resolved(t: Token): Token {
    if t.kind == Identifier && t.value == LINE_MACRO then Token(Integer, Numeral(t.lineno), t.lineno) else t
  }

  /** Every token gets the line number of the macro's name. */
  function Relined(ts: seq<Token>, n: nat): seq<Token> {
    seq(|ts|, i requires 0 <= i < |ts| => ts[i].(lineno := n))
  }

  /** Full expansion, with the macros in `blocked` left alone. */
  function Expand(m: MacroTable, blocked: set<string>, ts: seq<Token>): seq<Token>
    decreases m.Keys - blocked, |ts|
  {
    if ts == [] then []
    else
      var t := ts[0];
      (if Expandable(m, blocked, t) then
         assert m.Keys - (blocked + {t.value}) < m.Keys - blocked by {
           assert t.value in m.Keys - blocked && t.value !in m.Keys - (blocked + {t.value});
         }
         Relined(Expand(m, blocked + {t.value}, m[t.value]), t.lineno)
       else [Resolved(t)])
      + Expand(m, blocked, ts[1..])
  }

  /** Expansion distributes over concatenation: expanding a batch of lines at once is expanding them
      line by line. */
  lemma {:induction false} ExpandConcat(m: MacroTable, blocked: set<string>, ts: seq<Token>, us: seq<Token>)
    ensures Expand(m, blocked, ts + us) == Expand(m, blocked, ts) + Expand(m, blocked, us)
  {
    if ts == [] {
      assert ts + us == us;
    } else {
      assert (ts + us)[0] == ts[0] && (ts + us)[1..] == ts[1..] + us;
      ExpandConcat(m, blocked, ts[1..], us);
    }
  }

  lemma ExpandOne(m: MacroTable, blocked: set<string>, t: Token)
    ensures Expandable(m, blocked, t) ==> Expand(m, blocked, [t]) == Relined(Expand(m, blocked + {t.value}, m[t.value]), t.lineno)
    ensures !Expandable(m, blocked, t) ==> Expand(m, blocked, [t]) == [Resolved(t)]
  {
    assert [t][1..] == [];
  }

  /** Expand the token at index `i` of the list: splice its expansion in and go on behind it. */
  lemma ExpandSplice(m: MacroTable, blocked: set<string>, ts: seq<Token>, i: nat)
    requires i < |ts|
    ensures Expand(m, blocked, ts[i..]) == Expand(m, blocked, [ts[i]]) + Expand(m, blocked, ts[i + 1..])
  {
    assert ts[i..] == [ts[i]] + ts[i + 1..];
    ExpandConcat(m, blocked, [ts[i]], ts[i + 1..]);
  }

  /** One turn of the loop: `out` takes the place of the token at index `i`, and `i` moves behind it. */
  lemma ExpandTurn(m: MacroTable, blocked: set<string>, ts: seq<Token>, i: nat, out: seq<Token>, us: seq<Token>)
    requires i < |ts| && out == Expand(m, blocked, [ts[i]])
    requires us == ts[..i] + out + ts[i + 1..]
    ensures us[..i + |out|] + Expand(m, blocked, us[i + |out|..]) == ts[..i] + Expand(m, blocked, ts[i..])
  {
    hide Expand;
    ExpandSplice(m, blocked, ts, i);
    assert us[..i + |out|] == ts[..i] + out && us[i + |out|..] == ts[i + 1..];
  }

  lemma SettleTurn(m: MacroTable, blocked: set<string>, ts: seq<Token>, i: nat, us: seq<Token>)
    requires i < |ts| && !Expandable(m, blocked, ts[i]) && us == ts[i := Resolved(ts[i])]
    ensures us[..i + 1] + Expand(m, blocked, us[i + 1..]) == ts[..i] + Expand(m, blocked, ts[i..])
  {
    hide Expand, Resolved;
    ExpandOne(m, blocked, ts[i]);
    assert us == ts[..i] + [Resolved(ts[i])] + ts[i + 1..];
    ExpandTurn(m, blocked, ts, i, [Resolved(ts[i])], us);
  }

  lemma NothingLeft(m: MacroTable, blocked: set<string>, ts: seq<Token>)
    ensures ts[..|ts|] + Expand(m, blocked, ts[|ts|..]) == ts
  {
  }

  // ----- Where the tokens come from -----

  /** Text without macro names and without `__LINE__` comes out as it went in. */
  lemma {:induction false} OrdinaryStays(m: MacroTable, blocked: set<string>, ts: seq<Token>)
    requires forall i :: 0 <= i < |ts| ==> ts[i].kind == Identifier ==> ts[i].value !in m && ts[i].value != "__LINE__"
    ensures Expand(m, blocked, ts) == ts
  {
    if ts != [] {
      OrdinaryStays(m, blocked, ts[1..]);
      assert ts == [ts[0]] + ts[1..];
    }
  }

  /** Ordinary tokens stay in their places between the expansions of what is around them. */
  lemma OrdinaryInPlace(m: MacroTable, blocked: set<string>, before: seq<Token>, t: Token, after: seq<Token>)
    requires t.kind == Identifier ==> t.value !in m && t.value != "__LINE__"
    ensures Expand(m, blocked, before + [t] + after) == Expand(m, blocked, before) + [t] + Expand(m, blocked, after)
  {
    hide Expand;
    OrdinaryStays(m, blocked, [t]);
    ExpandConcat(m, blocked, before + [t], after);
    ExpandConcat(m, blocked, before, [t]);
  }

  /** A macro name that is not blocked gives way to its replacement list, expanded with the name blocked,
      every token of it moved to the line of the name. */
  lemma NameInPlace(m: MacroTable, blocked: set<string>, before: seq<Token>, t: Token, after: seq<Token>)
    requires t.kind == Identifier && t.value in m && t.value !in blocked
    ensures var body := Expand(m, blocked + {t.value}, m[t.value]);
      exists out: seq<Token> ::
        && Expand(m, blocked, before + [t] + after) == Expand(m, blocked, before) + out + Expand(m, blocked, after)
        && |out| == |body| && forall i :: 0 <= i < |out| ==> out[i] == Token(body[i].kind, body[i].value, t.lineno)
  {
    hide Expand;
    ExpandConcat(m, blocked, before + [t], after);
    ExpandConcat(m, blocked, before, [t]);
    ExpandOne(m, blocked, t);
  }

  /** The number that a string of decimal digits denotes. */
  function DecimalValue(s: string): int {
    if s == "" then 0 else 10 * DecimalValue(s[..|s| - 1]) + (s[|s| - 1] as int - '0' as int)
  }

  /** Decimal digits that denote `n`, without leading zeros. */
  ghost predicate Decimal(s: string, n: nat) {
    && s != "" && (forall i :: 0 <= i < |s| ==> '0' <= s[i] <= '9')
    && DecimalValue(s) == n && (|s| > 1 ==> s[0] != '0')
  }

  lemma DigitMore(s: string, n: nat, d: nat)
    requires d < 10 && Decimal(s, n) && s[0] != '0'
    ensures Decimal(s + [Digit(d)], 10 * n + d)
  {
    var t := s + [Digit(d)];
    assert t[..|t| - 1] == s;
  }

  lemma OneDigit(d: nat)
    requires d < 10
    ensures Decimal([Digit(d)], d)
  {
    assert [Digit(d)][..0] == "";
    assert DecimalValue("") == 0;
  }

  lemma {:induction false} NumeralIsDecimal(n: nat)
    ensures Decimal(Numeral(n), n) && (n > 0 ==> Numeral(n)[0] != '0')
    decreases n
  {
    hide DecimalValue;
    if n < 10 {
      OneDigit(n);
    } else {
      var tens, last := n / 10, n % 10;
      assert n == 10 * tens + last && tens > 0;
      NumeralIsDecimal(tens);
      DigitMore(Numeral(tens), tens, last);
    }
  }

  /** `o` is the token `s`, perhaps on another line, or the number of the line on which `__LINE__` stands. */
  ghost predicate ComesFrom(o: Token, s: Token) {
    (o.kind == s.kind && o.value == s.value) || (s.kind == Identifier && s.value == "__LINE__" && o.kind == Integer && Decimal(o.value, s.lineno))
  }

  /** A token of the text, or of some replacement list. */
  ghost predicate Source(m: MacroTable, ts: seq<Token>, s: Token) {
    s in ts || exists x :: x in m && s in m[x]
  }

  /** Every token of the output comes from a token of the text or of a replacement list, and stands on the
      line of a token of the text; no `__LINE__` is left. */
  lemma {:induction false} TokensComeFrom(m: MacroTable, blocked: set<string>, ts: seq<Token>, k: nat) returns (s: Token, i: nat)
    requires k < |Expand(m, blocked, ts)|
    ensures Source(m, ts, s) && ComesFrom(Expand(m, blocked, ts)[k], s)
    ensures i < |ts| && Expand(m, blocked, ts)[k].lineno == ts[i].lineno
    ensures Expand(m, blocked, ts)[k].kind == Identifier ==> Expand(m, blocked, ts)[k].value != "__LINE__"
    decreases m.Keys - blocked, |ts|
  {
    hide Decimal;
    var t := ts[0];
    assert ts == [t] + ts[1..];
    ExpandConcat(m, blocked, [t], ts[1..]);
    ExpandOne(m, blocked, t);
    var n := |Expand(m, blocked, [t])|;
    if k >= n {
      var j;
      s, j := TokensComeFrom(m, blocked, ts[1..], k - n);
      i := j + 1;
    } else if Expandable(m, blocked, t) {
      assert t.value in m.Keys - blocked && t.value !in m.Keys - (blocked + {t.value});
      var j;
      s, j := TokensComeFrom(m, blocked + {t.value}, m[t.value], k);
      i := 0;
    } else {
      NumeralIsDecimal(t.lineno);
      s, i := t, 0;
    }
  }

  // ----- When no macro name is left -----

  predicate Names(m: MacroTable, t: Token) {
    t.kind == Identifier && t.value in m
  }

  /** A macro's replacement list mentions another macro. */
  predicate Uses(m: MacroTable, x: string, y: string) {
    x in m && y in m && exists i :: 0 <= i < |m[x]| && m[x][i].kind == Identifier && m[x][i].value == y
  }

  ghost predicate Path(m: MacroTable, x: string, y: string, n: nat)
    decreases n
  {
    if n == 0 then x == y && x in m else exists u :: Uses(m, x, u) && Path(m, u, y, n - 1)
  }

  /** No macro mentions itself, directly or through others. One called `__LINE__` may: when it is not to
      be expanded it is still replaced, by a number. */
  ghost predicate Acyclic(m: MacroTable) {
    forall x, n: nat :: n > 0 && x != LINE_MACRO ==> !Path(m, x, x, n)
  }

  /** A path that does not meet `a`. */
  ghost predicate PathAvoiding(m: MacroTable, x: string, y: string, n: nat, a: string)
    decreases n
  {
    x != a && if n == 0 then x == y && x in m else exists u :: Uses(m, x, u) && PathAvoiding(m, u, y, n - 1, a)
  }

  lemma {:induction false} AvoidingIsPath(m: MacroTable, x: string, y: string, n: nat, a: string)
    requires PathAvoiding(m, x, y, n, a)
    ensures Path(m, x, y, n)
    decreases n
  {
    if n > 0 {
      var u :| Uses(m, x, u) && PathAvoiding(m, u, y, n - 1, a);
      AvoidingIsPath(m, u, y, n - 1, a);
    }
  }

  /** A path that meets `a` has a part that starts there. */
  lemma {:induction false} SplitPath(m: MacroTable, x: string, y: string, n: nat, a: string) returns (k: nat)
    requires Path(m, x, y, n)
    ensures k <= n && (PathAvoiding(m, x, y, n, a) || Path(m, a, y, k))
    decreases n
  {
    k := n;
    if x != a && n > 0 {
      var u :| Uses(m, x, u) && Path(m, u, y, n - 1);
      k := SplitPath(m, u, y, n - 1, a);
    }
  }

  ghost predicate NoNames(m: MacroTable, ts: seq<Token>) {
    forall i :: 0 <= i < |ts| ==> !Names(m, ts[i])
  }

  lemma {:induction false} PathSnoc(m: MacroTable, x: string, y: string, z: string, n: nat)
    requires Path(m, x, y, n) && Uses(m, y, z)
    ensures Path(m, x, z, n + 1)
    decreases n
  {
    if n == 0 {
      assert Path(m, z, z, 0);
    } else {
      var u :| Uses(m, x, u) && Path(m, u, y, n - 1);
      PathSnoc(m, u, y, z, n - 1);
    }
  }

  /** Every blocked macro leads to the macro `v` that is to be expanded next. */
  ghost predicate LedTo(m: MacroTable, blocked: set<string>, v: string) {
    forall y :: y in blocked ==> exists n: nat :: n > 0 && Path(m, y, v, n)
  }

  lemma {:induction false} AcyclicExpand(m: MacroTable, blocked: set<string>, ts: seq<Token>)
    requires Acyclic(m)
    requires forall i :: 0 <= i < |ts| && Names(m, ts[i]) ==> LedTo(m, blocked, ts[i].value)
    ensures NoNames(m, Expand(m, blocked, ts))
    decreases m.Keys - blocked, |ts|
  {
    if ts != [] {
      var t := ts[0];
      AcyclicExpand(m, blocked, ts[1..]);
      if Names(m, t) {
        var v := t.value;
        assert LedTo(m, blocked, v);
        if v in blocked {
          assert v == LINE_MACRO;
          return;
        }
        assert v in m.Keys - blocked && v !in m.Keys - (blocked + {v});
        forall i | 0 <= i < |m[v]| && Names(m, m[v][i]) ensures LedTo(m, blocked + {v}, m[v][i].value) {
          LedFurther(m, blocked, v, m[v][i].value);
        }
        AcyclicExpand(m, blocked + {v}, m[v]);
      }
    }
  }

  lemma LedFurther(m: MacroTable, blocked: set<string>, v: string, u: string)
    requires LedTo(m, blocked, v) && Uses(m, v, u)
    ensures LedTo(m, blocked + {v}, u)
  {
    forall y | y in blocked + {v} ensures exists n: nat :: n > 0 && Path(m, y, u, n) {
      if y in blocked {
        var n: nat :| n > 0 && Path(m, y, v, n);
        PathSnoc(m, y, v, u, n);
      } else {
        assert Path(m, v, v, 0);
        PathSnoc(m, v, v, u, 0);
      }
    }
  }

  /** A path back to a blocked macro leaves a macro name behind. */
  lemma {:induction false} CycleSurvives(m: MacroTable, blocked: set<string>, x: string, y: string, n: nat, ts: seq<Token>, i: nat)
    requires Path(m, x, y, n) && y in blocked && y != LINE_MACRO
    requires LINE_MACRO in blocked ==> PathAvoiding(m, x, y, n, LINE_MACRO)
    requires i < |ts| && ts[i].kind == Identifier && ts[i].value == x
    ensures !NoNames(m, Expand(m, blocked, ts))
    decreases n, i
  {
    assert x in m;
    if i > 0 {
      CycleSurvives(m, blocked, x, y, n, ts[1..], i - 1);
      SurvivesAfter(m, Expand(m, blocked, [ts[0]]), Expand(m, blocked, ts[1..]));
      ExpandConcat(m, blocked, [ts[0]], ts[1..]);
      assert [ts[0]] + ts[1..] == ts;
    } else if x in blocked {
      assert Expand(m, blocked, ts)[0] == ts[0];
    } else {
      var u := NextOnPath(m, blocked, x, y, n);
      if LINE_MACRO in blocked + {x} && !PathAvoiding(m, u, y, n - 1, LINE_MACRO) {
        var k := SplitPath(m, u, y, n - 1, LINE_MACRO);
        CycleSurvives(m, blocked, x, y, k, ts, i);
      } else {
        var k :| 0 <= k < |m[x]| && m[x][k].kind == Identifier && m[x][k].value == u;
        CycleSurvives(m, blocked + {x}, u, y, n - 1, m[x], k);
        RelinedSurvives(m, Expand(m, blocked + {x}, m[x]), ts[0].lineno, Expand(m, blocked, ts[1..]));
      }
    }
  }

  lemma NextOnPath(m: MacroTable, blocked: set<string>, x: string, y: string, n: nat) returns (u: string)
    requires Path(m, x, y, n) && y in blocked && x !in blocked && (LINE_MACRO in blocked ==> PathAvoiding(m, x, y, n, LINE_MACRO))
    ensures n > 0 && Uses(m, x, u) && Path(m, u, y, n - 1)
    ensures LINE_MACRO in blocked ==> PathAvoiding(m, u, y, n - 1, LINE_MACRO)
  {
    if LINE_MACRO in blocked {
      u :| Uses(m, x, u) && PathAvoiding(m, u, y, n - 1, LINE_MACRO);
      AvoidingIsPath(m, u, y, n - 1, LINE_MACRO);
    } else {
      u :| Uses(m, x, u) && Path(m, u, y, n - 1);
    }
  }

  lemma SurvivesAfter(m: MacroTable, a: seq<Token>, b: seq<Token>)
    requires !NoNames(m, b)
    ensures !NoNames(m, a + b)
  {
    var i :| 0 <= i < |b| && Names(m, b[i]);
    assert (a + b)[|a| + i] == b[i];
  }

  lemma RelinedSurvives(m: MacroTable, a: seq<Token>, n: nat, b: seq<Token>)
    requires !NoNames(m, a)
    ensures !NoNames(m, Relined(a, n) + b)
  {
    var i :| 0 <= i < |a| && Names(m, a[i]);
    assert Names(m, (Relined(a, n) + b)[i]);
  }

  /** Expansion removes every macro name from every text exactly when no macro but `__LINE__` leads back
      to itself. */
  lemma CleanIffAcyclic(m: MacroTable)
    ensures (forall ts :: NoNames(m, Expand(m, {}, ts))) <==> Acyclic(m)
  {
    if Acyclic(m) {
      forall ts ensures NoNames(m, Expand(m, {}, ts)) {
        AcyclicExpand(m, {}, ts);
      }
    } else {
      var x, n: nat :| n > 0 && x != LINE_MACRO && Path(m, x, x, n);
      var u :| Uses(m, x, u) && Path(m, u, x, n - 1);
      var k :| 0 <= k < |m[x]| && m[x][k].kind == Identifier && m[x][k].value == u;
      var t := Token(Identifier, x, 0);
      CycleSurvives(m, {x}, u, x, n - 1, m[x], k);
      RelinedSurvives(m, Expand(m, {x}, m[x]), 0, []);
      ExpandOne(m, {}, t);
      assert {} + {x} == {x};
      assert Relined(Expand(m, {x}, m[x]), 0) + [] == Expand(m, {}, [t]);
    }
  }
}
