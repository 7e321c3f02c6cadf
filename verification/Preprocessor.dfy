/** The preprocessor object: macro expansion in place, and the line loop of `parsegen`. */
module Preprocessing {
  import opened MacroExpansion
  import opened Directives
  import opened ConditionalLines

  class Preprocessor {
    var macros: MacroTable
    /** The dictionary `expanded` that the recursive calls share. */
    var expanded: set<string>

    /** `evalexpr`: any function of the macro table and the tokens. */
    const evalexpr: Evaluator

    constructor (macros: MacroTable, evalexpr: Evaluator)
      ensures this.macros == macros && expanded == {} && this.evalexpr == evalexpr
    {
      this.macros, this.evalexpr, expanded := macros, evalexpr, {};
    }

    /** Every token of an expansion gets the line number of the name it replaces. */
    method Reline(ex0: seq<Token>, n: nat) returns (ex: seq<Token>)
      ensures ex == Relined(ex0, n)
    {
      ex := ex0;
      for k := 0 to |ex0|
        invariant |ex| == |ex0| && forall j :: 0 <= j < |ex| ==> ex[j] == if j < k then ex0[j].(lineno := n) else ex0[j]
      {
        ex := ex[k := ex[k].(lineno := n)];
      }
    }

    /** `expand_macros(tokens, expanded)` for object-like macros. The macro bodies are copied, so the
        table stays as it is, and the shared dictionary is left as it was found. */
    method ExpandMacros(tokens0: seq<Token>) returns (tokens: seq<Token>)
      modifies this`expanded
      ensures expanded == old(expanded)
      ensures tokens == Expand(macros, expanded, tokens0)
      ensures (forall t :: t in tokens0 && t.kind == Identifier ==> t.value !in macros && t.value != "__LINE__") ==> tokens == tokens0
      decreases macros.Keys - expanded
    {
      hide Expand, Relined;
      tokens := tokens0;
      var i := 0;
      assert tokens0[0..] == tokens0;
      while i < |tokens|
        invariant 0 <= i <= |tokens| && expanded == old(expanded)
        invariant tokens[..i] + Expand(macros, expanded, tokens[i..]) == Expand(macros, expanded, tokens0)
        decreases |tokens| - i
      {
        var t := tokens[i];
        ExpandOne(macros, expanded, t);
        ghost var before, blocked := tokens, expanded;
        if t.kind == Identifier && t.value in macros && t.value !in expanded {
          assert t.value in macros.Keys - blocked && t.value !in macros.Keys - (blocked + {t.value});
          expanded := expanded + {t.value};
          var ex := ExpandMacros(macros[t.value]);
          expanded := expanded - {t.value};
          assert expanded == blocked;
          ex := Reline(ex, t.lineno);
          tokens := tokens[..i] + ex + tokens[i + 1..];
          ExpandTurn(macros, blocked, before, i, ex, tokens);
          i := i + |ex|;
        } else {
          if t.kind == Identifier && t.value == LINE_MACRO {
            tokens := tokens[i := Token(Integer, Numeral(t.lineno), t.lineno)];
          }
          SettleTurn(macros, blocked, before, i, tokens);
          i := i + 1;
        }
      }
      NothingLeft(macros, expanded, tokens);
      if forall t :: t in tokens0 && t.kind == Identifier ==> t.value !in macros && t.value != "__LINE__" {
        OrdinaryStays(macros, expanded, tokens0);
      }
    }

    /** `tokenstrip(tokens)`: delete the leading and the trailing white space. */
    method TokenStrip(tokens0: seq<Token>) returns (tokens: seq<Token>)
      ensures tokens == Strip(tokens0)
    {
      tokens := tokens0;
      var i := 0;
      assert tokens[0..] == tokens;
      while i < |tokens| && tokens[i].kind == Whitespace
        invariant i <= |tokens| && DropLeading(tokens[i..]) == DropLeading(tokens0)
      {
        assert tokens[i..][1..] == tokens[i + 1..];
        i := i + 1;
      }
      tokens := tokens[i..];
      var j := |tokens|;
      assert tokens[..j] == tokens;
      while j > 0 && tokens[j - 1].kind == Whitespace
        invariant j <= |tokens| && DropTrailing(tokens[..j]) == DropTrailing(tokens)
      {
        assert tokens[..j][..j - 1] == tokens[..j - 1];
        j := j - 1;
      }
      tokens := tokens[..j];
    }

    /** Look for the first token that is not white space, and take a directive line apart. */
    method ReadLine(x: Line) returns (directive: bool, name: string, args: seq<Token>)
      requires x != []
      ensures directive == IsDirective(x)
      ensures directive ==> name == DirName(x) && args == DirArgs(x)
      ensures forall word, rest :: Directs(x, word, rest) ==> directive && name == word.value && args == rest
    {
      hide Strip, Directs;
      var i := 0;
      assert x[0..] == x;
      while i < |x| - 1 && x[i].kind == Whitespace
        invariant i < |x| && FirstInk(x) == i + FirstInk(x[i..])
      {
        assert x[i..][1..] == x[i + 1..];
        i := i + 1;
      }
      assert FirstInk(x[i..]) == 0;
      directive, name, args := x[i].value == "#", "", [];
      if directive {
        var dirtokens := TokenStrip(x[i + 1..]);
        if dirtokens != [] {
          name := dirtokens[0].value;
          args := TokenStrip(dirtokens[1..]);
        }
      }
      forall word, rest | Directs(x, word, rest) ensures directive && name == word.value && args == rest {
        LineTakenApart(x, word, rest);
      }
    }

    /** The white space of a directive line that breaks the line goes to the pending text. */
    method AppendNewlines(chunk0: seq<Token>, x: Line) returns (chunk: seq<Token>)
      ensures chunk == chunk0 + Newlines(x)
    {
      chunk := chunk0;
      assert x[0..] == x;
      for i := 0 to |x|
        invariant chunk + Newlines(x[i..]) == chunk0 + Newlines(x)
      {
        assert x[i..][1..] == x[i + 1..] && x[i..][0] == x[i];
        if HoldsNewline(x[i]) {
          chunk := chunk + [x[i]];
        }
      }
    }

    /** `define(tokens)` for object-like macros: an empty replacement list, a normal macro, or a bad
        definition that is reported and ignored. */
    method Define(linetok: seq<Token>)
      requires !FunctionLike(linetok)
      modifies this`macros
      ensures macros == Defined(old(macros), linetok)
      ensures forall k :: linetok == [] || k != linetok[0].value ==>
                (k in macros <==> k in old(macros)) && (k in macros ==> macros[k] == old(macros)[k])
      ensures |linetok| == 1 ==> linetok[0].value in macros && macros[linetok[0].value] == []
      ensures |linetok| > 1 && linetok[1].kind == Whitespace ==>
                linetok[0].value in macros && Stripped(linetok[2..], macros[linetok[0].value])
    {
      if linetok != [] {
        var name := linetok[0];
        if |linetok| == 1 {
          macros := macros[name.value := []];
        } else if linetok[1].kind == Whitespace {
          var value := TokenStrip(linetok[2..]);
          StripIsStripped(linetok[2..], value);
          macros := macros[name.value := value];
        }
      }
    }

    /** Expand the pending text, with a dictionary of its own, and yield it. */
    method FlushChunk(out0: seq<Token>, chunk: seq<Token>) returns (out: seq<Token>)
      requires expanded == {}
      modifies this`expanded
      ensures expanded == {} && out == out0 + Expand(macros, {}, chunk)
    {
      var tokens := ExpandMacros(chunk);
      out := out0 + tokens;
    }

    /** `#define`, `#include`, `#undef` and unknown directives in an enabled region. */
    method PlainDirective(name: string, args: seq<Token>, chunk0: seq<Token>, out0: seq<Token>)
      returns (chunk: seq<Token>, out: seq<Token>, ok: bool)
      requires expanded == {}
      modifies this`macros, this`expanded
      ensures expanded == {}
      ensures Text(macros, chunk, out, ok) == Perform(Text(old(macros), chunk0, out0, true), name, args)
    {
      hide Expand, FunctionLike, Defined;
      chunk, out, ok := chunk0, out0, true;
      if name == "define" {
        out := FlushChunk(out, chunk);
        chunk := [];
        if FunctionLike(args) {
          ok := false;
        } else {
          Define(args);
        }
      } else if name == "include" {
        out := FlushChunk(out, chunk);
        chunk, ok := [], false;
      } else if name == "undef" {
        out := FlushChunk(out, chunk);
        chunk := [];
        if args == [] {
          ok := false;
        } else {
          macros := macros - {args[0].value};
        }
      }
    }

    /** `#ifdef`, `#ifndef` and `#if`, after the state has been pushed. */
    method OpenGroup(name: string, args: seq<Token>, x: Line, iftrigger0: bool) returns (enable: bool, iftrigger: bool, ok: bool)
      requires IsDirective(x) && RoleOf(x) == Opens && name == DirName(x) && args == DirArgs(x)
      ensures ok == !NeedsName(x)
      ensures ok ==> enable == iftrigger == Holds(evalexpr, macros, x)
      ensures !ok ==> enable && iftrigger == iftrigger0
    {
      hide IsDirective, DirName, DirArgs;
      enable, iftrigger, ok := true, iftrigger0, true;
      if name == "ifdef" {
        if args == [] {
          ok := false;
        } else if args[0].value !in macros {
          enable, iftrigger := false, false;
        } else {
          iftrigger := true;
        }
      } else if name == "ifndef" {
        if args == [] {
          ok := false;
        } else if args[0].value in macros {
          enable, iftrigger := false, false;
        } else {
          iftrigger := true;
        }
      } else {
        var result := evalexpr(macros, args);
        if !result {
          enable, iftrigger := false, false;
        } else {
          iftrigger := true;
        }
      }
    }

    /** One line of the loop of `parsegen`. */
    method ProcessLine(x: Line, enable0: bool, iftrigger0: bool, ifstack0: seq<(bool, bool)>, chunk0: seq<Token>, out0: seq<Token>, errors0: nat)
      returns (enable: bool, iftrigger: bool, ifstack: seq<(bool, bool)>, chunk: seq<Token>, out: seq<Token>, ok: bool, errors: nat)
      requires x != [] && expanded == {}
      modifies this`macros, this`expanded
      ensures expanded == {}
      ensures Machine(enable, iftrigger, ifstack, Text(macros, chunk, out, ok), errors) ==
              Step(evalexpr, Machine(enable0, iftrigger0, ifstack0, Text(old(macros), chunk0, out0, true), errors0), x)
    {
      hide IsDirective, DirName, DirArgs, Newlines, Perform, NeedsName;
      enable, iftrigger, ifstack, chunk, out, ok, errors := enable0, iftrigger0, ifstack0, chunk0, out0, true, errors0;
      var directive, name, args := ReadLine(x);
      if !directive {
        if enable {
          chunk := chunk + x;
        }
        return;
      }
      chunk := AppendNewlines(chunk, x);
      if name == "if" || name == "ifdef" || name == "ifndef" {
        ifstack := ifstack + [(enable, iftrigger)];
        if enable {
          enable, iftrigger, ok := OpenGroup(name, args, x, iftrigger);
        }
      } else if name == "elif" || name == "else" {
        if ifstack != [] {
          if ifstack[|ifstack| - 1].0 {
            if enable {
              enable := false;
            } else if !iftrigger {
              var result := if name == "else" then true else evalexpr(macros, args);
              if result {
                enable, iftrigger := true, true;
              }
            }
          }
        } else {
          errors := errors + 1;
        }
      } else if name == "endif" {
        if ifstack != [] {
          var top := ifstack[|ifstack| - 1];
          ifstack := ifstack[..|ifstack| - 1];
          enable, iftrigger := top.0, top.1;
        } else {
          errors := errors + 1;
        }
      } else if enable {
        chunk, out, ok := PlainDirective(name, args, chunk, out);
      }
    }

    /** `parsegen(input, source)` on the grouped lines, none of which is empty. The run stops at an
        exception, or at a directive outside this model. */
    method ParseGen(lines: seq<Line>, file: Token) returns (out: seq<Token>, ok: bool, errors: nat)
      requires expanded == {} && forall i :: 0 <= i < |lines| ==> lines[i] != []
      modifies this`macros, this`expanded
      ensures var m := RunLines(evalexpr, Begin(old(macros), file), lines);
        && ok == m.text.ok && macros == m.text.macros && errors == m.errors
        && (ok ==> out == Flush(m.text).out)
    {
      hide Step;
      macros := macros["__FILE__" := [file]];
      var chunk, enable, iftrigger, ifstack: seq<(bool, bool)> := [], true, false, [];
      out, ok, errors := [], true, 0;
      var k := 0;
      assert lines[0..] == lines;
      while k < |lines| && ok
        invariant k <= |lines| && expanded == {}
        invariant RunLines(evalexpr, Begin(old(macros), file), lines) ==
                  RunLines(evalexpr, Machine(enable, iftrigger, ifstack, Text(macros, chunk, out, ok), errors), lines[k..])
        decreases |lines| - k
      {
        assert lines[k..][0] == lines[k] && lines[k..][1..] == lines[k + 1..];
        enable, iftrigger, ifstack, chunk, out, ok, errors := ProcessLine(lines[k], enable, iftrigger, ifstack, chunk, out, errors);
        k := k + 1;
      }
      if ok {
        out := FlushChunk(out, chunk);
      } else {
        StoppedRun(evalexpr, Machine(enable, iftrigger, ifstack, Text(macros, chunk, out, ok), errors), lines[k..]);
      }
    }
  }

  /** The state in which `parsegen` starts. */
  function Begin(macros: MacroTable, file: Token): Machine {
    Machine(true, false, [], Text(macros["__FILE__" := [file]], [], [], true), 0)
  }

  /** Well-nested text comes out as its nested reading says, each line expanded under the definitions in
      force there, and the machine ends enabled, with an empty stack and no error reported. */
  lemma PreprocessedText(ev: Evaluator, macros: MacroTable, file: Token, ps: seq<Part>)
    requires ValidParts(ps)
    ensures var m := RunLines(ev, Begin(macros, file), Lines(ps));
      var r := PartsMeaning(ev, ps, Meaning(macros["__FILE__" := [file]], [], true));
      && m.text.ok == r.ok && m.text.macros == r.macros
      && (r.ok ==> Flush(m.text).out == r.out && m.enable && m.ifstack == [] && m.errors == 0)
  {
    hide PartsMeaning, RunLines, ValidParts;
    var m := Begin(macros, file);
    assert Amounts(m.text) == Meaning(macros["__FILE__" := [file]], [], true);
    EnabledParts(ev, m, ps);
  }
}
