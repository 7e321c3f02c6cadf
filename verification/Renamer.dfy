/** The renamer: a visitor that rewrites the text of a file while it walks the parsed tree, correcting
    the original positions by a running offset. */
module Renamer {
  import opened Lists
  import opened Protos

  /** Replace the characters from `start` up to `end` of the original file. */
  datatype Edit = Edit(start: int, end: int, text: string)

  // ----- What the edits amount to -----

  ghost predicate Ordered(es: seq<Edit>, n: nat) {
    && (forall i :: 0 <= i < |es| ==> 0 <= es[i].start <= es[i].end <= n)
    && (forall i, j :: 0 <= i < j < |es| ==> es[i].end <= es[j].start)
  }

  function LastEnd(es: seq<Edit>): int {
    if es == [] then 0 else es[|es| - 1].end
  }

  /** The new text up to the end of the last edit: original gaps and replacements, interleaved. */
  function Rewritten(code: string, es: seq<Edit>): string
    requires Ordered(es, |code|)
  {
    if es == [] then ""
    else
      var before, e := es[..|es| - 1], es[|es| - 1];
      Rewritten(code, before) + code[LastEnd(before)..e.start] + e.text
  }

  /** The whole new text. */
  function Spliced(code: string, es: seq<Edit>): string
    requires Ordered(es, |code|)
  {
    Rewritten(code, es) + code[LastEnd(es)..]
  }

  /** The sum of the length changes. */
  function Growth(es: seq<Edit>): int {
    if es == [] then 0
    else Growth(es[..|es| - 1]) + |es[|es| - 1].text| - (es[|es| - 1].end - es[|es| - 1].start)
  }

  lemma {:induction false} RewrittenLength(code: string, es: seq<Edit>)
    requires Ordered(es, |code|)
    ensures |Rewritten(code, es)| == LastEnd(es) + Growth(es)
  {
    if es != [] {
      RewrittenLength(code, es[..|es| - 1]);
    }
  }

  /** Python's slice bounds: negative ones count from the end, and all are clipped. */
  function Clip(i: int, n: nat): (k: nat)
    ensures k <= n
  {
    if i < 0 then if n + i < 0 then 0 else n + i else if i > n then n else i
  }

  // ----- The edits of the visitor -----

  /** The text of a dotted name, its elements joined by dots. */
  function Joined(first: Tok, more: seq<(Tok, Tok)>): string {
    if more == [] then first.text else Joined(first, more[..|more| - 1]) + "." + more[|more| - 1].1.text
  }

  function NameEdit(prefix: string, t: Tok): Edit {
    Edit(t.pos - 1, t.End() - 1, prefix + t.text)
  }

  function TypeEdit(prefix: string, first: Tok, more: seq<(Tok, Tok)>): Edit {
    Edit(first.pos - 1, (if more == [] then first else more[|more| - 1].1).End() - 1, prefix + Joined(first, more))
  }

  /** The edits in the order of the visit: a block's name before its body, a field's type. */
  function Edits(prefix: string, n: Node): seq<Edit>
    decreases n, 1
  {
    match n
    case Block(kind, _, name, _, body, _) => (if kind == Service then [] else [NameEdit(prefix, name)]) + AllEdits(prefix, body)
    case Field(_, ft, _, _) => if ft.Primitive? then [] else [TypeEdit(prefix, ft.first, ft.more)]
    case _ => []
  }

  function AllEdits(prefix: string, ns: seq<Node>): seq<Edit>
    decreases ns, 0
  {
    if ns == [] then [] else Edits(prefix, ns[0]) + AllEdits(prefix, ns[1..])
  }

  /** The names in field types are in order. */
  ghost predicate TypesInOrder(n: Node)
    decreases n, 1
  {
    match n
    case Block(_, _, _, _, body, _) => AllTypesInOrder(body)
    case Field(_, ft, _, _) => ft.Dotted? ==> ft.first.pos >= 1 && DotsInOrder(ft.first, ft.more)
    case _ => true
  }

  ghost predicate AllTypesInOrder(ns: seq<Node>)
    decreases ns, 0
  {
    ns == [] || (TypesInOrder(ns[0]) && AllTypesInOrder(ns[1..]))
  }

  class MyVisitor {
    const prefix: string
    var content: string
    var offset: int
    var statementsChanged: nat

    constructor (prefix: string, content: string)
      ensures this.prefix == prefix && this.content == content && offset == 0 && statementsChanged == 0
    {
      this.prefix, this.content, offset, statementsChanged := prefix, content, 0, 0;
    }

    /** The visitor has carried out the edits `done` of the file `code`. */
    ghost predicate Progress(code: string, done: seq<Edit>)
      reads this
    {
      && Ordered(done, |code|)
      && content == Spliced(code, done) && offset == Growth(done) && statementsChanged == |done|
    }

    /** `replace(lu, newCode)` for a unit with the lexical span (from, to). */
    method Replace(from: int, to: int, newCode: string)
      modifies this`content, this`offset, this`statementsChanged
      ensures var n, at := |old(content)|, old(offset);
        content == old(content)[..Clip(at + from - 1, n)] + newCode + old(content)[Clip(at + to - 1, n)..]
      ensures offset == old(offset) + |newCode| - (to - from) && statementsChanged == old(statementsChanged) + 1
    {
      var oldCodeLen := to - from;
      var codeStart := offset + from - 1;
      var codeEnd := offset + to - 1;
      content := content[..Clip(codeStart, |content|)] + newCode + content[Clip(codeEnd, |content|)..];
      offset := offset + |newCode| - oldCodeLen;
      statementsChanged := statementsChanged + 1;
    }

    /** `prefixize(lu, oldId)`. Behind all earlier edits the corrected positions hit the right characters. */
    method Prefixize(from: int, to: int, oldId: string, ghost code: string, ghost done: seq<Edit>)
      requires Progress(code, done) && LastEnd(done) <= from - 1 <= to - 1 <= |code|
      modifies this`content, this`offset, this`statementsChanged
      ensures Progress(code, done + [Edit(from - 1, to - 1, prefix + oldId)])
    {
      SpliceMore(code, done, Edit(from - 1, to - 1, prefix + oldId), content, offset);
      Replace(from, to, prefix + oldId);
    }

    /** `DotName.deriveLex`: from the least start to the greatest end of the elements that have a
        position. For a single name that is its own span. */
    method DeriveLex(first: Tok, more: seq<(Tok, Tok)>) returns (from: nat, to: nat)
      requires first.pos >= 1 && DotsInOrder(first, more)
      ensures from == first.pos && to == (if more == [] then first else more[|more| - 1].1).End()
    {
      hide DotsInOrder;
      from, to := first.pos, first.End();
      for i := 0 to |more|
        invariant from == first.pos && to == (if i == 0 then first else more[i - 1].1).End() && from <= to
      {
        var x := more[i].1;
        DotsBefore(first, more, i);
        if x.pos != 0 && x.pos < from {
          from := x.pos;
        }
        if x.End() != 0 && x.End() > to {
          to := x.End();
        }
      }
    }

    /** `accept` and the `visit_` method of a node. */
    method Visit(n: Node, ghost code: string, ghost done: seq<Edit>)
      requires TypesInOrder(n) && Progress(code, done) && Ordered(done + Edits(prefix, n), |code|)
      modifies this`content, this`offset, this`statementsChanged
      ensures Progress(code, done + Edits(prefix, n))
      decreases n, 1
    {
      hide Progress, Ordered, DotsInOrder;
      match n {
        case Block(kind, _, name, _, body, _) =>
          if kind != Service {
            assert Edits(prefix, n) == [NameEdit(prefix, name)] + AllEdits(prefix, body);
            NextEdit(code, done, Edits(prefix, n));
            Prefixize(name.pos, name.End(), name.text, code, done);
            assert done + Edits(prefix, n) == done + [NameEdit(prefix, name)] + AllEdits(prefix, body);
            VisitAll(body, code, done + [NameEdit(prefix, name)]);
          } else {
            assert Edits(prefix, n) == AllEdits(prefix, body);
            VisitAll(body, code, done);
          }
        case Field(_, ft, _, _) =>
          if ft.Dotted? {
            NextEdit(code, done, Edits(prefix, n));
            var from, to := DeriveLex(ft.first, ft.more);
            Prefixize(from, to, Joined(ft.first, ft.more), code, done);
          } else {
            assert done + [] == done;
          }
        case _ =>
          assert done + [] == done;
      }
    }

    /** Visit the statements of a body in their order. */
    method VisitAll(ns: seq<Node>, ghost code: string, ghost done: seq<Edit>)
      requires AllTypesInOrder(ns) && Progress(code, done) && Ordered(done + AllEdits(prefix, ns), |code|)
      modifies this`content, this`offset, this`statementsChanged
      ensures Progress(code, done + AllEdits(prefix, ns))
      decreases ns, 0
    {
      hide Progress, Ordered, TypesInOrder;
      ghost var so := done;
      for i := 0 to |ns|
        invariant AllTypesInOrder(ns[i..]) && Progress(code, so) && so + AllEdits(prefix, ns[i..]) == done + AllEdits(prefix, ns)
      {
        assert ns[i..][0] == ns[i] && ns[i..][1..] == ns[i + 1..];
        ghost var es, rest := Edits(prefix, ns[i]), AllEdits(prefix, ns[i + 1..]);
        assert so + AllEdits(prefix, ns[i..]) == so + es + rest;
        OrderedPrefix(so + es, rest, |code|);
        Visit(ns[i], code, so);
        so := so + es;
      }
      assert so + [] == so;
    }

    /** The visit of a whole file: the new text is that of the edits, carried out all at once. */
    method RenameFile(ns: seq<Node>)
      requires InText(content, AllPieces(ns)) && offset == 0 && statementsChanged == 0
      modifies this`content, this`offset, this`statementsChanged
      ensures var code, es := old(content), AllEdits(prefix, ns);
        Ordered(es, |code|) && content == Spliced(code, es) && offset == Growth(es) && statementsChanged == |es|
    {
      ghost var code := content;
      FileEditsOrdered(code, prefix, ns);
      FileTypesInOrder(code, ns);
      assert Spliced(code, []) == code;
      assert [] + AllEdits(prefix, ns) == AllEdits(prefix, ns);
      VisitAll(ns, code, []);
    }
  }

  lemma DotsBefore(first: Tok, more: seq<(Tok, Tok)>, i: nat)
    requires DotsInOrder(first, more) && i < |more|
    ensures (if i == 0 then first else more[i - 1].1).End() <= more[i].1.pos <= more[i].1.End()
  {
    assert (if i == 0 then first else more[i - 1].1).End() <= more[i].0.pos;
    assert more[i].0.pos <= more[i].0.End() <= more[i].1.pos;
  }

  lemma NextEdit(code: string, done: seq<Edit>, es: seq<Edit>)
    requires Ordered(done + es, |code|) && es != []
    ensures LastEnd(done) <= es[0].start <= es[0].end <= |code|
  {
    assert (done + es)[|done|] == es[0];
    assert done != [] ==> (done + es)[|done| - 1] == done[|done| - 1];
  }

  lemma OrderedPrefix(es: seq<Edit>, more: seq<Edit>, n: nat)
    requires Ordered(es + more, n)
    ensures Ordered(es, n)
  {
    forall i | 0 <= i < |es| ensures es[i] == (es + more)[i] {}
  }

  lemma SpliceMore(code: string, done: seq<Edit>, e: Edit, content: string, offset: int)
    requires Ordered(done, |code|) && content == Spliced(code, done) && offset == Growth(done)
    requires LastEnd(done) <= e.start <= e.end <= |code|
    ensures Ordered(done + [e], |code|) && Growth(done + [e]) == offset + |e.text| - (e.end - e.start)
    ensures Spliced(code, done + [e]) == content[..Clip(offset + e.start, |content|)] + e.text + content[Clip(offset + e.end, |content|)..]
  {
    hide Ordered, Rewritten, Growth;
    OneMore(code, done, e);
    ShiftedSlices(Rewritten(code, done), code, LastEnd(done), offset, e.start, e.end);
  }

  lemma OneMore(code: string, done: seq<Edit>, e: Edit)
    requires Ordered(done, |code|) && LastEnd(done) <= e.start <= e.end <= |code|
    ensures 0 <= LastEnd(done) && |Rewritten(code, done)| == LastEnd(done) + Growth(done)
    ensures Ordered(done + [e], |code|) && LastEnd(done + [e]) == e.end
    ensures Growth(done + [e]) == Growth(done) + |e.text| - (e.end - e.start)
    ensures Rewritten(code, done + [e]) == Rewritten(code, done) + code[LastEnd(done)..e.start] + e.text
  {
    hide Ordered;
    RewrittenLength(code, done);
    assert (done + [e])[..|done|] == done;
    OrderedMore(done, e, |code|);
  }

  lemma OrderedMore(done: seq<Edit>, e: Edit, n: nat)
    requires Ordered(done, n) && LastEnd(done) <= e.start <= e.end <= n
    ensures Ordered(done + [e], n) && LastEnd(done + [e]) == e.end
  {
    assert forall i :: 0 <= i < |done| ==> done[i].end <= LastEnd(done);
  }

  /** Behind `k` the new text is the old one, moved by `off`. */
  lemma ShiftedSlices(d: string, code: string, k: int, off: int, a: int, b: int)
    requires |d| == k + off && 0 <= k <= a <= b <= |code|
    ensures var content := d + code[k..];
      && 0 <= off + a <= off + b <= |content|
      && content[..off + a] == d + code[k..a] && content[off + b..] == code[b..]
  {
  }

  // ----- The order of the edits -----

  /** The edits of the pieces, in the order of the text. */
  function PieceEdits(prefix: string, ps: seq<Piece>): seq<Edit> {
    if ps == [] then []
    else PieceEdits(prefix, ps[..|ps| - 1]) + PieceEdit(prefix, ps[|ps| - 1])
  }

  function PieceEdit(prefix: string, p: Piece): seq<Edit> {
    match p
    case Keep(_) => []
    case Rename(t) => [NameEdit(prefix, t)]
    case RenameDotted(t, more) => [TypeEdit(prefix, t, more)]
  }

  lemma {:induction false} PieceEditsConcat(prefix: string, ps: seq<Piece>, qs: seq<Piece>)
    ensures PieceEdits(prefix, ps + qs) == PieceEdits(prefix, ps) + PieceEdits(prefix, qs)
  {
    if qs == [] {
      assert ps + qs == ps;
    } else {
      assert (ps + qs)[..|ps + qs| - 1] == ps + qs[..|qs| - 1];
      PieceEditsConcat(prefix, ps, qs[..|qs| - 1]);
    }
  }

  lemma {:induction false} KeepsNoEdits(prefix: string, ts: seq<Tok>)
    ensures PieceEdits(prefix, Keeps(ts)) == []
  {
    if ts != [] {
      assert Keeps(ts)[..|ts| - 1] == Keeps(ts[..|ts| - 1]);
      KeepsNoEdits(prefix, ts[..|ts| - 1]);
    }
  }

  lemma OnePieceEdit(prefix: string, p: Piece)
    ensures PieceEdits(prefix, [p]) == PieceEdit(prefix, p)
  {
    assert [p][..0] == [];
  }

  /** The visitor makes its edits in the order in which the names stand in the file. */
  lemma {:induction false} VisitInTextOrder(prefix: string, n: Node)
    ensures Edits(prefix, n) == PieceEdits(prefix, Pieces(n))
    decreases n, 1
  {
    hide PieceEdits, PieceEdit;
    match n
    case Block(kind, kw, name, open, body, close) =>
      VisitAllInTextOrder(prefix, body);
      BlockOrder(prefix, kw, if kind == Service then Keep(name) else Rename(name), open, AllPieces(body), close);
      EditOf(prefix, name, name, []);
    case Field(m, ft, name, rest) =>
      FieldOrder(prefix, m, TypePieces(ft)[0], name, rest);
      assert TypePieces(ft) == [TypePieces(ft)[0]];
      match ft {
        case Primitive(t) => EditOf(prefix, t, t, []);
        case Dotted(first, more) => EditOf(prefix, first, first, more);
      }
    case Rpc(before, arg, between, res, after) =>
      RpcOrder(prefix, before, arg, between, res, after);
    case Plain(ts) =>
      KeepsNoEdits(prefix, ts);
  }

  lemma EditOf(prefix: string, t: Tok, first: Tok, more: seq<(Tok, Tok)>)
    ensures PieceEdit(prefix, Keep(t)) == [] && PieceEdit(prefix, Rename(t)) == [NameEdit(prefix, t)]
    ensures PieceEdit(prefix, Rename(first)) == [TypeEdit(prefix, first, [])]
    ensures PieceEdit(prefix, RenameDotted(first, more)) == [TypeEdit(prefix, first, more)]
  {
  }

  lemma BlockOrder(prefix: string, kw: Tok, x: Piece, open: Tok, body: seq<Piece>, close: Tok)
    ensures PieceEdits(prefix, [Keep(kw), x, Keep(open)] + body + [Keep(close)]) == PieceEdit(prefix, x) + PieceEdits(prefix, body)
  {
    hide PieceEdits, PieceEdit;
    EditsBetween(prefix, [Keep(kw), x, Keep(open)], body, [Keep(close)]);
    EditsBetween(prefix, [Keep(kw)], [x], [Keep(open)]);
    assert [Keep(kw)] + [x] + [Keep(open)] == [Keep(kw), x, Keep(open)];
    EditOf(prefix, kw, kw, []);
    EditOf(prefix, open, kw, []);
    EditOf(prefix, close, kw, []);
    assert [] + PieceEdit(prefix, x) + [] == PieceEdit(prefix, x);
  }

  lemma FieldOrder(prefix: string, m: Tok, x: Piece, name: Tok, rest: seq<Tok>)
    ensures PieceEdits(prefix, [Keep(m)] + [x] + [Keep(name)] + Keeps(rest)) == PieceEdit(prefix, x)
  {
    hide PieceEdits, PieceEdit;
    KeepsNoEdits(prefix, rest);
    PieceEditsConcat(prefix, [Keep(m)] + [x] + [Keep(name)], Keeps(rest));
    EditsBetween(prefix, [Keep(m)], [x], [Keep(name)]);
    EditOf(prefix, m, m, []);
    EditOf(prefix, name, m, []);
    assert [] + PieceEdit(prefix, x) + [] + [] == PieceEdit(prefix, x);
  }

  lemma RpcOrder(prefix: string, before: seq<Tok>, arg: Tok, between: seq<Tok>, res: Tok, after: seq<Tok>)
    ensures PieceEdits(prefix, Keeps(before) + [Keep(arg)] + Keeps(between) + [Keep(res)] + Keeps(after)) == []
  {
    hide PieceEdits, PieceEdit;
    KeepsNoEdits(prefix, before);
    KeepsNoEdits(prefix, between);
    KeepsNoEdits(prefix, after);
    EditsBetween(prefix, Keeps(before), [Keep(arg)], Keeps(between));
    EditsBetween(prefix, Keeps(before) + [Keep(arg)] + Keeps(between), [Keep(res)], Keeps(after));
    EditOf(prefix, arg, arg, []);
    EditOf(prefix, res, arg, []);
  }

  lemma EditsBetween(prefix: string, a: seq<Piece>, b: seq<Piece>, c: seq<Piece>)
    ensures PieceEdits(prefix, a + b + c) == PieceEdits(prefix, a) + PieceEdits(prefix, b) + PieceEdits(prefix, c)
    ensures |a| == 1 ==> PieceEdits(prefix, a) == PieceEdit(prefix, a[0])
    ensures |b| == 1 ==> PieceEdits(prefix, b) == PieceEdit(prefix, b[0])
    ensures |c| == 1 ==> PieceEdits(prefix, c) == PieceEdit(prefix, c[0])
  {
    hide PieceEdits, PieceEdit;
    PieceEditsConcat(prefix, a, b);
    PieceEditsConcat(prefix, a + b, c);
    if |a| == 1 {
      OnePieceEdit(prefix, a[0]);
      assert a == [a[0]];
    }
    if |b| == 1 {
      OnePieceEdit(prefix, b[0]);
      assert b == [b[0]];
    }
    if |c| == 1 {
      OnePieceEdit(prefix, c[0]);
      assert c == [c[0]];
    }
  }

  lemma {:induction false} VisitAllInTextOrder(prefix: string, ns: seq<Node>)
    ensures AllEdits(prefix, ns) == PieceEdits(prefix, AllPieces(ns))
    decreases ns, 0
  {
    if ns != [] {
      VisitInTextOrder(prefix, ns[0]);
      VisitAllInTextOrder(prefix, ns[1..]);
      PieceEditsConcat(prefix, Pieces(ns[0]), AllPieces(ns[1..]));
    }
  }

  function PiecesEnd(ps: seq<Piece>): nat {
    if ps == [] then 1 else EndOf(ps[|ps| - 1])
  }

  lemma InTextPrefix(code: string, ps: seq<Piece>, k: nat)
    requires InText(code, ps) && k <= |ps|
    ensures InText(code, ps[..k])
  {
    hide PieceOk;
  }

  /** Edits of pieces in the text are disjoint and increasing. */
  lemma {:induction false} PieceEditsOrdered(code: string, prefix: string, ps: seq<Piece>)
    requires InText(code, ps)
    ensures Ordered(PieceEdits(prefix, ps), |code|) && LastEnd(PieceEdits(prefix, ps)) < PiecesEnd(ps)
  {
    if ps != [] {
      var before, p := ps[..|ps| - 1], ps[|ps| - 1];
      InTextPrefix(code, ps, |ps| - 1);
      PieceEditsOrdered(code, prefix, before);
      PieceSpan(code, prefix, p);
      assert before != [] ==> EndOf(before[|before| - 1]) <= StartOf(p);
      OrderedSnoc(PieceEdits(prefix, before), PieceEdit(prefix, p), |code|);
    }
  }

  lemma PieceSpan(code: string, prefix: string, p: Piece)
    requires PieceOk(code, p)
    ensures 1 <= StartOf(p) <= EndOf(p) <= |code| + 1
    ensures var es := PieceEdit(prefix, p);
      es == [] || (|es| == 1 && es[0].start == StartOf(p) - 1 && es[0].end == EndOf(p) - 1)
  {
  }

  lemma OrderedSnoc(es: seq<Edit>, more: seq<Edit>, n: nat)
    requires Ordered(es, n) && (more == [] || (|more| == 1 && LastEnd(es) <= more[0].start <= more[0].end <= n && 0 <= more[0].start))
    ensures Ordered(es + more, n)
  {
    assert forall i :: 0 <= i < |es| ==> es[i].end <= LastEnd(es);
  }

  lemma FileEditsOrdered(code: string, prefix: string, ns: seq<Node>)
    requires InText(code, AllPieces(ns))
    ensures Ordered(AllEdits(prefix, ns), |code|)
  {
    VisitAllInTextOrder(prefix, ns);
    PieceEditsOrdered(code, prefix, AllPieces(ns));
  }

  lemma {:induction false} TypesFromPieces(code: string, n: Node)
    requires forall p :: p in Pieces(n) ==> PieceOk(code, p)
    ensures TypesInOrder(n)
    decreases n, 1
  {
    match n
    case Block(_, _, _, _, body, _) =>
      assert forall p :: p in AllPieces(body) ==> p in Pieces(n);
      AllTypesFromPieces(code, body);
    case Field(_, ft, _, _) =>
      assert TypePieces(ft)[0] in Pieces(n);
    case _ =>
  }

  lemma {:induction false} AllTypesFromPieces(code: string, ns: seq<Node>)
    requires forall p :: p in AllPieces(ns) ==> PieceOk(code, p)
    ensures AllTypesInOrder(ns)
    decreases ns, 0
  {
    if ns != [] {
      TypesFromPieces(code, ns[0]);
      AllTypesFromPieces(code, ns[1..]);
    }
  }

  lemma FileTypesInOrder(code: string, ns: seq<Node>)
    requires InText(code, AllPieces(ns))
    ensures AllTypesInOrder(ns)
  {
    AllTypesFromPieces(code, ns);
  }

  // ----- The new text is the renamed tree, laid out in the old gaps -----

  function TextOf(p: Piece): string {
    match p
    case Keep(t) => t.text
    case Rename(t) => t.text
    case RenameDotted(t, more) => Joined(t, more)
  }

  function RenamedType(prefix: string, ft: FieldType): FieldType {
    if ft.Dotted? then Dotted(ft.first.(text := prefix + ft.first.text), ft.more) else ft
  }

  /** The tree with the prefix on every name that the renamer means to change; positions stay as labels. */
  function Renamed(prefix: string, n: Node): Node
    decreases n, 1
  {
    match n
    case Block(kind, kw, name, open, body, close) =>
      Block(kind, kw, if kind == Service then name else name.(text := prefix + name.text), open, AllRenamed(prefix, body), close)
    case Field(m, ft, name, rest) => Field(m, RenamedType(prefix, ft), name, rest)
    case _ => n
  }

  function AllRenamed(prefix: string, ns: seq<Node>): seq<Node>
    decreases ns, 0
  {
    if ns == [] then [] else [Renamed(prefix, ns[0])] + AllRenamed(prefix, ns[1..])
  }

  /** What is renamed: messages, enumerations and extended messages get the prefix in front of their names, and
      fields in front of the first name of their type, unless the type is a keyword. The names of services,
      methods and fields, and all other tokens, stay. */
  lemma WhatIsRenamed(prefix: string, n: Node)
    ensures var r := Renamed(prefix, n);
      && (n.Block? ==> r.Block? && r.kind == n.kind && r.kw == n.kw && r.open == n.open && r.close == n.close && r.name.pos == n.name.pos
                       && |r.body| == |n.body| && (forall i :: 0 <= i < |n.body| ==> r.body[i] == Renamed(prefix, n.body[i]))
                       && r.name.text == if n.kind in {Message, Enum, Extension} then prefix + n.name.text else n.name.text)
      && (n.Field? ==> r.Field? && r.modifier == n.modifier && r.name == n.name && r.rest == n.rest
                       && (n.ftype.Primitive? ==> r.ftype == n.ftype)
                       && (n.ftype.Dotted? ==> r.ftype.Dotted? && r.ftype.first == Tok(prefix + n.ftype.first.text, n.ftype.first.pos)
                                               && r.ftype.more == n.ftype.more))
      && (n.Rpc? || n.Plain? ==> r == n)
  {
    if n.Block? {
      AllRenamedAt(prefix, n.body);
    }
  }

  lemma {:induction false} AllRenamedAt(prefix: string, ns: seq<Node>)
    ensures |AllRenamed(prefix, ns)| == |ns| && forall i :: 0 <= i < |ns| ==> AllRenamed(prefix, ns)[i] == Renamed(prefix, ns[i])
  {
    if ns != [] {
      AllRenamedAt(prefix, ns[1..]);
    }
  }

  /** The tokens of a dotted name stand in the text one right behind the other, with single dots between the names. */
  ghost predicate Dense(code: string, first: Tok, more: seq<(Tok, Tok)>)
    decreases |more|
  {
    if more == [] then TokenAt(code, first)
    else
      var before, dot, last := more[..|more| - 1], more[|more| - 1].0, more[|more| - 1].1;
      && Dense(code, first, before)
      && dot.text == "." && dot.pos == (if before == [] then first else before[|before| - 1].1).End() && last.pos == dot.pos + 1
      && TokenAt(code, dot) && TokenAt(code, last)
  }

  ghost predicate TokenAt(code: string, t: Tok) {
    1 <= t.pos <= t.End() <= |code| + 1 && code[t.pos - 1..t.End() - 1] == t.text
  }

  /** What replaces a dotted name is the prefix and the name as it is written. */
  lemma {:induction false} JoinedAsWritten(code: string, prefix: string, first: Tok, more: seq<(Tok, Tok)>)
    requires Dense(code, first, more)
    ensures var e := TypeEdit(prefix, first, more); 0 <= e.start <= e.end <= |code| && e.text == prefix + code[e.start..e.end]
    decreases |more|
  {
    hide TokenAt;
    if more == [] {
      TokenText(code, first);
    } else {
      var n := |more| - 1;
      var before, dot, last := more[..n], more[n].0, more[n].1;
      JoinedAsWritten(code, prefix, first, before);
      TokenText(code, dot);
      TokenText(code, last);
      var a, b := first.pos - 1, dot.pos - 1;
      assert prefix + Joined(first, before) == prefix + code[a..b];
      SamePrefix(prefix, prefix, Joined(first, before), code[a..b]);
      Slices(code, a, b, b + 1);
      Slices(code, a, b + 1, last.End() - 1);
      assert Joined(first, more) == Joined(first, before) + "." + last.text;
    }
  }

  lemma TokenText(code: string, t: Tok)
    requires TokenAt(code, t)
    ensures 1 <= t.pos <= t.End() <= |code| + 1 && code[t.pos - 1..t.End() - 1] == t.text
  {
  }

  /** The text up to the end of the last piece, with `texts` in the place of the pieces. */
  function LaidOut(code: string, ps: seq<Piece>, texts: seq<string>): string
    requires |ps| == |texts| && InText(code, ps)
  {
    if ps == [] then ""
    else
      var before, p := ps[..|ps| - 1], ps[|ps| - 1];
      InTextPrefix(code, ps, |ps| - 1);
      assert PieceOk(code, p) && (before != [] ==> PieceOk(code, before[|before| - 1]) && EndOf(before[|before| - 1]) <= StartOf(p));
      LaidOut(code, before, texts[..|ps| - 1]) + code[PiecesEnd(before) - 1..StartOf(p) - 1] + texts[|ps| - 1]
  }

  function NewText(prefix: string, p: Piece): string {
    match p
    case Keep(t) => t.text
    case Rename(t) => prefix + t.text
    case RenameDotted(t, more) => prefix + Joined(t, more)
  }

  function NewTexts(prefix: string, ps: seq<Piece>): (ts: seq<string>)
    ensures |ts| == |ps|
  {
    seq(|ps|, i requires 0 <= i < |ps| => NewText(prefix, ps[i]))
  }

  function Texts(ps: seq<Piece>): (ts: seq<string>)
    ensures |ts| == |ps|
  {
    seq(|ps|, i requires 0 <= i < |ps| => TextOf(ps[i]))
  }

  lemma {:induction false} JoinedPrefix(prefix: string, first: Tok, more: seq<(Tok, Tok)>)
    ensures Joined(first.(text := prefix + first.text), more) == prefix + Joined(first, more)
  {
    if more != [] {
      JoinedPrefix(prefix, first, more[..|more| - 1]);
    }
  }

  /** The pieces `ps'` carry the new texts of the pieces `ps`. */
  ghost predicate Carries(prefix: string, ps': seq<Piece>, ps: seq<Piece>) {
    Texts(ps') == NewTexts(prefix, ps)
  }

  lemma CarriesConcat(prefix: string, ps': seq<Piece>, ps: seq<Piece>, qs': seq<Piece>, qs: seq<Piece>)
    requires Carries(prefix, ps', ps) && Carries(prefix, qs', qs)
    ensures Carries(prefix, ps' + qs', ps + qs)
  {
    TextsConcat(ps', qs');
    NewTextsConcat(prefix, ps, qs);
  }

  lemma CarriesOne(prefix: string, p': Piece, p: Piece)
    requires TextOf(p') == NewText(prefix, p)
    ensures Carries(prefix, [p'], [p])
  {
  }

  lemma KeepsCarry(prefix: string, ts: seq<Tok>)
    ensures Carries(prefix, Keeps(ts), Keeps(ts))
  {
  }

  lemma {:induction false} RenamedPieces(prefix: string, n: Node)
    ensures Carries(prefix, Pieces(Renamed(prefix, n)), Pieces(n))
    decreases n, 1
  {
    hide Carries;
    match n
    case Block(kind, kw, name, open, body, close) =>
      AllRenamedPieces(prefix, body);
      var name' := if kind == Service then name else name.(text := prefix + name.text);
      var x', x := if kind == Service then Keep(name') else Rename(name'), if kind == Service then Keep(name) else Rename(name);
      CarriesOne(prefix, Keep(kw), Keep(kw));
      CarriesOne(prefix, x', x);
      CarriesOne(prefix, Keep(open), Keep(open));
      CarriesOne(prefix, Keep(close), Keep(close));
      CarriesConcat(prefix, [Keep(kw)], [Keep(kw)], [x'], [x]);
      CarriesConcat(prefix, [Keep(kw)] + [x'], [Keep(kw)] + [x], [Keep(open)], [Keep(open)]);
      var h', h := [Keep(kw)] + [x'] + [Keep(open)], [Keep(kw)] + [x] + [Keep(open)];
      assert h' == [Keep(kw), x', Keep(open)] && h == [Keep(kw), x, Keep(open)];
      CarriesConcat(prefix, h', h, AllPieces(AllRenamed(prefix, body)), AllPieces(body));
      CarriesConcat(prefix, h' + AllPieces(AllRenamed(prefix, body)), h + AllPieces(body), [Keep(close)], [Keep(close)]);
    case Field(m, ft, name, rest) =>
      TypeCarries(prefix, ft);
      var ft' := RenamedType(prefix, ft);
      CarriesOne(prefix, Keep(m), Keep(m));
      CarriesOne(prefix, Keep(name), Keep(name));
      KeepsCarry(prefix, rest);
      CarriesConcat(prefix, [Keep(m)], [Keep(m)], TypePieces(ft'), TypePieces(ft));
      CarriesConcat(prefix, [Keep(m)] + TypePieces(ft'), [Keep(m)] + TypePieces(ft), [Keep(name)], [Keep(name)]);
      CarriesConcat(prefix, [Keep(m)] + TypePieces(ft') + [Keep(name)], [Keep(m)] + TypePieces(ft) + [Keep(name)], Keeps(rest), Keeps(rest));
    case Rpc(before, arg, between, res, after) =>
      RpcCarries(prefix, before, arg, between, res, after);
    case Plain(ts) =>
      KeepsCarry(prefix, ts);
  }

  lemma TypeCarries(prefix: string, ft: FieldType)
    ensures Carries(prefix, TypePieces(RenamedType(prefix, ft)), TypePieces(ft))
  {
    if ft.Dotted? {
      JoinedPrefix(prefix, ft.first, ft.more);
    }
    CarriesOne(prefix, TypePieces(RenamedType(prefix, ft))[0], TypePieces(ft)[0]);
  }

  lemma RpcCarries(prefix: string, before: seq<Tok>, arg: Tok, between: seq<Tok>, res: Tok, after: seq<Tok>)
    ensures var ps := Keeps(before) + [Keep(arg)] + Keeps(between) + [Keep(res)] + Keeps(after); Carries(prefix, ps, ps)
  {
    var ps := Keeps(before) + [Keep(arg)] + Keeps(between) + [Keep(res)] + Keeps(after);
    assert forall i :: 0 <= i < |ps| ==> ps[i].Keep?;
  }

  lemma {:induction false} AllRenamedPieces(prefix: string, ns: seq<Node>)
    ensures Carries(prefix, AllPieces(AllRenamed(prefix, ns)), AllPieces(ns))
    decreases ns, 0
  {
    if ns != [] {
      RenamedPieces(prefix, ns[0]);
      AllRenamedPieces(prefix, ns[1..]);
      var rs := AllRenamed(prefix, ns);
      assert rs[0] == Renamed(prefix, ns[0]) && rs[1..] == AllRenamed(prefix, ns[1..]);
      CarriesConcat(prefix, Pieces(rs[0]), Pieces(ns[0]), AllPieces(rs[1..]), AllPieces(ns[1..]));
    }
  }

  lemma TextsConcat(ps: seq<Piece>, qs: seq<Piece>)
    ensures Texts(ps + qs) == Texts(ps) + Texts(qs)
  {
  }

  lemma NewTextsConcat(prefix: string, ps: seq<Piece>, qs: seq<Piece>)
    ensures NewTexts(prefix, ps + qs) == NewTexts(prefix, ps) + NewTexts(prefix, qs)
  {
  }

  /** The edits leave every gap and every kept token as it was. */
  lemma {:induction false} EditsLayOut(code: string, prefix: string, ps: seq<Piece>)
    requires InText(code, ps)
    ensures UpTo(code, PieceEdits(prefix, ps), PiecesEnd(ps) - 1, LaidOut(code, ps, NewTexts(prefix, ps)))
  {
    hide Ordered, InText, PieceOk, Rewritten, UpTo, NewText;
    if ps == [] {
      NothingUpTo(code);
    } else {
      var n := |ps| - 1;
      var before, p := ps[..n], ps[n];
      InTextPrefix(code, ps, n);
      EditsLayOut(code, prefix, before);
      assert NewTexts(prefix, ps)[..n] == NewTexts(prefix, before);
      LastPiece(code, ps);
      PieceSpan(code, prefix, p);
      PieceUpTo(code, prefix, PieceEdits(prefix, before), PiecesEnd(before) - 1, LaidOut(code, before, NewTexts(prefix, before)), p);
    }
  }

  lemma LastPiece(code: string, ps: seq<Piece>)
    requires InText(code, ps) && ps != []
    ensures PieceOk(code, ps[|ps| - 1]) && 1 <= PiecesEnd(ps[..|ps| - 1]) <= StartOf(ps[|ps| - 1])
  {
    var before := ps[..|ps| - 1];
    assert before != [] ==> EndOf(before[|before| - 1]) <= StartOf(ps[|ps| - 1]) && PieceOk(code, before[|before| - 1]);
  }

  /** The edits, followed by the original up to `z`, give `text`. */
  ghost predicate UpTo(code: string, es: seq<Edit>, z: int, text: string) {
    Ordered(es, |code|) && LastEnd(es) <= z <= |code| && Rewritten(code, es) + code[LastEnd(es)..z] == text
  }

  lemma NothingUpTo(code: string)
    ensures UpTo(code, [], 0, "")
  {
  }

  lemma PieceUpTo(code: string, prefix: string, es: seq<Edit>, z: int, text: string, p: Piece)
    requires PieceOk(code, p) && UpTo(code, es, z, text) && 0 <= z < StartOf(p) <= EndOf(p) <= |code| + 1
    ensures UpTo(code, es + PieceEdit(prefix, p), EndOf(p) - 1, text + code[z..StartOf(p) - 1] + NewText(prefix, p))
  {
    hide Ordered, Rewritten, PieceOk;
    PieceSpan(code, prefix, p);
    PieceTexts(code, prefix, p);
    var more, a, y := PieceEdit(prefix, p), StartOf(p) - 1, EndOf(p) - 1;
    EndInside(es, |code|);
    GapJoined(code, Rewritten(code, es), LastEnd(es), z, a, y, text);
    if more == [] {
      assert es + more == es;
    } else {
      OneMore(code, es, more[0]);
      assert es + more == es + [more[0]];
      assert code[y..y] == "";
    }
  }

  lemma EndInside(es: seq<Edit>, n: nat)
    requires Ordered(es, n)
    ensures 0 <= LastEnd(es) <= n
  {
  }

  lemma GapJoined(code: string, d: string, k: int, z: int, a: int, y: int, text: string)
    requires 0 <= k <= z <= a <= y <= |code| && d + code[k..z] == text
    ensures d + code[k..a] == text + code[z..a]
    ensures d + code[k..y] == text + code[z..a] + code[a..y]
  {
    Slices(code, k, z, a);
    Slices(code, k, a, y);
  }

  lemma Slices(code: string, a: int, b: int, c: int)
    requires 0 <= a <= b <= c <= |code|
    ensures code[a..b] + code[b..c] == code[a..c]
  {
  }

  lemma PieceTexts(code: string, prefix: string, p: Piece)
    requires PieceOk(code, p)
    ensures PieceEdit(prefix, p) == [] ==> code[StartOf(p) - 1..EndOf(p) - 1] == NewText(prefix, p)
    ensures PieceEdit(prefix, p) != [] ==> PieceEdit(prefix, p)[0].text == NewText(prefix, p)
  {
  }

  /** What `RenameFile` leaves in `content`: the tokens of the renamed tree, in the gaps of the original. */
  lemma RenamedText(code: string, prefix: string, ns: seq<Node>)
    requires InText(code, AllPieces(ns))
    ensures Ordered(AllEdits(prefix, ns), |code|) && 1 <= PiecesEnd(AllPieces(ns)) <= |code| + 1
    ensures |Texts(AllPieces(AllRenamed(prefix, ns)))| == |AllPieces(ns)|
    ensures Spliced(code, AllEdits(prefix, ns)) ==
            LaidOut(code, AllPieces(ns), Texts(AllPieces(AllRenamed(prefix, ns)))) + code[PiecesEnd(AllPieces(ns)) - 1..]
  {
    hide *;
    var ps := AllPieces(ns);
    VisitAllInTextOrder(prefix, ns);
    AllRenamedPieces(prefix, ns);
    CarriedTexts(prefix, AllPieces(AllRenamed(prefix, ns)), ps);
    EditsLayOut(code, prefix, ps);
    RestOfText(code, AllEdits(prefix, ns), PiecesEnd(ps) - 1, LaidOut(code, ps, NewTexts(prefix, ps)));
    PiecesEndPositive(code, ps);
  }

  lemma CarriedTexts(prefix: string, ps': seq<Piece>, ps: seq<Piece>)
    requires Carries(prefix, ps', ps)
    ensures Texts(ps') == NewTexts(prefix, ps) && |ps'| == |ps|
  {
    assert |Texts(ps')| == |ps'|;
  }

  lemma PiecesEndPositive(code: string, ps: seq<Piece>)
    requires InText(code, ps)
    ensures PiecesEnd(ps) >= 1
  {
    assert ps != [] ==> PieceOk(code, ps[|ps| - 1]);
  }

  lemma RestOfText(code: string, es: seq<Edit>, z: int, text: string)
    requires UpTo(code, es, z, text)
    ensures Ordered(es, |code|) && 0 <= LastEnd(es) <= z <= |code| && Spliced(code, es) == text + code[z..]
  {
    hide Rewritten;
    Slices(code, LastEnd(es), z, |code|);
  }

  // ----- Bindings -----

  function RenamedDefs(prefix: string, ds: seq<Def>): (rs: seq<Def>)
    ensures |rs| == |ds|
  {
    seq(|ds|, i requires 0 <= i < |ds| => Def(prefix + ds[i].name, ds[i].id))
  }

  function RenamedScopes(prefix: string, scopes: seq<seq<Def>>): (rs: seq<seq<Def>>)
    ensures |rs| == |scopes|
  {
    seq(|scopes|, i requires 0 <= i < |scopes| => RenamedDefs(prefix, scopes[i]))
  }

  lemma PrefixInjective(prefix: string, a: string, b: string)
    ensures prefix + a == prefix + b <==> a == b
  {
    if prefix + a == prefix + b {
      assert a == (prefix + a)[|prefix|..] && b == (prefix + b)[|prefix|..];
    }
  }

  lemma {:induction false} LookupRenamed(prefix: string, ds: seq<Def>, name: string)
    ensures Lookup(RenamedDefs(prefix, ds), prefix + name) == Lookup(ds, name)
  {
    if ds != [] {
      PrefixInjective(prefix, ds[0].name, name);
      assert RenamedDefs(prefix, ds)[1..] == RenamedDefs(prefix, ds[1..]);
      LookupRenamed(prefix, ds[1..], name);
    }
  }

  lemma {:induction false} ResolveRenamed(prefix: string, scopes: seq<seq<Def>>, name: string)
    ensures Resolve(RenamedScopes(prefix, scopes), prefix + name) == Resolve(scopes, name)
  {
    if scopes != [] {
      var last := |scopes| - 1;
      LookupRenamed(prefix, scopes[last], name);
      assert RenamedScopes(prefix, scopes)[..last] == RenamedScopes(prefix, scopes[..last]);
      ResolveRenamed(prefix, scopes[..last], name);
    }
  }

  lemma {:induction false} DefsRenamed(prefix: string, ns: seq<Node>)
    ensures Defs(AllRenamed(prefix, ns)) == RenamedDefs(prefix, Defs(ns))
  {
    if ns != [] {
      DefsRenamed(prefix, ns[1..]);
      var rs := AllRenamed(prefix, ns);
      assert rs[0] == Renamed(prefix, ns[0]) && rs[1..] == AllRenamed(prefix, ns[1..]);
    }
  }

  /** Renaming keeps the binding of every undotted type reference of a field or an extension. */
  lemma {:induction false} BindingsKept(prefix: string, n: Node, scopes: seq<seq<Def>>)
    ensures Refs(Renamed(prefix, n), RenamedScopes(prefix, scopes)) == Refs(n, scopes)
    decreases n, 1
  {
    match n
    case Block(kind, _, name, _, body, _) =>
      if kind == Message {
        DefsRenamed(prefix, body);
        assert RenamedScopes(prefix, scopes + [Defs(body)]) == RenamedScopes(prefix, scopes) + [RenamedDefs(prefix, Defs(body))];
        AllBindingsKept(prefix, body, scopes + [Defs(body)]);
      } else if kind == Extension {
        ResolveRenamed(prefix, scopes, name.text);
        AllBindingsKept(prefix, body, scopes);
      }
    case Field(_, ft, _, _) =>
      if ft.Dotted? {
        ResolveRenamed(prefix, scopes, ft.first.text);
      }
    case _ =>
  }

  lemma {:induction false} AllBindingsKept(prefix: string, ns: seq<Node>, scopes: seq<seq<Def>>)
    ensures AllRefs(AllRenamed(prefix, ns), RenamedScopes(prefix, scopes)) == AllRefs(ns, scopes)
    decreases ns, 0
  {
    if ns != [] {
      BindingsKept(prefix, ns[0], scopes);
      AllBindingsKept(prefix, ns[1..], scopes);
      var rs := AllRenamed(prefix, ns);
      assert rs[0] == Renamed(prefix, ns[0]) && rs[1..] == AllRenamed(prefix, ns[1..]);
    }
  }

  /** Renaming a file whose imports, with the definitions `outer`, are renamed as well: the references of
      fields and extensions mean what they meant. */
  lemma FileBindingsKept(prefix: string, ns: seq<Node>, outer: seq<Def>)
    ensures var rs := AllRenamed(prefix, ns);
      AllRefs(rs, [RenamedDefs(prefix, outer), Defs(rs)]) == AllRefs(ns, [outer, Defs(ns)])
  {
    DefsRenamed(prefix, ns);
    assert RenamedScopes(prefix, [outer, Defs(ns)]) == [RenamedDefs(prefix, outer), RenamedDefs(prefix, Defs(ns))];
    AllBindingsKept(prefix, ns, [outer, Defs(ns)]);
  }

  // ----- Imports that are not renamed -----

  ghost predicate DistinctIds(ds: seq<Def>) {
    forall i, j :: 0 <= i < j < |ds| ==> ds[i].id != ds[j].id
  }

  /** Neither the name nor its new form is imported. */
  ghost predicate NotImported(prefix: string, outer: seq<Def>, name: string) {
    forall i :: 0 <= i < |outer| ==> outer[i].name != name && outer[i].name != prefix + name
  }

  lemma {:induction false} OuterScope(outer: seq<Def>, scopes: seq<seq<Def>>, name: string)
    ensures Resolve([outer] + scopes, name) == if Resolve(scopes, name).Some? then Resolve(scopes, name) else Lookup(outer, name)
  {
    var all, last := [outer] + scopes, |scopes| - 1;
    if scopes == [] {
      assert all == [outer] && all[..0] == [];
    } else {
      assert all[..|all| - 1] == [outer] + scopes[..last] && all[|all| - 1] == scopes[last];
      OuterScope(outer, scopes[..last], name);
    }
  }

  lemma ImportedBinding(prefix: string, outer: seq<Def>, scopes: seq<seq<Def>>, name: string)
    requires prefix != "" && DistinctIds(outer)
    ensures Resolve([outer] + RenamedScopes(prefix, scopes), prefix + name) == Resolve([outer] + scopes, name) <==>
            forall x :: x in Unresolved(scopes, name) ==> NotImported(prefix, outer, x)
  {
    hide RenamedScopes;
    OuterScope(outer, scopes, name);
    OuterScope(outer, RenamedScopes(prefix, scopes), prefix + name);
    ResolveRenamed(prefix, scopes, name);
    if Resolve(scopes, name).None? {
      assert name in Unresolved(scopes, name);
      SameLookup(outer, name, prefix + name);
    }
  }

  /** Different names are bound alike only if they are both unbound. */
  lemma SameLookup(ds: seq<Def>, a: string, b: string)
    requires DistinctIds(ds) && a != b
    ensures Lookup(ds, a) == Lookup(ds, b) <==> forall i :: 0 <= i < |ds| ==> ds[i].name != a && ds[i].name != b
  {
    var i := LookupFinds(ds, a);
    var j := LookupFinds(ds, b);
    if Lookup(ds, a).Some? && Lookup(ds, b).Some? {
      assert ds[i].name == a && ds[j].name == b;
      assert ds[i].id != ds[j].id;
    }
  }

  lemma {:induction false} RefsWithImports(prefix: string, n: Node, outer: seq<Def>, scopes: seq<seq<Def>>)
    requires prefix != "" && DistinctIds(outer)
    ensures var rs, os := Refs(Renamed(prefix, n), [outer] + RenamedScopes(prefix, scopes)), Refs(n, [outer] + scopes);
      |rs| == |os| && (rs == os <==> forall x :: x in Outside(n, scopes) ==> NotImported(prefix, outer, x))
    decreases n, 1
  {
    hide NotImported, Resolve, RenamedScopes;
    match n
    case Block(kind, _, name, _, body, _) =>
      if kind == Message {
        DefsRenamed(prefix, body);
        InnerScope(prefix, outer, scopes, Defs(body));
        AllRefsWithImports(prefix, body, outer, scopes + [Defs(body)]);
      } else if kind == Extension {
        ImportedBinding(prefix, outer, scopes, name.text);
        AllRefsWithImports(prefix, body, outer, scopes);
        var rs, os := [outer] + RenamedScopes(prefix, scopes), [outer] + scopes;
        SamePrefix([Ref(name.pos, Resolve(rs, prefix + name.text))], [Ref(name.pos, Resolve(os, name.text))],
                   AllRefs(AllRenamed(prefix, body), rs), AllRefs(body, os));
      }
    case Field(_, ft, _, _) =>
      if ft.Dotted? {
        ImportedBinding(prefix, outer, scopes, ft.first.text);
      }
    case _ =>
  }

  lemma InnerScope(prefix: string, outer: seq<Def>, scopes: seq<seq<Def>>, ds: seq<Def>)
    ensures [outer] + RenamedScopes(prefix, scopes + [ds]) == [outer] + RenamedScopes(prefix, scopes) + [RenamedDefs(prefix, ds)]
    ensures [outer] + (scopes + [ds]) == [outer] + scopes + [ds]
  {
    assert RenamedScopes(prefix, scopes + [ds]) == RenamedScopes(prefix, scopes) + [RenamedDefs(prefix, ds)];
  }

  lemma {:induction false} AllRefsWithImports(prefix: string, ns: seq<Node>, outer: seq<Def>, scopes: seq<seq<Def>>)
    requires prefix != "" && DistinctIds(outer)
    ensures var rs, os := AllRefs(AllRenamed(prefix, ns), [outer] + RenamedScopes(prefix, scopes)), AllRefs(ns, [outer] + scopes);
      |rs| == |os| && (rs == os <==> forall x :: x in AllOutside(ns, scopes) ==> NotImported(prefix, outer, x))
    decreases ns, 0
  {
    hide NotImported, Refs, Outside, Renamed;
    if ns != [] {
      RefsWithImports(prefix, ns[0], outer, scopes);
      AllRefsWithImports(prefix, ns[1..], outer, scopes);
      var rs := AllRenamed(prefix, ns);
      assert rs[0] == Renamed(prefix, ns[0]) && rs[1..] == AllRenamed(prefix, ns[1..]);
      SamePrefix(Refs(rs[0], [outer] + RenamedScopes(prefix, scopes)), Refs(ns[0], [outer] + scopes),
                 AllRefs(rs[1..], [outer] + RenamedScopes(prefix, scopes)), AllRefs(ns[1..], [outer] + scopes));
    }
  }

  lemma SamePrefix<T>(a: seq<T>, a': seq<T>, b: seq<T>, b': seq<T>)
    requires |a| == |a'|
    ensures a + b == a' + b' <==> a == a' && b == b'
  {
    if a + b == a' + b' {
      assert a == (a + b)[..|a|] && a' == (a' + b')[..|a'|];
      assert b == (a + b)[|a|..] && b' == (a' + b')[|a'|..];
    }
  }

  /** Renaming a file whose imports stay as they are: the references mean what they meant exactly when
      those that the file itself does not define name nothing imported, before or after. */
  lemma FileImportsKept(prefix: string, ns: seq<Node>, outer: seq<Def>)
    requires prefix != "" && DistinctIds(outer)
    ensures var rs := AllRenamed(prefix, ns);
      AllRefs(rs, [outer, Defs(rs)]) == AllRefs(ns, [outer, Defs(ns)]) <==>
      forall x :: x in AllOutside(ns, [Defs(ns)]) ==> NotImported(prefix, outer, x)
  {
    hide NotImported, AllRefs, AllOutside;
    DefsRenamed(prefix, ns);
    assert RenamedScopes(prefix, [Defs(ns)]) == [RenamedDefs(prefix, Defs(ns))];
    assert [outer] + [Defs(ns)] == [outer, Defs(ns)] && [outer] + [RenamedDefs(prefix, Defs(ns))] == [outer, RenamedDefs(prefix, Defs(ns))];
    AllRefsWithImports(prefix, ns, outer, [Defs(ns)]);
  }

  // ----- Service methods -----

  lemma {:induction false} LookupFinds(ds: seq<Def>, name: string) returns (i: nat)
    ensures Lookup(ds, name).Some? ==> i < |ds| && ds[i] == Def(name, Lookup(ds, name).value)
    ensures Lookup(ds, name).None? ==> forall k :: 0 <= k < |ds| ==> ds[k].name != name
  {
    i := 0;
    if ds != [] && ds[0].name != name {
      var k := LookupFinds(ds[1..], name);
      i := k + 1;
      forall k | 0 <= k < |ds| && Lookup(ds, name).None? ensures ds[k].name != name {
        assert k > 0 ==> ds[k] == ds[1..][k - 1];
      }
    }
  }

  /** The argument and result types of service methods are not renamed. With a prefix, such a name keeps
      its binding exactly when it names no type of the file and is not the new name of one. */
  lemma ServiceBindingKept(prefix: string, ds: seq<Def>, name: string)
    requires prefix != "" && DistinctIds(ds)
    ensures Resolve(RenamedScopes(prefix, [ds]), name) == Resolve([ds], name) <==>
            forall i :: 0 <= i < |ds| ==> ds[i].name != name && prefix + ds[i].name != name
  {
    var rs := RenamedDefs(prefix, ds);
    FileScope(ds, name);
    FileScope(rs, name);
    assert RenamedScopes(prefix, [ds]) == [rs];
    var i := LookupFinds(ds, name);
    var j := LookupFinds(rs, name);
    if Lookup(ds, name).Some? && Lookup(rs, name).Some? {
      assert rs[j].name == prefix + ds[j].name;
      assert i != j;
      assert ds[i].id != ds[j].id;
    }
    if Lookup(rs, name).None? {
      forall k | 0 <= k < |ds| ensures prefix + ds[k].name != name {
        assert rs[k].name != name;
      }
    }
    if Lookup(rs, name).Some? {
      assert prefix + ds[j].name == name;
    }
  }

  lemma FileScope(ds: seq<Def>, name: string)
    ensures Resolve([ds], name) == Lookup(ds, name)
  {
    assert [ds][..0] == [];
  }

  /** Some piece starts at the position. */
  ghost predicate Starts(ps: seq<Piece>, at: nat) {
    exists k :: 0 <= k < |ps| && StartOf(ps[k]) == at
  }

  /** The definitions of a body are at different positions. */
  lemma {:induction false} DefsApart(code: string, ns: seq<Node>)
    requires InText(code, AllPieces(ns))
    ensures DistinctIds(Defs(ns)) && forall i :: 0 <= i < |Defs(ns)| ==> Starts(AllPieces(ns), Defs(ns)[i].id)
  {
    hide PieceOk, InText, Pieces;
    if ns != [] {
      var first, rest := Pieces(ns[0]), AllPieces(ns[1..]);
      InTextParts(code, first, rest);
      DefsApart(code, ns[1..]);
      forall at | Starts(rest, at) ensures Starts(first + rest, at) {
        var k :| 0 <= k < |rest| && StartOf(rest[k]) == at;
        assert (first + rest)[|first| + k] == rest[k];
      }
      if ns[0].Block? {
        NamePiece(ns[0]);
        NameBefore(code, first, rest);
        assert (first + rest)[1] == first[1];
      }
    }
  }

  lemma NamePiece(n: Node)
    requires n.Block?
    ensures |Pieces(n)| > 1 && StartOf(Pieces(n)[1]) == n.name.pos
  {
  }

  lemma InTextParts(code: string, a: seq<Piece>, b: seq<Piece>)
    requires InText(code, a + b)
    ensures InText(code, a) && InText(code, b)
    ensures forall i, k :: 0 <= i < |a| && 0 <= k < |b| ==> EndOf(a[i]) <= StartOf(b[k])
  {
    hide PieceOk;
    assert forall i :: 0 <= i < |a| ==> (a + b)[i] == a[i];
    assert forall k :: 0 <= k < |b| ==> (a + b)[|a| + k] == b[k];
  }

  lemma NameBefore(code: string, a: seq<Piece>, b: seq<Piece>)
    requires InText(code, a) && |a| > 1 && forall i, k :: 0 <= i < |a| && 0 <= k < |b| ==> EndOf(a[i]) <= StartOf(b[k])
    ensures forall k :: 0 <= k < |b| ==> StartOf(a[1]) < StartOf(b[k])
  {
    assert PieceOk(code, a[1]);
  }

  lemma {:induction false} ServiceTypesStay(prefix: string, n: Node)
    ensures ServiceTypes(Renamed(prefix, n)) == ServiceTypes(n)
    decreases n, 1
  {
    if n.Block? {
      AllServiceTypesStay(prefix, n.body);
    }
  }

  lemma {:induction false} AllServiceTypesStay(prefix: string, ns: seq<Node>)
    ensures AllServiceTypes(AllRenamed(prefix, ns)) == AllServiceTypes(ns)
    decreases ns, 0
  {
    if ns != [] {
      ServiceTypesStay(prefix, ns[0]);
      AllServiceTypesStay(prefix, ns[1..]);
      var rs := AllRenamed(prefix, ns);
      assert rs[0] == Renamed(prefix, ns[0]) && rs[1..] == AllRenamed(prefix, ns[1..]);
    }
  }

  /** Renaming a file with services: the types of its methods stay as they are written, and they mean what
      they meant exactly when none of them names a type of the file, before or after. */
  lemma FileServicesKept(code: string, prefix: string, ns: seq<Node>)
    requires InText(code, AllPieces(ns)) && prefix != ""
    ensures var rs := AllRenamed(prefix, ns);
      && AllServiceTypes(rs) == AllServiceTypes(ns)
      && ((forall t :: t in AllServiceTypes(ns) ==> Resolve([Defs(rs)], t.text) == Resolve([Defs(ns)], t.text)) <==>
          (forall t, i :: t in AllServiceTypes(ns) && 0 <= i < |Defs(ns)| ==>
             Defs(ns)[i].name != t.text && prefix + Defs(ns)[i].name != t.text))
  {
    AllServiceTypesStay(prefix, ns);
    DefsApart(code, ns);
    DefsRenamed(prefix, ns);
    var ds := Defs(ns);
    assert RenamedScopes(prefix, [ds]) == [RenamedDefs(prefix, ds)];
    forall t: Tok
      ensures Resolve([RenamedDefs(prefix, ds)], t.text) == Resolve([ds], t.text) <==>
              forall i :: 0 <= i < |ds| ==> ds[i].name != t.text && prefix + ds[i].name != t.text
    {
      ServiceBindingKept(prefix, ds, t.text);
    }
  }

  /** The file "message A{}service S{rpc m(A)returns(A)}". */
  const SERVICE_FILE := ("message " + "A{}") + (("service " + "S{") + (("rpc " + "m(A)") + ("returns" + "(A)}")))

  function ServiceFile(): seq<Node> {
    var rpc := Rpc([Tok("rpc", 22), Tok("m", 26), Tok("(", 27)], Tok("A", 28),
                   [Tok(")", 29), Tok("returns", 30), Tok("(", 37)], Tok("A", 38), [Tok(")", 39)]);
    [Block(Message, Tok("message", 1), Tok("A", 9), Tok("{", 10), [], Tok("}", 11)),
     Block(Service, Tok("service", 12), Tok("S", 20), Tok("{", 21), [rpc], Tok("}", 40))]
  }

  function ServicePieces(): seq<Piece> {
    [Keep(Tok("message", 1)), Rename(Tok("A", 9)), Keep(Tok("{", 10)), Keep(Tok("}", 11)),
     Keep(Tok("service", 12)), Keep(Tok("S", 20)), Keep(Tok("{", 21)), Keep(Tok("rpc", 22)),
     Keep(Tok("m", 26)), Keep(Tok("(", 27)), Keep(Tok("A", 28)), Keep(Tok(")", 29)),
     Keep(Tok("returns", 30)), Keep(Tok("(", 37)), Keep(Tok("A", 38)), Keep(Tok(")", 39)),
     Keep(Tok("}", 40))]
  }

  /** The words and signs of the file, each at its place. */
  ghost predicate ServiceText(c: string) {
    && |c| == 40
    && c[0..7] == "message" && c[8..9] == "A" && c[9..10] == "{" && c[10..11] == "}" && c[11..18] == "service"
    && c[19..20] == "S" && c[20..21] == "{" && c[21..24] == "rpc" && c[25..26] == "m" && c[26..27] == "("
    && c[27..28] == "A" && c[28..29] == ")" && c[29..36] == "returns" && c[36..37] == "(" && c[37..38] == "A"
    && c[38..39] == ")" && c[39..40] == "}"
  }

  lemma ServiceFileParsed()
    ensures InText(SERVICE_FILE, AllPieces(ServiceFile()))
  {
    hide InText, ServiceText, ServicePieces, PieceOk;
    ServiceFilePieces();
    assert ServiceText(SERVICE_FILE) by {
      ServiceFileText();
    }
    ServicePiecesOk(SERVICE_FILE);
    NeighboursInText(SERVICE_FILE, ServicePieces());
  }

  lemma ServiceFileText()
    ensures ServiceText(SERVICE_FILE)
  {
    var c := SERVICE_FILE;
    assert c[0..7] == "message";
    assert c[11..18] == "service";
    assert c[21..24] == "rpc";
    assert c[29..36] == "returns";
    assert c[8..9] == "A" && c[19..20] == "S" && c[25..26] == "m" && c[27..28] == "A" && c[37..38] == "A";
  }

  lemma ServicePiecesOk(c: string)
    requires ServiceText(c)
    ensures var ps := ServicePieces();
      && (forall i :: 0 <= i < |ps| ==> PieceOk(c, ps[i]))
      && (forall i :: 0 < i < |ps| ==> EndOf(ps[i - 1]) <= StartOf(ps[i]))
  {
  }

  lemma ServiceFilePieces()
    ensures AllPieces(ServiceFile()) == ServicePieces()
  {
  }

  lemma NeighboursInText(code: string, ps: seq<Piece>)
    requires forall i :: 0 <= i < |ps| ==> PieceOk(code, ps[i])
    requires forall i :: 0 < i < |ps| ==> EndOf(ps[i - 1]) <= StartOf(ps[i])
    ensures InText(code, ps)
  {
    hide PieceOk;
    forall i, j | 0 <= i < j < |ps| ensures EndOf(ps[i]) <= StartOf(ps[j]) {
      PieceBefore(code, ps, i, j);
    }
  }

  lemma {:induction false} PieceBefore(code: string, ps: seq<Piece>, i: nat, j: nat)
    requires forall i :: 0 <= i < |ps| ==> PieceOk(code, ps[i])
    requires forall i :: 0 < i < |ps| ==> EndOf(ps[i - 1]) <= StartOf(ps[i])
    requires i < j < |ps|
    ensures EndOf(ps[i]) <= StartOf(ps[j])
  {
    if i < j - 1 {
      PieceBefore(code, ps, i, j - 1);
      assert PieceOk(code, ps[j - 1]);
    }
  }

  /** Its method loses its argument type: A becomes another name, and the method still says A. */
  lemma ServiceTypeLost(prefix: string)
    requires prefix != ""
    ensures var ns := ServiceFile(); var rs := AllRenamed(prefix, ns); var t := Tok("A", 28);
      && InText(SERVICE_FILE, AllPieces(ns)) && t in AllServiceTypes(ns) && t in AllServiceTypes(rs)
      && Resolve([Defs(ns)], t.text) == Some(9) && Resolve([Defs(rs)], t.text) == None
  {
    var ns := ServiceFile();
    ServiceFileParsed();
    AllServiceTypesStay(prefix, ns);
    DefsRenamed(prefix, ns);
    FileScope(Defs(ns), "A");
    FileScope(RenamedDefs(prefix, Defs(ns)), "A");
    assert |prefix + "A"| > 1;
  }
}
