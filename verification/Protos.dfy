/** Parsed `.proto` files as the renamer sees them: tokens with their positions, the blocks and fields
    they make up, and the scoping of type names. */
module Protos {
  import opened Lists

  /** A token and its position in the parsed text, which has one character put in front of the file. */
  datatype Tok = Tok(text: string, pos: nat)
  {
    function End(): nat {
      pos + |text|
    }
  }

  datatype BlockKind = Message | Extension | Enum | Service

  /** Statements. A field's type is one keyword, or names separated by dots; what has no name of
      interest to the renamer is a plain run of tokens. */
  datatype Node =
    | Block(kind: BlockKind, kw: Tok, name: Tok, open: Tok, body: seq<Node>, close: Tok)
    | Field(modifier: Tok, ftype: FieldType, name: Tok, rest: seq<Tok>)
    | Rpc(before: seq<Tok>, arg: Tok, between: seq<Tok>, res: Tok, after: seq<Tok>)
    | Plain(toks: seq<Tok>)

  datatype FieldType = Primitive(t: Tok) | Dotted(first: Tok, more: seq<(Tok, Tok)>)

  // ----- The text, in order -----

  /** A stretch of the file: a token the renamer leaves alone, a name it prefixes, or a whole dotted
      name that it replaces. */
  datatype Piece = Keep(t: Tok) | Rename(t: Tok) | RenameDotted(first: Tok, more: seq<(Tok, Tok)>)

  function Keeps(ts: seq<Tok>): (ps: seq<Piece>)
    ensures |ps| == |ts|
  {
    seq(|ts|, i requires 0 <= i < |ts| => Keep(ts[i]))
  }

  function TypePieces(ft: FieldType): seq<Piece> {
    match ft
    case Primitive(t) => [Keep(t)]
    case Dotted(t, more) => if more == [] then [Rename(t)] else [RenameDotted(t, more)]
  }

  function Pieces(n: Node): seq<Piece>
    decreases n, 1
  {
    match n
    case Block(kind, kw, name, open, body, close) =>
      [Keep(kw), if kind == Service then Keep(name) else Rename(name), Keep(open)] + AllPieces(body) + [Keep(close)]
    case Field(m, ft, name, rest) => [Keep(m)] + TypePieces(ft) + [Keep(name)] + Keeps(rest)
    case Rpc(before, arg, between, res, after) => Keeps(before) + [Keep(arg)] + Keeps(between) + [Keep(res)] + Keeps(after)
    case Plain(ts) => Keeps(ts)
  }

  function AllPieces(ns: seq<Node>): seq<Piece>
    decreases ns, 0
  {
    if ns == [] then [] else Pieces(ns[0]) + AllPieces(ns[1..])
  }

  function StartOf(p: Piece): nat {
    match p
    case Keep(t) => t.pos
    case Rename(t) => t.pos
    case RenameDotted(t, _) => t.pos
  }

  function EndOf(p: Piece): nat {
    match p
    case Keep(t) => t.End()
    case Rename(t) => t.End()
    case RenameDotted(t, more) => if more == [] then t.End() else more[|more| - 1].1.End()
  }

  /** Inside a dotted name: dots and names in order, one behind the other. */
  ghost predicate DotsInOrder(first: Tok, more: seq<(Tok, Tok)>) {
    forall i :: 0 <= i < |more| ==>
      (if i == 0 then first else more[i - 1].1).End() <= more[i].0.pos && more[i].0.End() <= more[i].1.pos
  }

  ghost predicate PieceOk(code: string, p: Piece) {
    && 1 <= StartOf(p) < EndOf(p) <= |code| + 1
    && match p
       case Keep(t) => code[t.pos - 1..t.End() - 1] == t.text
       case Rename(t) => code[t.pos - 1..t.End() - 1] == t.text
       case RenameDotted(t, more) => more != [] && DotsInOrder(t, more)
  }

  /** The pieces stand in the file one behind the other, at the positions they claim. */
  ghost predicate InText(code: string, ps: seq<Piece>) {
    && (forall i :: 0 <= i < |ps| ==> PieceOk(code, ps[i]))
    && (forall i, j :: 0 <= i < j < |ps| ==> EndOf(ps[i]) <= StartOf(ps[j]))
  }

  // ----- Scopes -----

  /** A definition: its name, and the position of that name as its identity. */
  datatype Def = Def(name: string, id: nat)

  /** The types defined directly in a body. */
  function Defs(ns: seq<Node>): seq<Def> {
    if ns == [] then []
    else (if ns[0].Block? && ns[0].kind in {Message, Enum} then [Def(ns[0].name.text, ns[0].name.pos)] else []) + Defs(ns[1..])
  }

  function Lookup(ds: seq<Def>, name: string): Option<nat> {
    if ds == [] then None else if ds[0].name == name then Some(ds[0].id) else Lookup(ds[1..], name)
  }

  /** The definition that a type name refers to: the one in the innermost scope that has it. */
  function Resolve(scopes: seq<seq<Def>>, name: string): Option<nat> {
    if scopes == [] then None
    else
      var here := Lookup(scopes[|scopes| - 1], name);
      if here.Some? then here else Resolve(scopes[..|scopes| - 1], name)
  }

  /** A reference to a type, by position, and the definition it is bound to. */
  datatype Ref = Ref(at: nat, def: Option<nat>)

  /** The undotted references of fields and extensions; the types that services mention are listed apart. */
  function Refs(n: Node, scopes: seq<seq<Def>>): seq<Ref>
    decreases n, 1
  {
    match n
    case Block(kind, _, name, _, body, _) =>
      if kind == Message then AllRefs(body, scopes + [Defs(body)])
      else if kind == Extension then [Ref(name.pos, Resolve(scopes, name.text))] + AllRefs(body, scopes)
      else []
    case Field(_, ft, _, _) => if ft.Dotted? && ft.more == [] then [Ref(ft.first.pos, Resolve(scopes, ft.first.text))] else []
    case _ => []
  }

  function AllRefs(ns: seq<Node>, scopes: seq<seq<Def>>): seq<Ref>
    decreases ns, 0
  {
    if ns == [] then [] else Refs(ns[0], scopes) + AllRefs(ns[1..], scopes)
  }

  /** The names that those references use, where no scope has a definition for them. */
  function Outside(n: Node, scopes: seq<seq<Def>>): seq<string>
    decreases n, 1
  {
    match n
    case Block(kind, _, name, _, body, _) =>
      if kind == Message then AllOutside(body, scopes + [Defs(body)])
      else if kind == Extension then Unresolved(scopes, name.text) + AllOutside(body, scopes)
      else []
    case Field(_, ft, _, _) => if ft.Dotted? && ft.more == [] then Unresolved(scopes, ft.first.text) else []
    case _ => []
  }

  function Unresolved(scopes: seq<seq<Def>>, name: string): seq<string> {
    if Resolve(scopes, name).None? then [name] else []
  }

  function AllOutside(ns: seq<Node>, scopes: seq<seq<Def>>): seq<string>
    decreases ns, 0
  {
    if ns == [] then [] else Outside(ns[0], scopes) + AllOutside(ns[1..], scopes)
  }

  /** The argument and result types of service methods. */
  function ServiceTypes(n: Node): seq<Tok>
    decreases n, 1
  {
    match n
    case Block(kind, _, _, _, body, _) => if kind == Service then AllServiceTypes(body) else []
    case Rpc(_, arg, _, res, _) => [arg, res]
    case _ => []
  }

  function AllServiceTypes(ns: seq<Node>): seq<Tok>
    decreases ns, 0
  {
    if ns == [] then [] else ServiceTypes(ns[0]) + AllServiceTypes(ns[1..])
  }

  // ----- Spans of parsed phrases -----

  /** The float 1e60, larger than any position. */
  const FAR: int := 1_000_000_000_000_000_000_000_000_000_000_000_000_000_000_000_000_000_000_000_000

  /** The span that counts for one member of a phrase: the parser's own, or that of the object built for
      it; none when there is neither, or it is (0, 0). */
  function SpanFor(own: (int, int), built: Option<(int, int)>): (r: Option<(int, int)>)
    ensures forall s :: r == Some(s) <==> s != (0, 0) && (own == s || (own == (0, 0) && built == Some(s)))
  {
    if own != (0, 0) then Some(own)
    else if built.Some? && built.value != (0, 0) then built
    else None
  }

  class LexHelper {
    const offset: int

    constructor (offset: int)
      ensures this.offset == offset
    {
      this.offset := offset;
    }

    /** `get_max_lexspan(p)`: the least span around all members of the phrase that have one. */
    method GetMaxLexspan(own: seq<(int, int)>, built: seq<Option<(int, int)>>) returns (span: (int, int))
      requires |own| == |built|
      ensures (forall i :: 0 <= i < |own| ==> SpanFor(own[i], built[i]).None?) ==> span == (0, 0)
      ensures (exists i :: 0 <= i < |own| && SpanFor(own[i], built[i]).Some?) &&
              (forall i :: 0 <= i < |own| && SpanFor(own[i], built[i]).Some? ==>
                 SpanFor(own[i], built[i]).value.0 < FAR && SpanFor(own[i], built[i]).value.1 >= 0) ==>
              (&& (forall i :: 0 <= i < |own| && SpanFor(own[i], built[i]).Some? ==>
                     span.0 + offset <= SpanFor(own[i], built[i]).value.0 && SpanFor(own[i], built[i]).value.1 <= span.1 + offset)
               && (exists i :: 0 <= i < |own| && SpanFor(own[i], built[i]).Some? && SpanFor(own[i], built[i]).value.0 == span.0 + offset)
               && (exists i :: 0 <= i < |own| && SpanFor(own[i], built[i]).Some? && SpanFor(own[i], built[i]).value.1 == span.1 + offset))
    {
      var lo, hi := FAR, -1;
      for sp := 0 to |own|
        invariant lo <= FAR && hi >= -1
        invariant forall i :: 0 <= i < sp && SpanFor(own[i], built[i]).Some? ==>
                    lo <= SpanFor(own[i], built[i]).value.0 && SpanFor(own[i], built[i]).value.1 <= hi
        invariant lo == FAR || exists i :: 0 <= i < sp && SpanFor(own[i], built[i]).Some? && SpanFor(own[i], built[i]).value.0 == lo
        invariant hi == -1 || exists i :: 0 <= i < sp && SpanFor(own[i], built[i]).Some? && SpanFor(own[i], built[i]).value.1 == hi
      {
        var csp := own[sp];
        if csp.0 == 0 && csp.1 == 0 && built[sp].Some? {
          csp := built[sp].value;
        }
        if csp.0 != 0 || csp.1 != 0 {
          if csp.0 < lo {
            lo := csp.0;
          }
          if csp.1 > hi {
            hi := csp.1;
          }
        }
      }
      span := if lo == FAR && hi == -1 then (0, 0) else (lo - offset, hi - offset);
    }
  }
}
