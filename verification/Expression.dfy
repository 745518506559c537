/**
  Numeric conditions: tokens, the AND/OR parser, evaluation (internal/condition/numeric.go).

  Recognising a single condition is a regular-expression match in the program; here it is an
  arbitrary function from text to a condition, or none.
 */
module Expression {
  import opened Common

  datatype Op = Gt | Ge | Lt | Le | Eq | Ne

  datatype Func = Avg | Max | Min | Count | Sum

  // A parsed atom. `window` is in nanoseconds and positive for windowed atoms.
  datatype Condition =
    | PerEvent(op: Op, literal: real)
    | Windowed(func: Func, window: int, runBounded: bool, op: Op, literal: real)

  type Recognizer = string -> Option<Condition>

  predicate CompareNumber(actual: real, op: Op, literal: real) {
    match op
    case Gt => actual > literal
    case Ge => actual >= literal
    case Lt => actual < literal
    case Le => actual <= literal
    case Eq => actual == literal
    case Ne => actual != literal
  }

  /** What an operator says about a number, by the sign of its distance above the literal. */
  ghost predicate Meets(op: Op, above: real) {
    match op
    case Gt => above > 0.0
    case Ge => !(above < 0.0)
    case Lt => above < 0.0
    case Le => !(above > 0.0)
    case Eq => above == 0.0
    case Ne => above > 0.0 || above < 0.0
  }

  /**
    The operators mean what they say: each by the sign of the distance; exactly one of less,
    equal and greater holds; what lies above a greater number is greater, what lies below a
    lesser one is less, and one more or one less than the literal decides.
   */
  lemma OperatorsMean(actual: real, literal: real, op: Op, other: real)
    ensures CompareNumber(actual, op, literal) <==> Meets(op, actual - literal)
    ensures CompareNumber(actual, Gt, literal) ==> !CompareNumber(actual, Eq, literal) && !CompareNumber(actual, Lt, literal)
    ensures CompareNumber(actual, Lt, literal) ==> !CompareNumber(actual, Eq, literal) && !CompareNumber(actual, Gt, literal)
    ensures CompareNumber(actual, Gt, literal) || CompareNumber(actual, Eq, literal) || CompareNumber(actual, Lt, literal)
    ensures CompareNumber(actual, Ge, literal) <==> CompareNumber(actual, Gt, literal) || CompareNumber(actual, Eq, literal)
    ensures CompareNumber(actual, Le, literal) <==> CompareNumber(actual, Lt, literal) || CompareNumber(actual, Eq, literal)
    ensures CompareNumber(actual, Ne, literal) <==> !CompareNumber(actual, Eq, literal)
    ensures CompareNumber(actual, Gt, literal) && other >= actual ==> CompareNumber(other, Gt, literal)
    ensures CompareNumber(actual, Lt, literal) && other <= actual ==> CompareNumber(other, Lt, literal)
    ensures CompareNumber(literal + 1.0, Gt, literal) && CompareNumber(literal - 1.0, Lt, literal) && CompareNumber(literal, Eq, literal)
  {
  }

  // ---------- Expressions ----------

  datatype Expr = Leaf(c: Condition, id: int) | And(left: Expr, right: Expr) | Or(left: Expr, right: Expr)

  datatype Context = Context(value: real, aggregates: map<int, real>)

  predicate LeafHolds(c: Condition, id: int, ctx: Context) {
    match c
    case PerEvent(op, literal) => CompareNumber(ctx.value, op, literal)
    case Windowed(_, _, _, op, literal) => id in ctx.aggregates && CompareNumber(ctx.aggregates[id], op, literal)
  }

  predicate Eval(e: Expr, ctx: Context) {
    match e
    case Leaf(c, id) => LeafHolds(c, id, ctx)
    case And(l, r) => Eval(l, ctx) && Eval(r, ctx)
    case Or(l, r) => Eval(l, ctx) || Eval(r, ctx)
  }

  datatype Window = Window(id: int, func: Func, window: int, runBounded: bool)

  function Windows(e: Expr): seq<Window> {
    match e
    case Leaf(c, id) => if c.Windowed? then [Window(id, c.func, c.window, c.runBounded)] else []
    case And(l, r) => Windows(l) + Windows(r)
    case Or(l, r) => Windows(l) + Windows(r)
  }

  // ---------- Tokens ----------

  datatype Token = Atom(text: string) | AndOp | OrOp

  predicate IsSpace(c: char) {
    || c == ' ' || c == '\t' || c == '\n' || c == '\r' || c == '\U{0B}' || c == '\U{0C}' || c == '\U{85}' || c == '\U{A0}'
    || c == '\U{1680}' || '\U{2000}' <= c <= '\U{200A}' || c == '\U{2028}' || c == '\U{2029}' || c == '\U{202F}'
    || c == '\U{205F}' || c == '\U{3000}'
  }

  function TrimLeft(s: string): string { if s != "" && IsSpace(s[0]) then TrimLeft(s[1..]) else s }

  function TrimRight(s: string): string { if s != "" && IsSpace(s[|s| - 1]) then TrimRight(s[..|s| - 1]) else s }

  function Trim(s: string): string { TrimRight(TrimLeft(s)) }

  ghost predicate Blank(s: string) { forall i :: 0 <= i < |s| ==> IsSpace(s[i]) }

  /** Trimming takes blanks off both ends, and nothing else. */
  lemma TrimTakesBlanks(s: string) returns (left: string, right: string)
    ensures s == left + Trim(s) + right && Blank(left) && Blank(right)
    ensures Trim(s) != "" ==> !IsSpace(Trim(s)[0]) && !IsSpace(Trim(s)[|Trim(s)| - 1])
  {
    left := TrimLeftTakes(s);
    right := TrimRightTakes(TrimLeft(s));
    assert s == left + (Trim(s) + right);
    assert Trim(s) != "" ==> Trim(s)[0] == TrimLeft(s)[0];
  }

  lemma {:induction false} TrimLeftTakes(s: string) returns (left: string)
    ensures s == left + TrimLeft(s) && Blank(left) && (TrimLeft(s) != "" ==> !IsSpace(TrimLeft(s)[0]))
  {
    left := "";
    if s != "" && IsSpace(s[0]) {
      var rest := TrimLeftTakes(s[1..]);
      left := [s[0]] + rest;
    }
  }

  lemma {:induction false} TrimRightTakes(s: string) returns (right: string)
    ensures s == TrimRight(s) + right && Blank(right) && (TrimRight(s) != "" ==> !IsSpace(TrimRight(s)[|TrimRight(s)| - 1]))
  {
    right := "";
    if s != "" && IsSpace(s[|s| - 1]) {
      var rest := TrimRightTakes(s[..|s| - 1]);
      right := rest + [s[|s| - 1]];
    }
  }

  const AND_TEXT := " AND "
  const OR_TEXT := " OR "

  predicate OccursAt(s: string, sub: string, i: int) { 0 <= i <= |s| - |sub| && s[i..i + |sub|] == sub }

  /** The first place `sub` occurs in `s` at or after `from`, or -1. */
  function IndexFrom(s: string, sub: string, from: nat): (i: int)
    requires from <= |s|
    ensures i == -1 || (from <= i && OccursAt(s, sub, i))
    ensures forall j :: from <= j && (i == -1 || j < i) ==> !OccursAt(s, sub, j)
    decreases |s| - from
  {
    if OccursAt(s, sub, from) then from
    else if from == |s| then -1
    else IndexFrom(s, sub, from + 1)
  }

  function Index(s: string, sub: string): int { IndexFrom(s, sub, 0) }

  // The text up to the first operator, the operator, and what follows it.
  datatype Cut = Whole | At(before: string, op: Token, after: string)

  function OpText(op: Token): string { if op == AndOp then AND_TEXT else OR_TEXT }

  /** No operator starts among the first `n` characters of `s`. */
  ghost predicate Clear(s: string, n: int) {
    forall j :: 0 <= j < n ==> !OccursAt(s, AND_TEXT, j) && !OccursAt(s, OR_TEXT, j)
  }

  /** `c` cuts `s` at its very first operator, and leaves it whole only if it has none. */
  ghost predicate CutsFirst(s: string, c: Cut) {
    match c
    case Whole => Clear(s, |s|)
    case At(before, op, after) => !op.Atom? && s == before + OpText(op) + after && Clear(s, |before|)
  }

  function FirstCut(s: string): (c: Cut)
    ensures CutsFirst(s, c)
    ensures c.At? ==> |c.after| < |s|
  {
    var and, or := Index(s, AND_TEXT), Index(s, OR_TEXT);
    if and == -1 && or == -1 then Whole
    else if and != -1 && (or == -1 || and < or) then At(s[..and], AndOp, s[and + 5..])
    else At(s[..or], OrOp, s[or + 4..])
  }

  function Prepend(ts: seq<Token>, r: Option<seq<Token>>): Option<seq<Token>> {
    match r case None => None case Some(more) => Some(ts + more)
  }

  lemma PrependTwice(a: seq<Token>, b: seq<Token>, r: Option<seq<Token>>)
    ensures Prepend(a, Prepend(b, r)) == Prepend(a + b, r)
  {
    if r.Some? { assert a + (b + r.value) == (a + b) + r.value; }
  }

  // All tokens of `s`, or none if some operand is blank.
  function Scan(s: string): (r: Option<seq<Token>>)
    decreases |s|
  {
    if s == "" then Some([])
    else
      match FirstCut(s)
      case Whole => if Trim(s) == "" then None else Some([Atom(Trim(s))])
      case At(before, op, after) =>
        if Trim(before) == "" then None
        else Prepend([Atom(Trim(before)), op], Scan(after))
  }

  function Tokens(s: string): Option<seq<Token>> {
    match Scan(s)
    case None => None
    case Some(ts) => if ts == [] || !ts[|ts| - 1].Atom? then None else Some(ts)
  }

  // An operator's text occurs where it was glued in.
  lemma OperatorOccurs(before: string, op: Token, after: string)
    requires !op.Atom?
    ensures OccursAt(before + OpText(op) + after, OpText(op), |before|)
  {
    var s := before + OpText(op) + after;
    assert s[|before|..|before| + |OpText(op)|] == OpText(op);
  }

  // Two operators cannot start at the same place.
  lemma OneOperatorAt(s: string, j: int)
    requires OccursAt(s, AND_TEXT, j)
    ensures !OccursAt(s, OR_TEXT, j)
  {
    assert s[j + 1] == s[j..j + 5][1];
  }

  /** There is only one first cut. */
  lemma FirstCutIsUnique(s: string, a: Cut, b: Cut)
    requires CutsFirst(s, a) && CutsFirst(s, b)
    ensures a == b
  {
    if a.At? { OperatorOccurs(a.before, a.op, a.after); }
    if b.At? { OperatorOccurs(b.before, b.op, b.after); }
    if a.At? && b.At? {
      assert |a.before| == |b.before|;
      assert a.before == s[..|a.before|] == b.before;
      if OccursAt(s, AND_TEXT, |a.before|) { OneOperatorAt(s, |a.before|); }
      assert a.op == b.op;
      assert a.after == s[|a.before| + |OpText(a.op)|..] == b.after;
    }
  }

  method SplitFirst(s: string) returns (c: Cut)
    ensures CutsFirst(s, c)
  {
    var and, or := Index(s, AND_TEXT), Index(s, OR_TEXT);
    if and == -1 && or == -1 {
      c := Whole;
    } else if and != -1 && (or == -1 || and < or) {
      c := At(s[..and], AndOp, s[and + 5..]);
    } else {
      c := At(s[..or], OrOp, s[or + 4..]);
    }
  }

  /** The tokens found are the one reading of the text, and a text without one is refused. */
  method Tokenize(s: string) returns (r: Option<seq<Token>>)
    ensures r == Tokens(s)
    ensures forall ts :: HasReading(s, ts) <==> r == Some(ts)
  {
    r := ScanTokens(s);
    forall ts ensures HasReading(s, ts) <==> r == Some(ts) { TokensAreTheReading(s, ts); }
  }

  // The loop: cut at the first operator, trim, go on with the rest.
  method ScanTokens(s: string) returns (r: Option<seq<Token>>)
    ensures r == Tokens(s)
  {
    hide FirstCut, Trim;
    var tokens: seq<Token>, rest := [], s;
    assert Prepend([], Scan(s)) == Scan(s) by { if Scan(s).Some? { assert [] + Scan(s).value == Scan(s).value; } }
    while |rest| > 0
      invariant Scan(s) == Prepend(tokens, Scan(rest))
      decreases |rest|
    {
      var cut := SplitFirst(rest);
      FirstCutIsUnique(rest, cut, FirstCut(rest));
      var atom := Trim(if cut.At? then cut.before else rest);
      if atom == "" { return None; }
      if cut.At? {
        PrependTwice(tokens, [Atom(atom), cut.op], Scan(cut.after));
        tokens := tokens + [Atom(atom), cut.op];
        rest := cut.after;
      } else {
        PrependTwice(tokens, [Atom(atom)], Some([]));
        assert [Atom(atom)] + [] == [Atom(atom)];
        tokens := tokens + [Atom(atom)];
        rest := "";
      }
    }
    assert tokens + [] == tokens;
    if |tokens| == 0 { return None; }
    if !tokens[|tokens| - 1].Atom? { return None; }
    return Some(tokens);
  }

  // Operands and operators take turns; an operand is never empty.
  ghost predicate Alternates(ts: seq<Token>) {
    forall i :: 0 <= i < |ts| ==> if i % 2 == 0 then ts[i].Atom? && ts[i].text != "" else !ts[i].Atom?
  }

  lemma AlternatesOn(text: string, op: Token, ts: seq<Token>)
    requires text != "" && !op.Atom? && Alternates(ts)
    ensures Alternates([Atom(text), op] + ts)
  {
    var all := [Atom(text), op] + ts;
    forall i | 0 <= i < |all| ensures if i % 2 == 0 then all[i].Atom? && all[i].text != "" else !all[i].Atom? {
      assert i >= 2 ==> all[i] == ts[i - 2];
    }
  }

  lemma {:induction false} ScanAlternates(s: string)
    ensures Scan(s).Some? ==> Alternates(Scan(s).value)
    decreases |s|
  {
    hide FirstCut, Trim;
    if s != "" && FirstCut(s).At? {
      var cut := FirstCut(s);
      ScanAlternates(cut.after);
      if Scan(s).Some? { AlternatesOn(Trim(cut.before), cut.op, Scan(cut.after).value); }
    }
  }

  // The operands before trimming.
  ghost function Pieces(s: string): seq<string>
    decreases |s|
  {
    match FirstCut(s)
    case Whole => [s]
    case At(before, _, after) => [before] + Pieces(after)
  }

  ghost function Glue(pieces: seq<string>, ts: seq<Token>): string
    requires |ts| == 2 * |pieces| - 1
  {
    if |pieces| <= 1 then (if pieces == [] then "" else pieces[0])
    else pieces[0] + OpText(ts[1]) + Glue(pieces[1..], ts[2..])
  }

  // No operator of the text starts inside a piece, the last one included.
  ghost predicate Earliest(pieces: seq<string>, ts: seq<Token>)
    requires |ts| == 2 * |pieces| - 1
  {
    pieces != [] ==> Clear(Glue(pieces, ts), |pieces[0]|) && (|pieces| > 1 ==> Earliest(pieces[1..], ts[2..]))
  }

  // Operand `i` is the token at twice its place.
  ghost predicate TrimmedOperands(ts: seq<Token>, ps: seq<string>)
    requires |ts| == 2 * |ps| - 1
  {
    forall i :: 0 <= i < |ps| ==> ts[2 * i] == Atom(Trim(ps[i]))
  }

  lemma TrimmedNext(piece: string, op: Token, ts: seq<Token>, ps: seq<string>)
    requires |ts| == 2 * |ps| - 1 && TrimmedOperands(ts, ps)
    ensures TrimmedOperands([Atom(Trim(piece)), op] + ts, [piece] + ps)
  {
    hide Trim;
    var ts', ps' := [Atom(Trim(piece)), op] + ts, [piece] + ps;
    forall i | 0 <= i < |ps'| ensures ts'[2 * i] == Atom(Trim(ps'[i])) {
      if i > 0 { assert ts'[2 * i] == ts[2 * (i - 1)] && ps'[i] == ps[i - 1]; }
    }
  }

  lemma OneOperand(s: string)
    ensures TrimmedOperands([Atom(Trim(s))], [s])
  {
  }

  /**
    A reading of a text: pieces and operators which, glued together, are the text, with no
    operator left inside a piece; the tokens are the trimmed pieces, none of them blank, and the
    operators between them.
   */
  ghost predicate Reads(s: string, ps: seq<string>, ts: seq<Token>) {
    && |ts| == 2 * |ps| - 1
    && Glue(ps, ts) == s && Earliest(ps, ts)
    && TrimmedOperands(ts, ps) && Alternates(ts)
  }

  /** Tokens are a reading: they lose nothing but the blanks around operands, and leave no operator unread. */
  lemma {:induction false} TokensGlueBack(s: string)
    requires Tokens(s).Some?
    ensures Reads(s, Pieces(s), Tokens(s).value)
    decreases |s|
  {
    hide FirstCut, Trim, TrimmedOperands, Clear, Alternates;
    ScanAlternates(s);
    var ts, ps := Tokens(s).value, Pieces(s);
    if FirstCut(s).At? {
      var cut := FirstCut(s);
      var rest := Scan(cut.after).value;
      assert ts == [Atom(Trim(cut.before)), cut.op] + rest && ts[2..] == rest;
      assert rest != [] ==> rest[|rest| - 1] == ts[|ts| - 1];
      TokensGlueBack(cut.after);
      assert ps[1..] == Pieces(cut.after);
      TrimmedNext(cut.before, cut.op, rest, Pieces(cut.after));
    } else {
      OneOperand(s);
    }
  }

  // The rest of a reading after its first piece and operator.
  lemma RestReads(s: string, ps: seq<string>, ts: seq<Token>)
    requires Reads(s, ps, ts) && |ps| > 1
    ensures !ts[1].Atom? && Reads(Glue(ps[1..], ts[2..]), ps[1..], ts[2..])
  {
    hide Trim, Clear;
    forall i | 0 <= i < |ps[1..]| ensures ts[2..][2 * i] == Atom(Trim(ps[1..][i])) {
      assert ts[2..][2 * i] == ts[2 * (i + 1)] && ps[1..][i] == ps[i + 1];
    }
    forall i | 0 <= i < |ts[2..]|
      ensures if i % 2 == 0 then ts[2..][i].Atom? && ts[2..][i].text != "" else !ts[2..][i].Atom?
    {
      assert ts[2..][i] == ts[i + 2];
    }
  }

  lemma WholeTokens(s: string)
    requires CutsFirst(s, Whole) && Trim(s) != ""
    ensures Tokens(s) == Some([Atom(Trim(s))])
  {
    assert Trim("") == "";
    hide FirstCut, Trim, CutsFirst;
    FirstCutIsUnique(s, FirstCut(s), Whole);
  }

  lemma CutTokens(s: string, cut: Cut, ts: seq<Token>)
    requires CutsFirst(s, cut) && cut.At? && Trim(cut.before) != "" && Tokens(cut.after) == Some(ts)
    ensures Tokens(s) == Some([Atom(Trim(cut.before)), cut.op] + ts)
  {
    hide FirstCut, Trim;
    FirstCutIsUnique(s, FirstCut(s), cut);
    var all := [Atom(Trim(cut.before)), cut.op] + ts;
    assert all[|all| - 1] == ts[|ts| - 1];
  }

  lemma {:induction false} ReadingIsTokens(s: string, ps: seq<string>, ts: seq<Token>)
    requires Reads(s, ps, ts)
    ensures Tokens(s) == Some(ts)
    decreases |ps|
  {
    hide FirstCut, Clear, Trim, Tokens;
    assert ts[2 * 0] == Atom(Trim(ps[0])) && ts[0].text != "";
    if |ps| == 1 {
      WholeTokens(s);
      assert ts == [ts[0]];
    } else {
      RestReads(s, ps, ts);
      hide TrimmedOperands, Alternates, Earliest;
      var rest := Glue(ps[1..], ts[2..]);
      ReadingIsTokens(rest, ps[1..], ts[2..]);
      CutTokens(s, At(ps[0], ts[1], rest), ts[2..]);
      assert ts == [ts[0], ts[1]] + ts[2..];
    }
  }

  ghost predicate HasReading(s: string, ts: seq<Token>) { exists ps :: Reads(s, ps, ts) }

  /** Every text has at most one reading, and its tokens are that reading; without one it is refused. */
  lemma TokensAreTheReading(s: string, ts: seq<Token>)
    ensures Tokens(s) == Some(ts) <==> HasReading(s, ts)
  {
    hide Tokens, Reads;
    if Tokens(s) == Some(ts) { TokensGlueBack(s); }
    if ps :| Reads(s, ps, ts) { ReadingIsTokens(s, ps, ts); }
  }

  // ---------- What a token list means ----------

  datatype Item = Operand(c: Condition, id: int) | AndItem | OrItem

  /** The tokens with their conditions recognised and windowed ones numbered from `first` on. */
  ghost function Number(recognize: Recognizer, ts: seq<Token>, first: nat): (items: seq<Item>)
    ensures |items| == |ts|
  {
    if ts == [] then []
    else
      var init, t := ts[..|ts| - 1], ts[|ts| - 1];
      Number(recognize, init, first) + [Itemize(recognize, t, first + WindowCount(recognize, init))]
  }

  ghost function Itemize(recognize: Recognizer, t: Token, id: nat): Item {
    match t
    case AndOp => AndItem
    case OrOp => OrItem
    case Atom(text) =>
      match recognize(text)
      case None => Operand(PerEvent(Eq, 0.0), -1)
      case Some(c) => Operand(c, if c.Windowed? then id else -1)
  }

  // How many tokens are windowed conditions.
  ghost function WindowCount(recognize: Recognizer, ts: seq<Token>): nat {
    if ts == [] then 0
    else
      var t := ts[|ts| - 1];
      WindowCount(recognize, ts[..|ts| - 1])
      + (if t.Atom? && recognize(t.text).Some? && recognize(t.text).value.Windowed? then 1 else 0)
  }

  lemma NumberOne(recognize: Recognizer, t: Token, first: nat)
    ensures Number(recognize, [t], first) == [Itemize(recognize, t, first)]
    ensures WindowCount(recognize, [t])
         == if t.Atom? && recognize(t.text).Some? && recognize(t.text).value.Windowed? then 1 else 0
  {
    assert [t][..0] == [];
    assert WindowCount(recognize, []) == 0;
  }

  lemma {:induction false} NumberConcat(recognize: Recognizer, a: seq<Token>, b: seq<Token>, first: nat)
    ensures Number(recognize, a + b, first)
         == Number(recognize, a, first) + Number(recognize, b, first + WindowCount(recognize, a))
    ensures WindowCount(recognize, a + b) == WindowCount(recognize, a) + WindowCount(recognize, b)
  {
    if b == [] {
      assert a + b == a;
    } else {
      var init := b[..|b| - 1];
      assert (a + b)[..|a + b| - 1] == a + init;
      NumberConcat(recognize, a, init, first);
    }
  }

  lemma NumberAround(recognize: Recognizer, a: seq<Token>, op: Token, b: seq<Token>, first: nat)
    requires !op.Atom?
    ensures Number(recognize, a + [op] + b, first)
         == Number(recognize, a, first) + [if op == AndOp then AndItem else OrItem]
            + Number(recognize, b, first + WindowCount(recognize, a))
    ensures WindowCount(recognize, a + [op] + b) == WindowCount(recognize, a) + WindowCount(recognize, b)
  {
    hide Number, WindowCount;
    NumberOne(recognize, op, first + WindowCount(recognize, a));
    NumberConcat(recognize, a, [op], first);
    NumberConcat(recognize, a + [op], b, first);
  }

  // One more item: OR opens a group, an operand joins the last one.
  ghost function AddItem(gs: seq<seq<Item>>, it: Item): (r: seq<seq<Item>>)
    requires gs != []
    ensures r != []
  {
    match it
    case OrItem => gs + [[]]
    case AndItem => gs
    case Operand(_, _) => gs[..|gs| - 1] + [gs[|gs| - 1] + [it]]
  }

  /** The operands between ORs: a condition holds when all operands of some group hold. */
  ghost function Groups(items: seq<Item>): (gs: seq<seq<Item>>)
    ensures gs != []
  {
    if items == [] then [[]] else AddItem(Groups(items[..|items| - 1]), items[|items| - 1])
  }

  lemma AddItemRight(a: seq<seq<Item>>, b: seq<seq<Item>>, it: Item)
    requires b != []
    ensures AddItem(a + b, it) == a + AddItem(b, it)
  {
    assert (a + b)[..|a + b| - 1] == a + b[..|b| - 1] && (a + b)[|a + b| - 1] == b[|b| - 1];
  }

  ghost predicate AllHold(g: seq<Item>, ctx: Context) {
    forall it :: it in g && it.Operand? ==> LeafHolds(it.c, it.id, ctx)
  }

  ghost predicate SomeGroupHolds(gs: seq<seq<Item>>, ctx: Context) { exists g :: g in gs && AllHold(g, ctx) }

  // The expression read from left to right.
  ghost function Flatten(e: Expr): (items: seq<Item>)
    ensures |items| % 2 == 1
  {
    match e
    case Leaf(c, id) => [Operand(c, id)]
    case And(l, r) => Flatten(l) + [AndItem] + Flatten(r)
    case Or(l, r) => Flatten(l) + [OrItem] + Flatten(r)
  }

  ghost function Operands(items: seq<Item>): seq<Item> {
    if items == [] then []
    else Operands(items[..|items| - 1]) + (if items[|items| - 1].Operand? then [items[|items| - 1]] else [])
  }

  predicate Conjunction(e: Expr) {
    match e
    case Leaf(_, _) => true
    case And(l, r) => Conjunction(l) && r.Leaf?
    case Or(_, _) => false
  }

  // OR binds weakest: a disjunction of conjunctions, grouped to the left.
  predicate Normal(e: Expr) {
    match e
    case Or(l, r) => Normal(l) && Conjunction(r)
    case _ => Conjunction(e)
  }

  lemma GroupsSnoc(items: seq<Item>, it: Item)
    ensures Groups(items + [it]) == AddItem(Groups(items), it)
    ensures Operands(items + [it]) == Operands(items) + (if it.Operand? then [it] else [])
  {
    assert (items + [it])[..|items|] == items;
  }

  lemma {:induction false} GroupsOfConjunction(e: Expr)
    requires Conjunction(e)
    ensures Groups(Flatten(e)) == [Operands(Flatten(e))]
    ensures forall ctx :: Eval(e, ctx) <==> AllHold(Operands(Flatten(e)), ctx)
  {
    match e {
      case Leaf(c, id) =>
        assert [Operand(c, id)][..0] == [];
        assert Operands([]) == [] && Groups([]) == [[]];
      case And(l, r) =>
        hide Groups, Operands;
        GroupsOfConjunction(l);
        var it, all := Operand(r.c, r.id), Operands(Flatten(l));
        GroupsSnoc(Flatten(l), AndItem);
        GroupsSnoc(Flatten(l) + [AndItem], it);
        assert all + [] == all && [all][..0] == [];
    }
  }

  lemma {:induction false} GroupsAfterOr(a: seq<Item>, b: seq<Item>)
    ensures Groups(a + [OrItem] + b) == Groups(a) + Groups(b)
  {
    if b == [] {
      assert a + [OrItem] + b == a + [OrItem];
      GroupsSnoc(a, OrItem);
    } else {
      hide Groups, AddItem;
      var init, it := b[..|b| - 1], b[|b| - 1];
      GroupsAfterOr(a, init);
      GroupsSnoc(a + [OrItem] + init, it);
      GroupsSnoc(init, it);
      AddItemRight(Groups(a), Groups(init), it);
      assert b == init + [it] && a + [OrItem] + b == a + [OrItem] + init + [it];
    }
  }

  /** Evaluating a parsed expression is OR over the groups its text separates by OR. */
  lemma {:induction false} EvalIsOrOfAnds(e: Expr, ctx: Context)
    requires Normal(e)
    ensures Eval(e, ctx) <==> SomeGroupHolds(Groups(Flatten(e)), ctx)
  {
    if e.Or? {
      EvalIsOrOfAnds(e.left, ctx);
      GroupsAfterOr(Flatten(e.left), Flatten(e.right));
      GroupsOfConjunction(e.right);
      var gl, gr := Groups(Flatten(e.left)), Operands(Flatten(e.right));
      assert gr in gl + [gr];
      assert forall g :: g in gl + [gr] <==> g in gl || g == gr;
    } else {
      GroupsOfConjunction(e);
      assert Operands(Flatten(e)) in Groups(Flatten(e));
    }
  }

  // ---------- Window numbers ----------

  ghost function WindowItems(items: seq<Item>): seq<Window> {
    if items == [] then []
    else
      var it := items[|items| - 1];
      WindowItems(items[..|items| - 1])
      + (if it.Operand? && it.c.Windowed? then [Window(it.id, it.c.func, it.c.window, it.c.runBounded)] else [])
  }

  lemma {:induction false} WindowItemsConcat(a: seq<Item>, b: seq<Item>)
    ensures WindowItems(a + b) == WindowItems(a) + WindowItems(b)
  {
    if b == [] {
      assert a + b == a;
    } else {
      assert (a + b)[..|a + b| - 1] == a + b[..|b| - 1];
      WindowItemsConcat(a, b[..|b| - 1]);
    }
  }

  lemma WindowsAround(a: seq<Item>, op: Item, b: seq<Item>)
    requires !op.Operand?
    ensures WindowItems(a + [op] + b) == WindowItems(a) + WindowItems(b)
  {
    WindowItemsConcat(a + [op], b);
    assert (a + [op])[..|a|] == a;
  }

  lemma {:induction false} WindowsOfFlat(e: Expr)
    ensures Windows(e) == WindowItems(Flatten(e))
  {
    match e {
      case Leaf(c, id) =>
        assert [Operand(c, id)][..0] == [];
        assert WindowItems([]) == [];
      case And(l, r) =>
        hide WindowItems;
        WindowsOfFlat(l);
        WindowsOfFlat(r);
        WindowsAround(Flatten(l), AndItem, Flatten(r));
      case Or(l, r) =>
        hide WindowItems;
        WindowsOfFlat(l);
        WindowsOfFlat(r);
        WindowsAround(Flatten(l), OrItem, Flatten(r));
    }
  }

  lemma {:induction false} NumberedWindows(recognize: Recognizer, ts: seq<Token>, first: nat)
    ensures |WindowItems(Number(recognize, ts, first))| == WindowCount(recognize, ts)
    ensures forall i :: 0 <= i < WindowCount(recognize, ts) ==> WindowItems(Number(recognize, ts, first))[i].id == first + i
  {
    if ts != [] {
      var init := ts[..|ts| - 1];
      NumberedWindows(recognize, init, first);
      var items := Number(recognize, ts, first);
      assert items[..|items| - 1] == Number(recognize, init, first);
    }
  }

  /** Window numbers run from zero, left to right. */
  lemma WindowIdsInOrder(recognize: Recognizer, ts: seq<Token>, e: Expr)
    requires Flatten(e) == Number(recognize, ts, 0)
    ensures forall i :: 0 <= i < |Windows(e)| ==> Windows(e)[i].id == i
  {
    WindowsOfFlat(e);
    NumberedWindows(recognize, ts, 0);
  }

  // Recognised windows are positive, or last as long as the run.
  ghost predicate PositiveWindows(recognize: Recognizer) {
    forall s :: recognize(s).Some? && recognize(s).value.Windowed? && !recognize(s).value.runBounded ==>
      recognize(s).value.window > 0
  }

  lemma {:induction false} NumberedWindowsArePositive(recognize: Recognizer, ts: seq<Token>, first: nat)
    requires PositiveWindows(recognize)
    ensures forall w :: w in WindowItems(Number(recognize, ts, first)) ==> w.runBounded || w.window > 0
  {
    if ts != [] {
      var init := ts[..|ts| - 1];
      NumberedWindowsArePositive(recognize, init, first);
      var items := Number(recognize, ts, first);
      assert items[..|items| - 1] == Number(recognize, init, first);
    }
  }

  // ---------- The parser ----------

  class Parser {
    const recognize: Recognizer
    const tokens: seq<Token>
    var pos: nat
    var nextId: nat

    constructor (recognize: Recognizer, tokens: seq<Token>)
      ensures pos == 0 && nextId == 0 && this.recognize == recognize && this.tokens == tokens
    {
      this.recognize, this.tokens, pos, nextId := recognize, tokens, 0, 0;
    }

    // The tokens from `from` to here became `e`, numbered from `first`.
    ghost predicate Read(e: Expr, from: nat, first: nat)
      reads this
    {
      && from < pos <= |tokens|
      && Flatten(e) == Number(recognize, tokens[from..pos], first)
      && nextId == first + WindowCount(recognize, tokens[from..pos])
      && forall i :: from <= i < pos && tokens[i].Atom? ==> recognize(tokens[i].text).Some?
    }

    // An operator and one more operand, read after `e`.
    lemma ReadMore(e: Expr, e': Expr, op: Token, from: nat, mid: nat, first: nat, id: nat)
      requires from < mid < pos <= |tokens| && tokens[mid] == op && !op.Atom?
      requires Flatten(e) == Number(recognize, tokens[from..mid], first)
      requires id == first + WindowCount(recognize, tokens[from..mid])
      requires Read(e', mid + 1, id)
      requires forall i :: from <= i < mid && tokens[i].Atom? ==> recognize(tokens[i].text).Some?
      ensures Read(if op == AndOp then And(e, e') else Or(e, e'), from, first)
    {
      hide Number, WindowCount;
      assert tokens[from..pos] == tokens[from..mid] + [op] + tokens[mid + 1..pos];
      NumberAround(recognize, tokens[from..mid], op, tokens[mid + 1..pos], first);
    }

    ghost predicate Unrecognized() { exists i :: 0 <= i < |tokens| && tokens[i].Atom? && recognize(tokens[i].text).None? }

    // Operands sit at even positions, and one comes last.
    ghost predicate WellFormed() { Alternates(tokens) && |tokens| % 2 == 1 }

    method ParseAtom() returns (e: Option<Expr>)
      requires pos <= |tokens|
      modifies this`pos, this`nextId
      ensures e.Some? ==> e.value.Leaf? && pos == old(pos) + 1 && Read(e.value, old(pos), old(nextId))
      ensures e.None? ==> old(pos) == |tokens| || !tokens[old(pos)].Atom? || recognize(tokens[old(pos)].text).None?
      ensures old(pos) <= pos <= |tokens|
    {
      if pos >= |tokens| { return None; }
      var t := tokens[pos];
      if !t.Atom? { return None; }
      pos := pos + 1;
      match recognize(t.text) {
        case None => return None;
        case Some(c) =>
          assert tokens[old(pos)..pos] == [t];
          NumberOne(recognize, t, nextId);
          var id: int := -1;
          if c.Windowed? { id, nextId := nextId, nextId + 1; }
          return Some(Leaf(c, id));
      }
    }

    method ParseAnd() returns (e: Option<Expr>)
      requires pos <= |tokens|
      modifies this`pos, this`nextId
      ensures e.Some? ==> Conjunction(e.value) && Read(e.value, old(pos), old(nextId))
      ensures e.Some? ==> pos == |tokens| || tokens[pos] != AndOp
      ensures e.None? && WellFormed() && old(pos) % 2 == 0 && old(pos) < |tokens| ==> Unrecognized()
      ensures old(pos) <= pos <= |tokens|
    {
      hide Number, WindowCount, Flatten;
      e := ParseAtom();
      if e.None? { return; }
      while pos < |tokens| && tokens[pos] == AndOp
        invariant e.Some? && Conjunction(e.value) && Read(e.value, old(pos), old(nextId))
        invariant old(pos) <= pos <= |tokens|
        decreases |tokens| - pos
      {
        ghost var mid, id := pos, nextId;
        pos := pos + 1;
        var right := ParseAtom();
        if right.None? { return None; }
        ReadMore(e.value, right.value, AndOp, old(pos), mid, old(nextId), id);
        e := Some(And(e.value, right.value));
      }
    }

    method ParseExpr() returns (e: Option<Expr>)
      requires pos <= |tokens|
      modifies this`pos, this`nextId
      ensures e.Some? ==> Normal(e.value) && Read(e.value, old(pos), old(nextId))
      ensures e.Some? ==> pos == |tokens| || (tokens[pos] != AndOp && tokens[pos] != OrOp)
      ensures e.None? && WellFormed() && old(pos) % 2 == 0 && old(pos) < |tokens| ==> Unrecognized()
      ensures old(pos) <= pos <= |tokens|
    {
      hide Number, WindowCount, Flatten;
      e := ParseAnd();
      if e.None? { return; }
      while pos < |tokens| && tokens[pos] == OrOp
        invariant e.Some? && Normal(e.value) && Read(e.value, old(pos), old(nextId))
        invariant pos == |tokens| || tokens[pos] != AndOp
        invariant old(pos) <= pos <= |tokens|
        decreases |tokens| - pos
      {
        ghost var mid, id := pos, nextId;
        pos := pos + 1;
        var right := ParseAnd();
        if right.None? { return None; }
        ReadMore(e.value, right.value, OrOp, old(pos), mid, old(nextId), id);
        e := Some(Or(e.value, right.value));
      }
    }
  }

  /**
    A parsed condition is the whole token list: read from left to right it is the tokens with
    windowed ones numbered from zero, and AND binds tighter than OR.
   */
  method ParseExpression(recognize: Recognizer, s: string) returns (e: Option<Expr>)
    ensures e.Some? ==>
      && Tokens(s).Some?
      && Normal(e.value)
      && Flatten(e.value) == Number(recognize, Tokens(s).value, 0)
    ensures e.None? <==> Tokens(s).None? || exists t :: t in Tokens(s).value && t.Atom? && recognize(t.text).None?
  {
    hide Scan, Number, Flatten, WindowCount;
    var tokens := Tokenize(s);
    if tokens.None? { return None; }
    var ts := tokens.value;
    ScanAlternates(s);
    assert |ts| % 2 == 1 by { assert ts[|ts| - 1].Atom?; }
    var p := new Parser(recognize, ts);
    e := p.ParseExpr();
    assert ts[0..|ts|] == ts;
    if e.Some? { assert p.pos % 2 == 1; }
  }
}
