/**
 The statements and expressions that the code generator lowers, their meaning, and which of
 them it accepts.

 The meaning is structured: loops repeat, a `break n` ends the n-th innermost construct that
 can be broken, and leaving a scope in any way destroys the scope's locals, last one first.
 Nothing here mentions blocks.

 A run has a reading: `AsMeant` is that meaning, `AsEmitted` treats the scope of a `for` as its emitted code
 does, and `AsChecked` follows both as long as they agree.
 */
module Source {
  import opened Options
  import opened Cfg

  datatype Exp =
    | Const(v: int, ty: Ty)
    | Read(x: Symbol, ty: Ty)
    | Invoke(f: Symbol, args: seq<Exp>, ty: Ty)
    | Binary(op: Symbol, l: Exp, r: Exp)
    | Compare(op: Symbol, l: Exp, r: Exp)
    | And(l: Exp, r: Exp)
    | Or(l: Exp, r: Exp)
    | Cond(c: Exp, yes: Exp, no: Exp)
    | Coalesce(l: Exp, r: Exp)
    | Assign(x: Symbol, ty: Ty, update: Option<Symbol>, rhs: Exp)

  datatype Jump = Break | Continue | Redo

  /** What a `return` has: for an object, whether it is moved out and whether its class has a destructor. */
  datatype RetVal = NoValue | Scalar(e: Exp) | Object(x: Symbol, moved: bool, dtor: bool)

  /** Statements that neither branch nor jump; a `for` header consists of these. */
  datatype Plain =
    | Do(e: Exp)
    | CoalesceTo(x: Symbol, ty: Ty, rhs: Exp)
    | Declare(x: Symbol, decl: nat, dtor: bool, init: Exp)
    | Group(decls: seq<Plain>)

  datatype Stmt =
    | Basic(plain: Plain)
    | Return(value: RetVal)
    | Branch(kind: Jump, level: Option<int>)
    | Loop(body: seq<Stmt>)
    | While(cond: Option<Exp>, body: seq<Stmt>, doWhile: bool, until: bool)
    | Switch(on: Exp, cases: seq<Case>)
    | For(pre: seq<Plain>, cond: Option<Exp>, post: seq<Exp>, body: seq<Stmt>)
    | If(test: Exp, thn: seq<Stmt>, els: ElsePart)

  datatype ElsePart = NoElse | Else(stmts: seq<Stmt>)

  datatype Case = Case(value: Option<int>, body: seq<Stmt>)

  /** What a function returns: nothing, a scalar, or an object of a class type. */
  datatype Returns = Void | Number(ty: Ty) | Class

  // ---------------------------------------------------------------- static semantics

  function TypeOf(e: Exp): Ty {
    match e
    case Const(_, ty) => ty
    case Read(_, ty) => ty
    case Invoke(_, _, ty) => ty
    case Binary(_, l, r) => Common(TypeOf(l), TypeOf(r))
    case Compare(_, _, _) => TBool
    case And(_, _) => TBool
    case Or(_, _) => TBool
    case Cond(_, yes, _) => TypeOf(yes)
    case Coalesce(l, _) => TypeOf(l)
    case Assign(_, ty, _, _) => ty
  }

  /** The type two operands are converted to before an arithmetic operation. */
  function Common(a: Ty, b: Ty): Ty {
    if a == b then a else TInt
  }

  /** Constants and plain variables are not complex: lowering may evaluate them ahead of need. */
  predicate Complex(e: Exp) {
    !e.Const? && !e.Read?
  }

  predicate WellTyped(e: Exp)
    decreases e, 1
  {
    match e
    case Const(_, _) => true
    case Read(_, _) => true
    case Invoke(_, args, _) => AllWellTyped(args)
    case Binary(_, l, r) => WellTyped(l) && WellTyped(r)
    case Compare(_, l, r) => WellTyped(l) && WellTyped(r)
    case And(l, r) => WellTyped(l) && WellTyped(r)
    case Or(l, r) => WellTyped(l) && WellTyped(r)
    case Cond(c, yes, no) => WellTyped(c) && WellTyped(yes) && WellTyped(no) && TypeOf(yes) == TypeOf(no)
    case Coalesce(l, r) => WellTyped(l) && WellTyped(r) && TypeOf(l) == TypeOf(r)
    case Assign(_, _, _, rhs) => WellTyped(rhs)
  }

  predicate AllWellTyped(es: seq<Exp>)
    decreases es, 0
  {
    es == [] || (AllWellTyped(es[..|es| - 1]) && WellTyped(es[|es| - 1]))
  }

  /** How many enclosing constructs support each kind of jump. */
  datatype Depth = Depth(brk: nat, cont: nat, redo: nat)

  function DepthOf(d: Depth, k: Jump): nat {
    match k
    case Break => d.brk
    case Continue => d.cont
    case Redo => d.redo
  }

  function InLoop(d: Depth): Depth {
    Depth(d.brk + 1, d.cont + 1, d.redo)
  }

  function InWhile(d: Depth): Depth {
    Depth(d.brk + 1, d.cont + 1, d.redo + 1)
  }

  function InSwitch(d: Depth): Depth {
    d.(brk := d.brk + 1)
  }

  /** The value that a level has as a 32-bit signed integer. */
  function AsInt32(k: int): (r: int)
    ensures -0x8000_0000 <= r < 0x8000_0000 && (r - k) % 0x1_0000_0000 == 0
  {
    (k + 0x8000_0000) % 0x1_0000_0000 - 0x8000_0000
  }

  /**
   Which enclosing construct a jump names, counted outwards from 1.  A positive level counts
   outwards, a negative one inwards from the outermost, and no level means the innermost.
   Levels are kept in 32 bits.
   */
  function Resolve(n: nat, level: Option<int>): (r: Option<nat>)
    ensures r.Some? ==> 1 <= r.value <= n
  {
    match level
    case None => if n >= 1 then Some(1) else None
    case Some(l) =>
      var k := AsInt32(l);
      if 0 < k <= n then Some(k)
      else if k < 0 && n + k + 1 >= 1 then Some(n + k + 1)
      else None
  }

  /**
   Three readings of a body, which differ only in `for` loops.  `AsMeant` is the meaning; `AsEmitted` is
   what the code generator makes of it; `AsChecked` is the meaning up to the point where the two part.
   */
  datatype Mode = AsMeant | AsEmitted | AsChecked

  datatype Rules = Rules(depth: Depth, result: Returns, mode: Mode)

  /** The value is one that the function returns, and an object with a destructor is moved out. */
  predicate ReturnFits(v: RetVal, result: Returns) {
    match v
    case NoValue => result.Void?
    case Scalar(_) => result.Number?
    case Object(_, moved, dtor) => result.Class? && (moved || !dtor)
  }

  predicate ValidReturn(v: RetVal, result: Returns) {
    ReturnFits(v, result) && (v.Scalar? ==> WellTyped(v.e))
  }

  function Declares1(p: Plain): set<Symbol>
    decreases p, 1
  {
    match p
    case Declare(x, _, _, _) => {x}
    case Group(ps) => DeclaredPlain(ps)
    case _ => {}
  }

  function DeclaredPlain(ps: seq<Plain>): set<Symbol>
    decreases ps, 0
  {
    if ps == [] then {} else DeclaredPlain(ps[..|ps| - 1]) + Declares1(ps[|ps| - 1])
  }

  function Declared(ss: seq<Stmt>, names: set<Symbol>): set<Symbol> {
    if ss == [] then names
    else
      Declared(ss[..|ss| - 1], names) + DeclaredBy(ss[|ss| - 1])
  }

  function DeclaredBy(s: Stmt): set<Symbol> {
    if s.Basic? then Declares1(s.plain) else {}
  }

  predicate ValidPlain(p: Plain, names: set<Symbol>)
    decreases p, 1
  {
    match p
    case Do(e) => WellTyped(e)
    case CoalesceTo(_, _, rhs) => WellTyped(rhs)
    case Declare(x, _, _, init) => WellTyped(init) && x !in names
    case Group(ps) => ValidPlains(ps, names)
  }

  predicate ValidPlains(ps: seq<Plain>, names: set<Symbol>)
    decreases ps, 0
  {
    ps == [] || (
      var n := |ps| - 1;
      ValidPlains(ps[..n], names) && ValidPlain(ps[n], names + DeclaredPlain(ps[..n])))
  }

  predicate ValidCond(c: Option<Exp>) {
    c.Some? ==> WellTyped(c.value)
  }

  /** The statements that are lowered without an error; `names` are those already declared in the scope. */
  predicate Valid(s: Stmt, r: Rules, names: set<Symbol>)
    decreases s, 1
  {
    match s
    case Basic(p) => ValidPlain(p, names)
    case Return(v) => ValidReturn(v, r.result)
    case Branch(k, level) => Resolve(DepthOf(r.depth, k), level).Some?
    case Loop(body) => ValidList(body, r.(depth := InLoop(r.depth)), {})
    case While(c, body, _, _) => ValidCond(c) && ValidList(body, r.(depth := InWhile(r.depth)), {})
    case Switch(on, cases) =>
      WellTyped(on) && ValidCases(cases, r.(depth := InSwitch(r.depth)))
    case For(pre, c, post, body) =>
      var inner := r.(depth := InWhile(r.depth));
      && ValidPlains(pre, {})
      && ValidCond(c)
      && AllWellTyped(post)
      && ValidList(body, inner, DeclaredPlain(pre))
    case If(c, thn, els) =>
      WellTyped(c) && ValidList(thn, r, {}) && (els.Else? ==> ValidList(els.stmts, r, {}))
  }

  predicate ValidList(ss: seq<Stmt>, r: Rules, names: set<Symbol>)
    decreases ss, 0
  {
    ss == [] || (
      var n := |ss| - 1;
      ValidList(ss[..n], r, names) && Valid(ss[n], r, Declared(ss[..n], names)))
  }

  predicate ValidCases(cases: seq<Case>, r: Rules)
    decreases cases, 0
  {
    cases == [] || (
      var n := |cases| - 1;
      && ValidCases(cases[..n], r)
      && cases[n].value !in CaseValues(cases[..n])
      && ValidList(cases[n].body, r, {}))
  }

  /** The values and defaults used so far: each may occur once in a switch. */
  function CaseValues(cases: seq<Case>): set<Option<int>> {
    set c | c in cases :: c.value
  }

  /** What the grammar gives: a switch has at least one case. */
  predicate Parsed(s: Stmt)
    decreases s, 1
  {
    match s
    case Loop(body) => ParsedList(body)
    case While(_, body, _, _) => ParsedList(body)
    case For(_, _, _, body) => ParsedList(body)
    case Switch(_, cases) => cases != [] && ParsedCases(cases)
    case If(_, thn, els) => ParsedList(thn) && (els.Else? ==> ParsedList(els.stmts))
    case _ => true
  }

  predicate ParsedList(ss: seq<Stmt>)
    decreases ss, 0
  {
    forall i | 0 <= i < |ss| :: Parsed(ss[i])
  }

  predicate ParsedCases(cases: seq<Case>)
    decreases cases, 0
  {
    forall i | 0 <= i < |cases| :: ParsedList(cases[i].body)
  }

  // ---------------------------------------------------------------- expressions

  function Eval(w: World, e: Exp, h: Trace): (int, Trace)
    decreases e, 1
  {
    match e
    case Const(v, ty) => (Norm(ty, v), h)
    case Read(x, ty) => (Norm(ty, w.read(h, x)), h)
    case Invoke(f, args, ty) =>
      var (vs, h1) := EvalAll(w, args, h);
      var r := Norm(ty, w.call(h1, f, vs));
      (r, h1 + [Called(f, vs, r)])
    case Binary(op, l, r) =>
      var (lv, h1) := Eval(w, l, h);
      var (rv, h2) := Eval(w, r, h1);
      (Norm(TypeOf(e), w.prim(op, lv, rv)), h2)
    case Compare(op, l, r) =>
      var (lv, h1) := Eval(w, l, h);
      var (rv, h2) := Eval(w, r, h1);
      (Bit(w.cmp(op, lv, rv)), h2)
    case And(l, r) =>
      var (lv, h1) := Eval(w, l, h);
      if lv == 0 then (0, h1)
      else
        var (rv, h2) := Eval(w, r, h1);
        (Bit(rv != 0), h2)
    case Or(l, r) =>
      var (lv, h1) := Eval(w, l, h);
      if lv != 0 then (1, h1)
      else
        var (rv, h2) := Eval(w, r, h1);
        (Bit(rv != 0), h2)
    case Cond(c, yes, no) =>
      var (cv, h1) := Eval(w, c, h);
      if cv != 0 then Eval(w, yes, h1) else Eval(w, no, h1)
    case Coalesce(l, r) =>
      var (lv, h1) := Eval(w, l, h);
      if lv != 0 then (lv, h1) else Eval(w, r, h1)
    case Assign(x, ty, update, rhs) =>
      var (rv, h1) := Eval(w, rhs, h);
      var v := match update
        case None => Norm(ty, rv)
        case Some(op) =>
          Norm(ty, Norm(Common(ty, TypeOf(rhs)), w.prim(op, Norm(ty, w.read(h1, x)), rv)));
      (v, h1 + [Stored(x, v)])
  }

  function EvalAll(w: World, es: seq<Exp>, h: Trace): (seq<int>, Trace)
    decreases es, 0
  {
    if es == [] then ([], h)
    else
      var n := |es| - 1;
      var (vs, h1) := EvalAll(w, es[..n], h);
      var (v, h2) := Eval(w, es[n], h1);
      (vs + [v], h2)
  }

  /** A missing condition is true. */
  function EvalCond(w: World, c: Option<Exp>, h: Trace): (bool, Trace) {
    match c
    case None => (true, h)
    case Some(e) => var (v, h1) := Eval(w, e, h); (v != 0, h1)
  }

  // ---------------------------------------------------------------- scopes

  /** The locals of one scope, in the order they came to be. */
  type Scope = seq<Local>

  predicate Declares(scope: Scope, x: Option<Symbol>) {
    x.Some? && exists l | l in scope :: l.x == x.value
  }

  /** The local of the scope that a name stands for. */
  function Named(scope: Scope, x: Option<Symbol>): (l: Option<Local>)
    ensures l.Some? <==> Declares(scope, x)
    ensures l.Some? ==> l.value in scope && Some(l.value.x) == x
  {
    if scope == [] then None
    else if Some(scope[|scope| - 1].x) == x then Some(scope[|scope| - 1])
    else
      assert scope == scope[..|scope| - 1] + [scope[|scope| - 1]];
      Named(scope[..|scope| - 1], x)
  }

  /** Nothing in the scope has a destructor. */
  predicate Quiet(scope: Scope) {
    forall i | 0 <= i < |scope| :: !scope[i].dtor
  }

  /** Destroys a scope's locals, last first; the storage of `moved` is left alone. */
  function Unwind(scope: Scope, moved: Option<Symbol>): Trace {
    if scope == [] then []
    else Unwind(scope[1..], moved) + (if scope[0].dtor && Some(scope[0].x) != moved then [Destroyed(scope[0])] else [])
  }

  /** Destroys several scopes, innermost (last) first.  A moved name is the innermost local so named. */
  function UnwindAll(scopes: seq<Scope>, moved: Option<Symbol>): Trace {
    if scopes == [] then []
    else
      var n := |scopes| - 1;
      Unwind(scopes[n], moved) + UnwindAll(scopes[..n], if Declares(scopes[n], moved) then None else moved)
  }

  // ---------------------------------------------------------------- statements

  datatype Outcome =
    | Normal
    | Jumped(kind: Jump, outward: nat)
    | Returned(v: Option<int>, moved: Option<Symbol>, spared: Option<Local>)
    | Strayed

  /**
   A return that moves an object out names it by `moved` until its scope is closed; from then on
   `spared` is the local that is not destroyed.  `live` is the current scope afterwards; `OutOfFuel` is
   a run cut off after `fuel` rounds of some loop nest.
   */
  datatype Run =
    | Fin(h: Trace, live: Scope, out: Outcome)
    | OutOfFuel(h: Trace)

  /** Ends the scope that `r` ran in, returning to the scope `live`. */
  function Close(r: Run, live: Scope): Run {
    match r
    case OutOfFuel(_) => r
    case Fin(h, inner, Returned(v, m, spared)) =>
      var l := Named(inner, m);
      Fin(h + Unwind(inner, m), live,
          if l.None? then Returned(v, m, spared) else Returned(v, None, if l.value.dtor then l else spared))
    case Fin(h, inner, out) => Fin(h + Unwind(inner, None), live, out)
  }

  /** A jump as seen outside one more construct that supports its kind. */
  function Outward(out: Outcome): Outcome {
    if out.Jumped? && out.outward > 0 then out.(outward := out.outward - 1) else out
  }

  /** What a loop does after its body: go on, run the body again at once, stop, or pass a jump outwards. */
  datatype Next = Again | Retry | Stop | Pass(out: Outcome)

  function AfterBody(out: Outcome, hasRedo: bool): Next {
    match out
    case Normal => Again
    case Jumped(Continue, 1) => Again
    case Jumped(Break, 1) => Stop
    case Jumped(Redo, 1) => if hasRedo then Retry else Pass(out)
    case Jumped(Redo, _) => Pass(if hasRedo then Outward(out) else out)
    case Jumped(_, _) => Pass(Outward(out))
    case Returned(_, _, _) => Pass(out)
    case Strayed => Pass(out)
  }

  function EvalReturn(w: World, v: RetVal, result: Returns, h: Trace): (Outcome, Trace) {
    match v
    case NoValue => (Returned(None, None, None), h)
    case Scalar(e) =>
      var (n, h1) := Eval(w, e, h);
      (Returned(Some(if result.Number? then Norm(result.ty, n) else n), None, None), h1)
    case Object(x, _, _) => (Returned(Some(w.read(h, x)), Some(x), None), h)
  }

  function ExecPlain(w: World, p: Plain, h: Trace, live: Scope): (Trace, Scope)
    decreases p, 1
  {
    match p
    case Do(e) => (Eval(w, e, h).1, live)
    case CoalesceTo(x, ty, rhs) =>
      if Norm(ty, w.read(h, x)) != 0 then (h, live) else (Eval(w, Assign(x, ty, None, rhs), h).1, live)
    case Declare(x, decl, dtor, init) =>
      var (v, h1) := Eval(w, init, h);
      (h1 + [Constructed(Local(x, decl, dtor), v)], live + [Local(x, decl, dtor)])
    case Group(ps) => ExecPlains(w, ps, h, live)
  }

  function ExecPlains(w: World, ps: seq<Plain>, h: Trace, live: Scope): (Trace, Scope)
    decreases ps, 0
  {
    if ps == [] then (h, live)
    else
      var n := |ps| - 1;
      var (h1, live1) := ExecPlains(w, ps[..n], h, live);
      ExecPlain(w, ps[n], h1, live1)
  }

  function Exec(w: World, s: Stmt, r: Rules, h: Trace, live: Scope, fuel: nat): Run
    decreases fuel, s, 2
  {
    match s
    case Basic(p) => var (h1, live1) := ExecPlain(w, p, h, live); Fin(h1, live1, Normal)
    case Return(v) =>
      var (out, h1) := EvalReturn(w, v, r.result, h);
      Fin(h1, live, out)
    case Branch(k, level) =>
      (match Resolve(DepthOf(r.depth, k), level)
       case None => Fin(h, live, Normal)
       case Some(n) => Fin(h, live, Jumped(k, n)))
    case Loop(_) => ExecLoop(w, s, r, h, live, fuel)
    case While(_, _, doWhile, _) => ExecWhile(w, s, r, h, live, fuel, doWhile)
    case Switch(on, cases) =>
      var (v, h1) := Eval(w, on, h);
      var run := ExecCases(w, cases, Selected(cases, v), r.(depth := InSwitch(r.depth)), h1, live, fuel);
      AfterSwitch(run)
    case For(pre, _, _, _) =>
      var (h1, header) := ExecPlains(w, pre, h, []);
      ExecFor(w, s, r, h1, header, live, fuel, false)
    case If(c, thn, els) =>
      var (v, h1) := Eval(w, c, h);
      if v != 0 then Close(ExecList(w, thn, r, h1, [], fuel), live)
      else if els.Else? then Close(ExecList(w, els.stmts, r, h1, [], fuel), live)
      else Fin(h1, live, Normal)
  }

  function ExecList(w: World, ss: seq<Stmt>, r: Rules, h: Trace, live: Scope, fuel: nat): Run
    decreases fuel, ss, 0
  {
    if ss == [] then Fin(h, live, Normal)
    else
      var n := |ss| - 1;
      var first := ExecList(w, ss[..n], r, h, live, fuel);
      if first.Fin? && first.out.Normal? then Exec(w, ss[n], r, first.h, first.live, fuel) else first
  }

  function ExecLoop(w: World, s: Stmt, r: Rules, h: Trace, live: Scope, fuel: nat): Run
    requires s.Loop?
    decreases fuel, s, 0
  {
    if fuel == 0 then OutOfFuel(h)
    else
      var run := Close(ExecList(w, s.body, r.(depth := InLoop(r.depth)), h, [], fuel), live);
      if run.OutOfFuel? then run
      else
        match AfterBody(run.out, false)
        case Again => ExecLoop(w, s, r, run.h, live, fuel - 1)
        case Retry => run
        case Stop => Fin(run.h, live, Normal)
        case Pass(out) => Fin(run.h, live, out)
  }

  function ExecWhile(w: World, s: Stmt, r: Rules, h: Trace, live: Scope, fuel: nat, atBody: bool): Run
    requires s.While?
    decreases fuel, s, 0
  {
    if fuel == 0 then OutOfFuel(h)
    else
      var (c, h1) := if atBody then (!s.until, h) else EvalCond(w, s.cond, h);
      if c == s.until then Fin(h1, live, Normal)
      else
        var run := Close(ExecList(w, s.body, r.(depth := InWhile(r.depth)), h1, [], fuel), live);
        if run.OutOfFuel? then run
        else
          match AfterBody(run.out, true)
          case Again => ExecWhile(w, s, r, run.h, live, fuel - 1, false)
          case Retry => ExecWhile(w, s, r, run.h, live, fuel - 1, true)
          case Stop => Fin(run.h, live, Normal)
          case Pass(out) => Fin(run.h, live, out)
  }

  /** The locals that a plain statement declares in the scope it runs in. */
  function OwnPlain(p: Plain): Scope
    decreases p, 1
  {
    match p
    case Declare(x, decl, dtor, _) => [Local(x, decl, dtor)]
    case Group(ps) => OwnPlains(ps)
    case _ => []
  }

  function OwnPlains(ps: seq<Plain>): Scope
    decreases ps, 0
  {
    if ps == [] then [] else OwnPlains(ps[..|ps| - 1]) + OwnPlain(ps[|ps| - 1])
  }

  /** The locals that a list declares in the scope it runs in, if all of it runs. */
  function OwnLocals(ss: seq<Stmt>): Scope {
    if ss == [] then []
    else OwnLocals(ss[..|ss| - 1]) + (if ss[|ss| - 1].Basic? then OwnPlain(ss[|ss| - 1].plain) else [])
  }

  /** A round of a `for` leaves the loop, or goes on at the condition or at the body. */
  datatype Round = Leaves(run: Run) | Goes(h: Trace, atBody: bool)

  /** The guard of a round: whether what is emitted for it does what it means. */
  predicate KeepsScope(run: Run, header: Scope, body: seq<Stmt>) {
    if run.OutOfFuel? then true
    else
      match AfterBody(run.out, true)
      case Again => if run.out.Normal? then Quiet(header) else Quiet(header + OwnLocals(body))
      case Retry => Quiet(header)
      case _ => true
  }

  /** A condition that is false ends the loop; the emitted code leaves the header's locals alone. */
  function LeaveFor(h: Trace, header: Scope, live: Scope, mode: Mode): Run {
    match mode
    case AsMeant => Fin(h + Unwind(header, None), live, Normal)
    case AsEmitted => Fin(h, live, Normal)
    case AsChecked => Fin(h, live, if Quiet(header) then Normal else Strayed)
  }

  /**
   What follows the body.  Each round destroys what the body declared, after the post expressions,
   and the header's own locals last until the loop is left.  The emitted code destroys header and
   body with every round, all that they declare, and a jump to the loop does so once more.
   */
  function AfterRound(w: World, s: Stmt, run: Run, header: Scope, live: Scope, mode: Mode): Round
    requires s.For?
  {
    if run.OutOfFuel? then Leaves(run)
    else if mode.AsChecked? && !KeepsScope(run, header, s.body) then Leaves(Fin(run.h, live, Strayed))
    else
      match AfterBody(run.out, true)
      case Again =>
        if mode.AsEmitted? then
          var h1 := if run.out.Normal? then run.h else run.h + Unwind(run.live, None);
          Goes(EvalAll(w, s.post, h1).1 + Unwind(header + OwnLocals(s.body), None), false)
        else
          Goes(EvalAll(w, s.post, run.h).1 + Unwind(Beyond(run.live, header), None), false)
      case Retry => Goes(run.h + Unwind(if mode.AsEmitted? then run.live else Beyond(run.live, header), None), true)
      case Stop => Leaves(Fin(run.h + Unwind(run.live, None), live, Normal))
      case Pass(_) =>
        var closed := Close(run, live);
        Leaves(closed.(out := Outward(closed.out)))
  }

  /** One round: the condition, and the body in the header's scope. */
  function ForRound(w: World, s: Stmt, r: Rules, h: Trace, header: Scope, live: Scope, fuel: nat, atBody: bool): Round
    requires s.For?
    decreases fuel, s, 0
  {
    var (c, h1) := if atBody then (true, h) else EvalCond(w, s.cond, h);
    if !c then Leaves(LeaveFor(h1, header, live, r.mode))
    else AfterRound(w, s, ExecList(w, s.body, r.(depth := InWhile(r.depth)), h1, header, fuel), header, live, r.mode)
  }

  function ExecFor(w: World, s: Stmt, r: Rules, h: Trace, header: Scope, live: Scope, fuel: nat, atBody: bool): Run
    requires s.For?
    decreases fuel, s, 1
  {
    if fuel == 0 then OutOfFuel(h)
    else
      match ForRound(w, s, r, h, header, live, fuel, atBody)
      case Leaves(run) => run
      case Goes(h2, again) => ExecFor(w, s, r, h2, header, live, fuel - 1, again)
  }

  /** The locals a scope gained since it was `header`. */
  function Beyond(scope: Scope, header: Scope): Scope {
    if |header| <= |scope| then scope[|header|..] else []
  }

  /** The case a switch value selects: the one with that value, else the default, else none (the number of cases). */
  function Selected(cases: seq<Case>, v: int): (j: nat)
    ensures j <= |cases|
  {
    if Some(v) in CaseValues(cases) then IndexOf(cases, Some(v)) else IndexOf(cases, None)
  }

  function IndexOf(cases: seq<Case>, value: Option<int>): (j: nat)
    ensures j <= |cases|
    ensures j < |cases| ==> cases[j].value == value
    ensures forall i | 0 <= i < j :: cases[i].value != value
  {
    if cases == [] || cases[0].value == value then 0 else 1 + IndexOf(cases[1..], value)
  }

  /** Runs the cases from number `j` on, falling through; each body is a scope of its own. */
  function ExecCases(w: World, cases: seq<Case>, j: nat, r: Rules, h: Trace, live: Scope, fuel: nat): Run
    requires j <= |cases|
    decreases fuel, cases, 0
  {
    if j == |cases| then Fin(h, live, Normal)
    else
      var n := |cases| - 1;
      var first := ExecCases(w, cases[..n], j, r, h, live, fuel);
      if first.Fin? && first.out.Normal? then
        Close(ExecList(w, cases[n].body, r, first.h, [], fuel), live)
      else first
  }

  function AfterSwitch(run: Run): Run {
    if run.OutOfFuel? then run
    else if run.out == Jumped(Break, 1) then run.(out := Normal)
    else if run.out.Jumped? && run.out.kind.Break? then run.(out := Outward(run.out))
    else run
  }
}
