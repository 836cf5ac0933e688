/** The table of global symbols: what a name can stand for, and which names are emitted. */
module Symbols {
  import opened Options

  /** A function is known by the name it is emitted under. */
  datatype Symbol = Variable(type_: nat) | Function(type_: nat, emitted: string)

  type SymbolTable = map<string, seq<Symbol>>

  function Load(table: SymbolTable, name: string): seq<Symbol> {
    if name in table then table[name] else []
  }

  function Stored(table: SymbolTable, name: string, symbol: Symbol): SymbolTable {
    table[name := Load(table, name) + [symbol]]
  }

  /** One variable, or functions of pairwise different types. */
  predicate OneVariableOrFunctions(syms: seq<Symbol>) {
    || (|syms| == 1 && syms[0].Variable?)
    || ((forall s <- syms :: s.Function?) && forall i, j | 0 <= i < j < |syms| :: syms[i].type_ != syms[j].type_)
  }

  predicate NoneTwice(names: seq<string>) {
    forall i, j | 0 <= i < j < |names| :: names[i] != names[j]
  }

  /** The functions are among those that are emitted, with the types given. */
  predicate AllEmitted(syms: seq<Symbol>, types: map<string, nat>) {
    forall s <- syms :: s.Function? ==> s.emitted in types && types[s.emitted] == s.type_
  }

  /** The names that are emitted are known, are emitted once, and stand for one function or variable. */
  ghost predicate Consistent(table: SymbolTable, emitted: seq<string>, types: map<string, nat>) {
    && (forall name <- table :: table[name] != [] && OneVariableOrFunctions(table[name]))
    && NoneTwice(emitted)
    && (forall name <- emitted :: name in table)
    && (forall name <- types :: name in emitted)
    && (forall name <- table :: AllEmitted(table[name], types))
  }

  /** Whatever names lead to it, what is emitted under one name is one function. */
  lemma EmittedNameIsFunction(table: SymbolTable, emitted: seq<string>, types: map<string, nat>, a: string, b: string,
                              f: Symbol, g: Symbol)
    requires Consistent(table, emitted, types) && f in Load(table, a) && g in Load(table, b)
    requires f.Function? && g.Function?
    ensures f.emitted == g.emitted ==> f == g
    ensures a == b && f.type_ == g.type_ ==> f == g
    ensures f.emitted in emitted && f.emitted in table
  {
    assert AllEmitted(table[a], types) && AllEmitted(table[b], types);
    assert OneVariableOrFunctions(table[a]);
  }

  lemma StoredIsConsistent(table: SymbolTable, emitted: seq<string>, types: map<string, nat>, name: string, f: Symbol)
    requires Consistent(table, emitted, types) && f.Function? && f.emitted in types && types[f.emitted] == f.type_
    requires forall s <- Load(table, name) :: s.Function? && s.type_ != f.type_
    ensures Consistent(Stored(table, name, f), emitted, types)
  {
    var after := Stored(table, name, f);
    forall n: string | n in after
      ensures after[n] != [] && OneVariableOrFunctions(after[n]) && AllEmitted(after[n], types)
    {
      if n in table { assert OneVariableOrFunctions(table[n]) && AllEmitted(table[n], types); }
    }
  }

  /** What stands under a name is either all functions or none. */
  lemma KindOfAll(table: SymbolTable, emitted: seq<string>, types: map<string, nat>, name: string)
    requires Consistent(table, emitted, types)
    ensures forall s <- Load(table, name) :: s.Function? <==> Load(table, name)[0].Function?
    ensures name in table ==> table[name] != []
  {
    if name in table { assert OneVariableOrFunctions(table[name]); }
  }

  lemma NewNameIsConsistent(table: SymbolTable, emitted: seq<string>, types: map<string, nat>, name: string,
                            symbol: Symbol)
    requires Consistent(table, emitted, types) && name !in table && (symbol.Function? ==> symbol.emitted == name)
    ensures var more := if symbol.Function? then types[name := symbol.type_] else types;
      Consistent(Stored(table, name, symbol), emitted + [name], more)
  {
    var after, more := Stored(table, name, symbol), if symbol.Function? then types[name := symbol.type_] else types;
    forall n: string | n in after
      ensures after[n] != [] && OneVariableOrFunctions(after[n]) && AllEmitted(after[n], more)
    {
      if n in table { assert OneVariableOrFunctions(table[n]) && AllEmitted(table[n], types); }
    }
  }

  /** The `mangle` attribute: its value, if it has one, and whether it gives the whole name. */
  datatype Mangle = Mangle(value: Option<string>, full: bool)

  /** The class that is being declared. */
  datatype ClassName = ClassName(raw: string, templated: bool)

  /** The name that a function is known by. */
  function FunctionName(name: string, class_: Option<ClassName>, allowMangle: bool): string {
    if allowMangle && class_.Some? then class_.value.raw + "_" + name else name
  }

  /** The name that a function is emitted under. */
  function RawName(name: string, class_: Option<ClassName>, mangle: Option<Mangle>, allowMangle: bool): string {
    var value := if allowMangle && mangle.Some? && mangle.value.value.Some? then mangle.value.value.value else "";
    if value == "" then FunctionName(name, class_, allowMangle)
    else if class_.Some? && !mangle.value.full then class_.value.raw + "_" + value
    else value
  }

  /** The `mangle` attribute gives a name. */
  predicate GivesName(mangle: Option<Mangle>) {
    mangle.Some? && mangle.value.value.Some? && mangle.value.value.value != ""
  }

  /**
   A function is emitted under the name it is known by, and so cannot be known by it together with
   functions of other types, exactly if the attribute gives no name or gives that name.
   */
  lemma EmittedAsKnownExactly(name: string, class_: Option<ClassName>, mangle: Option<Mangle>)
    ensures
      var known := FunctionName(name, class_, true);
      var given := if class_.Some? && mangle.Some? && mangle.value.full then known else name;
      RawName(name, class_, mangle, true) == known <==> (GivesName(mangle) ==> mangle.value.value.value == given)
  {
    if class_.Some? && GivesName(mangle) && !mangle.value.full {
      var prefix, value := class_.value.raw + "_", mangle.value.value.value;
      assert (prefix + value)[|prefix|..] == value && (prefix + name)[|prefix|..] == name;
    }
  }

  /** The last part of the emitted name, and the class that stands before it, if any. */
  function OwnName(name: string, mangle: Option<Mangle>): string {
    if GivesName(mangle) then mangle.value.value.value else name
  }

  function Qualifier(class_: Option<ClassName>, mangle: Option<Mangle>): Option<string> {
    if class_.None? || (GivesName(mangle) && mangle.value.full) then None else Some(class_.value.raw)
  }

  /** The longer class name begins with the shorter one, and the function of the shorter one begins with the rest. */
  ghost predicate Overlaps(short: string, own: string, long: string, other: string) {
    exists middle: string :: long == short + "_" + middle && own == middle + "_" + other
  }

  ghost predicate Meet(p: Option<string>, own: string, q: Option<string>, other: string) {
    match (p, q)
    case (None, None) => own == other
    case (Some(c), None) => other == c + "_" + own
    case (None, Some(d)) => own == d + "_" + other
    case (Some(c), Some(d)) => (c == d && own == other) || Overlaps(c, own, d, other) || Overlaps(d, other, c, own)
  }

  lemma JoinedAlike(c: string, own: string, d: string, other: string)
    requires c + "_" + own == d + "_" + other && |c| <= |d|
    ensures (c == d && own == other) || Overlaps(c, own, d, other)
  {
    var all := c + "_" + own;
    assert all[..|c|] == c && all[|c|] == '_' && all[|c| + 1..] == own;
    assert all == d + "_" + other && all[..|d|] == d && all[|d|] == '_' && all[|d| + 1..] == other;
    if |c| < |d| {
      var middle := d[|c| + 1..];
      assert d == all[..|c|] + [all[|c|]] + middle;
      assert own == middle + [all[|d|]] + other;
    }
  }

  lemma OverlapsJoin(c: string, own: string, d: string, other: string)
    requires Overlaps(c, own, d, other)
    ensures c + "_" + own == d + "_" + other
  {
    var middle :| d == c + "_" + middle && own == middle + "_" + other;
    assert c + "_" + (middle + "_" + other) == (c + "_" + middle) + "_" + other;
  }

  /**
   Two declarations share an emitted name exactly if they agree in class and own name, or the one's class
   begins with the other's and takes up what the other's own name begins with.  Without `mangle` the
   same goes for the names that functions are known by.
   */
  lemma NamesMeetExactly(name: string, a: Option<ClassName>, m: Option<Mangle>, other: string, b: Option<ClassName>,
                         n: Option<Mangle>)
    ensures RawName(name, a, m, true) == RawName(other, b, n, true)
      <==> Meet(Qualifier(a, m), OwnName(name, m), Qualifier(b, n), OwnName(other, n))
    ensures RawName(name, a, None, true) == FunctionName(name, a, true)
  {
    var (p, q) := (Qualifier(a, m), Qualifier(b, n));
    var (own, own1) := (OwnName(name, m), OwnName(other, n));
    assert RawName(name, a, m, true) == if p.Some? then p.value + "_" + own else own;
    assert RawName(other, b, n, true) == if q.Some? then q.value + "_" + own1 else own1;
    if p.Some? && q.Some? {
      if p.value + "_" + own == q.value + "_" + own1 {
        if |p.value| <= |q.value| { JoinedAlike(p.value, own, q.value, own1); }
            else { JoinedAlike(q.value, own1, p.value, own); }
      }
      if Overlaps(p.value, own, q.value, own1) { OverlapsJoin(p.value, own, q.value, own1); }
      if Overlaps(q.value, own1, p.value, own) { OverlapsJoin(q.value, own1, p.value, own); }
    }
  }

  /** Classes whose names hold no underscore keep their functions apart. */
  lemma PlainClassesApart(name: string, a: ClassName, other: string, b: ClassName)
    requires '_' !in a.raw && '_' !in b.raw
    ensures FunctionName(name, Some(a), true) == FunctionName(other, Some(b), true) <==> a.raw == b.raw && name == other
  {
    NamesMeetExactly(name, Some(a), None, other, Some(b), None);
    NamesMeetExactly(other, Some(b), None, name, Some(a), None);
  }

  class Builder {
    var table: SymbolTable
    var emitted: seq<string>
    var errors: nat
    ghost var types: map<string, nat>

    ghost predicate Valid()
      reads this
    {
      Consistent(table, emitted, types)
    }

    constructor ()
      ensures Valid() && table == map[] && emitted == [] && errors == 0
    {
      table, emitted, errors, types := map[], [], 0, map[];
    }

    method AddError()
      modifies this`errors
      ensures errors == old(errors) + 1
    {
      errors := errors + 1;
    }

    method MangledName(name: string, class_: Option<ClassName>, mangle: Option<Mangle>, allowMangle: bool)
      returns (funcName: string, rawName: string)
      modifies this`errors
      ensures funcName == FunctionName(name, class_, allowMangle)
          && rawName == RawName(name, class_, mangle, allowMangle)
      ensures funcName == if allowMangle && class_.Some? then class_.value.raw + "_" + name else name
      ensures
        var given := allowMangle && mangle.Some? && mangle.value.value.Some? && mangle.value.value.value != "";
        rawName ==
          if !given then funcName
          else if class_.Some? && !mangle.value.full then class_.value.raw + "_" + mangle.value.value.value
          else mangle.value.value.value
      ensures errors >= old(errors)
      ensures errors > old(errors) <==>
        && allowMangle && mangle.Some?
        && (mangle.value.value.Some? ==>
              mangle.value.value.value != "" && mangle.value.full && class_.Some? && class_.value.templated)
    {
      funcName, rawName := name, "";
      if allowMangle {
        var fullMangle := false;
        if mangle.Some? {
          if mangle.value.value.Some? {
            rawName := mangle.value.value.value;
            fullMangle := mangle.value.full;
          } else {
            AddError();
          }
        }
        if class_.Some? {
          var clName := class_.value.raw;
          if rawName != "" {
            if !fullMangle {
              rawName := clName + "_" + rawName;
            } else if class_.value.templated {
              AddError();
            }
          }
          funcName := clName + "_" + funcName;
        }
      }
      if rawName == "" { rawName := funcName; }
    }

    /**
     The function of the given name and type: the one declared before, or a new one, or none after an
     error.  A function gets a further type under its name only with an emitted name of its own.
     */
    method GetFuncPrototype(name: string, class_: Option<ClassName>, mangle: Option<Mangle>, allowMangle: bool,
                            type_: nat)
      returns (func: Option<Symbol>)
      requires Valid()
      modifies this
      ensures Valid() && errors >= old(errors)
      ensures var funcName, rawName := FunctionName(name, class_, allowMangle), RawName(name, class_, mangle,
          allowMangle);
        var syms := Load(old(table), funcName);
        var matching := exists s :: s in syms && s.Function? && s.type_ == type_;
        var allowed := (syms == [] || (rawName != funcName && syms[0].Function?))
            && (rawName != funcName ==> rawName !in old(table));
        && (func.Some? <==> matching || allowed)
        && (func.None? ==> errors > old(errors))
        && (func.Some? ==> func.value.Function? && func.value.type_ == type_ && func.value in Load(table, funcName))
        && (matching || !allowed ==> table == old(table) && emitted == old(emitted))
        && (!matching && allowed ==>
            func == Some(Function(type_, rawName)) && emitted == old(emitted) + [rawName]
            && func.value in Load(table, rawName))
    {
      hide Consistent, FunctionName, RawName;
      var funcName, rawName := MangledName(name, class_, mangle, allowMangle);
      var isOverride := rawName != funcName;
      var syms := Load(table, funcName);
      if syms != [] {
        var found, isFunction := FindFunction(syms, type_);
        if found.Some? { return found; }
        KindOfAll(table, emitted, types, funcName);
        if !isFunction || !isOverride {
          AddError();
          return None;
        }
      }
      KindOfAll(table, emitted, types, rawName);
      if isOverride && Load(table, rawName) != [] {
        AddError();
        return None;
      }
      var function_ := Function(type_, rawName);
      EmitName(rawName, function_);
      if isOverride {
        StoredIsConsistent(table, emitted, types, funcName, function_);
        table := Stored(table, funcName, function_);
      }
      func := Some(function_);
    }

    /** The function of the type among the symbols, and whether there is a function at all. */
    method FindFunction(syms: seq<Symbol>, type_: nat) returns (found: Option<Symbol>, isFunction: bool)
      ensures found.Some? ==> found.value in syms && found.value.Function? && found.value.type_ == type_
      ensures found.None? ==> forall s <- syms :: s.Function? ==> s.type_ != type_
      ensures found.None? ==> (isFunction <==> exists s <- syms :: s.Function?)
    {
      isFunction := false;
      for i := 0 to |syms|
        invariant isFunction <==> exists s <- syms[..i] :: s.Function?
        invariant forall s <- syms[..i] :: s.Function? ==> s.type_ != type_
      {
        if !syms[i].Function? { continue; }
        if syms[i].type_ == type_ { return Some(syms[i]), isFunction; }
        isFunction := true;
      }
      assert syms[..|syms|] == syms;
      found := None;
    }

    /** Emits a function under a name that nothing has, and stores it. */
    method EmitName(rawName: string, f: Symbol)
      requires Valid() && rawName !in table && f.Function? && f.emitted == rawName
      modifies this`table, this`emitted, this`types
      ensures Valid() && table == Stored(old(table), rawName, f) && emitted == old(emitted) + [rawName]
      ensures types == old(types)[rawName := f.type_]
    {
      NewNameIsConsistent(table, emitted, types, rawName, f);
      emitted := emitted + [rawName];
      types := types[rawName := f.type_];
      table := Stored(table, rawName, f);
    }

    /** A global variable, if the name is free. */
    method CreateGlobalVar(name: string, type_: nat) returns (ok: bool)
      requires Valid()
      modifies this
      ensures Valid() && (ok <==> name !in old(table))
      ensures ok ==>
          table == old(table)[name := [Variable(type_)]] && emitted == old(emitted) + [name]
          && errors == old(errors)
      ensures !ok ==> table == old(table) && emitted == old(emitted) && errors > old(errors)
    {
      if Load(table, name) != [] {
        AddError();
        return false;
      }
      NewNameIsConsistent(table, emitted, types, name, Variable(type_));
      emitted := emitted + [name];
      table := Stored(table, name, Variable(type_));
      assert [] + [Variable(type_)] == [Variable(type_)];
      ok := true;
    }

    /** A function of the run time library: whatever has the name already, or a new function. */
    method GetBuiltinFunc(name: string, type_: nat) returns (func: Option<Symbol>)
      requires Valid()
      modifies this
      ensures Valid() && (func.Some? ==> func.value in Load(table, name))
      ensures name in old(table) ==>
          func == Some(Load(old(table), name)[0]) && table == old(table)
          && emitted == old(emitted)
      ensures name !in old(table) ==> func == Some(Function(type_, name)) && emitted == old(emitted) + [name]
    {
      var syms := Load(table, name);
      if syms == [] {
        func := GetFuncPrototype(name, None, None, false, type_);
      } else {
        func := Some(syms[0]);
      }
    }
  }
}
