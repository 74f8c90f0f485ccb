/** internal/baseline/typescript_semantic.go: evaluating static string expressions under an environment that
    may be cyclic, and that this finds exactly the values that have a finite derivation. */
module StaticEval {
  import opened Text
  import opened Tokens

  /** The expression each dotted name stands for. */
  type Environment = map<string, seq<Token>>

  // ---------- The evaluator ----------

  /** How many names may still be entered. */
  function Left(env: Environment, visiting: set<string>): (n: nat) {
    |env.Keys - visiting|
  }

  lemma EnteringShrinks(env: Environment, visiting: set<string>, name: string)
    requires name in env && name !in visiting
    ensures Left(env, visiting + {name}) < Left(env, visiting)
  {
    assert env.Keys - visiting == (env.Keys - (visiting + {name})) + {name};
  }

  lemma SingleSize(e: seq<Token>)
    requires |e| > 0
    ensures PartsSize(e[0].parts) < Size(e)
  {
  }

  /** `evaluateStatic`: terminating because each name entered is one fewer to enter, and each part is smaller. */
  function Eval(env: Environment, visiting: set<string>, tokens: seq<Token>): (r: Option<string>)
    decreases Left(env, visiting), Size(tokens), 0
  {
    var e := Trim(tokens);
    if e == [] then None
    else if |e| == 1 && e[0].kind.Text? then Some(e[0].value)
    else if |e| == 1 && e[0].kind.Template? then
      SingleSize(e);
      EvalParts(env, visiting, e[0].parts)
    else
      var parts := Split(e, "+");
      SplitShrinks(e, "+");
      if |parts| > 1 then EvalAll(env, visiting, parts)
      else
        var (name, ok) := NameOf(e);
        if !ok || name in visiting || name !in env then None
        else
          EnteringShrinks(env, visiting, name);
          Eval(env, visiting + {name}, env[name])
  }

  function EvalAll(env: Environment, visiting: set<string>, parts: seq<seq<Token>>): (r: Option<string>)
    decreases Left(env, visiting), SumOfSizes(parts), 1 + |parts|
  {
    if parts == [] then Some("")
    else
      var first := Eval(env, visiting, parts[0]);
      var rest := EvalAll(env, visiting, parts[1..]);
      if first.None? || rest.None? then None else Some(first.value + rest.value)
  }

  /** `evaluateTemplate` over the parts of a template. */
  function EvalParts(env: Environment, visiting: set<string>, parts: seq<Part>): (r: Option<string>)
    decreases Left(env, visiting), PartsSize(parts), 1 + |parts|
  {
    if parts == [] then Some("")
    else
      var first := EvalPart(env, visiting, parts[0]);
      var rest := EvalParts(env, visiting, parts[1..]);
      if first.None? || rest.None? then None else Some(first.value + rest.value)
  }

  function EvalPart(env: Environment, visiting: set<string>, part: Part): (r: Option<string>)
    decreases Left(env, visiting), PartSize(part), 1
  {
    match part
    case Literal(text) => Some(text)
    case Hole(tokens) => Eval(env, visiting, tokens)
    case Broken => None
  }

  /** What was put together so far, and what the rest comes to. */
  function Prepended(text: string, rest: Option<string>): (r: Option<string>) {
    if rest.None? then None else Some(text + rest.value)
  }

  class Evaluator {
    const env: Environment
    var visiting: set<string>

    constructor (env: Environment)
      ensures this.env == env && visiting == {}
    {
      this.env := env;
      visiting := {};
    }

    /** `evaluateStatic`, leaving the names being visited as it found them. */
    method EvaluateStatic(tokens: seq<Token>) returns (r: Option<string>)
      modifies this
      ensures visiting == old(visiting) && r == Eval(env, old(visiting), tokens)
      decreases Left(env, visiting), Size(tokens), 0
    {
      hide Trim, Split, NameOf, PartsSize, EvalAll, EvalParts, Size, SumOfSizes;
      var e := TrimTokens(tokens);
      if e == [] { return None; }
      if |e| == 1 && e[0].kind.Text? { return Some(e[0].value); }
      SingleSize(e);
      if |e| == 1 && e[0].kind.Template? {
        r := EvaluateTemplate(e[0].parts);
        return;
      }
      var parts := SplitTopLevel(e, "+");
      SplitShrinks(e, "+");
      if |parts| > 1 {
        r := EvaluateSum(parts);
        return;
      }
      var name, ok := DottedName(e);
      if !ok || name in visiting || name !in env { return None; }
      EnteringShrinks(env, visiting, name);
      ghost var before := visiting;
      visiting := visiting + {name};
      r := EvaluateStatic(env[name]);
      visiting := visiting - {name};
      assert visiting == before;
    }

    method EvaluateSum(parts: seq<seq<Token>>) returns (r: Option<string>)
      modifies this
      ensures visiting == old(visiting) && r == EvalAll(env, old(visiting), parts)
      decreases Left(env, visiting), SumOfSizes(parts), 1 + |parts|
    {
      hide Trim, Split, NameOf, PartsSize, Eval, Size;
      ghost var whole := EvalAll(env, visiting, parts);
      var text := "";
      assert parts[0..] == parts;
      assert whole.Some? ==> "" + whole.value == whole.value;
      for i := 0 to |parts|
        invariant visiting == old(visiting)
        invariant Prepended(text, EvalAll(env, visiting, parts[i..])) == whole
      {
        PartSmaller(parts, i);
        assert parts[i..][0] == parts[i] && parts[i..][1..] == parts[i + 1..];
        var value := EvaluateStatic(parts[i]);
        if value.None? { return None; }
        ghost var rest := EvalAll(env, visiting, parts[i + 1..]);
        assert rest.Some? ==> text + (value.value + rest.value) == text + value.value + rest.value;
        text := text + value.value;
      }
      assert text + "" == text;
      r := Some(text);
    }

    method EvaluateTemplate(parts: seq<Part>) returns (r: Option<string>)
      modifies this
      ensures visiting == old(visiting) && r == EvalParts(env, old(visiting), parts)
      decreases Left(env, visiting), PartsSize(parts), 1 + |parts|
    {
      hide Trim, Split, NameOf, PartsSize, Eval, Size;
      ghost var whole := EvalParts(env, visiting, parts);
      var text := "";
      assert parts[0..] == parts;
      assert whole.Some? ==> "" + whole.value == whole.value;
      for i := 0 to |parts|
        invariant visiting == old(visiting)
        invariant Prepended(text, EvalParts(env, visiting, parts[i..])) == whole
      {
        assert parts[i..][0] == parts[i] && parts[i..][1..] == parts[i + 1..];
        var value: Option<string>;
        match parts[i] {
          case Literal(literal) => value := Some(literal);
          case Broken => value := None;
          case Hole(tokens) =>
            HoleSmaller(parts, i);
            value := EvaluateStatic(tokens);
        }
        if value.None? { return None; }
        ghost var rest := EvalParts(env, visiting, parts[i + 1..]);
        assert rest.Some? ==> text + (value.value + rest.value) == text + value.value + rest.value;
        text := text + value.value;
      }
      assert text + "" == text;
      r := Some(text);
    }
  }

  // ---------- Big-step semantics ----------

  /** A finite derivation: of a string, of a template or sum from its parts, or of a name from its expression. */
  datatype Derivation =
    | AsText
    | AsTemplate(parts: seq<Derivation>)
    | AsSum(parts: seq<Derivation>)
    | AsName(name: string, expression: Derivation)

  predicate Atom(e: seq<Token>) {
    |e| == 1 && (e[0].kind.Text? || e[0].kind.Template?)
  }

  /** The value that a derivation derives for an expression, if it is one for it. No guard against cycles. */
  function Derived(env: Environment, d: Derivation, tokens: seq<Token>): (r: Option<string>)
    decreases d, 0
  {
    var e := Trim(tokens);
    match d
    case AsText => if |e| == 1 && e[0].kind.Text? then Some(e[0].value) else None
    case AsTemplate(parts) => if |e| == 1 && e[0].kind.Template? then DerivedParts(env, parts, e[0].parts) else None
    case AsSum(parts) =>
      if e != [] && !Atom(e) && |Split(e, "+")| > 1 then DerivedAll(env, parts, Split(e, "+")) else None
    case AsName(name, expression) =>
      if e != [] && !Atom(e) && |Split(e, "+")| <= 1 && NameOf(e) == (name, true) && name in env
      then Derived(env, expression, env[name]) else None
  }

  function DerivedAll(env: Environment, ds: seq<Derivation>, parts: seq<seq<Token>>): (r: Option<string>)
    decreases ds, 1
  {
    if |ds| != |parts| then None
    else if ds == [] then Some("")
    else
      var first, rest := Derived(env, ds[0], parts[0]), DerivedAll(env, ds[1..], parts[1..]);
      if first.None? || rest.None? then None else Some(first.value + rest.value)
  }

  /** A literal derives itself; a hole what its expression derives. */
  function DerivedParts(env: Environment, ds: seq<Derivation>, parts: seq<Part>): (r: Option<string>)
    decreases ds, 1
  {
    if |ds| != |parts| then None
    else if ds == [] then Some("")
    else
      var first :=
        match parts[0]
        case Literal(text) => Some(text)
        case Hole(tokens) => Derived(env, ds[0], tokens)
        case Broken => None;
      var rest := DerivedParts(env, ds[1..], parts[1..]);
      if first.None? || rest.None? then None else Some(first.value + rest.value)
  }

  // ---------- The evaluator finds derivations ----------

  lemma {:induction false} Sound(env: Environment, visiting: set<string>, tokens: seq<Token>) returns (d: Derivation)
    requires Eval(env, visiting, tokens).Some?
    ensures Derived(env, d, tokens) == Eval(env, visiting, tokens)
    decreases Left(env, visiting), Size(tokens), 0
  {
    hide Trim, Split, NameOf, Size, PartsSize, SumOfSizes;
    var e := Trim(tokens);
    SplitShrinks(e, "+");
    if e != [] { SingleSize(e); }
    if |e| == 1 && e[0].kind.Text? {
      d := AsText;
    } else if |e| == 1 && e[0].kind.Template? {
      var ds := SoundParts(env, visiting, e[0].parts);
      d := AsTemplate(ds);
    } else if |Split(e, "+")| > 1 {
      var ds := SoundAll(env, visiting, Split(e, "+"));
      d := AsSum(ds);
    } else {
      var name := NameOf(e).0;
      EnteringShrinks(env, visiting, name);
      var inner := Sound(env, visiting + {name}, env[name]);
      d := AsName(name, inner);
    }
  }

  lemma {:induction false} SoundAll(env: Environment, visiting: set<string>, parts: seq<seq<Token>>)
    returns (ds: seq<Derivation>)
    requires EvalAll(env, visiting, parts).Some?
    ensures DerivedAll(env, ds, parts) == EvalAll(env, visiting, parts)
    decreases Left(env, visiting), SumOfSizes(parts), 1 + |parts|
  {
    hide Eval, Derived, Size;
    ds := [];
    if parts != [] {
      var first := Sound(env, visiting, parts[0]);
      var rest := SoundAll(env, visiting, parts[1..]);
      ds := [first] + rest;
      assert ds[1..] == rest;
    }
  }

  lemma {:induction false} SoundParts(env: Environment, visiting: set<string>, parts: seq<Part>)
    returns (ds: seq<Derivation>)
    requires EvalParts(env, visiting, parts).Some?
    ensures DerivedParts(env, ds, parts) == EvalParts(env, visiting, parts)
    decreases Left(env, visiting), PartsSize(parts), 1 + |parts|
  {
    hide Eval, Derived, Size;
    ds := [];
    if parts != [] {
      var first := AsText;
      if parts[0].Hole? {
        HoleSmaller(parts, 0);
        first := Sound(env, visiting, parts[0].tokens);
      }
      var rest := SoundParts(env, visiting, parts[1..]);
      ds := [first] + rest;
      assert ds[1..] == rest;
    }
  }

  // ---------- Every derivation is found ----------

  function Weight(d: Derivation): (n: nat)
    ensures n > 0
  {
    match d
    case AsText => 1
    case AsTemplate(parts) => 1 + Weights(parts)
    case AsSum(parts) => 1 + Weights(parts)
    case AsName(_, expression) => 1 + Weight(expression)
  }

  function Weights(ds: seq<Derivation>): (n: nat) {
    if ds == [] then 0 else Weight(ds[0]) + Weights(ds[1..])
  }

  /** An expression has at most one value. */
  lemma {:induction false} Deterministic(env: Environment, d: Derivation, other: Derivation, tokens: seq<Token>)
    requires Derived(env, d, tokens).Some? && Derived(env, other, tokens).Some?
    ensures Derived(env, d, tokens) == Derived(env, other, tokens)
    decreases d, 0
  {
    hide Trim, Split, NameOf;
    var e := Trim(tokens);
    match d {
      case AsText =>
      case AsTemplate(parts) => DeterministicParts(env, parts, other.parts, e[0].parts);
      case AsSum(parts) => DeterministicAll(env, parts, other.parts, Split(e, "+"));
      case AsName(name, expression) => Deterministic(env, expression, other.expression, env[name]);
    }
  }

  lemma {:induction false} DeterministicAll(env: Environment, ds: seq<Derivation>, others: seq<Derivation>,
                                            parts: seq<seq<Token>>)
    requires DerivedAll(env, ds, parts).Some? && DerivedAll(env, others, parts).Some?
    ensures DerivedAll(env, ds, parts) == DerivedAll(env, others, parts)
    decreases ds, 1
  {
    hide Derived;
    if ds != [] {
      Deterministic(env, ds[0], others[0], parts[0]);
      DeterministicAll(env, ds[1..], others[1..], parts[1..]);
    }
  }

  lemma {:induction false} DeterministicParts(env: Environment, ds: seq<Derivation>, others: seq<Derivation>,
                                              parts: seq<Part>)
    requires DerivedParts(env, ds, parts).Some? && DerivedParts(env, others, parts).Some?
    ensures DerivedParts(env, ds, parts) == DerivedParts(env, others, parts)
    decreases ds, 1
  {
    hide Derived;
    if ds != [] {
      if parts[0].Hole? { Deterministic(env, ds[0], others[0], parts[0].tokens); }
      DeterministicParts(env, ds[1..], others[1..], parts[1..]);
    }
  }

  ghost predicate Lightest(env: Environment, m: Derivation, tokens: seq<Token>) {
    Derived(env, m, tokens).Some? && forall d | Derived(env, d, tokens).Some? :: Weight(m) <= Weight(d)
  }

  lemma {:induction false} LightestExists(env: Environment, d: Derivation, tokens: seq<Token>) returns (m: Derivation)
    requires Derived(env, d, tokens).Some?
    ensures Lightest(env, m, tokens) && Weight(m) <= Weight(d)
    decreases Weight(d)
  {
    hide Derived, Weight;
    if lighter :| Derived(env, lighter, tokens).Some? && Weight(lighter) < Weight(d) {
      m := LightestExists(env, lighter, tokens);
    } else {
      m := d;
    }
  }

  /** The names being visited have no derivation lighter than this. */
  ghost predicate Beyond(env: Environment, visiting: set<string>, weight: nat) {
    forall name, d | name in visiting && name in env && Derived(env, d, env[name]).Some? :: Weight(d) >= weight
  }

  lemma BeyondEntered(env: Environment, visiting: set<string>, weight: nat, name: string, m: Derivation)
    requires Beyond(env, visiting, weight) && name in env && Lightest(env, m, env[name]) && Weight(m) <= weight
    ensures Beyond(env, visiting + {name}, Weight(m))
  {
    hide Derived, Weight;
  }

  /** The guard never bites a lightest derivation: what has a derivation is evaluated to its value. */
  lemma {:induction false} Complete(env: Environment, visiting: set<string>, d: Derivation, tokens: seq<Token>)
    requires Derived(env, d, tokens).Some? && Beyond(env, visiting, Weight(d))
    ensures Eval(env, visiting, tokens) == Derived(env, d, tokens)
    decreases Weight(d), 1
  {
    hide Trim, Split, NameOf, Size, PartsSize, SumOfSizes, Beyond;
    var e := Trim(tokens);
    match d {
      case AsText =>
      case AsTemplate(parts) =>
        BeyondLess(env, visiting, Weight(d), Weights(parts));
        CompleteParts(env, visiting, parts, e[0].parts);
      case AsSum(parts) =>
        BeyondLess(env, visiting, Weight(d), Weights(parts));
        CompleteAll(env, visiting, parts, Split(e, "+"));
      case AsName(_, _) => CompleteName(env, visiting, d, tokens);
    }
  }

  lemma {:induction false} CompleteName(env: Environment, visiting: set<string>, d: Derivation, tokens: seq<Token>)
    requires d.AsName? && Derived(env, d, tokens).Some? && Beyond(env, visiting, Weight(d))
    ensures Eval(env, visiting, tokens) == Derived(env, d, tokens)
    decreases Weight(d), 0
  {
    hide Trim, Split, NameOf, Size, PartsSize, SumOfSizes, EvalAll, EvalParts;
    var name, expression := d.name, d.expression;
    assert Weight(expression) < Weight(d);
    assert name !in visiting;
    var m := LightestExists(env, expression, env[name]);
    BeyondEntered(env, visiting, Weight(d), name, m);
    hide Weight, Beyond;
    Complete(env, visiting + {name}, m, env[name]);
    Deterministic(env, m, expression, env[name]);
  }

  lemma BeyondLess(env: Environment, visiting: set<string>, weight: nat, less: nat)
    requires Beyond(env, visiting, weight) && less <= weight
    ensures Beyond(env, visiting, less)
  {
    hide Derived, Weight;
  }

  lemma {:induction false} CompleteAll(env: Environment, visiting: set<string>, ds: seq<Derivation>,
                                       parts: seq<seq<Token>>)
    requires DerivedAll(env, ds, parts).Some? && Beyond(env, visiting, Weights(ds))
    ensures EvalAll(env, visiting, parts) == DerivedAll(env, ds, parts)
    decreases Weights(ds), 1 + |ds|
  {
    hide Derived, Weight, Eval, Size, SumOfSizes;
    if ds != [] {
      BeyondLess(env, visiting, Weights(ds), Weight(ds[0]));
      BeyondLess(env, visiting, Weights(ds), Weights(ds[1..]));
      hide Beyond;
      Complete(env, visiting, ds[0], parts[0]);
      CompleteAll(env, visiting, ds[1..], parts[1..]);
    }
  }

  lemma {:induction false} CompleteParts(env: Environment, visiting: set<string>, ds: seq<Derivation>, parts: seq<Part>)
    requires DerivedParts(env, ds, parts).Some? && Beyond(env, visiting, Weights(ds))
    ensures EvalParts(env, visiting, parts) == DerivedParts(env, ds, parts)
    decreases Weights(ds), 1 + |ds|
  {
    hide Derived, Weight, Eval, Size, PartsSize;
    if ds != [] {
      BeyondLess(env, visiting, Weights(ds), Weight(ds[0]));
      BeyondLess(env, visiting, Weights(ds), Weights(ds[1..]));
      hide Beyond;
      if parts[0].Hole? { Complete(env, visiting, ds[0], parts[0].tokens); }
      CompleteParts(env, visiting, ds[1..], parts[1..]);
    }
  }

  /** From no name visited, evaluation gives a value exactly when the expression has a finite derivation to it,
      whatever cycles the environment has. */
  lemma EvaluatesExactlyTheDerivable(env: Environment, tokens: seq<Token>, s: string)
    ensures Eval(env, {}, tokens) == Some(s) <==> exists d :: Derived(env, d, tokens) == Some(s)
  {
    hide Eval, Derived, Weight;
    if Eval(env, {}, tokens) == Some(s) {
      var d := Sound(env, {}, tokens);
    }
    if d :| Derived(env, d, tokens) == Some(s) {
      Complete(env, {}, d, tokens);
    }
  }
}
