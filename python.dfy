/** The small part of Python's runtime that the adapter relies on: optional
    values, raised errors, classes used as annotations, function signatures
    (with the checks `inspect.Signature` performs when it is rebuilt), and
    the keyword call `func(**kwargs)`. */
module Py {

  datatype Option<+T> = None | Some(value: T)

  /** An exception a call can raise, reduced to what the model needs. */
  datatype Error =
    | HttpError(status: nat)     // fastapi.HTTPException(status)
    | TypeError(detail: string)  // a call whose arguments do not bind
    | ValueError(detail: string) // a signature that fails validation

  /** What a Python call does: return a value or raise. */
  datatype Outcome<+T> = Returned(value: T) | Raised(error: Error)

  /** A class used as a lookup key, identified by its qualified name. */
  type TypeKey = string

  /** What `issubclass(cls, Node)` does for a given class. */
  datatype SubclassCheck = IsSubclass | NotSubclass | RaisesTypeError

  /** A class object: its key, how it answers `issubclass(_, Node)`,
      and its `__type__` attribute, if it has one. */
  datatype PyClass = PyClass(key: TypeKey, nodeCheck: SubclassCheck, typeAttr: Option<TypeKey>)

  /** A parameter annotation: none at all (`inspect.Parameter.empty`), a
      class, a generic alias such as `Optional[X]`, or an unresolved string. */
  datatype Annotation =
    | Empty
    | ClassAnn(cls: PyClass)
    | GenericAlias(origin: string, args: seq<Annotation>)
    | ForwardRef(text: string)

  datatype ParamKind = PositionalOnly | PositionalOrKeyword | VarPositional | KeywordOnly | VarKeyword

  /** The order Python imposes on parameter kinds within a signature. */
  function Rank(k: ParamKind): nat
  {
    match k
    case PositionalOnly => 0
    case PositionalOrKeyword => 1
    case VarPositional => 2
    case KeywordOnly => 3
    case VarKeyword => 4
  }

  /** Kinds that `func(name=value)` can bind by name. */
  predicate ByKeyword(k: ParamKind)
  {
    k == PositionalOrKeyword || k == KeywordOnly
  }

  /** Kinds that must receive an argument unless they have a default. */
  predicate Named(k: ParamKind)
  {
    k == PositionalOnly || k == PositionalOrKeyword || k == KeywordOnly
  }

  datatype Param = Param(name: string, kind: ParamKind, annotation: Annotation, hasDefault: bool)

  /** A function object: its signature, its resolved type hints
      (`typing.get_type_hints`), and what it does with keyword arguments. */
  datatype Callable<!V> = Callable(params: seq<Param>, hints: map<string, Annotation>, body: map<string, V> -> Outcome<V>)

  function NamesOf(ps: seq<Param>): (r: seq<string>)
    ensures |r| == |ps| && forall i :: 0 <= i < |ps| ==> r[i] == ps[i].name
  {
    if ps == [] then [] else NamesOf(ps[..|ps| - 1]) + [ps[|ps| - 1].name]
  }

  predicate DistinctNames(ps: seq<Param>)
  {
    forall i, j :: 0 <= i < j < |ps| ==> ps[i].name != ps[j].name
  }

  predicate KindsOrdered(ps: seq<Param>)
  {
    forall i, j :: 0 <= i < j < |ps| ==> Rank(ps[i].kind) <= Rank(ps[j].kind)
  }

  /** No positional parameter without a default follows one with a default. */
  predicate DefaultsOrdered(ps: seq<Param>)
  {
    forall i, j ::
      (0 <= i < j < |ps| && Rank(ps[i].kind) <= 1 && ps[i].hasDefault && Rank(ps[j].kind) <= 1) ==> ps[j].hasDefault
  }

  /** The three rules `inspect.Signature(parameters=...)` enforces. */
  predicate ValidSignature(ps: seq<Param>)
  {
    KindsOrdered(ps) && DefaultsOrdered(ps) && DistinctNames(ps)
  }

  /** Validation as `inspect.Signature.__init__` performs it: a single pass
      that remembers the highest kind seen, whether a positional default was
      seen, and the names seen so far. */
  function CheckParams(ps: seq<Param>, topRank: nat, seenDefault: bool, seen: set<string>): (r: Outcome<seq<Param>>)
    decreases |ps|
  {
    if ps == [] then Returned([])
    else
      var p := ps[0];
      if Rank(p.kind) < topRank then Raised(ValueError("wrong parameter order"))
      else if Rank(p.kind) <= 1 && !p.hasDefault && seenDefault then Raised(ValueError("non-default argument follows default argument"))
      else if p.name in seen then Raised(ValueError("duplicate parameter name"))
      else
        match CheckParams(ps[1..], Rank(p.kind), seenDefault || (Rank(p.kind) <= 1 && p.hasDefault), seen + {p.name})
        case Returned(rest) => Returned([p] + rest)
        case Raised(e) => Raised(e)
  }

  function Validate(ps: seq<Param>): Outcome<seq<Param>>
  {
    CheckParams(ps, 0, false, {})
  }

  /** What `CheckParams` accepts, stated without the single pass. */
  predicate Acceptable(ps: seq<Param>, topRank: nat, seenDefault: bool, seen: set<string>)
  {
    && ValidSignature(ps)
    && (ps != [] ==> topRank <= Rank(ps[0].kind))
    && (seenDefault ==> forall j :: 0 <= j < |ps| && Rank(ps[j].kind) <= 1 ==> ps[j].hasDefault)
    && (forall j :: 0 <= j < |ps| ==> ps[j].name !in seen)
  }

  /** An acceptable list: its head passes the three checks and its tail is
      acceptable in the state the head leaves behind. */
  lemma AcceptableTail(ps: seq<Param>, topRank: nat, seenDefault: bool, seen: set<string>)
    requires ps != [] && Acceptable(ps, topRank, seenDefault, seen)
    ensures topRank <= Rank(ps[0].kind)
    ensures !(Rank(ps[0].kind) <= 1 && !ps[0].hasDefault && seenDefault)
    ensures ps[0].name !in seen
    ensures Acceptable(ps[1..], Rank(ps[0].kind), seenDefault || (Rank(ps[0].kind) <= 1 && ps[0].hasDefault), seen + {ps[0].name})
  {
    var p, q := ps[0], ps[1..];
    var nextDefault := seenDefault || (Rank(p.kind) <= 1 && p.hasDefault);
    assert KindsOrdered(q) by {
      forall i, j | 0 <= i < j < |q| ensures Rank(q[i].kind) <= Rank(q[j].kind) {
        assert q[i] == ps[i + 1] && q[j] == ps[j + 1];
      }
    }
    assert DefaultsOrdered(q) by {
      forall i, j | 0 <= i < j < |q| && Rank(q[i].kind) <= 1 && q[i].hasDefault && Rank(q[j].kind) <= 1
        ensures q[j].hasDefault
      {
        assert q[i] == ps[i + 1] && q[j] == ps[j + 1];
      }
    }
    assert DistinctNames(q) by {
      forall i, j | 0 <= i < j < |q| ensures q[i].name != q[j].name {
        assert q[i] == ps[i + 1] && q[j] == ps[j + 1];
      }
    }
    assert q != [] ==> Rank(p.kind) <= Rank(q[0].kind) by {
      if q != [] { assert q[0] == ps[1]; }
    }
    forall j | 0 <= j < |q| && Rank(q[j].kind) <= 1 && nextDefault ensures q[j].hasDefault {
      assert q[j] == ps[j + 1];
    }
    forall j | 0 <= j < |q| ensures q[j].name !in seen + {p.name} {
      assert q[j] == ps[j + 1];
    }
  }

  /** The converse step: a head that passes the three checks in front of a
      tail acceptable in the state it leaves behind is acceptable. */
  lemma AcceptableCons(ps: seq<Param>, topRank: nat, seenDefault: bool, seen: set<string>)
    requires ps != []
    requires topRank <= Rank(ps[0].kind)
    requires !(Rank(ps[0].kind) <= 1 && !ps[0].hasDefault && seenDefault)
    requires ps[0].name !in seen
    requires Acceptable(ps[1..], Rank(ps[0].kind), seenDefault || (Rank(ps[0].kind) <= 1 && ps[0].hasDefault), seen + {ps[0].name})
    ensures Acceptable(ps, topRank, seenDefault, seen)
  {
    var p, q := ps[0], ps[1..];
    assert KindsOrdered(ps) by {
      forall i, j | 0 <= i < j < |ps| ensures Rank(ps[i].kind) <= Rank(ps[j].kind) {
        assert q[j - 1] == ps[j];
        if i > 0 { assert q[i - 1] == ps[i]; }
        else if j > 1 { assert q[0] == ps[1]; }
      }
    }
    assert DefaultsOrdered(ps) by {
      forall i, j | 0 <= i < j < |ps| && Rank(ps[i].kind) <= 1 && ps[i].hasDefault && Rank(ps[j].kind) <= 1
        ensures ps[j].hasDefault
      {
        assert q[j - 1] == ps[j];
        if i > 0 { assert q[i - 1] == ps[i]; }
      }
    }
    assert DistinctNames(ps) by {
      forall i, j | 0 <= i < j < |ps| ensures ps[i].name != ps[j].name {
        assert q[j - 1] == ps[j];
        if i > 0 { assert q[i - 1] == ps[i]; }
      }
    }
    forall j | 0 <= j < |ps| && Rank(ps[j].kind) <= 1 && seenDefault ensures ps[j].hasDefault {
      if j > 0 { assert q[j - 1] == ps[j]; }
    }
    forall j | 0 <= j < |ps| ensures ps[j].name !in seen {
      if j > 0 { assert q[j - 1] == ps[j]; }
    }
  }

  /** The single-pass check accepts exactly the acceptable lists, and
      returns them unchanged. */
  lemma {:induction false} CheckParamsCorrect(ps: seq<Param>, topRank: nat, seenDefault: bool, seen: set<string>)
    ensures CheckParams(ps, topRank, seenDefault, seen).Returned? <==> Acceptable(ps, topRank, seenDefault, seen)
    ensures CheckParams(ps, topRank, seenDefault, seen).Returned? ==> CheckParams(ps, topRank, seenDefault, seen).value == ps
    decreases |ps|
  {
    if ps != [] {
      var p := ps[0];
      CheckParamsCorrect(ps[1..], Rank(p.kind), seenDefault || (Rank(p.kind) <= 1 && p.hasDefault), seen + {p.name});
      if Acceptable(ps, topRank, seenDefault, seen) {
        AcceptableTail(ps, topRank, seenDefault, seen);
      } else if CheckParams(ps, topRank, seenDefault, seen).Returned? {
        AcceptableCons(ps, topRank, seenDefault, seen);
      }
      assert ps == [p] + ps[1..];
    }
  }

  lemma ValidateCorrect(ps: seq<Param>)
    ensures Validate(ps).Returned? <==> ValidSignature(ps)
    ensures Validate(ps).Returned? ==> Validate(ps).value == ps
  {
    CheckParamsCorrect(ps, 0, false, {});
  }

  /** Whether `func(**args)` binds: every keyword names a parameter that
      accepts it by name (or the function takes `**kwargs`), and every
      parameter that needs an argument and has no default receives one
      (a positional-only one can never receive it by keyword). */
  predicate Binds(ps: seq<Param>, names: set<string>)
  {
    && (forall n :: n in names ==>
          (exists i :: 0 <= i < |ps| && ps[i].name == n && ByKeyword(ps[i].kind))
          || (exists i :: 0 <= i < |ps| && ps[i].kind == VarKeyword))
    && (forall i :: 0 <= i < |ps| && Named(ps[i].kind) && !ps[i].hasDefault ==>
          ps[i].kind != PositionalOnly && ps[i].name in names)
  }

  /** `func(**args)`: a `TypeError` when the arguments do not bind,
      otherwise whatever the function's body does. */
  function Call<V>(f: Callable<V>, args: map<string, V>): Outcome<V>
  {
    if Binds(f.params, args.Keys) then f.body(args) else Raised(TypeError("arguments do not bind"))
  }
}
