/**
 The validator of tool arguments: the first problem it finds in a value, in the order it looks.  A value
 without a problem is a valid one, and a problem that is reported is really there.
 */
module ToolValidation {
  import opened Common
  import opened ToolArgs

  datatype Problem =
    | WrongKind | NotWhole | NotListed | TooSmall | TooLarge | TooShort | TooLong
    | InItem(i: nat, what: Problem)
    | Missing(name: string) | Undeclared
    | InField(name: string, what: Problem)

  /** What `typeof` says, with arrays told apart. */
  function TypeOf(v: Json): Kind {
    match v
    case Null => AnObject
    case Bool(_) => ABoolean
    case Num(_) => ANumber
    case Str(_) => AString
    case Arr(_) => AnArray
    case Obj(_) => AnObject
  }

  function KindProblem(v: Json, kind: Kind): Option<Problem> {
    if kind == AnInteger then
      if v.Num? then if v.n.Floor as real == v.n then None else Some(NotWhole) else Some(WrongKind)
    else if TypeOf(v) == kind then None
    else Some(WrongKind)
  }

  /** Numbers, texts, truth values and null are listed by value, arrays and objects never. */
  predicate IsListed(v: Json, values: seq<Json>) {
    match v
    case Arr(_) => false
    case Obj(_) => false
    case _ => exists i :: 0 <= i < |values| && values[i] == v
  }

  function LimitProblem(v: Json, s: Schema): Option<Problem> {
    if s.oneOf.Some? && !IsListed(v, s.oneOf.value) then Some(NotListed)
    else match v
         case Num(n) =>
           if s.minimum.Some? && n < s.minimum.value then Some(TooSmall)
           else if s.maximum.Some? && n > s.maximum.value then Some(TooLarge)
           else None
         case Str(text) =>
           if s.minLength.Some? && |text| < s.minLength.value then Some(TooShort)
           else if s.maxLength.Some? && |text| > s.maxLength.value then Some(TooLong)
           else None
         case _ => None
  }

  function FirstMissing(required: seq<string>, fields: map<string, Json>): Option<Problem> {
    if required == [] then None
    else if required[0] !in fields then Some(Missing(required[0]))
    else FirstMissing(required[1..], fields)
  }

  function Names(properties: seq<Property>): set<string> {
    set i | 0 <= i < |properties| :: properties[i].name
  }

  function ProblemOf(v: Json, s: Schema): Option<Problem>
    decreases s, 3
  {
    if s.anyOf != [] then UnionProblem(v, s.anyOf, 0, None, None) else PlainProblem(v, s)
  }

  /** A field of the value that tells this branch from the others has one of the branch's values. */
  predicate Matches(v: Json, branch: Schema) {
    v.Obj? && branch.properties.Some? &&
    exists i :: 0 <= i < |branch.properties.value.list| && HasListedValue(v.fields, branch.properties.value.list[i])
  }

  predicate HasListedValue(fields: map<string, Json>, p: Property) {
    p.name in fields && p.schema.oneOf.Some? && IsListed(fields[p.name], p.schema.oneOf.value)
  }

  /** The problem of the last branch that matches, or else of the last branch; none when a branch has none. */
  function UnionProblem(v: Json, branches: seq<Schema>, i: nat, last: Option<Problem>, matching: Option<Problem>): Option<Problem>
    requires i <= |branches|
    decreases branches, |branches| - i, 2
  {
    if i == |branches| then if matching.Some? then matching else last
    else match PlainProblem(v, branches[i])
         case None => None
         case problem => UnionProblem(v, branches, i + 1, problem, if Matches(v, branches[i]) then problem else matching)
  }

  function PlainProblem(v: Json, s: Schema): Option<Problem>
    decreases s, 2
  {
    var kind := if s.kind.Some? then KindProblem(v, s.kind.value) else None;
    if kind.Some? then kind
    else if LimitProblem(v, s).Some? then LimitProblem(v, s)
    else if v.Arr? && s.items.Some? then ItemProblem(v.items, s.items.value, 0)
    else if s.kind == Some(AnObject) && s.properties.Some? && v.Obj? then
      if FirstMissing(s.required, v.fields).Some? then FirstMissing(s.required, v.fields)
      else if s.closed && !(v.fields.Keys <= Names(s.properties.value.list)) then Some(Undeclared)
      else FieldProblem(v.fields, s.properties.value.list, 0)
    else None
  }

  function ItemProblem(items: seq<Json>, s: Schema, i: nat): Option<Problem>
    requires i <= |items|
    decreases s, 4, |items| - i
  {
    if i == |items| then None
    else match ProblemOf(items[i], s)
         case Some(what) => Some(InItem(i, what))
         case None => ItemProblem(items, s, i + 1)
  }

  function FieldProblem(fields: map<string, Json>, properties: seq<Property>, i: nat): Option<Problem>
    requires i <= |properties|
    decreases properties, |properties| - i
  {
    if i == |properties| then None
    else if properties[i].name !in fields then FieldProblem(fields, properties, i + 1)
    else match ProblemOf(fields[properties[i].name], properties[i].schema)
         case Some(what) => Some(InField(properties[i].name, what))
         case None => FieldProblem(fields, properties, i + 1)
  }

  // ---------------------------------------------------------------- no problem means valid

  lemma KindProblemIff(v: Json, kind: Kind)
    ensures KindProblem(v, kind).None? <==> HasKind(v, kind)
  {
  }

  lemma ListedIff(v: Json, values: seq<Json>)
    ensures IsListed(v, values) <==> Listed(v, values)
  {
  }

  lemma LimitProblemIff(v: Json, s: Schema)
    ensures LimitProblem(v, s).None? <==> InLimits(v, s)
  {
    if s.oneOf.Some? {
      ListedIff(v, s.oneOf.value);
    }
  }

  lemma {:induction false} FirstMissingIs(required: seq<string>, fields: map<string, Json>)
    ensures FirstMissing(required, fields).None? <==> forall name :: name in required ==> name in fields
    ensures FirstMissing(required, fields).Some? ==>
              FirstMissing(required, fields).value.Missing?
              && FirstMissing(required, fields).value.name in required
              && FirstMissing(required, fields).value.name !in fields
  {
    if required != [] {
      assert forall name :: name in required <==> name == required[0] || name in required[1..];
      FirstMissingIs(required[1..], fields);
    }
  }

  lemma DeclaredIff(fields: map<string, Json>, properties: seq<Property>)
    ensures fields.Keys <= Names(properties) <==> forall name :: name in fields ==> IsDeclared(name, properties)
  {
    forall name
      ensures name in Names(properties) <==> IsDeclared(name, properties)
    {
    }
    assert forall name :: name in fields <==> name in fields.Keys;
  }

  /** The validator finds no problem exactly in the valid values. */
  lemma {:induction false} NoProblemIff(v: Json, s: Schema)
    ensures ProblemOf(v, s).None? <==> Valid(v, s)
    decreases s, 3
  {
    if s.anyOf != [] {
      UnionProblemIff(v, s.anyOf, 0, None, None);
    } else {
      PlainProblemIff(v, s);
    }
  }

  lemma {:induction false} UnionProblemIff(v: Json, branches: seq<Schema>, i: nat, last: Option<Problem>,
                                           matching: Option<Problem>)
    requires i <= |branches| && (last.None? ==> i == 0 < |branches|) && (matching.Some? ==> last.Some?)
    ensures UnionProblem(v, branches, i, last, matching).None? <==> exists k :: i <= k < |branches| && ValidPlain(v, branches[k])
    decreases branches, |branches| - i, 2
  {
    if i < |branches| {
      PlainProblemIff(v, branches[i]);
      var problem := PlainProblem(v, branches[i]);
      if problem.Some? {
        UnionProblemIff(v, branches, i + 1, problem, if Matches(v, branches[i]) then problem else matching);
      }
    }
  }

  lemma {:induction false} PlainProblemIff(v: Json, s: Schema)
    ensures PlainProblem(v, s).None? <==> ValidPlain(v, s)
    decreases s, 2
  {
    if s.kind.Some? {
      KindProblemIff(v, s.kind.value);
    }
    LimitProblemIff(v, s);
    if v.Arr? && s.items.Some? {
      ItemProblemIff(v.items, s.items.value, 0);
    }
    if v.Obj? && s.properties.Some? {
      FirstMissingIs(s.required, v.fields);
      DeclaredIff(v.fields, s.properties.value.list);
      FieldProblemIff(v.fields, s.properties.value.list, 0);
    }
  }

  lemma {:induction false} ItemProblemIff(items: seq<Json>, s: Schema, i: nat)
    requires i <= |items|
    ensures ItemProblem(items, s, i).None? <==> forall k :: i <= k < |items| ==> Valid(items[k], s)
    decreases s, 4, |items| - i
  {
    if i < |items| {
      NoProblemIff(items[i], s);
      ItemProblemIff(items, s, i + 1);
    }
  }

  lemma {:induction false} FieldProblemIff(fields: map<string, Json>, properties: seq<Property>, i: nat)
    requires i <= |properties|
    ensures FieldProblem(fields, properties, i).None? <==>
            forall k :: i <= k < |properties| && properties[k].name in fields ==>
              Valid(fields[properties[k].name], properties[k].schema)
    decreases properties, |properties| - i
  {
    if i < |properties| {
      if properties[i].name in fields {
        NoProblemIff(fields[properties[i].name], properties[i].schema);
      }
      FieldProblemIff(fields, properties, i + 1);
    }
  }

  // ---------------------------------------------------------------- a reported problem is there

  /** The value has the problem, and nothing before it on the way there has one. */
  ghost predicate Shows(v: Json, s: Schema, problem: Problem)
    decreases problem, 1
  {
    if s.anyOf != [] then exists k :: 0 <= k < |s.anyOf| && ShowsPlain(v, s.anyOf[k], problem) else ShowsPlain(v, s, problem)
  }

  ghost predicate ShowsPlain(v: Json, s: Schema, problem: Problem)
    decreases problem, 0
  {
    match problem
    case WrongKind => s.kind.Some? && !HasKind(v, s.kind.value)
    case NotWhole => s.kind == Some(AnInteger) && v.Num? && !Whole(v.n)
    case NotListed => s.oneOf.Some? && !Listed(v, s.oneOf.value)
    case TooSmall => v.Num? && s.minimum.Some? && v.n < s.minimum.value
    case TooLarge => v.Num? && s.maximum.Some? && s.maximum.value < v.n
    case TooShort => v.Str? && s.minLength.Some? && |v.s| < s.minLength.value
    case TooLong => v.Str? && s.maxLength.Some? && s.maxLength.value < |v.s|
    case InItem(i, what) =>
      && v.Arr? && s.items.Some? && i < |v.items| && Shows(v.items[i], s.items.value, what)
      && forall j :: 0 <= j < i ==> Valid(v.items[j], s.items.value)
    case Missing(name) => v.Obj? && name in s.required && name !in v.fields
    case Undeclared =>
      v.Obj? && s.closed && s.properties.Some? && exists name :: name in v.fields && !IsDeclared(name, s.properties.value.list)
    case InField(name, what) => v.Obj? && s.properties.Some? && InSomeField(v.fields, s.properties.value.list, name, what)
  }

  ghost predicate InSomeField(fields: map<string, Json>, properties: seq<Property>, name: string, what: Problem)
    decreases what, 2
  {
    name in fields &&
    exists k :: 0 <= k < |properties| && properties[k].name == name && Shows(fields[name], properties[k].schema, what)
  }

  /** Whatever the validator reports is really wrong with the value. */
  lemma {:induction false} ProblemIsReal(v: Json, s: Schema)
    requires ProblemOf(v, s).Some?
    ensures Shows(v, s, ProblemOf(v, s).value)
    decreases s, 3
  {
    if s.anyOf != [] {
      NoProblemIff(v, s);
      UnionBlames(v, s);
      PlainProblemIsReal(v, s.anyOf[Blamed(v, s.anyOf, |s.anyOf|)]);
    } else {
      PlainProblemIsReal(v, s);
    }
  }

  lemma {:induction false} PlainProblemIsReal(v: Json, s: Schema)
    requires PlainProblem(v, s).Some?
    ensures ShowsPlain(v, s, PlainProblem(v, s).value)
    decreases s, 2
  {
    if s.kind.Some? {
      KindProblemIff(v, s.kind.value);
    }
    if s.oneOf.Some? {
      ListedIff(v, s.oneOf.value);
    }
    if v.Arr? && s.items.Some? && ItemProblem(v.items, s.items.value, 0).Some? {
      ItemProblemIsReal(v.items, s.items.value, 0);
    }
    if v.Obj? && s.properties.Some? {
      FirstMissingIs(s.required, v.fields);
      DeclaredIff(v.fields, s.properties.value.list);
      if FieldProblem(v.fields, s.properties.value.list, 0).Some? {
        FieldProblemIsReal(v.fields, s.properties.value.list, 0);
      }
    }
  }

  lemma {:induction false} ItemProblemIsReal(items: seq<Json>, s: Schema, i: nat)
    requires i <= |items| && ItemProblem(items, s, i).Some?
    ensures var problem := ItemProblem(items, s, i).value;
            && problem.InItem? && i <= problem.i < |items| && Shows(items[problem.i], s, problem.what)
            && forall j :: i <= j < problem.i ==> Valid(items[j], s)
    decreases s, 4, |items| - i
  {
    NoProblemIff(items[i], s);
    if ProblemOf(items[i], s).Some? {
      ProblemIsReal(items[i], s);
    } else {
      ItemProblemIsReal(items, s, i + 1);
    }
  }

  lemma {:induction false} FieldProblemIsReal(fields: map<string, Json>, properties: seq<Property>, i: nat)
    requires i <= |properties| && FieldProblem(fields, properties, i).Some?
    ensures var problem := FieldProblem(fields, properties, i).value;
            problem.InField? && InSomeField(fields, properties, problem.name, problem.what)
    decreases properties, |properties| - i
  {
    var name := properties[i].name;
    if name in fields && ProblemOf(fields[name], properties[i].schema).Some? {
      ProblemIsReal(fields[name], properties[i].schema);
    } else {
      FieldProblemIsReal(fields, properties, i + 1);
    }
  }

  // ---------------------------------------------------------------- which branch of a union is blamed

  /** The last of the first `n` branches that matches, or else the last of all. */
  function Blamed(v: Json, branches: seq<Schema>, n: nat): (k: nat)
    requires branches != [] && n <= |branches|
    ensures k < |branches|
  {
    if n == 0 then |branches| - 1 else if Matches(v, branches[n - 1]) then n - 1 else Blamed(v, branches, n - 1)
  }

  /** A value that no branch accepts is told the problem of the branch that matches it, or of the last branch. */
  lemma UnionBlames(v: Json, s: Schema)
    requires s.anyOf != [] && !Valid(v, s)
    ensures ProblemOf(v, s) == PlainProblem(v, s.anyOf[Blamed(v, s.anyOf, |s.anyOf|)])
  {
    forall k | 0 <= k < |s.anyOf|
      ensures PlainProblem(v, s.anyOf[k]).Some?
    {
      PlainProblemIff(v, s.anyOf[k]);
    }
    UnionProblemIs(v, s.anyOf, 0, None, None);
  }

  lemma {:induction false} UnionProblemIs(v: Json, branches: seq<Schema>, i: nat, last: Option<Problem>,
                                          matching: Option<Problem>)
    requires i <= |branches| && branches != [] && forall k :: 0 <= k < |branches| ==> PlainProblem(v, branches[k]).Some?
    requires last == if i == 0 then None else PlainProblem(v, branches[i - 1])
    requires matching.None? ==> forall k :: 0 <= k < i ==> !Matches(v, branches[k])
    requires matching.Some? ==> MatchedBefore(v, branches, i) && matching == PlainProblem(v, branches[Blamed(v, branches, i)])
    ensures UnionProblem(v, branches, i, last, matching) == PlainProblem(v, branches[Blamed(v, branches, |branches|)])
    decreases |branches| - i
  {
    if i == |branches| {
      if matching.None? {
        NoneMatches(v, branches, i);
      }
    } else {
      var problem := PlainProblem(v, branches[i]);
      UnionProblemIs(v, branches, i + 1, problem, if Matches(v, branches[i]) then problem else matching);
    }
  }

  predicate MatchedBefore(v: Json, branches: seq<Schema>, n: nat)
    requires n <= |branches|
  {
    exists k :: 0 <= k < n && Matches(v, branches[k])
  }

  lemma {:induction false} NoneMatches(v: Json, branches: seq<Schema>, n: nat)
    requires n <= |branches| && branches != [] && forall k :: 0 <= k < n ==> !Matches(v, branches[k])
    ensures Blamed(v, branches, n) == |branches| - 1
  {
    if n > 0 {
      NoneMatches(v, branches, n - 1);
    }
  }

  /** An enumeration of the branch lists the value's field of that name. */
  ghost predicate Discriminates(fields: map<string, Json>, branch: Schema) {
    branch.properties.Some? &&
    exists p :: p in branch.properties.value.list && p.name in fields && p.schema.oneOf.Some? &&
                !fields[p.name].Arr? && !fields[p.name].Obj? && fields[p.name] in p.schema.oneOf.value
  }

  lemma MatchesIff(fields: map<string, Json>, branch: Schema)
    ensures Matches(Obj(fields), branch) <==> Discriminates(fields, branch)
  {
    if branch.properties.Some? {
      var list := branch.properties.value.list;
      forall i | 0 <= i < |list| && list[i].name in fields && list[i].schema.oneOf.Some?
        ensures IsListed(fields[list[i].name], list[i].schema.oneOf.value) <==>
                Listed(fields[list[i].name], list[i].schema.oneOf.value)
      {
        ListedIff(fields[list[i].name], list[i].schema.oneOf.value);
      }
      if p :| p in list && p.name in fields && p.schema.oneOf.Some? &&
              !fields[p.name].Arr? && !fields[p.name].Obj? && fields[p.name] in p.schema.oneOf.value {
        var i :| 0 <= i < |list| && list[i] == p;
        assert HasListedValue(fields, list[i]);
      }
    }
  }

  /** The branch blamed is the last whose enumerations tell it from the others by the value's own fields. */
  lemma {:induction false} LastMatchIsBlamed(fields: map<string, Json>, branches: seq<Schema>, k: nat, n: nat)
    requires k < n <= |branches| && Discriminates(fields, branches[k])
    requires forall j :: k < j < n ==> !Discriminates(fields, branches[j])
    ensures Blamed(Obj(fields), branches, n) == k
  {
    MatchesIff(fields, branches[n - 1]);
    if k < n - 1 {
      LastMatchIsBlamed(fields, branches, k, n - 1);
    }
  }

  // ---------------------------------------------------------------- whole argument objects

  method FindUndeclared(properties: seq<Property>, args: Args) returns (found: bool)
    ensures found <==> exists name :: name in args && SchemaFor(properties, name).None?
  {
    var rest := args.Keys;
    while rest != {}
      invariant rest <= args.Keys && forall name :: name in args && name !in rest ==> SchemaFor(properties, name).Some?
      decreases |rest|
    {
      var name :| name in rest;
      if SchemaFor(properties, name).None? {
        return true;
      }
      rest := rest - {name};
    }
    found := false;
  }

  predicate ArgIsValid(properties: seq<Property>, name: string, v: Json) {
    SchemaFor(properties, name).Some? ==> Valid(v, SchemaFor(properties, name).value)
  }

  method FindInvalid(properties: seq<Property>, args: Args) returns (problem: Option<Problem>)
    ensures problem.None? <==> forall name :: name in args ==> ArgIsValid(properties, name, args[name])
    ensures problem.Some? ==> problem.value.InField? && problem.value.name in args
                              && !ArgIsValid(properties, problem.value.name, args[problem.value.name])
  {
    var rest := args.Keys;
    while rest != {}
      invariant rest <= args.Keys
      invariant forall name :: name in args && name !in rest ==> ArgIsValid(properties, name, args[name])
      decreases |rest|
    {
      var name :| name in rest;
      if SchemaFor(properties, name).Some? {
        var found := ProblemOf(args[name], SchemaFor(properties, name).value);
        NoProblemIff(args[name], SchemaFor(properties, name).value);
        if found.Some? {
          return Some(InField(name, found.value));
        }
      }
      rest := rest - {name};
    }
    problem := None;
  }

  /** Looks at the union of the tool, the required names, the undeclared ones and then each argument. */
  method ValidateArgs(p: Parameters, args: Args) returns (problem: Option<Problem>)
    ensures problem.None? <==> ValidArgs(p, args)
  {
    problem := None;
    if p.anyOf != [] {
      UnionProblemIff(Obj(args), p.anyOf, 0, None, None);
      problem := UnionProblem(Obj(args), p.anyOf, 0, None, None);
    }
    if problem.None? {
      FirstMissingIs(p.required, args);
      problem := FirstMissing(p.required, args);
    }
    if problem.None? && p.closed {
      var found := FindUndeclared(p.properties, args);
      problem := if found then Some(Undeclared) else None;
    }
    if problem.None? {
      problem := FindInvalid(p.properties, args);
      assert (forall name :: name in args ==> ArgIsValid(p.properties, name, args[name])) <==>
             (forall name :: name in args && SchemaFor(p.properties, name).Some? ==>
                Valid(args[name], SchemaFor(p.properties, name).value));
    }
  }
}
