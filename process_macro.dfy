/**
 * The signature analysis of the `#[process]` attribute macro
 * (process-fun-macro/src/lib.rs:27-111): from the annotated function it
 * derives the name, output type, argument names and types, receiver flag and
 * call of the generated `<name>_process` function, and the diagnostics it
 * emits on the way. `syn`'s syntax tree is reduced to the parts the analysis
 * looks at; the generated tokens themselves are not modelled.
 */
module ProcessMacro {
  import opened Wrappers

  /** One segment of an attribute's path, and whether it carries generic arguments. */
  datatype PathSegment = PathSegment(ident: string, hasArguments: bool)

  /** `syn::Path`: an optional leading `::` and its segments. */
  datatype Path = Path(leadingColon: bool, segments: seq<PathSegment>)

  datatype Attribute = Attribute(path: Path)

  /** `Path::is_ident(name)`: the path is the single plain identifier `name`. */
  predicate IsIdent(path: Path, name: string)
  {
    !path.leadingColon && path.segments == [PathSegment(name, false)]
  }

  predicate IsProcessAttr(attr: Attribute)
  {
    IsIdent(attr.path, "process")
  }

  datatype Lifetime = Lifetime(name: string)

  /** `syn::Type`, reduced to the shapes the analysis distinguishes. */
  datatype Type =
    | PathType(name: string)
    | Reference(lifetime: Option<Lifetime>, mutable: bool, elem: Type)
    | Tuple(elems: seq<Type>)
    | OtherType(text: string)

  const SELF_TYPE: Type := PathType("Self")
  const UNIT: Type := Tuple([])

  /** `syn::Pat`: an identifier pattern (`x`, `mut x`, `ref x`) or any other pattern. */
  datatype Pat = PatIdent(ident: string) | OtherPat(text: string)

  /**
   * `syn::FnArg`. A receiver records its `&` with its optional lifetime
   * (`reference`, `None` for a by-value `self`) and whether it is `mut`.
   */
  datatype FnArg =
    | Typed(pat: Pat, ty: Type)
    | Receiver(reference: Option<Option<Lifetime>>, mutable: bool)

  datatype ReturnType = DefaultReturn | ReturnsType(ty: Type)

  datatype Signature = Signature(ident: string, inputs: seq<FnArg>, output: ReturnType)

  datatype ItemFn = ItemFn(attrs: seq<Attribute>, sig: Signature)

  /**
   * The warning "Mutable variables changes will not be reflected in the parent
   * process.", spanned on the type of the argument at `index`.
   */
  datatype Warning = MutableArgument(index: nat, ty: Type)

  /** The call the child makes: `self.callee(args…)` or `callee(args…)`. */
  datatype Call = Call(onSelf: bool, callee: string, args: seq<string>)

  datatype Analysis = Analysis(
    processFnName: string,
    output: Type,
    argNames: seq<string>,
    argTypes: seq<Type>,
    selfStream: bool,
    call: Call,
    warnings: seq<Warning>)

  datatype PanicReason = DuplicateProcessAttribute | UnsupportedArgumentPattern

  /** The expansion: the analysis, or a panic with the warnings emitted before it. */
  datatype Expansion = Expanded(analysis: Analysis) | Panicked(reason: PanicReason, emitted: seq<Warning>)

  /** `process_attrs.len()`: how many attributes have the path `process`. */
  function CountProcessAttrs(attrs: seq<Attribute>): (n: nat)
    ensures n <= |attrs|
    ensures n == 0 <==> forall i :: 0 <= i < |attrs| ==> !IsProcessAttr(attrs[i])
  {
    if attrs == [] then 0
    else (if IsProcessAttr(attrs[0]) then 1 else 0) + CountProcessAttrs(attrs[1..])
  }

  /** More than one `process` attribute means two distinct positions hold one. */
  lemma {:induction false} MoreThanOneProcessAttr(attrs: seq<Attribute>)
    ensures CountProcessAttrs(attrs) > 1 <==>
            exists i, j :: 0 <= i < j < |attrs| && IsProcessAttr(attrs[i]) && IsProcessAttr(attrs[j])
  {
    if attrs != [] {
      var rest := attrs[1..];
      MoreThanOneProcessAttr(rest);
      if CountProcessAttrs(attrs) > 1 {
        if IsProcessAttr(attrs[0]) {
          assert CountProcessAttrs(rest) > 0;
          var j :| 0 <= j < |rest| && IsProcessAttr(rest[j]);
          assert IsProcessAttr(attrs[0]) && IsProcessAttr(attrs[j + 1]);
        } else {
          var i, j :| 0 <= i < j < |rest| && IsProcessAttr(rest[i]) && IsProcessAttr(rest[j]);
          assert IsProcessAttr(attrs[i + 1]) && IsProcessAttr(attrs[j + 1]);
        }
      }
      if exists i, j :: 0 <= i < j < |attrs| && IsProcessAttr(attrs[i]) && IsProcessAttr(attrs[j]) {
        var i, j :| 0 <= i < j < |attrs| && IsProcessAttr(attrs[i]) && IsProcessAttr(attrs[j]);
        if i == 0 {
          assert IsProcessAttr(rest[j - 1]);
        } else {
          assert IsProcessAttr(rest[i - 1]) && IsProcessAttr(rest[j - 1]);
        }
      }
    }
  }

  /** `format_ident!("{}_process", fn_name)` */
  function ProcessFnName(name: string): (r: string)
    ensures |r| == |name| + |"_process"|
    ensures r[..|name|] == name && r[|name|..] == "_process"
  {
    name + "_process"
  }

  /** `fn_output`: `()` for a default return type, the declared type otherwise. */
  function OutputType(output: ReturnType): (t: Type)
    ensures output.DefaultReturn? ==> t == UNIT
    ensures output.ReturnsType? ==> t == output.ty
  {
    match output
    case DefaultReturn => UNIT
    case ReturnsType(ty) => ty
  }

  /** A typed argument whose type is, at its top, a `&mut` reference. */
  predicate IsMutRefArg(arg: FnArg)
  {
    arg.Typed? && arg.ty.Reference? && arg.ty.mutable
  }

  /**
   * The warnings of the loop over `fn_args`: exactly one per typed argument
   * whose type is a `&mut` reference, in argument order; none for receivers.
   */
  function MutWarnings(args: seq<FnArg>): (w: seq<Warning>)
    ensures forall j :: 0 <= j < |w| ==>
              w[j].index < |args| && IsMutRefArg(args[w[j].index]) && w[j].ty == args[w[j].index].ty
    ensures forall j, l :: 0 <= j < l < |w| ==> w[j].index < w[l].index
    ensures forall i :: 0 <= i < |args| && IsMutRefArg(args[i]) ==> exists j :: 0 <= j < |w| && w[j].index == i
  {
    if args == [] then []
    else
      var n := |args| - 1;
      var before := MutWarnings(args[..n]);
      assert forall i :: 0 <= i < n ==> args[..n][i] == args[i];
      var w := before + (if IsMutRefArg(args[n]) then [MutableArgument(n, args[n].ty)] else []);
      assert forall j :: 0 <= j < |before| ==> w[j] == before[j];
      assert IsMutRefArg(args[n]) ==> w[|before|].index == n;
      w
  }

  /**
   * `arg_names`: the identifiers of the typed arguments in order, receivers
   * skipped; `None` stands for the panic "Unsupported argument pattern" that a
   * typed argument with any other pattern causes.
   */
  function ArgNames(args: seq<FnArg>): (names: Option<seq<string>>)
    ensures names.None? <==> exists i :: 0 <= i < |args| && args[i].Typed? && !args[i].pat.PatIdent?
    ensures names.Some? ==> |names.value| <= |args|
  {
    if args == [] then Some([])
    else
      var rest := ArgNames(args[1..]);
      match args[0]
      case Receiver(_, _) =>
        rest
      case Typed(pat, _) =>
        if pat.PatIdent? && rest.Some? then Some([pat.ident] + rest.value) else None
  }

  /** How `ArgNames` treats a single argument. */
  lemma ArgNamesSingle(arg: FnArg)
    ensures arg.Receiver? ==> ArgNames([arg]) == Some([])
    ensures arg.Typed? && arg.pat.PatIdent? ==> ArgNames([arg]) == Some([arg.pat.ident])
    ensures arg.Typed? && !arg.pat.PatIdent? ==> ArgNames([arg]) == None
  {
    assert [arg][1..] == [];
    if arg.Typed? && arg.pat.PatIdent? {
      assert [arg.pat.ident] + [] == [arg.pat.ident];
    }
  }

  /**
   * Order preservation: the names of `a + b` are the names of `a` followed by
   * those of `b`, and the concatenation panics if either part does.
   */
  lemma {:induction false} ArgNamesAppend(a: seq<FnArg>, b: seq<FnArg>)
    ensures ArgNames(a + b) ==
            if ArgNames(a).Some? && ArgNames(b).Some? then Some(ArgNames(a).value + ArgNames(b).value) else None
  {
    if a == [] {
      assert a + b == b;
      if ArgNames(b).Some? {
        assert [] + ArgNames(b).value == ArgNames(b).value;
      }
    } else {
      assert (a + b)[0] == a[0];
      assert (a + b)[1..] == a[1..] + b;
      ArgNamesAppend(a[1..], b);
      var ra, rb := ArgNames(a[1..]), ArgNames(b);
      if a[0].Typed? && a[0].pat.PatIdent? && ra.Some? && rb.Some? {
        assert [a[0].pat.ident] + (ra.value + rb.value) == ([a[0].pat.ident] + ra.value) + rb.value;
      }
    }
  }

  /** The names are as many as the typed arguments: one per argument that is not a receiver. */
  lemma {:induction false} ArgNamesLength(args: seq<FnArg>)
    requires ArgNames(args).Some?
    ensures |ArgNames(args).value| + ReceiverCount(args) == |args|
  {
    if args != [] {
      ArgNamesLength(args[1..]);
    }
  }

  function ReceiverCount(args: seq<FnArg>): nat
  {
    if args == [] then 0 else (if args[0].Receiver? then 1 else 0) + ReceiverCount(args[1..])
  }

  /** `self_stream`: set when `filter_map` meets a receiver. */
  function SelfStream(args: seq<FnArg>): (s: bool)
    ensures s <==> exists i :: 0 <= i < |args| && args[i].Receiver?
  {
    if args == [] then false
    else
      assert forall i :: 1 <= i < |args| ==> args[i] == args[1..][i - 1];
      args[0].Receiver? || SelfStream(args[1..])
  }

  /**
   * The type `arg_types` gives one argument: a typed argument keeps its type;
   * a receiver becomes `Self`, `&'a Self` or `&'a mut Self`, keeping its lifetime.
   */
  function ArgType(arg: FnArg): (t: Type)
    ensures arg.Typed? ==> t == arg.ty
    ensures arg.Receiver? && arg.reference.None? ==> t == SELF_TYPE
    ensures arg.Receiver? && arg.reference.Some? ==>
              t.Reference? && t.elem == SELF_TYPE &&
              t.lifetime == arg.reference.value && t.mutable == arg.mutable
  {
    match arg
    case Typed(_, ty) => ty
    case Receiver(reference, mutable) =>
      if reference.Some? then Reference(reference.value, mutable, SELF_TYPE) else SELF_TYPE
  }

  /** `arg_types`: one type per argument, in argument order. */
  function ArgTypes(args: seq<FnArg>): (ts: seq<Type>)
    ensures |ts| == |args|
    ensures forall i :: 0 <= i < |args| ==> ts[i] == ArgType(args[i])
  {
    seq(|args|, i requires 0 <= i < |args| => ArgType(args[i]))
  }

  /** `call`: through `self` exactly when the function has a receiver. */
  function CallOf(selfStream: bool, name: string, argNames: seq<string>): (c: Call)
    ensures c.onSelf == selfStream && c.callee == name && c.args == argNames
  {
    Call(selfStream, name, argNames)
  }

  /**
   * The analysis `process` performs on `item`: the duplicate-attribute panic
   * first, then the `&mut` warnings, then the argument names (which may panic),
   * then the argument types and the call.
   */
  function Expand(item: ItemFn): (e: Expansion)
    ensures e == Panicked(DuplicateProcessAttribute, []) <==> CountProcessAttrs(item.attrs) > 1
    ensures e.Panicked? && e.reason == UnsupportedArgumentPattern <==>
              CountProcessAttrs(item.attrs) <= 1 &&
              exists i :: 0 <= i < |item.sig.inputs| && item.sig.inputs[i].Typed? && !item.sig.inputs[i].pat.PatIdent?
    ensures e.Panicked? && e.reason == UnsupportedArgumentPattern ==> e.emitted == MutWarnings(item.sig.inputs)
    ensures e.Expanded? <==> CountProcessAttrs(item.attrs) <= 1 && ArgNames(item.sig.inputs).Some?
    ensures e.Expanded? ==>
              var a := e.analysis;
              var args := item.sig.inputs;
              a.processFnName == item.sig.ident + "_process" &&
              a.output == OutputType(item.sig.output) &&
              Some(a.argNames) == ArgNames(args) &&
              a.argTypes == ArgTypes(args) &&
              (a.selfStream <==> exists i :: 0 <= i < |args| && args[i].Receiver?) &&
              a.call == Call(a.selfStream, item.sig.ident, a.argNames) &&
              a.warnings == MutWarnings(args)
  {
    if CountProcessAttrs(item.attrs) > 1 then
      Panicked(DuplicateProcessAttribute, [])
    else
      var args := item.sig.inputs;
      var warnings := MutWarnings(args);
      match ArgNames(args)
      case None => Panicked(UnsupportedArgumentPattern, warnings)
      case Some(names) =>
        var selfStream := SelfStream(args);
        Expanded(Analysis(
          ProcessFnName(item.sig.ident),
          OutputType(item.sig.output),
          names,
          ArgTypes(args),
          selfStream,
          CallOf(selfStream, item.sig.ident, names),
          warnings))
  }

  /** `Counter::get_value(&self) -> i32`, as in the crate's tests. */
  lemma ExpandMethodWithSelf()
    ensures Expand(ItemFn([], Signature("get_value", [Receiver(Some(None), false)], ReturnsType(PathType("i32")))))
            == Expanded(Analysis("get_value_process", PathType("i32"), [], [Reference(None, false, SELF_TYPE)],
                                 true, Call(true, "get_value", []), []))
  {
    var args := [Receiver(Some(None), false)];
    ArgNamesSingle(args[0]);
    assert MutWarnings(args) == [];
    assert SelfStream(args);
    assert ArgTypes(args) == [Reference(None, false, SELF_TYPE)];
    var item := ItemFn([], Signature("get_value", args, ReturnsType(PathType("i32"))));
    assert CountProcessAttrs(item.attrs) == 0;
    assert Expand(item).Expanded?;
    var a := Expand(item).analysis;
    assert a.processFnName == "get_value_process";
    assert a.argNames == [] && a.selfStream && a.warnings == [];
    assert a.argTypes == [Reference(None, false, SELF_TYPE)];
    assert a.call == Call(true, "get_value", []);
  }

  /** `add_points(p1: Point, p2: Point) -> Point`, as in the crate's tests. */
  lemma ExpandFreeFunction()
    ensures Expand(ItemFn([], Signature("add_points",
                                        [Typed(PatIdent("p1"), PathType("Point")), Typed(PatIdent("p2"), PathType("Point"))],
                                        ReturnsType(PathType("Point")))))
            == Expanded(Analysis("add_points_process", PathType("Point"), ["p1", "p2"],
                                 [PathType("Point"), PathType("Point")],
                                 false, Call(false, "add_points", ["p1", "p2"]), []))
  {
    var args := [Typed(PatIdent("p1"), PathType("Point")), Typed(PatIdent("p2"), PathType("Point"))];
    ArgNamesAppend([args[0]], [args[1]]);
    ArgNamesSingle(args[0]);
    ArgNamesSingle(args[1]);
    assert [args[0]] + [args[1]] == args;
    assert MutWarnings(args) == [];
    assert !SelfStream(args);
    assert ArgTypes(args) == [PathType("Point"), PathType("Point")];
    var item := ItemFn([], Signature("add_points", args, ReturnsType(PathType("Point"))));
    assert CountProcessAttrs(item.attrs) == 0;
    assert Expand(item).Expanded?;
    var a := Expand(item).analysis;
    assert a.processFnName == "add_points_process";
    assert a.argNames == ["p1", "p2"] && !a.selfStream && a.warnings == [];
    assert a.argTypes == [PathType("Point"), PathType("Point")];
    assert a.call == Call(false, "add_points", ["p1", "p2"]);
  }
}
