/** `CodeTransformer`: the generator that turns the `[DllImport]` declarations
    of a `NativeMethods` class into a `MagicNativeMethods` class whose methods
    bind each native entry point at run time through a delegate. Input and
    output are syntax trees; parsing and printing are not modelled. Type texts
    are taken without comment trivia. */
module CodeTransformer {
  import opened Wrappers
  import Exceptions
  import opened Text

  // ---------------------------------------------------------------- input syntax

  datatype Modifier = OutKeyword | RefKeyword | InKeyword | ParamsKeyword | ThisKeyword | OtherModifier(text: string)

  datatype Parameter = Parameter(modifiers: seq<Modifier>, typeText: string, name: string)

  /** A method declaration: the names of all its attributes (every attribute
      list flattened), its return type text, its name and its parameters. */
  datatype MethodDecl = MethodDecl(attributes: seq<string>, returnType: string, name: string, parameters: seq<Parameter>)

  /** A node of the parsed compilation unit: a class with its members, a
      method, or any other node (namespace, struct, field, ...) with its
      children. */
  datatype Node =
    | ClassNode(name: string, members: seq<Node>)
    | MethodNode(decl: MethodDecl)
    | OtherNode(children: seq<Node>)

  datatype ClassInfo = ClassInfo(name: string, members: seq<Node>)

  /** `DescendantNodes().OfType<ClassDeclarationSyntax>()`: every class below
      the given nodes, nested ones included, in document (pre-)order. */
  function DescendantClasses(nodes: seq<Node>): seq<ClassInfo>
    decreases nodes
  {
    if |nodes| == 0 then []
    else
      var head := nodes[0];
      var inHead :=
        match head
        case ClassNode(name, members) => [ClassInfo(name, members)] + DescendantClasses(members)
        case OtherNode(children) => DescendantClasses(children)
        case MethodNode(_) => [];
      inHead + DescendantClasses(nodes[1..])
  }

  /** `DescendantNodes().OfType<MethodDeclarationSyntax>()`: every method below
      the given nodes, those of nested types included, in document order. */
  function DescendantMethods(nodes: seq<Node>): seq<MethodDecl>
    decreases nodes
  {
    if |nodes| == 0 then []
    else
      var head := nodes[0];
      var inHead :=
        match head
        case ClassNode(_, members) => DescendantMethods(members)
        case OtherNode(children) => DescendantMethods(children)
        case MethodNode(decl) => [decl];
      inHead + DescendantMethods(nodes[1..])
  }

  /** `FirstOrDefault(c => c.Identifier.Text == name)`. */
  function FirstNamed(classes: seq<ClassInfo>, name: string): (r: Option<ClassInfo>)
    ensures r.None? <==> forall i | 0 <= i < |classes| :: classes[i].name != name
    ensures r.Some? ==> exists i | 0 <= i < |classes| ::
              classes[i] == r.value && r.value.name == name
              && forall j | 0 <= j < i :: classes[j].name != name
  {
    if |classes| == 0 then None
    else if classes[0].name == name then Some(classes[0])
    else
      var r := FirstNamed(classes[1..], name);
      if r.Some? then
        var i :| 0 <= i < |classes[1..]| && classes[1..][i] == r.value && r.value.name == name
                 && forall j | 0 <= j < i :: classes[1..][j].name != name;
        assert classes[i + 1] == r.value;
        r
      else r
  }

  /** The selection distributes over concatenation, so it keeps the selected
      methods in source order: it is the filter that maps each method to
      itself or to nothing. */
  lemma {:induction false} DllImportsAppend(a: seq<MethodDecl>, b: seq<MethodDecl>)
    ensures DllImports(a + b) == DllImports(a) + DllImports(b)
    ensures |a| == 1 ==> DllImports(a) == (if IsDllImport(a[0]) then a else [])
    decreases |a|
  {
    if |a| == 0 {
      assert a + b == b;
    } else {
      assert (a + b)[0] == a[0] && (a + b)[1..] == a[1..] + b;
      DllImportsAppend(a[1..], b);
      if |a| == 1 {
        assert a[1..] == [];
      }
    }
  }

  /** The selection test: some attribute name contains "DllImport". */
  predicate IsDllImport(m: MethodDecl) {
    exists k | 0 <= k < |m.attributes| :: Contains(m.attributes[k], "DllImport")
  }

  /** The `Where` over the methods: keeps exactly the DllImport methods, in
      order. */
  function DllImports(methods: seq<MethodDecl>): (r: seq<MethodDecl>)
    ensures |r| <= |methods|
    ensures forall k | 0 <= k < |r| :: IsDllImport(r[k]) && r[k] in methods
    ensures forall m | m in methods :: IsDllImport(m) ==> m in r
    decreases |methods|
  {
    if |methods| == 0 then []
    else
      var rest := DllImports(methods[1..]);
      if IsDllImport(methods[0]) then [methods[0]] + rest else rest
  }

  // ---------------------------------------------------------------- output syntax

  datatype Keyword = PublicKeyword | PrivateKeyword | PartialKeyword | UnsafeKeyword

  /** `WithRefOrOutKeyword`: none, `out` or `ref`. */
  datatype RefKind = NoRefKind | OutRefKind | RefRefKind

  datatype Callee = Named(name: string) | GenericNamed(name: string, typeArgument: string)

  datatype Expression =
    | IdentifierName(identifier: string)
    | StringLiteral(value: string)
    | Invocation(callee: Callee, arguments: seq<Argument>)
    | SimpleAssignment(left: string, right: string)

  datatype Argument = Argument(refKind: RefKind, expression: Expression)

  datatype Statement =
    | LocalDeclaration(typeName: string, variable: string, initializer: Expression)
    | ExpressionStatement(expression: Expression)
    | ReturnStatement(expression: Expression)

  datatype Member =
    | Constructor(modifiers: seq<Keyword>, name: string, parameters: seq<Parameter>, body: seq<Statement>)
    | Delegate(modifiers: seq<Keyword>, returnType: string, name: string, parameters: seq<Parameter>)
    | Method(modifiers: seq<Keyword>, returnType: string, name: string, parameters: seq<Parameter>,
             body: seq<Statement>)

  datatype ClassDeclaration = ClassDeclaration(modifiers: seq<Keyword>, name: string, members: seq<Member>)

  // ---------------------------------------------------------------- the transformation

  /** `CreateMagicNativeMethodsConstructor`: a public constructor taking the
      hardware type, storing it, then resolving the native library. */
  function MagicNativeMethodsConstructor(): (r: Member)
    ensures r.Constructor? && r.name == "MagicNativeMethods" && r.modifiers == [PublicKeyword]
    ensures r.parameters == [Parameter([], "HardwareType", "hardwareType")]
    ensures |r.body| == 2
    ensures r.body[0] == ExpressionStatement(SimpleAssignment("_hardwareType", "hardwareType"))
    ensures r.body[1] == ExpressionStatement(Invocation(Named("SetLibraryPath"), []))
  {
    Constructor([PublicKeyword], "MagicNativeMethods", [Parameter([], "HardwareType", "hardwareType")],
                [ExpressionStatement(SimpleAssignment("_hardwareType", "hardwareType")),
                 ExpressionStatement(Invocation(Named("SetLibraryPath"), []))])
  }

  /** A pointer type anywhere in the signature makes the binding unsafe. */
  predicate RequiresUnsafe(m: MethodDecl) {
    Contains(m.returnType, "*") || exists k | 0 <= k < |m.parameters| :: Contains(m.parameters[k].typeText, "*")
  }

  /** The `*` test finds exactly the signatures that mention a pointer
      character, in the return type or in any parameter type. */
  lemma UnsafeIffPointerCharacter(m: MethodDecl)
    ensures RequiresUnsafe(m)
            <==> '*' in m.returnType || exists k | 0 <= k < |m.parameters| :: '*' in m.parameters[k].typeText
  {
    ContainsChar(m.returnType, '*');
    forall k | 0 <= k < |m.parameters|
      ensures Contains(m.parameters[k].typeText, "*") <==> '*' in m.parameters[k].typeText
    {
      ContainsChar(m.parameters[k].typeText, '*');
    }
  }

  /** The modifier a forwarded argument carries: `out` wins over `ref`. */
  function RefKindOf(modifiers: seq<Modifier>): (r: RefKind)
    ensures r == OutRefKind <==> OutKeyword in modifiers
    ensures r == RefRefKind <==> OutKeyword !in modifiers && RefKeyword in modifiers
    ensures r == NoRefKind <==> OutKeyword !in modifiers && RefKeyword !in modifiers
  {
    if OutKeyword in modifiers then OutRefKind
    else if RefKeyword in modifiers then RefRefKind
    else NoRefKind
  }

  /** Every parameter forwarded by name, in order. */
  function ForwardedArguments(parameters: seq<Parameter>): (r: seq<Argument>)
    ensures |r| == |parameters|
    ensures forall k | 0 <= k < |r| ::
              r[k].expression == IdentifierName(parameters[k].name) && r[k].refKind == RefKindOf(parameters[k].modifiers)
  {
    seq(|parameters|, k requires 0 <= k < |parameters| =>
      Argument(RefKindOf(parameters[k].modifiers), IdentifierName(parameters[k].name)))
  }

  function DelegateName(m: MethodDecl): string {
    m.name + "Delegate"
  }

  /** The private delegate type the native entry point is bound to: same
      return type and parameters as the import. */
  function DelegateFor(m: MethodDecl): (r: Member)
    ensures r.Delegate? && r.name == DelegateName(m)
    ensures r.returnType == m.returnType && r.parameters == m.parameters
    ensures |r.modifiers| > 0 && r.modifiers[0] == PrivateKeyword
    ensures UnsafeKeyword in r.modifiers <==> RequiresUnsafe(m)
  {
    Delegate([PrivateKeyword] + (if RequiresUnsafe(m) then [UnsafeKeyword] else []), m.returnType,
             DelegateName(m), m.parameters)
  }

  /** The public forwarding method: binds the delegate by the entry point's
      name, then calls it with every parameter, returning its result unless
      the return type is exactly `void`. */
  function ForwarderFor(m: MethodDecl): (r: Member)
    ensures r.Method? && r.name == m.name
    ensures r.returnType == m.returnType && r.parameters == m.parameters
    ensures |r.modifiers| > 0 && r.modifiers[0] == PublicKeyword
    ensures UnsafeKeyword in r.modifiers <==> RequiresUnsafe(m)
    ensures |r.body| == 2
    ensures r.body[0] == LocalDeclaration("var", "method",
              Invocation(GenericNamed("GetNativeMethod", DelegateName(m)), [Argument(NoRefKind, StringLiteral(m.name))]))
    ensures r.body[1].ExpressionStatement? <==> m.returnType == "void"
    ensures r.body[1].ReturnStatement? <==> m.returnType != "void"
    ensures r.body[1].expression == Invocation(Named("method"), ForwardedArguments(m.parameters))
  {
    var call := Invocation(Named("method"), ForwardedArguments(m.parameters));
    var lookup := LocalDeclaration("var", "method",
      Invocation(GenericNamed("GetNativeMethod", DelegateName(m)), [Argument(NoRefKind, StringLiteral(m.name))]));
    var last := if m.returnType == "void" then ExpressionStatement(call) else ReturnStatement(call);
    Method([PublicKeyword] + (if RequiresUnsafe(m) then [UnsafeKeyword] else []), m.returnType, m.name,
           m.parameters, [lookup, last])
  }

  /** The members the loop appends, one delegate and one forwarder per
      selected method, in order. */
  function ForwardingPairs(methods: seq<MethodDecl>): (r: seq<Member>)
    ensures |r| == 2 * |methods|
    decreases |methods|
  {
    if |methods| == 0 then []
    else
      var last := methods[|methods| - 1];
      ForwardingPairs(methods[..|methods| - 1]) + [DelegateFor(last), ForwarderFor(last)]
  }

  /** The `i`-th selected method owns positions `2i` and `2i + 1`. */
  lemma {:induction false} ForwardingPairsAt(methods: seq<MethodDecl>, i: nat)
    requires i < |methods|
    ensures ForwardingPairs(methods)[2 * i] == DelegateFor(methods[i])
    ensures ForwardingPairs(methods)[2 * i + 1] == ForwarderFor(methods[i])
    decreases |methods|
  {
    var n := |methods|;
    var front := ForwardingPairs(methods[..n - 1]);
    assert ForwardingPairs(methods) == front + [DelegateFor(methods[n - 1]), ForwarderFor(methods[n - 1])];
    if i < n - 1 {
      ForwardingPairsAt(methods[..n - 1], i);
      assert methods[..n - 1][i] == methods[i];
    }
  }

  /** The methods the transformation forwards, for a found class. */
  function Selected(nativeMethods: ClassInfo): seq<MethodDecl> {
    DllImports(DescendantMethods(nativeMethods.members))
  }

  const MissingClassMessage := "Could not find NativeMethods class in the provided code."

  /** `TransformDllImports` on a parsed compilation unit. It fails exactly
      when no class is named `NativeMethods`; otherwise the generated class
      holds the constructor followed by one delegate and one forwarder per
      DllImport method of the first such class. */
  function TransformDllImports(root: seq<Node>): (r: Result<ClassDeclaration, Exceptions.Exception>)
    ensures r.Failure? <==> forall i | 0 <= i < |DescendantClasses(root)| :: DescendantClasses(root)[i].name != "NativeMethods"
    ensures r.Failure? ==> r.error == Exceptions.InvalidOperation(MissingClassMessage)
    ensures r.Success? ==>
              var selected := Selected(FirstNamed(DescendantClasses(root), "NativeMethods").value);
              && r.value.name == "MagicNativeMethods"
              && r.value.modifiers == [PublicKeyword, PartialKeyword]
              && |r.value.members| == 1 + 2 * |selected|
              && r.value.members[0] == MagicNativeMethodsConstructor()
  {
    match FirstNamed(DescendantClasses(root), "NativeMethods")
    case None => Failure(Exceptions.InvalidOperation(MissingClassMessage))
    case Some(nativeMethods) =>
      var dllImportMethods := Selected(nativeMethods);
      Success(ClassDeclaration([PublicKeyword, PartialKeyword], "MagicNativeMethods",
                               [MagicNativeMethodsConstructor()] + ForwardingPairs(dllImportMethods)))
  }

  /** Member `1 + 2i` is the delegate and member `2 + 2i` the forwarder of the
      `i`-th selected method. */
  lemma TransformedMemberAt(root: seq<Node>, i: nat)
    requires TransformDllImports(root).Success?
    requires i < |Selected(FirstNamed(DescendantClasses(root), "NativeMethods").value)|
    ensures var selected := Selected(FirstNamed(DescendantClasses(root), "NativeMethods").value);
            var members := TransformDllImports(root).value.members;
            members[1 + 2 * i] == DelegateFor(selected[i]) && members[2 + 2 * i] == ForwarderFor(selected[i])
  {
    var selected := Selected(FirstNamed(DescendantClasses(root), "NativeMethods").value);
    assert TransformDllImports(root).value.members == [MagicNativeMethodsConstructor()] + ForwardingPairs(selected);
    AfterConstructorAt(MagicNativeMethodsConstructor(), selected, i);
  }

  lemma AfterConstructorAt(ctor: Member, methods: seq<MethodDecl>, i: nat)
    requires i < |methods|
    ensures ([ctor] + ForwardingPairs(methods))[1 + 2 * i] == DelegateFor(methods[i])
    ensures ([ctor] + ForwardingPairs(methods))[2 + 2 * i] == ForwarderFor(methods[i])
  {
    ForwardingPairsAt(methods, i);
  }

  /** Every forwarder binds the delegate declared right before it, and that
      delegate has the forwarder's own signature: the lookup cannot name a
      delegate of the wrong shape. */
  lemma LookupMatchesDelegate(root: seq<Node>, i: nat)
    requires TransformDllImports(root).Success?
    requires i < |Selected(FirstNamed(DescendantClasses(root), "NativeMethods").value)|
    ensures var members := TransformDllImports(root).value.members;
            var forwarder := members[2 + 2 * i];
            var delegate := members[1 + 2 * i];
            && forwarder.Method? && delegate.Delegate? && |forwarder.body| == 2
            && forwarder.body[0] == LocalDeclaration("var", "method",
                 Invocation(GenericNamed("GetNativeMethod", delegate.name), [Argument(NoRefKind, StringLiteral(forwarder.name))]))
            && delegate.returnType == forwarder.returnType && delegate.parameters == forwarder.parameters
            && (UnsafeKeyword in delegate.modifiers <==> UnsafeKeyword in forwarder.modifiers)
  {
    TransformedMemberAt(root, i);
  }

  /** The signature a forwarder exposes. */
  datatype Signature = Signature(returnType: string, name: string, parameters: seq<Parameter>)

  function SignatureOf(m: MethodDecl): Signature {
    Signature(m.returnType, m.name, m.parameters)
  }

  /** Reads back, in order, the signatures of the public methods of a
      generated class. */
  function ForwardedSignatures(members: seq<Member>): seq<Signature>
    decreases |members|
  {
    if |members| == 0 then []
    else
      var last := members[|members| - 1];
      ForwardedSignatures(members[..|members| - 1])
      + (if last.Method? then [Signature(last.returnType, last.name, last.parameters)] else [])
  }

  /** The generated class exposes exactly the signatures of the DllImport
      methods, in source order: nothing is lost, added or reordered. */
  lemma {:induction false} ForwardingPreservesSignatures(methods: seq<MethodDecl>)
    ensures ForwardedSignatures(ForwardingPairs(methods)) == seq(|methods|, k requires 0 <= k < |methods| => SignatureOf(methods[k]))
    decreases |methods|
  {
    var n := |methods|;
    if n > 0 {
      var front := methods[..n - 1];
      var pairs := ForwardingPairs(methods);
      assert pairs == ForwardingPairs(front) + [DelegateFor(methods[n - 1]), ForwarderFor(methods[n - 1])];
      assert ForwardedSignatures(pairs[..2 * n - 1]) == ForwardedSignatures(ForwardingPairs(front)) by {
        assert pairs[..2 * n - 1][..2 * n - 2] == ForwardingPairs(front);
      }
      assert ForwardedSignatures(ForwardingPairs(front))
             == seq(n - 1, k requires 0 <= k < n - 1 => SignatureOf(front[k])) by {
        ForwardingPreservesSignatures(front);
      }
    }
  }

  lemma TransformPreservesSignatures(root: seq<Node>)
    requires TransformDllImports(root).Success?
    ensures var selected := Selected(FirstNamed(DescendantClasses(root), "NativeMethods").value);
            ForwardedSignatures(TransformDllImports(root).value.members)
            == seq(|selected|, k requires 0 <= k < |selected| => SignatureOf(selected[k]))
  {
    var selected := Selected(FirstNamed(DescendantClasses(root), "NativeMethods").value);
    var members := TransformDllImports(root).value.members;
    ForwardingPreservesSignatures(selected);
    ForwardedSignaturesPrefix(MagicNativeMethodsConstructor(), ForwardingPairs(selected));
  }

  /** A leading constructor contributes no signature. */
  lemma {:induction false} ForwardedSignaturesPrefix(ctor: Member, members: seq<Member>)
    requires !ctor.Method?
    ensures ForwardedSignatures([ctor] + members) == ForwardedSignatures(members)
    decreases |members|
  {
    var n := |members|;
    if n == 0 {
      assert ([ctor] + members)[..0] == [];
    } else {
      ForwardedSignaturesPrefix(ctor, members[..n - 1]);
      assert ([ctor] + members)[..n] == [ctor] + members[..n - 1];
    }
  }

  /** Source in the shape of the ORT C API bindings: one DllImport, one plain
      helper. */
  const SampleImport := MethodDecl(["DllImport"], "IntPtr", "OgaCreateModel",
    [Parameter([], "byte[]", "configPath"), Parameter([OutKeyword], "IntPtr", "model")])
  const SampleHelper := MethodDecl([], "void", "Helper", [])
  const SampleMembers := [MethodNode(SampleImport), MethodNode(SampleHelper)]
  const SampleRoot := [OtherNode([ClassNode("NativeMethods", SampleMembers)])]

  /** The sample yields the constructor, the delegate and the forwarder; the
      helper is dropped and the `out` parameter is forwarded with `out`. */
  lemma SampleTransform()
    ensures var r := TransformDllImports(SampleRoot);
            && r.Success?
            && r.value.members == [MagicNativeMethodsConstructor(), DelegateFor(SampleImport), ForwarderFor(SampleImport)]
            && r.value.members[2].body[1].expression.arguments
               == [Argument(NoRefKind, IdentifierName("configPath")), Argument(OutRefKind, IdentifierName("model"))]
  {
    SampleFound();
    SampleSelected();
    assert ForwardingPairs([SampleImport]) == [DelegateFor(SampleImport), ForwarderFor(SampleImport)];
  }

  lemma SampleFound()
    ensures FirstNamed(DescendantClasses(SampleRoot), "NativeMethods") == Some(ClassInfo("NativeMethods", SampleMembers))
  {
    var nm := ClassNode("NativeMethods", SampleMembers);
    assert DescendantClasses([nm]) == [ClassInfo("NativeMethods", SampleMembers)] + DescendantClasses(SampleMembers);
    assert DescendantClasses([OtherNode([nm])]) == DescendantClasses([nm]);
  }

  lemma SampleSelected()
    ensures Selected(ClassInfo("NativeMethods", SampleMembers)) == [SampleImport]
  {
    assert Contains("DllImport", "DllImport") by {
      assert OccursAt("DllImport", "DllImport", 0);
    }
    assert SampleImport.attributes[0] == "DllImport";
    assert IsDllImport(SampleImport);
    assert !IsDllImport(SampleHelper);
    var body := SampleMembers;
    assert DescendantMethods(body[1..][1..]) == [];
    assert DescendantMethods(body[1..]) == [SampleHelper];
    assert DescendantMethods(body) == [SampleImport, SampleHelper];
    assert DllImports([SampleHelper]) == [];
    assert DllImports([SampleImport, SampleHelper]) == [SampleImport];
  }
}
