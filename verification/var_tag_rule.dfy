/**
 The rule that validates the types written in `@var` PHPDoc tags on statements.
 Every collaborator the rule consults is a pure function handed in through
 `Collaborators`, so `ProcessNode` is a deterministic map from its inputs to an
 ordered list of diagnostics.
 */
module VarTagRule {
  import opened Wrappers
  import opened Types
  import opened Diagnostics
  import opened Sequences

  /** The statement kinds the rule tells apart; every other statement is `OtherStmt`. */
  datatype NodeKind = PropertyStmt | PropertyPropertyStmt | ClassConstStmt | ConstStmt | OtherStmt

  datatype DocComment = DocComment(text: string, startLine: int)

  datatype Node = Node(kind: NodeKind, docComment: Option<DocComment>)

  /** What the analysis scope tells the rule about where the node sits. */
  datatype Scope = Scope(file: string, className: Option<string>, traitName: Option<string>,
                         functionName: Option<string>)

  /** The arguments of `FileTypeMapper::getResolvedPhpDoc`. */
  datatype PhpDocKey = PhpDocKey(file: string, className: Option<string>,
                                 traitName: Option<string>, functionName: Option<string>,
                                 text: string)

  /** The key of a resolved `@var` tag: a variable name, or a position when no name is written. */
  datatype TagKey = Named(name: string) | Positional(index: int)

  datatype VarTag = VarTag(key: TagKey, tagType: Type)

  /** The resolved `@var` tags of one doc comment, in the order they were written. */
  datatype ResolvedPhpDoc = ResolvedPhpDoc(varTags: seq<VarTag>)

  datatype ClassNameNodePair = ClassNameNodePair(className: string, node: Node)

  /** A generic class used without type arguments, with the names of its templates. */
  datatype NonGenericUse = NonGenericUse(innerName: string, genericTypeNames: seq<string>)

  /**
   The four message formats handed to `GenericObjectTypeCheck::check`; each is fixed by the
   identifier of the tag being checked.
   */
  datatype GenericMessages = GenericMessages(identifier: string) {
    function NotGeneric(): string
    {
      identifier + " contains generic type %s but class %s is not generic."
    }

    function NotAllTemplates(): string
    {
      "Generic type %s in " + identifier + " does not specify all template types of class %s: %s"
    }

    function ExtraTemplates(): string
    {
      "Generic type %s in " + identifier
      + " specifies %d template types, but class %s supports only %d: %s"
    }

    function NotSubtype(): string
    {
      "Type %s in generic type %s in " + identifier + " is not subtype of template type %s of class %s."
    }
  }

  /** The rule's injected services, each reduced to the answers the rule asks of it. */
  datatype Collaborators = Collaborators(
    resolvePhpDoc: PhpDocKey -> ResolvedPhpDoc,                   // FileTypeMapper
    containsUnresolvable: Type -> bool,                           // UnresolvableTypeHelper
    iterablesMissingValueType: Type -> seq<Type>,                 // MissingTypehintCheck
    nonGenericObjectTypes: Type -> seq<NonGenericUse>,            // MissingTypehintCheck
    genericObjectCheck: (Type, GenericMessages) -> seq<Diagnostic>,  // GenericObjectTypeCheck
    hasClass: string -> bool,                                     // ReflectionProvider
    isTrait: string -> bool,                                      // getClass(..)->isTrait()
    checkClassNames: seq<ClassNameNodePair> -> seq<Diagnostic>,   // ClassCaseSensitivityCheck
    describe: Type -> string)                                     // describe(typeOnly())

  datatype Config = Config(checkClassCaseSensitivity: bool, checkMissingVarTagTypehint: bool)

  /** Statements whose `@var` tags other rules validate. */
  predicate IsSkippedKind(k: NodeKind)
  {
    k.PropertyStmt? || k.PropertyPropertyStmt? || k.ClassConstStmt? || k.ConstStmt?
  }

  function KeyFor(scope: Scope, doc: DocComment): PhpDocKey
  {
    PhpDocKey(scope.file, scope.className, scope.traitName, scope.functionName, doc.text)
  }

  const VarTagIdentifier := "PHPDoc tag @var"
  const ForVariable := " for variable $"

  /** The phrase naming a tag in every message: the variable is named only for string keys. */
  function Identifier(key: TagKey): (id: string)
    ensures VarTagIdentifier <= id
    ensures key.Positional? ==> id == VarTagIdentifier
    ensures key.Named? ==> id[|VarTagIdentifier|..] == ForVariable + key.name
  {
    match key
    case Named(name) => VarTagIdentifier + ForVariable + name
    case Positional(_) => VarTagIdentifier
  }

  /** The fixed phrases of the messages the rule builds itself, between the substituted parts. */
  const UnresolvablePhrase := " contains unresolvable type."
  const MissingIterablePhrase := " has no value type specified in iterable type "
  const NonGenericPhrase := " contains generic "
  const NonGenericTypesPhrase := " but does not specify its types: "
  const TemplateSeparator := ", "
  const InvalidTypePhrase := " has invalid type "
  const UnknownClassPhrase := " contains unknown class "

  /** The error for a tag whose type cannot be resolved, placed on the doc comment's first line. */
  function UnresolvableDiagnostic(id: string, line: int): (d: Diagnostic)
    ensures d.message == id + UnresolvablePhrase
    ensures d.line == Some(line) && d.tip.None?
  {
    Diagnostic(id + UnresolvablePhrase, Some(line), None)
  }

  /** The error for one iterable type written without its value type. */
  function MissingIterableDiagnostic(id: string, description: string): (d: Diagnostic)
    ensures d.message == id + MissingIterablePhrase + description + "."
    ensures d.line.None? && d.tip == Some(MissingIterableValueTypeTip)
  {
    Diagnostic(id + MissingIterablePhrase + description + ".", None, Some(MissingIterableValueTypeTip))
  }

  /** The error for a generic class used without type arguments, listing its templates. */
  function NonGenericDiagnostic(id: string, use: NonGenericUse): (d: Diagnostic)
    ensures d.message == id + NonGenericPhrase + use.innerName + NonGenericTypesPhrase
                         + Implode(TemplateSeparator, use.genericTypeNames)
    ensures d.line.None? && d.tip == Some(NonGenericCheckTip)
  {
    Diagnostic(id + NonGenericPhrase + use.innerName + NonGenericTypesPhrase
               + Implode(TemplateSeparator, use.genericTypeNames),
               None, Some(NonGenericCheckTip))
  }

  /** The error for a trait written where a type is expected. */
  function TraitDiagnostic(id: string, className: string): (d: Diagnostic)
    ensures d.message == id + InvalidTypePhrase + className + "."
    ensures d.line.None? && d.tip.None?
  {
    Message(id + InvalidTypePhrase + className + ".")
  }

  /** The error for a class the reflection provider does not know, with the discovering-symbols tip. */
  function UnknownClassDiagnostic(id: string, className: string): (d: Diagnostic)
    ensures d.message == id + UnknownClassPhrase + className + "."
    ensures d.line.None? && d.tip == Some(DiscoveringSymbolsTip)
  {
    Diagnostic(id + UnknownClassPhrase + className + ".", None, Some(DiscoveringSymbolsTip))
  }

  /**
   The three-way classification of one referenced class: a known class that is not a
   trait is fine, a known trait is an invalid type, and an unknown class is reported as a
   discovered unknown symbol.
   */
  function ClassProblem(id: string, className: string, hasClass: string -> bool,
                        isTrait: string -> bool): (r: Option<Diagnostic>)
    ensures r.None? <==> hasClass(className) && !isTrait(className)
    ensures r.Some? ==> r.value.line.None?
    ensures r.Some? ==> (r.value.tip == Some(DiscoveringSymbolsTip) <==> !hasClass(className))
    ensures r.Some? ==> (r.value.tip.None? <==> hasClass(className))
    ensures hasClass(className) && isTrait(className) ==>
              r == Some(TraitDiagnostic(id, className))
    ensures !hasClass(className) ==> r == Some(UnknownClassDiagnostic(id, className))
  {
    if hasClass(className) then
      if isTrait(className) then Some(TraitDiagnostic(id, className)) else None
    else
      Some(UnknownClassDiagnostic(id, className))
  }

  /** One diagnostic per iterable type reported as missing its value type, in order. */
  function MissingIterableDiagnostics(id: string, iterables: seq<Type>,
                                      describe: Type -> string): (r: seq<Diagnostic>)
    ensures |r| == |iterables|
  {
    if |iterables| == 0 then []
    else
      var n := |iterables| - 1;
      MissingIterableDiagnostics(id, iterables[..n], describe)
        + [MissingIterableDiagnostic(id, describe(iterables[n]))]
  }

  /** One diagnostic per generic class used without its type arguments, in order. */
  function NonGenericDiagnostics(id: string, uses: seq<NonGenericUse>): (r: seq<Diagnostic>)
    ensures |r| == |uses|
  {
    if |uses| == 0 then []
    else
      var n := |uses| - 1;
      NonGenericDiagnostics(id, uses[..n]) + [NonGenericDiagnostic(id, uses[n])]
  }

  /** The problems `ClassProblem` finds among the referenced classes, in order. */
  function ReferencedClassDiagnostics(id: string, classes: seq<string>,
                                      hasClass: string -> bool,
                                      isTrait: string -> bool): (r: seq<Diagnostic>)
    ensures |r| <= |classes|
  {
    if |classes| == 0 then []
    else
      var n := |classes| - 1;
      var prefix := ReferencedClassDiagnostics(id, classes[..n], hasClass, isTrait);
      var last := ClassProblem(id, classes[n], hasClass, isTrait);
      prefix + OptionToSeq(last)
  }

  /** `array_map` of the referenced classes into `ClassNameNodePair`s for the node. */
  function ClassNameNodePairs(classes: seq<string>, node: Node): (pairs: seq<ClassNameNodePair>)
    ensures |pairs| == |classes|
    ensures forall i :: 0 <= i < |classes| ==> pairs[i] == ClassNameNodePair(classes[i], node)
  {
    seq(|classes|, i requires 0 <= i < |classes| => ClassNameNodePair(classes[i], node))
  }

  /**
   The diagnostics of a tag whose type is resolvable, in the order the rule appends them:
   missing iterable value types (when configured), the generic-object check, generic
   classes used without types, the referenced classes, and class-name case (when configured).
   */
  function ResolvableTagDiagnostics(id: string, t: Type, node: Node, c: Collaborators,
                                    cfg: Config): seq<Diagnostic>
  {
    var classes := ReferencedClasses(t);
    MissingSection(id, t, c, cfg)
    + c.genericObjectCheck(t, GenericMessages(id))
    + NonGenericDiagnostics(id, c.nonGenericObjectTypes(t))
    + ReferencedClassDiagnostics(id, classes, c.hasClass, c.isTrait)
    + CaseSection(classes, node, c, cfg)
  }

  /** The missing-iterable group, present only when the configuration asks for it. */
  function MissingSection(id: string, t: Type, c: Collaborators, cfg: Config): seq<Diagnostic>
  {
    if cfg.checkMissingVarTagTypehint
    then MissingIterableDiagnostics(id, c.iterablesMissingValueType(t), c.describe)
    else []
  }

  /** The class-name case group, present only when the configuration asks for it. */
  function CaseSection(classes: seq<string>, node: Node, c: Collaborators, cfg: Config)
    : seq<Diagnostic>
  {
    if cfg.checkClassCaseSensitivity
    then c.checkClassNames(ClassNameNodePairs(classes, node))
    else []
  }

  /** The diagnostics of one `@var` tag: an unresolvable type stops at one diagnostic. */
  function TagDiagnostics(tag: VarTag, node: Node, doc: DocComment, c: Collaborators,
                          cfg: Config): seq<Diagnostic>
  {
    var id := Identifier(tag.key);
    if c.containsUnresolvable(tag.tagType) then
      [UnresolvableDiagnostic(id, doc.startLine)]
    else
      ResolvableTagDiagnostics(id, tag.tagType, node, c, cfg)
  }

  /** The diagnostics of a sequence of tags: each tag's diagnostics, in tag order. */
  function TagsDiagnostics(tags: seq<VarTag>, node: Node, doc: DocComment, c: Collaborators,
                           cfg: Config): seq<Diagnostic>
  {
    Flatten(tags, tag => TagDiagnostics(tag, node, doc, c, cfg))
  }

  /** The inner loop over the iterable types missing a value type. */
  method AppendMissingIterables(acc: seq<Diagnostic>, id: string, iterables: seq<Type>,
                                describe: Type -> string) returns (errors: seq<Diagnostic>)
    ensures errors == acc + MissingIterableDiagnostics(id, iterables, describe)
  {
    errors := acc;
    for j := 0 to |iterables|
      invariant errors == acc + MissingIterableDiagnostics(id, iterables[..j], describe)
    {
      assert iterables[..j + 1][..j] == iterables[..j];
      errors := errors + [MissingIterableDiagnostic(id, describe(iterables[j]))];
    }
    assert iterables[..|iterables|] == iterables;
  }

  /** The inner loop over generic classes used without type arguments. */
  method AppendNonGenericUses(acc: seq<Diagnostic>, id: string, uses: seq<NonGenericUse>)
    returns (errors: seq<Diagnostic>)
    ensures errors == acc + NonGenericDiagnostics(id, uses)
  {
    errors := acc;
    for j := 0 to |uses|
      invariant errors == acc + NonGenericDiagnostics(id, uses[..j])
    {
      assert uses[..j + 1][..j] == uses[..j];
      errors := errors + [NonGenericDiagnostic(id, uses[j])];
    }
    assert uses[..|uses|] == uses;
  }

  /** The inner loop over referenced classes, with its `continue` for known classes. */
  method AppendReferencedClasses(acc: seq<Diagnostic>, id: string, classes: seq<string>,
                                 hasClass: string -> bool, isTrait: string -> bool)
    returns (errors: seq<Diagnostic>)
    ensures errors == acc + ReferencedClassDiagnostics(id, classes, hasClass, isTrait)
  {
    errors := acc;
    for j := 0 to |classes|
      invariant errors == acc + ReferencedClassDiagnostics(id, classes[..j], hasClass, isTrait)
    {
      assert classes[..j + 1][..j] == classes[..j];
      var className := classes[j];
      if hasClass(className) {
        if isTrait(className) {
          errors := errors + [TraitDiagnostic(id, className)];
        }
        continue;
      }
      errors := errors + [UnknownClassDiagnostic(id, className)];
    }
    assert classes[..|classes|] == classes;
  }

  /** The body of the loop over tags; each `continue` of the source is a `return` here. */
  method AppendTag(acc: seq<Diagnostic>, tag: VarTag, node: Node, doc: DocComment,
                   c: Collaborators, cfg: Config) returns (errors: seq<Diagnostic>)
    ensures errors == acc + TagDiagnostics(tag, node, doc, c, cfg)
  {
    var t := tag.tagType;
    var id := Identifier(tag.key);
    if c.containsUnresolvable(t) {
      return acc + [UnresolvableDiagnostic(id, doc.startLine)];
    }
    errors := AppendResolvableTag(acc, id, t, node, c, cfg);
  }

  /** The rest of the loop body, once the tag's type is known to be resolvable. */
  method AppendResolvableTag(acc: seq<Diagnostic>, id: string, t: Type, node: Node,
                             c: Collaborators, cfg: Config) returns (errors: seq<Diagnostic>)
    ensures errors == acc + ResolvableTagDiagnostics(id, t, node, c, cfg)
  {
    var classes := ReferencedClasses(t);
    errors := AppendTypeChecks(acc, id, t, c, cfg);
    errors := AppendClassChecks(errors, id, classes, node, c, cfg);
    AppendIsAssociative(acc, MissingSection(id, t, c, cfg),
                        c.genericObjectCheck(t, GenericMessages(id)),
                        NonGenericDiagnostics(id, c.nonGenericObjectTypes(t)),
                        ReferencedClassDiagnostics(id, classes, c.hasClass, c.isTrait),
                        CaseSection(classes, node, c, cfg));
  }

  /** The checks on the tag's type: missing iterable value types, generics, generic classes without types. */
  method AppendTypeChecks(acc: seq<Diagnostic>, id: string, t: Type, c: Collaborators,
                          cfg: Config) returns (errors: seq<Diagnostic>)
    ensures errors == acc + MissingSection(id, t, c, cfg)
                          + c.genericObjectCheck(t, GenericMessages(id))
                          + NonGenericDiagnostics(id, c.nonGenericObjectTypes(t))
  {
    errors := acc;
    if cfg.checkMissingVarTagTypehint {
      errors := AppendMissingIterables(errors, id, c.iterablesMissingValueType(t), c.describe);
    }
    errors := errors + c.genericObjectCheck(t, GenericMessages(id));
    errors := AppendNonGenericUses(errors, id, c.nonGenericObjectTypes(t));
  }

  /** The checks on the referenced classes: existence and traits, then (when configured) case. */
  method AppendClassChecks(acc: seq<Diagnostic>, id: string, classes: seq<string>, node: Node,
                           c: Collaborators, cfg: Config) returns (errors: seq<Diagnostic>)
    ensures errors == acc + ReferencedClassDiagnostics(id, classes, c.hasClass, c.isTrait)
                          + CaseSection(classes, node, c, cfg)
  {
    errors := AppendReferencedClasses(acc, id, classes, c.hasClass, c.isTrait);
    if !cfg.checkClassCaseSensitivity {
      return;
    }
    errors := errors + c.checkClassNames(ClassNameNodePairs(classes, node));
  }

  lemma AppendIsAssociative<T>(acc: seq<T>, m: seq<T>, g: seq<T>, n: seq<T>, rc: seq<T>,
                               cs: seq<T>)
    ensures acc + m + g + n + (rc + cs) == acc + (m + g + n + rc + cs)
  {
  }

  /**
   `processNode`, following the source's control flow: the early exits, then one pass
   over the resolved tags that appends to a single list.
   */
  method ProcessNode(node: Node, scope: Scope, c: Collaborators, cfg: Config)
    returns (errors: seq<Diagnostic>)
    ensures IsSkippedKind(node.kind) ==> errors == []
    ensures node.docComment.None? ==> errors == []
    ensures !IsSkippedKind(node.kind) && node.docComment.Some? ==>
              var doc := node.docComment.value;
              errors == TagsDiagnostics(c.resolvePhpDoc(KeyFor(scope, doc)).varTags,
                                        node, doc, c, cfg)
  {
    if IsSkippedKind(node.kind) {
      return [];
    }
    if node.docComment.None? {
      return [];
    }
    var doc := node.docComment.value;
    var resolved := c.resolvePhpDoc(KeyFor(scope, doc));
    var tags := resolved.varTags;

    errors := [];
    for i := 0 to |tags|
      invariant errors == TagsDiagnostics(tags[..i], node, doc, c, cfg)
    {
      assert tags[..i + 1][..i] == tags[..i];
      errors := AppendTag(errors, tags[i], node, doc, c, cfg);
    }
    assert tags[..|tags|] == tags;
  }
}
