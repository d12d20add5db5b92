/** What the `@var` rule promises about the diagnostics it reports. */
module VarTagRuleProperties {
  import opened Wrappers
  import opened Types
  import opened Diagnostics
  import opened VarTagRule
  import opened Sequences

  const UnknownName := "Totally\\Unknown"

  /**
   Messages tell tags apart: two tags get the same identifier exactly when they are the
   same key or both are unnamed; tags with the same name and different types share one.
   */
  lemma IdentifierDistinguishesTags(a: TagKey, b: TagKey)
    ensures Identifier(a) == Identifier(b) <==> a == b || (a.Positional? && b.Positional?)
  {
    if a.Named? && b.Named? && Identifier(a) == Identifier(b) {
      var p := |VarTagIdentifier| + |ForVariable|;
      assert a.name == Identifier(a)[p..];
      assert b.name == Identifier(b)[p..];
    }
    if a.Named? != b.Named? {
      assert |Identifier(a)| != |Identifier(b)|;
    }
  }

  /**
   The four formats handed to the generic-object check name the tag through its
   identifier; the placeholders the check fills in stay as `%s` and `%d`.
   */
  lemma GenericMessagesFormats(id: string)
    ensures GenericMessages(id).NotGeneric()
         == id + " contains generic type %s but class %s is not generic."
    ensures GenericMessages(id).NotAllTemplates()
         == "Generic type %s in " + id + " does not specify all template types of class %s: %s"
    ensures GenericMessages(id).ExtraTemplates()
         == "Generic type %s in " + id
            + " specifies %d template types, but class %s supports only %d: %s"
    ensures GenericMessages(id).NotSubtype()
         == "Type %s in generic type %s in " + id
            + " is not subtype of template type %s of class %s."
  {
  }

  /** Each iterable type missing its value type gets its own diagnostic, with the tip, in order. */
  lemma {:induction false} MissingIterableDiagnosticsContents(id: string, iterables: seq<Type>,
                                                             describe: Type -> string, i: int)
    requires 0 <= i < |iterables|
    ensures MissingIterableDiagnostics(id, iterables, describe)[i]
         == MissingIterableDiagnostic(id, describe(iterables[i]))
    ensures MissingIterableDiagnostics(id, iterables, describe)[i].tip == Some(MissingIterableValueTypeTip)
    decreases |iterables|
  {
    var n := |iterables| - 1;
    if i < n {
      MissingIterableDiagnosticsContents(id, iterables[..n], describe, i);
    }
  }

  /** Each generic class used without its types gets its own diagnostic, with the tip, in order. */
  lemma {:induction false} NonGenericDiagnosticsContents(id: string, uses: seq<NonGenericUse>,
                                                         i: int)
    requires 0 <= i < |uses|
    ensures NonGenericDiagnostics(id, uses)[i] == NonGenericDiagnostic(id, uses[i])
    ensures NonGenericDiagnostics(id, uses)[i].tip == Some(NonGenericCheckTip)
    decreases |uses|
  {
    var n := |uses| - 1;
    if i < n {
      NonGenericDiagnosticsContents(id, uses[..n], i);
    }
  }

  /** The referenced-class diagnostics of a concatenation are those of its parts, in order. */
  lemma {:induction false} ReferencedClassDiagnosticsConcat(id: string, a: seq<string>,
                                                            b: seq<string>,
                                                            hasClass: string -> bool,
                                                            isTrait: string -> bool)
    ensures ReferencedClassDiagnostics(id, a + b, hasClass, isTrait)
         == ReferencedClassDiagnostics(id, a, hasClass, isTrait)
            + ReferencedClassDiagnostics(id, b, hasClass, isTrait)
    decreases |b|
  {
    if |b| == 0 {
      assert a + b == a;
    } else {
      var n := |b| - 1;
      assert (a + b)[..|a + b| - 1] == a + b[..n];
      ReferencedClassDiagnosticsConcat(id, a, b[..n], hasClass, isTrait);
    }
  }

  /** One class on its own contributes exactly what `ClassProblem` finds for it. */
  lemma ReferencedClassDiagnosticsSingle(id: string, className: string,
                                         hasClass: string -> bool, isTrait: string -> bool)
    ensures ReferencedClassDiagnostics(id, [className], hasClass, isTrait)
         == OptionToSeq(ClassProblem(id, className, hasClass, isTrait))
  {
    assert [className][..0] == [];
  }

  /**
   A known class that is not a trait is silent: removing it from the referenced classes
   changes nothing.
   */
  lemma KnownClassIsSilent(id: string, before: seq<string>, className: string,
                           after: seq<string>, hasClass: string -> bool, isTrait: string -> bool)
    requires hasClass(className) && !isTrait(className)
    ensures ReferencedClassDiagnostics(id, before + [className] + after, hasClass, isTrait)
         == ReferencedClassDiagnostics(id, before + after, hasClass, isTrait)
  {
    ReferencedClassDiagnosticsConcat(id, before + [className], after, hasClass, isTrait);
    ReferencedClassDiagnosticsConcat(id, before, [className], hasClass, isTrait);
    ReferencedClassDiagnosticsSingle(id, className, hasClass, isTrait);
    ReferencedClassDiagnosticsConcat(id, before, after, hasClass, isTrait);
  }

  /**
   Every referenced-class diagnostic is the problem of some referenced class, and every
   class with a problem (a trait, or an unknown class) is reported.
   */
  lemma {:induction false} ReferencedClassDiagnosticsExact(id: string, classes: seq<string>,
                                                           hasClass: string -> bool,
                                                           isTrait: string -> bool)
    ensures forall d :: d in ReferencedClassDiagnostics(id, classes, hasClass, isTrait) ==>
              exists i :: 0 <= i < |classes| && ClassProblem(id, classes[i], hasClass, isTrait) == Some(d)
    ensures forall i :: 0 <= i < |classes| && ClassProblem(id, classes[i], hasClass, isTrait).Some? ==>
              ClassProblem(id, classes[i], hasClass, isTrait).value
                in ReferencedClassDiagnostics(id, classes, hasClass, isTrait)
    decreases |classes|
  {
    if |classes| > 0 {
      var n := |classes| - 1;
      var prefix := classes[..n];
      ReferencedClassDiagnosticsExact(id, prefix, hasClass, isTrait);
      assert forall i :: 0 <= i < n ==> prefix[i] == classes[i];
    }
  }

  /**
   An unknown referenced class is reported as a discovered unknown symbol, with its name
   in the message verbatim.
   */
  lemma UnknownClassReported(id: string, classes: seq<string>, i: int,
                             hasClass: string -> bool, isTrait: string -> bool)
    requires 0 <= i < |classes| && !hasClass(classes[i])
    ensures var d := UnknownClassDiagnostic(id, classes[i]);
            && d in ReferencedClassDiagnostics(id, classes, hasClass, isTrait)
            && d.tip == Some(DiscoveringSymbolsTip)
            && d.message == id + UnknownClassPhrase + classes[i] + "."
  {
    ReferencedClassDiagnosticsExact(id, classes, hasClass, isTrait);
  }

  /**
   A tag with an unresolvable type yields one diagnostic on the doc comment's start line,
   and no other collaborator or configuration flag has any say.
   */
  lemma UnresolvableTagShortCircuits(tag: VarTag, node: Node, doc: DocComment,
                                     c: Collaborators, cfg: Config,
                                     c': Collaborators, cfg': Config)
    requires c.containsUnresolvable(tag.tagType) && c'.containsUnresolvable(tag.tagType)
    ensures TagDiagnostics(tag, node, doc, c, cfg) == TagDiagnostics(tag, node, doc, c', cfg')
    ensures TagDiagnostics(tag, node, doc, c, cfg)
         == [Diagnostic(Identifier(tag.key) + " contains unresolvable type.",
                        Some(doc.startLine), None)]
  {
  }

  /**
   Missing iterable value types are only asked about when the configuration says so:
   with the flag off, that collaborator cannot change the result; with it on, its
   diagnostics open the tag's list.
   */
  lemma MissingIterablesOnlyWhenConfigured(tag: VarTag, node: Node, doc: DocComment,
                                           c: Collaborators, cfg: Config,
                                           other: Type -> seq<Type>)
    ensures !cfg.checkMissingVarTagTypehint ==>
              (TagDiagnostics(tag, node, doc, c, cfg)
               == TagDiagnostics(tag, node, doc, c.(iterablesMissingValueType := other), cfg))
    ensures cfg.checkMissingVarTagTypehint && !c.containsUnresolvable(tag.tagType) ==>
              (MissingIterableDiagnostics(Identifier(tag.key),
                                          c.iterablesMissingValueType(tag.tagType), c.describe)
               <= TagDiagnostics(tag, node, doc, c, cfg))
  {
  }

  /**
   Class-name case is only checked when the configuration says so: with the flag off,
   the case checker cannot change the result; with it on, its answer for the referenced
   classes closes the tag's list.
   */
  lemma CaseCheckOnlyWhenConfigured(tag: VarTag, node: Node, doc: DocComment,
                                    c: Collaborators, cfg: Config,
                                    other: seq<ClassNameNodePair> -> seq<Diagnostic>)
    ensures !cfg.checkClassCaseSensitivity ==>
              (TagDiagnostics(tag, node, doc, c, cfg)
               == TagDiagnostics(tag, node, doc, c.(checkClassNames := other), cfg))
    ensures cfg.checkClassCaseSensitivity && !c.containsUnresolvable(tag.tagType) ==>
              var r := TagDiagnostics(tag, node, doc, c, cfg);
              var cs := c.checkClassNames(ClassNameNodePairs(ReferencedClasses(tag.tagType), node));
              |cs| <= |r| && r[|r| - |cs|..] == cs
  {
  }

  /**
   Within one resolvable tag the groups come in a fixed order: missing iterable value
   types, the generic-object check, generic classes without types, referenced classes,
   class-name case. Each group occupies its own contiguous slice.
   */
  lemma WithinTagOrder(tag: VarTag, node: Node, doc: DocComment, c: Collaborators, cfg: Config)
    requires !c.containsUnresolvable(tag.tagType)
    ensures
      var id, t := Identifier(tag.key), tag.tagType;
      var m := MissingSection(id, t, c, cfg);
      var g := c.genericObjectCheck(t, GenericMessages(id));
      var n := NonGenericDiagnostics(id, c.nonGenericObjectTypes(t));
      var rc := ReferencedClassDiagnostics(id, ReferencedClasses(t), c.hasClass, c.isTrait);
      var cs := CaseSection(ReferencedClasses(t), node, c, cfg);
      var r := TagDiagnostics(tag, node, doc, c, cfg);
      var a, b, e, f := |m|, |m| + |g|, |m| + |g| + |n|, |m| + |g| + |n| + |rc|;
      && |r| == f + |cs|
      && r[..a] == m
      && r[a..b] == g
      && r[b..e] == n
      && r[e..f] == rc
      && r[f..] == cs
  {
    var id, t := Identifier(tag.key), tag.tagType;
    var m := MissingSection(id, t, c, cfg);
    var g := c.genericObjectCheck(t, GenericMessages(id));
    var n := NonGenericDiagnostics(id, c.nonGenericObjectTypes(t));
    var rc := ReferencedClassDiagnostics(id, ReferencedClasses(t), c.hasClass, c.isTrait);
    var cs := CaseSection(ReferencedClasses(t), node, c, cfg);
    ResolvableTag(tag, node, doc, c, cfg);
    assert ResolvableTagDiagnostics(id, t, node, c, cfg) == m + g + n + rc + cs;
    FiveSlices(m, g, n, rc, cs);
  }

  /** A tag whose type is resolvable gets exactly the resolvable-tag groups. */
  lemma ResolvableTag(tag: VarTag, node: Node, doc: DocComment, c: Collaborators, cfg: Config)
    requires !c.containsUnresolvable(tag.tagType)
    ensures TagDiagnostics(tag, node, doc, c, cfg)
         == ResolvableTagDiagnostics(Identifier(tag.key), tag.tagType, node, c, cfg)
  {
  }

  /** Each part of a five-way concatenation is the slice at its offset. */
  lemma FiveSlices<T>(m: seq<T>, g: seq<T>, n: seq<T>, rc: seq<T>, cs: seq<T>)
    ensures
      var r := m + g + n + rc + cs;
      var a, b, e, f := |m|, |m| + |g|, |m| + |g| + |n|, |m| + |g| + |n| + |rc|;
      && |r| == f + |cs|
      && r[..a] == m
      && r[a..b] == g
      && r[b..e] == n
      && r[e..f] == rc
      && r[f..] == cs
  {
  }

  /** The diagnostics of a concatenation of tag lists are those of its parts, in order. */
  lemma TagsDiagnosticsConcat(a: seq<VarTag>, b: seq<VarTag>, node: Node, doc: DocComment,
                              c: Collaborators, cfg: Config)
    ensures TagsDiagnostics(a + b, node, doc, c, cfg)
         == TagsDiagnostics(a, node, doc, c, cfg) + TagsDiagnostics(b, node, doc, c, cfg)
  {
    FlattenAppend(a, b, tag => TagDiagnostics(tag, node, doc, c, cfg));
  }

  /**
   Tag order is kept: the diagnostics of tag `i` come after those of every earlier tag
   and before those of every later one.
   */
  lemma TagOrderIsKept(tags: seq<VarTag>, i: int, node: Node, doc: DocComment,
                       c: Collaborators, cfg: Config)
    requires 0 <= i < |tags|
    ensures TagsDiagnostics(tags, node, doc, c, cfg)
         == TagsDiagnostics(tags[..i], node, doc, c, cfg)
            + TagDiagnostics(tags[i], node, doc, c, cfg)
            + TagsDiagnostics(tags[i + 1..], node, doc, c, cfg)
  {
    var f := tag => TagDiagnostics(tag, node, doc, c, cfg);
    assert tags == tags[..i] + [tags[i]] + tags[i + 1..];
    FlattenAppend(tags[..i] + [tags[i]], tags[i + 1..], f);
    FlattenAppend(tags[..i], [tags[i]], f);
    FlattenSingle(tags[i], f);
  }

  /**
   The unknown-class scenario: a `@var Totally\Unknown $x` tag whose class the reflection
   provider does not know yields a discovered-unknown-symbol diagnostic that embeds the
   class name verbatim.
   */
  lemma UnknownClassScenario(node: Node, doc: DocComment, c: Collaborators, cfg: Config)
    requires !c.containsUnresolvable(ObjectT(UnknownName, []))
    requires !c.hasClass(UnknownName)
    ensures exists d :: d in TagDiagnostics(VarTag(Named("x"), ObjectT(UnknownName, [])),
                                            node, doc, c, cfg)
                        && d.tip == Some(DiscoveringSymbolsTip)
                        && d.message == VarTagIdentifier + ForVariable + "x"
                                        + UnknownClassPhrase + UnknownName + "."
                        && d.message[|VarTagIdentifier + ForVariable + "x" + UnknownClassPhrase|..]
                                    [..|UnknownName|] == UnknownName
  {
    var t := ObjectT(UnknownName, []);
    var tag := VarTag(Named("x"), t);
    var id := Identifier(Named("x"));
    var classes := ReferencedClasses(t);
    assert classes == [UnknownName];
    UnknownClassReported(id, classes, 0, c.hasClass, c.isTrait);
    var d := UnknownClassDiagnostic(id, UnknownName);
    var rc := ReferencedClassDiagnostics(id, classes, c.hasClass, c.isTrait);
    var before := MissingSection(id, t, c, cfg)
                  + c.genericObjectCheck(t, GenericMessages(id))
                  + NonGenericDiagnostics(id, c.nonGenericObjectTypes(t));
    assert TagDiagnostics(tag, node, doc, c, cfg) == before + rc + CaseSection(classes, node, c, cfg);
    InMiddle(d, before, rc, CaseSection(classes, node, c, cfg));
    var p := id + UnknownClassPhrase;
    assert d.message == p + UnknownName + ".";
    assert d.message[|p|..][..|UnknownName|] == UnknownName;
  }

  lemma InMiddle<T>(x: T, a: seq<T>, b: seq<T>, c: seq<T>)
    requires x in b
    ensures x in a + b + c
  {
    var k :| 0 <= k < |b| && b[k] == x;
    assert (a + b + c)[|a| + k] == x;
  }
}
