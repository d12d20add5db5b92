# PHPStan: `array_flip` return type and the `@var` tag rule, in Dafny

This project models two small pieces of PHPStan's type-level logic and proves what they
promise.

- **`ArrayFlipFunctionReturnTypeExtension`** is a dynamic return-type extension. It infers
  the type of an `array_flip($a)` call. When `$a` is definitely an array, the result is an
  array keyed by `$a`'s value type (cast to a legal array key type) and valued by `$a`'s key
  type. The non-empty accessory is added only when `$a` is definitely iterated at least once.
  In every other case the function's declared return type is used.
- **`InvalidPhpDocVarTagTypeRule`** validates the types written in `@var` PHPDoc tags on
  statements. `processNode` maps a statement to an ordered list of rule errors:
  - unresolvable types;
  - iterables without a value type;
  - generic-type problems;
  - generic classes used without type arguments;
  - unknown classes and traits used as types;
  - class-name case mismatches.

Modules:

- `Wrappers`: `Option`.
- `Sequences`: `Flatten`, the left fold of an accumulating loop, and its concatenation lemma.
- `TrinaryLogic`: the three answers Yes, Maybe and No of PHPStan's `TrinaryLogic`.
- `Types`: a small algebraic `Type` with the `Type` methods the two core classes call:
  `isArray`, `isIterableAtLeastOnce`, `getIterableKeyType`, `getIterableValueType` and
  `getReferencedClasses`.
- `ArrayFlip`: the extension and its properties.
- `Diagnostics`: rule errors as `RuleErrorBuilder` builds them.
- `VarTagRule`: the rule. Its collaborators are pure functions in a `Collaborators` record:
  - the file type mapper;
  - the unresolvable-type helper;
  - the missing-typehint check;
  - the generic-object check;
  - the reflection provider;
  - the class-case check;
  - `describe`.

  The two configuration flags are a `Config` record. `ProcessNode` follows the source's
  control flow: early exits, one loop over tags, and inner loops that `continue`. Its
  contract equates the result with `TagsDiagnostics`. `TagsDiagnostics` is a declarative
  fold that states the ordering: tag by tag, and group by group within a tag.
- `VarTagRuleProperties`: the rule's promises, stated over that declarative form.

Rule errors in PHPStan may carry a machine-readable identifier. This rule never sets one,
so `Diagnostic` has no such field.

## Model

| member | source | states |
|---|---|---|
| ArrayFlip.IsFunctionSupported | src/Type/Php/ArrayFlipFunctionReturnTypeExtension.php:17-20 | The extension supports a function exactly when its name is `array_flip`. |
| ArrayFlip.GetTypeFromFunctionCall | src/Type/Php/ArrayFlipFunctionReturnTypeExtension.php:22-50 | With an argument count other than one, the result is the declared return type. If `isArray()` of the single argument is Maybe or No, the result is also the declared return type. If it is Yes, the result is an array: its key type is the key cast of the source value type, its value type is the source key type with no cast, and it is non-empty exactly when `isIterableAtLeastOnce()` is Yes. |
| ArrayFlip.FlipDependsOnlyOnArgumentType | src/Type/Php/ArrayFlipFunctionReturnTypeExtension.php:22-50 | Two scopes that agree on the type of the one argument infer the same type. With any other argument count, every scope infers the same type. |
| ArrayFlip.FlipKeepsNonEmptiness | src/Type/Php/ArrayFlipFunctionReturnTypeExtension.php:31-46 | If `isArray()` of the argument is Yes, the flipped type's `isArray()` is Yes. Its `isIterableAtLeastOnce()` is Yes when the argument's is Yes, and Maybe when the argument's is Maybe or No. |
| ArrayFlip.FlipTwice | src/Type/Php/ArrayFlipFunctionReturnTypeExtension.php:31-46 | Flipping `array<K, V>` twice gives `array<cast(K), cast(V)>` with the non-empty accessory unchanged. |
| ArrayFlip.FlipStringToIntScenario | src/Type/Php/ArrayFlipFunctionReturnTypeExtension.php:31-46 | `array<string, int>` flips to `array<int, string>` (given that the key cast keeps `int`), and is non-empty exactly when the source is. |
| Types.IntersectNonEmpty | src/Type/Php/ArrayFlipFunctionReturnTypeExtension.php:43 | Intersecting an array with the non-empty accessory keeps its key and value types, and makes `isIterableAtLeastOnce()` Yes. |
| VarTagRule.MissingIterableDiagnostics | src/Rules/PhpDoc/InvalidPhpDocVarTagTypeRule.php:105-114 | The missing-iterable group has one error per reported iterable type. The errors themselves are stated by `MissingIterableDiagnosticsContents`. |
| VarTagRule.NonGenericDiagnostics | src/Rules/PhpDoc/InvalidPhpDocVarTagTypeRule.php:124-131 | The non-generic group has one error per generic class used without types. The errors themselves are stated by `NonGenericDiagnosticsContents`. |
| VarTagRule.ReferencedClassDiagnostics | src/Rules/PhpDoc/InvalidPhpDocVarTagTypeRule.php:133-149 | The referenced-class group has at most one error per class. The errors themselves are stated by `ReferencedClassDiagnosticsConcat`, `ReferencedClassDiagnosticsSingle` and `ReferencedClassDiagnosticsExact`. |
| VarTagRule.ClassNameNodePairs | src/Rules/PhpDoc/InvalidPhpDocVarTagTypeRule.php:157-159 | The i-th pair holds the i-th referenced class and the node, and there are as many pairs as classes. |
| VarTagRule.TagDiagnostics | src/Rules/PhpDoc/InvalidPhpDocVarTagTypeRule.php:98-160 | A definition: the errors of one tag. Its promises are stated by `UnresolvableTagShortCircuits`, `WithinTagOrder`, `MissingIterablesOnlyWhenConfigured` and `CaseCheckOnlyWhenConfigured`. |
| VarTagRule.TagsDiagnostics | src/Rules/PhpDoc/InvalidPhpDocVarTagTypeRule.php:92-161 | A definition: the errors of a list of tags, as a fold over the tags. Its promises are stated by `TagsDiagnosticsConcat` and `TagOrderIsKept`. `ProcessNode` is proved equal to it. |
| VarTagRule.ProcessNode | src/Rules/PhpDoc/InvalidPhpDocVarTagTypeRule.php:66-164 | Property, PropertyProperty, ClassConst and Const statements give no errors. A statement without a doc comment gives no errors. Any other statement gives the errors of the tags resolved for its file, class, trait, function and comment text, in tag order. |
| VarTagRule.AppendTag | src/Rules/PhpDoc/InvalidPhpDocVarTagTypeRule.php:92-161 | One pass of the tag loop, `continue` included, appends exactly the errors `TagDiagnostics` gives for that tag. This connects the loop to the per-tag definition. What that definition promises is stated by the `VarTagRuleProperties` lemmas. |
| VarTagRule.AppendResolvableTag | src/Rules/PhpDoc/InvalidPhpDocVarTagTypeRule.php:105-160 | For a resolvable tag, the loop body appends the five groups in order: iterables, generic check, non-generic, classes, case. This connects the loop body to `ResolvableTagDiagnostics`; `WithinTagOrder` states what the order means. |
| VarTagRule.AppendTypeChecks | src/Rules/PhpDoc/InvalidPhpDocVarTagTypeRule.php:105-131 | Appends the missing-iterable group (only when configured), then the generic-object check's errors, then the non-generic group. This connects the code to the first three groups of the per-tag definition. |
| VarTagRule.AppendClassChecks | src/Rules/PhpDoc/InvalidPhpDocVarTagTypeRule.php:133-160 | Appends the referenced-class group, then the case checker's answer for those classes, but only when case checking is configured. This connects the code to the last two groups of the per-tag definition. |
| VarTagRule.AppendMissingIterables | src/Rules/PhpDoc/InvalidPhpDocVarTagTypeRule.php:105-114 | The loop over iterables appends one error per reported iterable type, in order. |
| VarTagRule.AppendNonGenericUses | src/Rules/PhpDoc/InvalidPhpDocVarTagTypeRule.php:124-131 | The loop over generic classes used without types appends one error each, in order. |
| VarTagRule.AppendReferencedClasses | src/Rules/PhpDoc/InvalidPhpDocVarTagTypeRule.php:133-149 | The loop over referenced classes, `continue` for known classes included, appends the classes' problems in order. |
| VarTagRule.Identifier | src/Rules/PhpDoc/InvalidPhpDocVarTagTypeRule.php:94-97 | The identifier always starts with `PHPDoc tag @var`. It is exactly that for a positional key. For a string key it continues with ` for variable $` and the name. |
| VarTagRule.ClassProblem | src/Rules/PhpDoc/InvalidPhpDocVarTagTypeRule.php:134-148 | A known non-trait class has no problem. A known trait is an "has invalid type" error. An unknown class is a "contains unknown class" error. None of these errors has a line. Only the unknown-class error has a tip, the discovering-symbols tip. |
| VarTagRule.UnresolvableDiagnostic | src/Rules/PhpDoc/InvalidPhpDocVarTagTypeRule.php:101 | The message is `<id> contains unresolvable type.`. The error is on the given line and has no tip. |
| VarTagRule.MissingIterableDiagnostic | src/Rules/PhpDoc/InvalidPhpDocVarTagTypeRule.php:107-112 | The message is `<id> has no value type specified in iterable type <description>.`. The error has no line and has the missing-iterable tip. |
| VarTagRule.NonGenericDiagnostic | src/Rules/PhpDoc/InvalidPhpDocVarTagTypeRule.php:125-130 | The message is `<id> contains generic <inner name> but does not specify its types: ` followed by the template names joined with `, `. The error has no line and has the non-generic tip. |
| VarTagRule.TraitDiagnostic | src/Rules/PhpDoc/InvalidPhpDocVarTagTypeRule.php:137-140 | The message is `<id> has invalid type <class>.`. The error has no line and no tip. |
| VarTagRule.UnknownClassDiagnostic | src/Rules/PhpDoc/InvalidPhpDocVarTagTypeRule.php:145-148 | The message is `<id> contains unknown class <class>.`. The error has no line and has the discovering-symbols tip. |
| VarTagRuleProperties.GenericMessagesFormats | src/Rules/PhpDoc/InvalidPhpDocVarTagTypeRule.php:116-122 | The four formats given to the generic-object check embed the identifier. The `%%s` and `%%d` placeholders come out of the first `sprintf` as `%s` and `%d`. |
| Diagnostics.Implode | src/Rules/PhpDoc/InvalidPhpDocVarTagTypeRule.php:129 | Joining no names gives the empty string. Otherwise the result starts with the first name and ends with the last. |
| Diagnostics.ImplodeSnoc | src/Rules/PhpDoc/InvalidPhpDocVarTagTypeRule.php:129 | Joining one more name adds the separator and then that name at the end. |
| Diagnostics.ImplodeLength | src/Rules/PhpDoc/InvalidPhpDocVarTagTypeRule.php:129 | The joined string is as long as the names plus one separator per gap. |
| VarTagRuleProperties.IdentifierDistinguishesTags | src/Rules/PhpDoc/InvalidPhpDocVarTagTypeRule.php:94-97 | Two tags share an identifier if and only if they have the same key or are both unnamed. Two tags with the same name and different types share an identifier. |
| VarTagRuleProperties.UnresolvableTagShortCircuits | src/Rules/PhpDoc/InvalidPhpDocVarTagTypeRule.php:98-103 | A tag with an unresolvable type gives exactly one error, `<id> contains unresolvable type.`, on the doc comment's start line. No other collaborator and no flag changes that. |
| VarTagRuleProperties.MissingIterablesOnlyWhenConfigured | src/Rules/PhpDoc/InvalidPhpDocVarTagTypeRule.php:105-114 | With `checkMissingVarTagTypehint` off, the missing-iterable collaborator cannot affect the result. With it on, the missing-iterable errors open the tag's list. |
| VarTagRuleProperties.MissingIterableDiagnosticsContents | src/Rules/PhpDoc/InvalidPhpDocVarTagTypeRule.php:106-113 | The i-th missing-iterable error describes the i-th reported iterable type and carries the missing-iterable tip. |
| VarTagRuleProperties.NonGenericDiagnosticsContents | src/Rules/PhpDoc/InvalidPhpDocVarTagTypeRule.php:124-131 | The i-th non-generic error names the i-th class used without types, lists its template names, and carries the non-generic tip. |
| VarTagRuleProperties.ReferencedClassDiagnosticsConcat | src/Rules/PhpDoc/InvalidPhpDocVarTagTypeRule.php:133-149 | Classes are handled independently and in order: the errors for `a + b` are the errors for `a` followed by the errors for `b`. |
| VarTagRuleProperties.KnownClassIsSilent | src/Rules/PhpDoc/InvalidPhpDocVarTagTypeRule.php:135-142 | Removing a known non-trait class from the referenced classes changes nothing. |
| VarTagRuleProperties.ReferencedClassDiagnosticsExact | src/Rules/PhpDoc/InvalidPhpDocVarTagTypeRule.php:133-149 | Every referenced-class error is the problem of some referenced class. Every trait and every unknown class is reported. |
| VarTagRuleProperties.UnknownClassReported | src/Rules/PhpDoc/InvalidPhpDocVarTagTypeRule.php:145-148 | An unknown class gives an error with the discovering-symbols tip, and the message embeds the class name verbatim. |
| VarTagRuleProperties.CaseCheckOnlyWhenConfigured | src/Rules/PhpDoc/InvalidPhpDocVarTagTypeRule.php:151-160 | With `checkClassCaseSensitivity` off, the case checker cannot affect the result. With it on, the checker's answer for the referenced classes closes the tag's list. |
| VarTagRuleProperties.WithinTagOrder | src/Rules/PhpDoc/InvalidPhpDocVarTagTypeRule.php:98-160 | A resolvable tag's errors form five contiguous slices in this order: iterable value, generic-object check, non-generic class, referenced class, case sensitivity. |
| VarTagRuleProperties.TagsDiagnosticsConcat | src/Rules/PhpDoc/InvalidPhpDocVarTagTypeRule.php:92-161 | Tags are handled independently: the errors for the tags `a + b` are the errors for `a` followed by the errors for `b`. |
| VarTagRuleProperties.TagOrderIsKept | src/Rules/PhpDoc/InvalidPhpDocVarTagTypeRule.php:92-161 | Tag `i`'s errors come after those of all earlier tags and before those of all later tags. |
| VarTagRuleProperties.UnknownClassScenario | src/Rules/PhpDoc/InvalidPhpDocVarTagTypeRule.php:133-149 | A `@var Totally\Unknown $x` tag naming an unknown class gives an error with the discovering-symbols tip, `PHPDoc tag @var for variable $x contains unknown class Totally\Unknown.` |

## Left out

- `castToArrayKeyType` (a static method of `ArrayType`) is the parameter `castKey`. Its body is not part of this model.
- `ParametersAcceptorSelector::selectSingle(...)->getReturnType()` is reduced to `FunctionReflection.declaredReturn`. The exception `selectSingle` raises for a function without exactly one variant is not part of this model.
- `TypeCombinator::intersect` with `NonEmptyArrayType` is reduced to setting the array's `nonEmpty` flag (`Types.IntersectNonEmpty`).
- PHPStan's type hierarchy is much larger than `Types.Type`: unions, constant arrays, intersections and more. The answers `IsArray`, `IsIterableAtLeastOnce`, `IterableKeyType`, `IterableValueType` and `ReferencedClasses` give for the variants here are stand-ins. Those classes are not part of this model. The contracts of `ArrayFlip.GetTypeFromFunctionCall` and `ArrayFlip.FlipDependsOnlyOnArgumentType` are stated in terms of these answers, for every argument type, so they do not depend on the stand-ins. `ArrayFlip.FlipKeepsNonEmptiness` holds for every argument type whose `isArray()` is Yes, but its result side uses the stand-in answers for `ArrayT`. Without the non-empty accessory, `isArray()` is Yes and `isIterableAtLeastOnce()` is Maybe. With it, both are Yes. These stand in for `ArrayType` and for its intersection with `NonEmptyArrayType`. `ArrayFlip.FlipTwice` and `ArrayFlip.FlipStringToIntScenario` take the stand-in `ArrayT` as their argument. The model has no type for PHPStan's empty array `array{}`, which answers Yes to `isArray()` and No to `isIterableAtLeastOnce()`.
- `Scope::getType` is the parameter `typeOf` over an abstract expression type.
- The rule's collaborators are pure functions in `Collaborators`, and their internals are not modelled. This covers the file type mapper, the unresolvable-type helper, the missing-typehint check, the generic-object check, the reflection provider, the class-case check and `Type::describe(VerbosityLevel::typeOnly())`.
- Scope lookups (`isInClass`, `getClassReflection`, `isInTrait`, `getFunction`) are reduced to optional names in `Scope`.
- `getNodeType` only registers the rule for statements. Rule dispatch is outside this model: `NodeKind` already ranges over statements.
- The wording of the tips `TURN_OFF_MISSING_ITERABLE_VALUE_TYPE_TIP`, `TURN_OFF_NON_GENERIC_CHECK_TIP` and `discoveringSymbolsTip()` is not part of this model. Each is a tag of `Tip`.
- `sprintf` is modelled as concatenation. The trait and unknown-class messages, and the generic-check formats, pass the identifier through a second round of formatting. A `%` in a variable name would therefore be read as a directive. PHP variable names cannot contain `%`, so concatenation gives the same text.
- When a rule error has no line, the reporting layer gives it the node's line. That layer is outside this model, so such errors carry `None`.
- `is_string($name)` is modelled by the `Named`/`Positional` constructors of `TagKey`. PHP turns numeric string array keys into integers, but variable names are never numeric.
- VarTagRule.MissingIterableDiagnostics: its own contract states only the length. The per-element contents are the lemma `MissingIterableDiagnosticsContents`, which keeps the loop proofs small.
- VarTagRule.NonGenericDiagnostics: its own contract states only the length. The per-element contents are the lemma `NonGenericDiagnosticsContents`, which keeps the loop proofs small.
- VarTagRule.ReferencedClassDiagnostics: its own contract states only that there is at most one error per class. Its contents are the lemmas `ReferencedClassDiagnosticsConcat`, `ReferencedClassDiagnosticsSingle` and `ReferencedClassDiagnosticsExact`, which keeps the loop proofs small.
- Nothing else in PHPStan is modelled: the two classes above are the whole scope.
