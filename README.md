# lsp4j protocol messages in Dafny

A model of the generated message classes of lsp4j, the Java binding of the Language Server
Protocol (3.16) and of the Debug Adapter Protocol. Each message is a small mutable record.
The model covers four behaviours that recur across all of them:

- **Mandatory fields.** Constructors and setters of `@NonNull` fields go through
  `Preconditions.checkNotNull(value, "<field>")`. A `null` fails with an error naming the field.
  Optional fields accept `null`, meaning absent. No-argument constructors leave mandatory fields
  `null`, so "mandatory implies non-null" is not a class invariant.
- **Token setters.** `Either<String, Integer>` fields have `String` and `Integer` overloads that
  store `Either.forLeft` or `Either.forRight`. For an optional token, `null` clears the field. For a
  mandatory token (`ProgressParams`, `WorkDoneProgressCancelParams`), `null` fails the check.
- **Equality.** `equals` requires exactly the same runtime class. Subclasses also require
  `super.equals`. Fields are then compared null-safe, lists element by element, and debug arrays
  with `Arrays.deepEquals`.
- **Hashing.** `hashCode` is the fold `result = 31 * result + h(field)` over the fields in
  declaration order. It starts at 1, or at `super.hashCode()` in a subclass. An absent field
  contributes 0, and the arithmetic is Java's wrapping 32-bit `int`.

## Layout

- `java.dfy` (module `Java`) holds the slice of the Java runtime the classes rely on:
  - `int32` and `Wrap` (reduction modulo 2^32);
  - the hash fold `FoldHash` and its closed form `Polynomial`;
  - `Option` (`None` is `null`), `Either`, `Result` and `Outcome`;
  - `CheckNotNull`, the null-safe field comparison, and `List.equals`/`List.hashCode` with
    `Arrays.deepEquals`/`deepHashCode`;
  - `Env`, the `equals`/`hashCode` of classes outside the model, passed as parameters;
  - `Lawful(env)`: that `equals` is reflexive and symmetric and agrees with `hashCode`.
- `progress.dfy`: `WorkDoneProgressAndPartialResultParams`, `ProgressParams`,
  `WorkDoneProgressCancelParams`.
- `requests.dfy`: `SemanticTokensRangeParams`, `DocumentLinkParams`,
  `CallHierarchyIncomingCallsParams`, `CompletionParams`, `DocumentOnTypeFormattingParams`,
  `InitializeParams`.
- `language.dfy`: `Diagnostic`, `SymbolInformation`, `LocationLink`, `DocumentLink`, `Command`,
  `ColorInformation`.
- `workspace.dfy`: `FileDelete`, `ResourceOperation`, `CreateFilesParams`.
- `capabilities.dfy`: `SemanticTokensCapabilities`, `CodeActionResolveSupportCapabilities`,
  `CompletionItemCapabilities`, `SemanticTokensClientCapabilitiesRequestsFull`,
  `TextDocumentChangeRegistrationOptions`, `TextDocumentSaveRegistrationOptions`.
- `debug.dfy`: `SetInstructionBreakpointsResponse`, `CompletionsResponse`,
  `SetExpressionResponse`, `InitializeRequestArguments`, `ExceptionInfoArguments`,
  `ScopesArguments`, `PauseArguments`, `RestartFrameArguments`.

## How the Java maps onto Dafny

- Every Java class is a Dafny `class` with the same fields. A nullable field is an `Option`.
- The no-argument constructor is the anonymous Dafny constructor. So is the implicit constructor,
  or the single constructor that checks nothing.
- A constructor that runs `checkNotNull` is a static method returning `Result<C>`. It checks in
  the source's order and fails with the name of the first `null` argument. A constructor that
  chains to a shorter one calls the shorter factory.
- A checked setter returns an `Outcome`. On failure, the field keeps its old value. Every setter
  may modify only its own field (``modifies this`f``), so "no other field changes" is part of its
  contract.
- `equals` is `Equals(env, obj)` and `hashCode` is `HashCode(env)`.
  - `HashCode` states its closed form through `FoldHashIsPolynomial`.
  - `EqualsContract` proves that `equals` is reflexive and symmetric, and that equal objects hash
    alike, whenever `env` is lawful.
  - The `this == obj` shortcut of the generated `equals` changes no result once reflexivity
    holds, so it is folded into `EqualsContract`.
- `getClass()` is modelled as follows:
  - Different Dafny classes are different runtime classes.
  - The abstract `ResourceOperation` and `WorkDoneProgressAndPartialResultParams` carry a
    `runtimeClass` constant naming the concrete subclass.
- The shown superclass `WorkDoneProgressAndPartialResultParams` is held by each subclass as
  `base`. `super.equals` becomes `base.Equals`, and `super.hashCode()` becomes `base.HashCode`.
- A superclass that is not part of this model (for example `TextDocumentPositionParams` or
  `DynamicRegistrationCapabilities`) is held as `inherited`. This is a `Record` of the state the
  shown constructors give it. `super.equals` and `super.hashCode()` are `env` applied to that
  record.

## Where the code is looser than the protocol

- **Mandatory fields are not an invariant.** These constructors leave mandatory fields `null`:
  - the no-argument constructors;
  - `SemanticTokensCapabilities(Boolean)`;
  - the deprecated `DocumentOnTypeFormattingParams(position, ch)`.

  Only the checked constructors and setters reject `null`. The model keeps those `null`s.
- **Variant families are abstract classes.** `ResourceOperation` and its subclasses are compared
  by `getClass()`, and the model records the runtime subclass rather than a closed variant type.
- **Omitted and `null` are one state.** In memory a field missing from the JSON and a field sent
  as `null` are both `null`, and the model has the single `None`.

## Model

| member | source | states |
|---|---|---|
| Java.Wrap | org.eclipse.lsp4j/src/main/xtend-gen/org/eclipse/lsp4j/Diagnostic.java:348 | the Java `int` a value denotes: congruent to it modulo 2^32, and the value itself when it already fits in 32 bits |
| Java.MixWrapsEachOperation | org.eclipse.lsp4j/src/main/xtend-gen/org/eclipse/lsp4j/Diagnostic.java:348 | one step `prime * result + h` wraps after the product and after the sum; wrapping once at the end gives the same `int` |
| Java.FoldHashIsPolynomial | org.eclipse.lsp4j/src/main/xtend-gen/org/eclipse/lsp4j/Diagnostic.java:345-357 | the `result = prime * result + h` loop of a generated `hashCode`, wrapping at every step, equals seed · 31^n + Σ hᵢ · 31^(n−1−i) reduced to a Java `int`, for every seed and every sequence of field hashes |
| Java.SingleFieldHashInjective | org.eclipse.lsp4j.debug/src/main/xtend-gen/org/eclipse/lsp4j/debug/ExceptionInfoArguments.java:58-60 | the one-field hash `31 * 1 + h` gives two `int`s the same hash exactly when they are equal, wrap-around included |
| Java.ElementsEqualAt | org.eclipse.lsp4j/src/main/xtend-gen/org/eclipse/lsp4j/Command.java:122-126 | `List.equals` (and `Arrays.deepEquals`) holds exactly when both have the same length and the elements are null-safe equal at every index |
| Java.ElementsEqualReflexive | org.eclipse.lsp4j/src/main/xtend-gen/org/eclipse/lsp4j/Command.java:122-126 | under a lawful element `equals`, every list equals itself element by element |
| Java.ElementsEqualSymmetric | org.eclipse.lsp4j/src/main/xtend-gen/org/eclipse/lsp4j/Command.java:122-126 | under a lawful element `equals`, element-wise list equality is symmetric |
| Java.ElementsEqualHash | org.eclipse.lsp4j/src/main/xtend-gen/org/eclipse/lsp4j/Command.java:137 | lists (and arrays) that are equal element by element have the same `List.hashCode` (`Arrays.deepHashCode`) |
| Java.FieldComparisonsLawful | org.eclipse.lsp4j/src/main/xtend-gen/org/eclipse/lsp4j/Diagnostic.java:287-357 | under lawful foreign `equals`/`hashCode`, the null-safe field comparison and the element-wise list comparison are reflexive and symmetric and agree with the field hashes (0 for `null`) |
| Java.CheckNotNull | org.eclipse.lsp4j/src/main/xtend-gen/org/eclipse/lsp4j/Diagnostic.java:95 | `Preconditions.checkNotNull(v, name)`: fails naming `name` exactly when `v` is `null`, and otherwise passes `v` through unchanged |
| Progress.WorkDoneProgressAndPartialResultParams.constructor | org.eclipse.lsp4j/src/main/xtend-gen/org/eclipse/lsp4j/WorkDoneProgressAndPartialResultParams.java:31-37 | The implicit constructor, run for a concrete subclass: both tokens absent. The ensures clauses give every field its initial value. |
| Progress.WorkDoneProgressAndPartialResultParams.SetWorkDoneToken | org.eclipse.lsp4j/src/main/xtend-gen/org/eclipse/lsp4j/WorkDoneProgressAndPartialResultParams.java:50-52 | stores its argument, `null` (absent) included, without a check; no other field can change |
| Progress.WorkDoneProgressAndPartialResultParams.SetWorkDoneTokenString | org.eclipse.lsp4j/src/main/xtend-gen/org/eclipse/lsp4j/WorkDoneProgressAndPartialResultParams.java:54-60 | `null` clears `workDoneToken`; any other value is stored as `Left`; no other field can change |
| Progress.WorkDoneProgressAndPartialResultParams.SetWorkDoneTokenInteger | org.eclipse.lsp4j/src/main/xtend-gen/org/eclipse/lsp4j/WorkDoneProgressAndPartialResultParams.java:62-68 | `null` clears `workDoneToken`; any other value is stored as `Right`; no other field can change |
| Progress.WorkDoneProgressAndPartialResultParams.SetPartialResultToken | org.eclipse.lsp4j/src/main/xtend-gen/org/eclipse/lsp4j/WorkDoneProgressAndPartialResultParams.java:83-85 | stores its argument, `null` (absent) included, without a check; no other field can change |
| Progress.WorkDoneProgressAndPartialResultParams.SetPartialResultTokenString | org.eclipse.lsp4j/src/main/xtend-gen/org/eclipse/lsp4j/WorkDoneProgressAndPartialResultParams.java:87-93 | `null` clears `partialResultToken`; any other value is stored as `Left`; no other field can change |
| Progress.WorkDoneProgressAndPartialResultParams.SetPartialResultTokenInteger | org.eclipse.lsp4j/src/main/xtend-gen/org/eclipse/lsp4j/WorkDoneProgressAndPartialResultParams.java:95-101 | `null` clears `partialResultToken`; any other value is stored as `Right`; no other field can change |
| Progress.WorkDoneProgressAndPartialResultParams.Equals | org.eclipse.lsp4j/src/main/xtend-gen/org/eclipse/lsp4j/WorkDoneProgressAndPartialResultParams.java:113-132 | `equals`: the same runtime class, then `workDoneToken` and `partialResultToken` null-safe equal. The contract: a true result implies the other object has exactly this class and the same runtime subclass. |
| Progress.WorkDoneProgressAndPartialResultParams.HashCode | org.eclipse.lsp4j/src/main/xtend-gen/org/eclipse/lsp4j/WorkDoneProgressAndPartialResultParams.java:136-141 | `hashCode`: the 31-fold over `workDoneToken` and `partialResultToken` in declaration order, starting at 1. The contract gives the closed form: seed · 31^n + Σ hᵢ · 31^(n−1−i) reduced to a Java `int`. Its seed is 1; the field hashes hᵢ are taken in declaration order, 0 for an absent field. Wrapping at each step gives the same `int`. |
| Progress.WorkDoneProgressAndPartialResultParams.EqualsContract | org.eclipse.lsp4j/src/main/xtend-gen/org/eclipse/lsp4j/WorkDoneProgressAndPartialResultParams.java:113-141 | under lawful foreign `equals`/`hashCode`: `equals` is reflexive (which covers the `this == obj` shortcut) and symmetric, and objects it calls equal have equal `hashCode`s. |
| Progress.ProgressParams.constructor | org.eclipse.lsp4j/src/main/xtend-gen/org/eclipse/lsp4j/ProgressParams.java:46-47 | The no-argument constructor leaves both mandatory fields `null`. The ensures clauses give every field its initial value. |
| Progress.ProgressParams.Create | org.eclipse.lsp4j/src/main/xtend-gen/org/eclipse/lsp4j/ProgressParams.java:49-52 | `ProgressParams(token, value)`: checks `token`, then `value`. Succeeds exactly when `token`, `value` are non-null; a failure names the first `null` one in that order; a success is a fresh object holding the arguments as given and the stated defaults for every other field. |
| Progress.ProgressParams.SetToken | org.eclipse.lsp4j/src/main/xtend-gen/org/eclipse/lsp4j/ProgressParams.java:66-68 | `null` fails naming `token` and leaves the field unchanged; any other value is stored; no other field can change |
| Progress.ProgressParams.SetTokenString | org.eclipse.lsp4j/src/main/xtend-gen/org/eclipse/lsp4j/ProgressParams.java:70-77 | `null` fails naming `token` and leaves the token unchanged (the clearing assignment after the check is never reached); any other value is stored as `Left`; no other field can change |
| Progress.ProgressParams.SetTokenInteger | org.eclipse.lsp4j/src/main/xtend-gen/org/eclipse/lsp4j/ProgressParams.java:79-86 | `null` fails naming `token` and leaves the token unchanged (the clearing assignment after the check is never reached); any other value is stored as `Right`; no other field can change |
| Progress.ProgressParams.SetValue | org.eclipse.lsp4j/src/main/xtend-gen/org/eclipse/lsp4j/ProgressParams.java:100-102 | `null` fails naming `value` and leaves the field unchanged; any other value is stored; no other field can change |
| Progress.ProgressParams.Equals | org.eclipse.lsp4j/src/main/xtend-gen/org/eclipse/lsp4j/ProgressParams.java:106-125 | `equals`: the same class, then `token` and `value` null-safe equal. The contract: a true result implies the other object has exactly this class. |
| Progress.ProgressParams.HashCode | org.eclipse.lsp4j/src/main/xtend-gen/org/eclipse/lsp4j/ProgressParams.java:129-134 | `hashCode`: `31 * (31 * 1 + h(token)) + h(value)` in `int` arithmetic. The contract gives the closed form: seed · 31^n + Σ hᵢ · 31^(n−1−i) reduced to a Java `int`. Its seed is 1; the field hashes hᵢ are taken in declaration order, 0 for an absent field. Wrapping at each step gives the same `int`. |
| Progress.ProgressParams.EqualsContract | org.eclipse.lsp4j/src/main/xtend-gen/org/eclipse/lsp4j/ProgressParams.java:106-134 | under lawful foreign `equals`/`hashCode`: `equals` is reflexive (which covers the `this == obj` shortcut) and symmetric, and objects it calls equal have equal `hashCode`s. |
| Progress.WorkDoneProgressCancelParams.constructor | org.eclipse.lsp4j/src/main/xtend-gen/org/eclipse/lsp4j/WorkDoneProgressCancelParams.java:31-32 | The no-argument constructor leaves the mandatory token `null`. The ensures clauses give every field its initial value. |
| Progress.WorkDoneProgressCancelParams.Create | org.eclipse.lsp4j/src/main/xtend-gen/org/eclipse/lsp4j/WorkDoneProgressCancelParams.java:34-36 | `WorkDoneProgressCancelParams(token)`: checks `token`. Succeeds exactly when `token` is non-null; a failure names the first `null` one; a success is a fresh object holding the arguments as given and the stated defaults for every other field. |
| Progress.WorkDoneProgressCancelParams.SetToken | org.eclipse.lsp4j/src/main/xtend-gen/org/eclipse/lsp4j/WorkDoneProgressCancelParams.java:50-52 | `null` fails naming `token` and leaves the field unchanged; any other value is stored; no other field can change |
| Progress.WorkDoneProgressCancelParams.SetTokenString | org.eclipse.lsp4j/src/main/xtend-gen/org/eclipse/lsp4j/WorkDoneProgressCancelParams.java:54-61 | `null` fails naming `token` and leaves the token unchanged (the clearing assignment after the check is never reached); any other value is stored as `Left`; no other field can change |
| Progress.WorkDoneProgressCancelParams.SetTokenInteger | org.eclipse.lsp4j/src/main/xtend-gen/org/eclipse/lsp4j/WorkDoneProgressCancelParams.java:63-70 | `null` fails naming `token` and leaves the token unchanged (the clearing assignment after the check is never reached); any other value is stored as `Right`; no other field can change |
| Progress.WorkDoneProgressCancelParams.Equals | org.eclipse.lsp4j/src/main/xtend-gen/org/eclipse/lsp4j/WorkDoneProgressCancelParams.java:74-88 | `equals`: the same class, then `token` null-safe equal. The contract: a true result implies the other object has exactly this class. |
| Progress.WorkDoneProgressCancelParams.HashCode | org.eclipse.lsp4j/src/main/xtend-gen/org/eclipse/lsp4j/WorkDoneProgressCancelParams.java:92-94 | `hashCode`: `31 * 1 + h(token)`, which is 31 while the token is absent. The contract gives the closed form: seed · 31^n + Σ hᵢ · 31^(n−1−i) reduced to a Java `int`. Its seed is 1; the field hashes hᵢ are taken in declaration order, 0 for an absent field. Wrapping at each step gives the same `int`. |
| Progress.WorkDoneProgressCancelParams.EqualsContract | org.eclipse.lsp4j/src/main/xtend-gen/org/eclipse/lsp4j/WorkDoneProgressCancelParams.java:74-94 | under lawful foreign `equals`/`hashCode`: `equals` is reflexive (which covers the `this == obj` shortcut) and symmetric, and objects it calls equal have equal `hashCode`s. |
| Requests.SemanticTokensRangeParams.constructor | org.eclipse.lsp4j/src/main/xtend-gen/org/eclipse/lsp4j/SemanticTokensRangeParams.java:41-44 | Allocation once both arguments have passed their checks (see `Create`); the class has no constructor without arguments. The ensures clauses give every field its initial value. |
| Requests.SemanticTokensRangeParams.Create | org.eclipse.lsp4j/src/main/xtend-gen/org/eclipse/lsp4j/SemanticTokensRangeParams.java:41-44 | `SemanticTokensRangeParams(textDocument, range)`, the only constructor: checks `textDocument`, then `range`. Succeeds exactly when `textDocument`, `range` are non-null; a failure names the first `null` one in that order; a success is a fresh object holding the arguments as given and the stated defaults for every other field. |
| Requests.SemanticTokensRangeParams.SetTextDocument | org.eclipse.lsp4j/src/main/xtend-gen/org/eclipse/lsp4j/SemanticTokensRangeParams.java:58-60 | `null` fails naming `textDocument` and leaves the field unchanged; any other value is stored; no other field can change |
| Requests.SemanticTokensRangeParams.SetRange | org.eclipse.lsp4j/src/main/xtend-gen/org/eclipse/lsp4j/SemanticTokensRangeParams.java:74-76 | `null` fails naming `range` and leaves the field unchanged; any other value is stored; no other field can change |
| Requests.SemanticTokensRangeParams.Equals | org.eclipse.lsp4j/src/main/xtend-gen/org/eclipse/lsp4j/SemanticTokensRangeParams.java:90-111 | `equals`: the same class, `super.equals` (both tokens), then `textDocument` and `range` null-safe equal. The contract: a true result implies the other object has exactly this class and equal superclass state. |
| Requests.SemanticTokensRangeParams.HashCode | org.eclipse.lsp4j/src/main/xtend-gen/org/eclipse/lsp4j/SemanticTokensRangeParams.java:115-120 | `hashCode`: the 31-fold over `textDocument` and `range` in declaration order, starting from the token hash of the superclass. The contract gives the closed form: seed · 31^n + Σ hᵢ · 31^(n−1−i) reduced to a Java `int`. Its seed is the superclass's token hash; the field hashes hᵢ are taken in declaration order, 0 for an absent field. Wrapping at each step gives the same `int`. |
| Requests.SemanticTokensRangeParams.EqualsContract | org.eclipse.lsp4j/src/main/xtend-gen/org/eclipse/lsp4j/SemanticTokensRangeParams.java:90-120 | under lawful foreign `equals`/`hashCode`: `equals` is reflexive (which covers the `this == obj` shortcut) and symmetric, and objects it calls equal have equal `hashCode`s. |
| Requests.DocumentLinkParams.constructor | org.eclipse.lsp4j/src/main/xtend-gen/org/eclipse/lsp4j/DocumentLinkParams.java:31-32 | The no-argument constructor leaves the mandatory `textDocument` `null`. The ensures clauses give every field its initial value. |
| Requests.DocumentLinkParams.Create | org.eclipse.lsp4j/src/main/xtend-gen/org/eclipse/lsp4j/DocumentLinkParams.java:34-36 | `DocumentLinkParams(textDocument)`: checks `textDocument`. Succeeds exactly when `textDocument` is non-null; a failure names the first `null` one; a success is a fresh object holding the arguments as given and the stated defaults for every other field. |
| Requests.DocumentLinkParams.SetTextDocument | org.eclipse.lsp4j/src/main/xtend-gen/org/eclipse/lsp4j/DocumentLinkParams.java:50-52 | `null` fails naming `textDocument` and leaves the field unchanged; any other value is stored; no other field can change |
| Requests.DocumentLinkParams.Equals | org.eclipse.lsp4j/src/main/xtend-gen/org/eclipse/lsp4j/DocumentLinkParams.java:56-72 | `equals`: the same class, `super.equals` (both tokens), then `textDocument` null-safe equal. The contract: a true result implies the other object has exactly this class and equal superclass state. |
| Requests.DocumentLinkParams.HashCode | org.eclipse.lsp4j/src/main/xtend-gen/org/eclipse/lsp4j/DocumentLinkParams.java:76-78 | `hashCode`: `31 * super.hashCode() + h(textDocument)`. The contract gives the closed form: seed · 31^n + Σ hᵢ · 31^(n−1−i) reduced to a Java `int`. Its seed is the superclass's token hash; the field hashes hᵢ are taken in declaration order, 0 for an absent field. Wrapping at each step gives the same `int`. |
| Requests.DocumentLinkParams.EqualsContract | org.eclipse.lsp4j/src/main/xtend-gen/org/eclipse/lsp4j/DocumentLinkParams.java:56-78 | under lawful foreign `equals`/`hashCode`: `equals` is reflexive (which covers the `this == obj` shortcut) and symmetric, and objects it calls equal have equal `hashCode`s. |
| Requests.CallHierarchyIncomingCallsParams.constructor | org.eclipse.lsp4j/src/main/xtend-gen/org/eclipse/lsp4j/CallHierarchyIncomingCallsParams.java:31-32 | The no-argument constructor leaves the mandatory `item` `null`. The ensures clauses give every field its initial value. |
| Requests.CallHierarchyIncomingCallsParams.Create | org.eclipse.lsp4j/src/main/xtend-gen/org/eclipse/lsp4j/CallHierarchyIncomingCallsParams.java:34-36 | `CallHierarchyIncomingCallsParams(item)`: checks `item`. Succeeds exactly when `item` is non-null; a failure names the first `null` one; a success is a fresh object holding the arguments as given and the stated defaults for every other field. |
| Requests.CallHierarchyIncomingCallsParams.SetItem | org.eclipse.lsp4j/src/main/xtend-gen/org/eclipse/lsp4j/CallHierarchyIncomingCallsParams.java:44-46 | `null` fails naming `item` and leaves the field unchanged; any other value is stored; no other field can change |
| Requests.CallHierarchyIncomingCallsParams.Equals | org.eclipse.lsp4j/src/main/xtend-gen/org/eclipse/lsp4j/CallHierarchyIncomingCallsParams.java:59-75 | `equals`: the same class, `super.equals` (both tokens), then `item` null-safe equal. The contract: a true result implies the other object has exactly this class and equal superclass state. |
| Requests.CallHierarchyIncomingCallsParams.HashCode | org.eclipse.lsp4j/src/main/xtend-gen/org/eclipse/lsp4j/CallHierarchyIncomingCallsParams.java:79-81 | `hashCode`: `31 * super.hashCode() + h(item)`. The contract gives the closed form: seed · 31^n + Σ hᵢ · 31^(n−1−i) reduced to a Java `int`. Its seed is the superclass's token hash; the field hashes hᵢ are taken in declaration order, 0 for an absent field. Wrapping at each step gives the same `int`. |
| Requests.CallHierarchyIncomingCallsParams.EqualsContract | org.eclipse.lsp4j/src/main/xtend-gen/org/eclipse/lsp4j/CallHierarchyIncomingCallsParams.java:59-81 | under lawful foreign `equals`/`hashCode`: `equals` is reflexive (which covers the `this == obj` shortcut) and symmetric, and objects it calls equal have equal `hashCode`s. |
| Requests.CompletionParams.constructor | org.eclipse.lsp4j/src/main/xtend-gen/org/eclipse/lsp4j/CompletionParams.java:32-33 | The no-argument constructor: nothing handed to the superclass, `context` absent. The ensures clauses give every field its initial value. |
| Requests.CompletionParams.WithPosition | org.eclipse.lsp4j/src/main/xtend-gen/org/eclipse/lsp4j/CompletionParams.java:35-37 | `CompletionParams(textDocument, position)`: hands both arguments to the superclass. The ensures clauses give every field its initial value. (the superclass's own checks are left out). |
| Requests.CompletionParams.WithContext | org.eclipse.lsp4j/src/main/xtend-gen/org/eclipse/lsp4j/CompletionParams.java:39-42 | `CompletionParams(textDocument, position, context)`: the two-argument constructor, then `context` as given, `null` included. The ensures clauses give every field its initial value. (the superclass's own checks are left out). |
| Requests.CompletionParams.SetContext | org.eclipse.lsp4j/src/main/xtend-gen/org/eclipse/lsp4j/CompletionParams.java:57-59 | stores its argument, `null` (absent) included, without a check; no other field can change |
| Requests.CompletionParams.Equals | org.eclipse.lsp4j/src/main/xtend-gen/org/eclipse/lsp4j/CompletionParams.java:63-79 | `equals`: the same class, `super.equals`, then `context` null-safe equal. The contract: a true result implies the other object has exactly this class and equal superclass state. |
| Requests.CompletionParams.HashCode | org.eclipse.lsp4j/src/main/xtend-gen/org/eclipse/lsp4j/CompletionParams.java:83-85 | `hashCode`: `31 * super.hashCode() + h(context)`. The contract gives the closed form: seed · 31^n + Σ hᵢ · 31^(n−1−i) reduced to a Java `int`. Its seed is `super.hashCode()`; the field hashes hᵢ are taken in declaration order, 0 for an absent field. Wrapping at each step gives the same `int`. |
| Requests.CompletionParams.EqualsContract | org.eclipse.lsp4j/src/main/xtend-gen/org/eclipse/lsp4j/CompletionParams.java:63-85 | under lawful foreign `equals`/`hashCode`: `equals` is reflexive (which covers the `this == obj` shortcut) and symmetric, and objects it calls equal have equal `hashCode`s. |
| Requests.DocumentOnTypeFormattingParams.constructor | org.eclipse.lsp4j/src/main/xtend-gen/org/eclipse/lsp4j/DocumentOnTypeFormattingParams.java:40-41 | The no-argument constructor leaves `options` and `ch` `null`. The ensures clauses give every field its initial value. |
| Requests.DocumentOnTypeFormattingParams.Create | org.eclipse.lsp4j/src/main/xtend-gen/org/eclipse/lsp4j/DocumentOnTypeFormattingParams.java:43-47 | `DocumentOnTypeFormattingParams(textDocument, options, position, ch)`: hands `textDocument` and `position` to the superclass, then checks `options`, then `ch`. Succeeds exactly when `options`, `ch` are non-null; a failure names the first `null` one in that order; a success is a fresh object holding the arguments as given and the stated defaults for every other field. (the superclass's own checks are left out). |
| Requests.DocumentOnTypeFormattingParams.CreateAtPosition | org.eclipse.lsp4j/src/main/xtend-gen/org/eclipse/lsp4j/DocumentOnTypeFormattingParams.java:50-53 | The deprecated `DocumentOnTypeFormattingParams(position, ch)`: sets the inherited position, checks `ch` and leaves the mandatory `options` `null`. Succeeds exactly when `ch` is non-null; a failure names the first `null` one; a success is a fresh object holding the arguments as given and the stated defaults for every other field. (the superclass's own checks are left out). |
| Requests.DocumentOnTypeFormattingParams.SetOptions | org.eclipse.lsp4j/src/main/xtend-gen/org/eclipse/lsp4j/DocumentOnTypeFormattingParams.java:67-69 | `null` fails naming `options` and leaves the field unchanged; any other value is stored; no other field can change |
| Requests.DocumentOnTypeFormattingParams.SetCh | org.eclipse.lsp4j/src/main/xtend-gen/org/eclipse/lsp4j/DocumentOnTypeFormattingParams.java:83-85 | `null` fails naming `ch` and leaves the field unchanged; any other value is stored; no other field can change |
| Requests.DocumentOnTypeFormattingParams.Equals | org.eclipse.lsp4j/src/main/xtend-gen/org/eclipse/lsp4j/DocumentOnTypeFormattingParams.java:100-121 | `equals`: the same class, `super.equals`, then `options` and `ch` null-safe equal. The contract: a true result implies the other object has exactly this class and equal superclass state. |
| Requests.DocumentOnTypeFormattingParams.HashCode | org.eclipse.lsp4j/src/main/xtend-gen/org/eclipse/lsp4j/DocumentOnTypeFormattingParams.java:125-130 | `hashCode`: the 31-fold over `options` and `ch` in declaration order, starting from `super.hashCode()`. The contract gives the closed form: seed · 31^n + Σ hᵢ · 31^(n−1−i) reduced to a Java `int`. Its seed is `super.hashCode()`; the field hashes hᵢ are taken in declaration order, 0 for an absent field. Wrapping at each step gives the same `int`. |
| Requests.DocumentOnTypeFormattingParams.EqualsContract | org.eclipse.lsp4j/src/main/xtend-gen/org/eclipse/lsp4j/DocumentOnTypeFormattingParams.java:100-130 | under lawful foreign `equals`/`hashCode`: `equals` is reflexive (which covers the `this == obj` shortcut) and symmetric, and objects it calls equal have equal `hashCode`s. |
| Requests.InitializeParams.constructor | org.eclipse.lsp4j/src/main/xtend-gen/org/eclipse/lsp4j/InitializeParams.java:34-111 | The implicit constructor: every field `null`. The ensures clauses give every field its initial value. |
| Requests.InitializeParams.SetWorkDoneToken | org.eclipse.lsp4j/src/main/xtend-gen/org/eclipse/lsp4j/InitializeParams.java:124-126 | stores its argument, `null` (absent) included, without a check; no other field can change |
| Requests.InitializeParams.SetWorkDoneTokenString | org.eclipse.lsp4j/src/main/xtend-gen/org/eclipse/lsp4j/InitializeParams.java:128-134 | `null` clears `workDoneToken`; any other value is stored as `Left`; no other field can change |
| Requests.InitializeParams.SetWorkDoneTokenInteger | org.eclipse.lsp4j/src/main/xtend-gen/org/eclipse/lsp4j/InitializeParams.java:136-142 | `null` clears `workDoneToken`; any other value is stored as `Right`; no other field can change |
| Requests.InitializeParams.SetProcessId | org.eclipse.lsp4j/src/main/xtend-gen/org/eclipse/lsp4j/InitializeParams.java:155-157 | stores its argument, `null` (absent) included, without a check; no other field can change |
| Requests.InitializeParams.SetRootPath | org.eclipse.lsp4j/src/main/xtend-gen/org/eclipse/lsp4j/InitializeParams.java:176-178 | stores its argument, `null` (absent) included, without a check; no other field can change |
| Requests.InitializeParams.SetRootUri | org.eclipse.lsp4j/src/main/xtend-gen/org/eclipse/lsp4j/InitializeParams.java:199-201 | stores its argument, `null` (absent) included, without a check; no other field can change |
| Requests.InitializeParams.SetInitializationOptions | org.eclipse.lsp4j/src/main/xtend-gen/org/eclipse/lsp4j/InitializeParams.java:214-216 | stores its argument, `null` (absent) included, without a check; no other field can change |
| Requests.InitializeParams.SetCapabilities | org.eclipse.lsp4j/src/main/xtend-gen/org/eclipse/lsp4j/InitializeParams.java:229-231 | stores its argument, `null` (absent) included, without a check; no other field can change |
| Requests.InitializeParams.SetClientName | org.eclipse.lsp4j/src/main/xtend-gen/org/eclipse/lsp4j/InitializeParams.java:252-254 | stores its argument, `null` (absent) included, without a check; no other field can change |
| Requests.InitializeParams.SetClientInfo | org.eclipse.lsp4j/src/main/xtend-gen/org/eclipse/lsp4j/InitializeParams.java:271-273 | stores its argument, `null` (absent) included, without a check; no other field can change |
| Requests.InitializeParams.SetLocale | org.eclipse.lsp4j/src/main/xtend-gen/org/eclipse/lsp4j/InitializeParams.java:300-302 | stores its argument, `null` (absent) included, without a check; no other field can change |
| Requests.InitializeParams.SetTrace | org.eclipse.lsp4j/src/main/xtend-gen/org/eclipse/lsp4j/InitializeParams.java:317-319 | stores its argument, `null` (absent) included, without a check; no other field can change |
| Requests.InitializeParams.SetWorkspaceFolders | org.eclipse.lsp4j/src/main/xtend-gen/org/eclipse/lsp4j/InitializeParams.java:342-344 | stores its argument, `null` (absent) included, without a check; no other field can change |
| Requests.InitializeParams.Equals | org.eclipse.lsp4j/src/main/xtend-gen/org/eclipse/lsp4j/InitializeParams.java:348-412 | `equals`: the same class, then `workDoneToken`, `processId`, `rootPath`, `rootUri`, `initializationOptions`, `capabilities`, `clientName`, `clientInfo`, `locale`, `trace` and `workspaceFolders` null-safe equal, `workspaceFolders` element by element. The contract: a true result implies the other object has exactly this class. |
| Requests.InitializeParams.HashCode | org.eclipse.lsp4j/src/main/xtend-gen/org/eclipse/lsp4j/InitializeParams.java:416-430 | `hashCode`: the 31-fold over `workDoneToken`, `processId`, `rootPath`, `rootUri`, `initializationOptions`, `capabilities`, `clientName`, `clientInfo`, `locale`, `trace` and `workspaceFolders` in declaration order, starting at 1. The contract gives the closed form: seed · 31^n + Σ hᵢ · 31^(n−1−i) reduced to a Java `int`. Its seed is 1; the field hashes hᵢ are taken in declaration order, 0 for an absent field. Wrapping at each step gives the same `int`. |
| Requests.InitializeParams.EqualsContract | org.eclipse.lsp4j/src/main/xtend-gen/org/eclipse/lsp4j/InitializeParams.java:348-430 | under lawful foreign `equals`/`hashCode`: `equals` is reflexive (which covers the `this == obj` shortcut) and symmetric, and objects it calls equal have equal `hashCode`s. |
| Requests.RequestClassesDistinct | org.eclipse.lsp4j/src/main/xtend-gen/org/eclipse/lsp4j/DocumentLinkParams.java:61 | document-link and incoming-call parameters never compare equal in either direction, whatever their tokens |
| Language.Diagnostic.constructor | org.eclipse.lsp4j/src/main/xtend-gen/org/eclipse/lsp4j/Diagnostic.java:91-92 | The no-argument constructor: every field `null`, the mandatory `range` and `message` included. The ensures clauses give every field its initial value. |
| Language.Diagnostic.Create | org.eclipse.lsp4j/src/main/xtend-gen/org/eclipse/lsp4j/Diagnostic.java:94-97 | `Diagnostic(range, message)`: checks `range`, then `message`. Succeeds exactly when `range`, `message` are non-null; a failure names the first `null` one in that order; a success is a fresh object holding the arguments as given and the stated defaults for every other field. |
| Language.Diagnostic.CreateWithSource | org.eclipse.lsp4j/src/main/xtend-gen/org/eclipse/lsp4j/Diagnostic.java:99-103 | `Diagnostic(range, message, severity, source)`: the two-argument constructor, then `severity` and `source` as given, `null` included. Succeeds exactly when `range`, `message` are non-null; a failure names the first `null` one in that order; a success is a fresh object holding the arguments as given and the stated defaults for every other field. |
| Language.Diagnostic.CreateWithCode | org.eclipse.lsp4j/src/main/xtend-gen/org/eclipse/lsp4j/Diagnostic.java:105-108 | `Diagnostic(range, message, severity, source, code)`: the four-argument constructor, then `setCode(String)`, so a `null` code stays absent. Succeeds exactly when `range`, `message` are non-null; a failure names the first `null` one in that order; a success is a fresh object holding the arguments as given and the stated defaults for every other field. |
| Language.Diagnostic.SetRange | org.eclipse.lsp4j/src/main/xtend-gen/org/eclipse/lsp4j/Diagnostic.java:122-124 | `null` fails naming `range` and leaves the field unchanged; any other value is stored; no other field can change |
| Language.Diagnostic.SetSeverity | org.eclipse.lsp4j/src/main/xtend-gen/org/eclipse/lsp4j/Diagnostic.java:139-141 | stores its argument, `null` (absent) included, without a check; no other field can change |
| Language.Diagnostic.SetCode | org.eclipse.lsp4j/src/main/xtend-gen/org/eclipse/lsp4j/Diagnostic.java:154-156 | stores its argument, `null` (absent) included, without a check; no other field can change |
| Language.Diagnostic.SetCodeString | org.eclipse.lsp4j/src/main/xtend-gen/org/eclipse/lsp4j/Diagnostic.java:158-164 | `null` clears `code`; any other value is stored as `Left`; no other field can change |
| Language.Diagnostic.SetCodeInteger | org.eclipse.lsp4j/src/main/xtend-gen/org/eclipse/lsp4j/Diagnostic.java:166-172 | `null` clears `code`; any other value is stored as `Right`; no other field can change |
| Language.Diagnostic.SetCodeDescription | org.eclipse.lsp4j/src/main/xtend-gen/org/eclipse/lsp4j/Diagnostic.java:189-191 | stores its argument, `null` (absent) included, without a check; no other field can change |
| Language.Diagnostic.SetSource | org.eclipse.lsp4j/src/main/xtend-gen/org/eclipse/lsp4j/Diagnostic.java:204-206 | stores its argument, `null` (absent) included, without a check; no other field can change |
| Language.Diagnostic.SetMessage | org.eclipse.lsp4j/src/main/xtend-gen/org/eclipse/lsp4j/Diagnostic.java:220-222 | `null` fails naming `message` and leaves the field unchanged; any other value is stored; no other field can change |
| Language.Diagnostic.SetTags | org.eclipse.lsp4j/src/main/xtend-gen/org/eclipse/lsp4j/Diagnostic.java:239-241 | stores its argument, `null` (absent) included, without a check; no other field can change |
| Language.Diagnostic.SetRelatedInformation | org.eclipse.lsp4j/src/main/xtend-gen/org/eclipse/lsp4j/Diagnostic.java:260-262 | stores its argument, `null` (absent) included, without a check; no other field can change |
| Language.Diagnostic.SetData | org.eclipse.lsp4j/src/main/xtend-gen/org/eclipse/lsp4j/Diagnostic.java:281-283 | stores its argument, `null` (absent) included, without a check; no other field can change |
| Language.Diagnostic.Equals | org.eclipse.lsp4j/src/main/xtend-gen/org/eclipse/lsp4j/Diagnostic.java:287-341 | `equals`: the same class, then `range`, `severity`, `code`, `codeDescription`, `source`, `message`, `tags`, `relatedInformation` and `data` null-safe equal, `tags` and `relatedInformation` element by element. The contract: a true result implies the other object has exactly this class. |
| Language.Diagnostic.HashCode | org.eclipse.lsp4j/src/main/xtend-gen/org/eclipse/lsp4j/Diagnostic.java:345-357 | `hashCode`: the 31-fold over `range`, `severity`, `code`, `codeDescription`, `source`, `message`, `tags`, `relatedInformation` and `data` in declaration order, starting at 1. The contract gives the closed form: seed · 31^n + Σ hᵢ · 31^(n−1−i) reduced to a Java `int`. Its seed is 1; the field hashes hᵢ are taken in declaration order, 0 for an absent field. Wrapping at each step gives the same `int`. |
| Language.Diagnostic.EqualsContract | org.eclipse.lsp4j/src/main/xtend-gen/org/eclipse/lsp4j/Diagnostic.java:287-357 | under lawful foreign `equals`/`hashCode`: `equals` is reflexive (which covers the `this == obj` shortcut) and symmetric, and objects it calls equal have equal `hashCode`s. |
| Language.SymbolInformation.constructor | org.eclipse.lsp4j/src/main/xtend-gen/org/eclipse/lsp4j/SymbolInformation.java:80-81 | the no-argument constructor leaves every field `null`, the mandatory ones included: `name`, `kind`, `tags`, `deprecated`, `location` and `containerName` are all absent. |
| Language.SymbolInformation.Create | org.eclipse.lsp4j/src/main/xtend-gen/org/eclipse/lsp4j/SymbolInformation.java:83-87 | `SymbolInformation(name, kind, location)`: checks `name`, `kind`, `location` in that order. Succeeds exactly when `name`, `kind`, `location` are non-null; a failure names the first `null` one in that order; a success is a fresh object holding the arguments as given and the stated defaults for every other field. |
| Language.SymbolInformation.CreateInContainer | org.eclipse.lsp4j/src/main/xtend-gen/org/eclipse/lsp4j/SymbolInformation.java:89-92 | `SymbolInformation(name, kind, location, containerName)`: the same checks, then `containerName` as given, `null` included. Succeeds exactly when `name`, `kind`, `location` are non-null; a failure names the first `null` one in that order; a success is a fresh object holding the arguments as given and the stated defaults for every other field. |
| Language.SymbolInformation.SetName | org.eclipse.lsp4j/src/main/xtend-gen/org/eclipse/lsp4j/SymbolInformation.java:106-108 | `null` fails naming `name` and leaves the field unchanged; any other value is stored; no other field can change |
| Language.SymbolInformation.SetKind | org.eclipse.lsp4j/src/main/xtend-gen/org/eclipse/lsp4j/SymbolInformation.java:122-124 | `null` fails naming `kind` and leaves the field unchanged; any other value is stored; no other field can change |
| Language.SymbolInformation.SetTags | org.eclipse.lsp4j/src/main/xtend-gen/org/eclipse/lsp4j/SymbolInformation.java:141-143 | stores its argument, `null` (absent) included, without a check; no other field can change |
| Language.SymbolInformation.SetDeprecated | org.eclipse.lsp4j/src/main/xtend-gen/org/eclipse/lsp4j/SymbolInformation.java:162-164 | stores its argument, `null` (absent) included, without a check; no other field can change |
| Language.SymbolInformation.SetLocation | org.eclipse.lsp4j/src/main/xtend-gen/org/eclipse/lsp4j/SymbolInformation.java:194-196 | `null` fails naming `location` and leaves the field unchanged; any other value is stored; no other field can change |
| Language.SymbolInformation.SetContainerName | org.eclipse.lsp4j/src/main/xtend-gen/org/eclipse/lsp4j/SymbolInformation.java:215-217 | stores its argument, `null` (absent) included, without a check; no other field can change |
| Language.SymbolInformation.Equals | org.eclipse.lsp4j/src/main/xtend-gen/org/eclipse/lsp4j/SymbolInformation.java:233-272 | `equals`: the same class, then `name`, `kind`, `tags`, `deprecated`, `location` and `containerName` null-safe equal, `tags` element by element. The contract: a true result implies the other object has exactly this class. |
| Language.SymbolInformation.HashCode | org.eclipse.lsp4j/src/main/xtend-gen/org/eclipse/lsp4j/SymbolInformation.java:276-285 | `hashCode`: the 31-fold over `name`, `kind`, `tags`, `deprecated`, `location` and `containerName` in declaration order, starting at 1. The contract gives the closed form: seed · 31^n + Σ hᵢ · 31^(n−1−i) reduced to a Java `int`. Its seed is 1; the field hashes hᵢ are taken in declaration order, 0 for an absent field. Wrapping at each step gives the same `int`. |
| Language.SymbolInformation.EqualsContract | org.eclipse.lsp4j/src/main/xtend-gen/org/eclipse/lsp4j/SymbolInformation.java:233-285 | under lawful foreign `equals`/`hashCode`: `equals` is reflexive (which covers the `this == obj` shortcut) and symmetric, and objects it calls equal have equal `hashCode`s. |
| Language.LocationLink.constructor | org.eclipse.lsp4j/src/main/xtend-gen/org/eclipse/lsp4j/LocationLink.java:53-54 | the no-argument constructor leaves every field `null`, the mandatory ones included: `originSelectionRange`, `targetUri`, `targetRange` and `targetSelectionRange` are all absent. |
| Language.LocationLink.Create | org.eclipse.lsp4j/src/main/xtend-gen/org/eclipse/lsp4j/LocationLink.java:56-60 | `LocationLink(targetUri, targetRange, targetSelectionRange)`: checks the three target fields in that order. Succeeds exactly when `targetUri`, `targetRange`, `targetSelectionRange` are non-null; a failure names the first `null` one in that order; a success is a fresh object holding the arguments as given and the stated defaults for every other field. |
| Language.LocationLink.CreateWithOrigin | org.eclipse.lsp4j/src/main/xtend-gen/org/eclipse/lsp4j/LocationLink.java:62-65 | The four-argument constructor: the same checks, then `originSelectionRange` as given, `null` included. Succeeds exactly when `targetUri`, `targetRange`, `targetSelectionRange` are non-null; a failure names the first `null` one in that order; a success is a fresh object holding the arguments as given and the stated defaults for every other field. |
| Language.LocationLink.SetOriginSelectionRange | org.eclipse.lsp4j/src/main/xtend-gen/org/eclipse/lsp4j/LocationLink.java:84-86 | stores its argument, `null` (absent) included, without a check; no other field can change |
| Language.LocationLink.SetTargetUri | org.eclipse.lsp4j/src/main/xtend-gen/org/eclipse/lsp4j/LocationLink.java:100-102 | `null` fails naming `targetUri` and leaves the field unchanged; any other value is stored; no other field can change |
| Language.LocationLink.SetTargetRange | org.eclipse.lsp4j/src/main/xtend-gen/org/eclipse/lsp4j/LocationLink.java:120-122 | `null` fails naming `targetRange` and leaves the field unchanged; any other value is stored; no other field can change |
| Language.LocationLink.SetTargetSelectionRange | org.eclipse.lsp4j/src/main/xtend-gen/org/eclipse/lsp4j/LocationLink.java:138-140 | `null` fails naming `targetSelectionRange` and leaves the field unchanged; any other value is stored; no other field can change |
| Language.LocationLink.Equals | org.eclipse.lsp4j/src/main/xtend-gen/org/eclipse/lsp4j/LocationLink.java:144-173 | `equals`: the same class, then `originSelectionRange`, `targetUri`, `targetRange` and `targetSelectionRange` null-safe equal. The contract: a true result implies the other object has exactly this class. |
| Language.LocationLink.HashCode | org.eclipse.lsp4j/src/main/xtend-gen/org/eclipse/lsp4j/LocationLink.java:177-184 | `hashCode`: the 31-fold over `originSelectionRange`, `targetUri`, `targetRange` and `targetSelectionRange`, in declaration order (not the order the constructors take them), starting at 1. The contract gives the closed form: seed · 31^n + Σ hᵢ · 31^(n−1−i) reduced to a Java `int`. Its seed is 1; the field hashes hᵢ are taken in declaration order, 0 for an absent field. Wrapping at each step gives the same `int`. |
| Language.LocationLink.EqualsContract | org.eclipse.lsp4j/src/main/xtend-gen/org/eclipse/lsp4j/LocationLink.java:144-184 | under lawful foreign `equals`/`hashCode`: `equals` is reflexive (which covers the `this == obj` shortcut) and symmetric, and objects it calls equal have equal `hashCode`s. |
| Language.DocumentLink.constructor | org.eclipse.lsp4j/src/main/xtend-gen/org/eclipse/lsp4j/DocumentLink.java:57-58 | the no-argument constructor leaves every field `null`, the mandatory ones included: `range`, `target`, `tooltip` and `data` are all absent. |
| Language.DocumentLink.Create | org.eclipse.lsp4j/src/main/xtend-gen/org/eclipse/lsp4j/DocumentLink.java:60-62 | `DocumentLink(range)`: checks `range`. Every longer constructor starts here. Succeeds exactly when `range` is non-null; a failure names the first `null` one; a success is a fresh object holding the arguments as given and the stated defaults for every other field. |
| Language.DocumentLink.CreateWithTarget | org.eclipse.lsp4j/src/main/xtend-gen/org/eclipse/lsp4j/DocumentLink.java:64-67 | `DocumentLink(range, target)`. Succeeds exactly when `range` is non-null; a failure names the first `null` one; a success is a fresh object holding the arguments as given and the stated defaults for every other field. |
| Language.DocumentLink.CreateWithData | org.eclipse.lsp4j/src/main/xtend-gen/org/eclipse/lsp4j/DocumentLink.java:69-72 | `DocumentLink(range, target, data)`. Succeeds exactly when `range` is non-null; a failure names the first `null` one; a success is a fresh object holding the arguments as given and the stated defaults for every other field. |
| Language.DocumentLink.CreateWithTooltip | org.eclipse.lsp4j/src/main/xtend-gen/org/eclipse/lsp4j/DocumentLink.java:74-77 | `DocumentLink(range, target, data, tooltip)`: the three optional fields as given, `null` included. Succeeds exactly when `range` is non-null; a failure names the first `null` one; a success is a fresh object holding the arguments as given and the stated defaults for every other field. |
| Language.DocumentLink.SetRange | org.eclipse.lsp4j/src/main/xtend-gen/org/eclipse/lsp4j/DocumentLink.java:91-93 | `null` fails naming `range` and leaves the field unchanged; any other value is stored; no other field can change |
| Language.DocumentLink.SetTarget | org.eclipse.lsp4j/src/main/xtend-gen/org/eclipse/lsp4j/DocumentLink.java:106-108 | stores its argument, `null` (absent) included, without a check; no other field can change |
| Language.DocumentLink.SetTooltip | org.eclipse.lsp4j/src/main/xtend-gen/org/eclipse/lsp4j/DocumentLink.java:133-135 | stores its argument, `null` (absent) included, without a check; no other field can change |
| Language.DocumentLink.SetData | org.eclipse.lsp4j/src/main/xtend-gen/org/eclipse/lsp4j/DocumentLink.java:150-152 | stores its argument, `null` (absent) included, without a check; no other field can change |
| Language.DocumentLink.Equals | org.eclipse.lsp4j/src/main/xtend-gen/org/eclipse/lsp4j/DocumentLink.java:166-195 | `equals`: the same class, then `range`, `target`, `tooltip` and `data` null-safe equal. The contract: a true result implies the other object has exactly this class. |
| Language.DocumentLink.HashCode | org.eclipse.lsp4j/src/main/xtend-gen/org/eclipse/lsp4j/DocumentLink.java:199-206 | `hashCode`: the 31-fold over `range`, `target`, `tooltip` and `data`, in declaration order (not the order the constructors take them), starting at 1. The contract gives the closed form: seed · 31^n + Σ hᵢ · 31^(n−1−i) reduced to a Java `int`. Its seed is 1; the field hashes hᵢ are taken in declaration order, 0 for an absent field. Wrapping at each step gives the same `int`. |
| Language.DocumentLink.EqualsContract | org.eclipse.lsp4j/src/main/xtend-gen/org/eclipse/lsp4j/DocumentLink.java:166-206 | under lawful foreign `equals`/`hashCode`: `equals` is reflexive (which covers the `this == obj` shortcut) and symmetric, and objects it calls equal have equal `hashCode`s. |
| Language.Command.constructor | org.eclipse.lsp4j/src/main/xtend-gen/org/eclipse/lsp4j/Command.java:42-43 | the no-argument constructor leaves every field `null`, the mandatory ones included: `title`, `command` and `arguments` are all absent. |
| Language.Command.Create | org.eclipse.lsp4j/src/main/xtend-gen/org/eclipse/lsp4j/Command.java:45-48 | `Command(title, command)`: checks `title`, then `command`. Succeeds exactly when `title`, `command` are non-null; a failure names the first `null` one in that order; a success is a fresh object holding the arguments as given and the stated defaults for every other field. |
| Language.Command.CreateWithArguments | org.eclipse.lsp4j/src/main/xtend-gen/org/eclipse/lsp4j/Command.java:50-53 | `Command(title, command, arguments)`: the same checks, then `arguments` as given, `null` included. Succeeds exactly when `title`, `command` are non-null; a failure names the first `null` one in that order; a success is a fresh object holding the arguments as given and the stated defaults for every other field. |
| Language.Command.SetTitle | org.eclipse.lsp4j/src/main/xtend-gen/org/eclipse/lsp4j/Command.java:67-69 | `null` fails naming `title` and leaves the field unchanged; any other value is stored; no other field can change |
| Language.Command.SetCommand | org.eclipse.lsp4j/src/main/xtend-gen/org/eclipse/lsp4j/Command.java:83-85 | `null` fails naming `command` and leaves the field unchanged; any other value is stored; no other field can change |
| Language.Command.SetArguments | org.eclipse.lsp4j/src/main/xtend-gen/org/eclipse/lsp4j/Command.java:98-100 | stores its argument, `null` (absent) included, without a check; no other field can change |
| Language.Command.Equals | org.eclipse.lsp4j/src/main/xtend-gen/org/eclipse/lsp4j/Command.java:104-128 | `equals`: the same class, then `title`, `command` and `arguments` null-safe equal, `arguments` element by element. The contract: a true result implies the other object has exactly this class. |
| Language.Command.HashCode | org.eclipse.lsp4j/src/main/xtend-gen/org/eclipse/lsp4j/Command.java:132-138 | `hashCode`: the 31-fold over `title`, `command` and `arguments` in declaration order, starting at 1. The contract gives the closed form: seed · 31^n + Σ hᵢ · 31^(n−1−i) reduced to a Java `int`. Its seed is 1; the field hashes hᵢ are taken in declaration order, 0 for an absent field. Wrapping at each step gives the same `int`. |
| Language.Command.EqualsContract | org.eclipse.lsp4j/src/main/xtend-gen/org/eclipse/lsp4j/Command.java:104-138 | under lawful foreign `equals`/`hashCode`: `equals` is reflexive (which covers the `this == obj` shortcut) and symmetric, and objects it calls equal have equal `hashCode`s. |
| Language.ColorInformation.constructor | org.eclipse.lsp4j/src/main/xtend-gen/org/eclipse/lsp4j/ColorInformation.java:34-35 | The no-argument constructor leaves both mandatory fields `null`. The ensures clauses give every field its initial value. |
| Language.ColorInformation.Create | org.eclipse.lsp4j/src/main/xtend-gen/org/eclipse/lsp4j/ColorInformation.java:37-40 | `ColorInformation(range, color)`: checks `range`, then `color`. Succeeds exactly when `range`, `color` are non-null; a failure names the first `null` one in that order; a success is a fresh object holding the arguments as given and the stated defaults for every other field. |
| Language.ColorInformation.SetRange | org.eclipse.lsp4j/src/main/xtend-gen/org/eclipse/lsp4j/ColorInformation.java:54-56 | `null` fails naming `range` and leaves the field unchanged; any other value is stored; no other field can change |
| Language.ColorInformation.SetColor | org.eclipse.lsp4j/src/main/xtend-gen/org/eclipse/lsp4j/ColorInformation.java:70-72 | `null` fails naming `color` and leaves the field unchanged; any other value is stored; no other field can change |
| Language.ColorInformation.Equals | org.eclipse.lsp4j/src/main/xtend-gen/org/eclipse/lsp4j/ColorInformation.java:76-95 | `equals`: the same class, then `range` and `color` null-safe equal. The contract: a true result implies the other object has exactly this class. |
| Language.ColorInformation.HashCode | org.eclipse.lsp4j/src/main/xtend-gen/org/eclipse/lsp4j/ColorInformation.java:99-104 | `hashCode`: the 31-fold over `range` and `color` in declaration order, starting at 1. The contract gives the closed form: seed · 31^n + Σ hᵢ · 31^(n−1−i) reduced to a Java `int`. Its seed is 1; the field hashes hᵢ are taken in declaration order, 0 for an absent field. Wrapping at each step gives the same `int`. |
| Language.ColorInformation.EqualsContract | org.eclipse.lsp4j/src/main/xtend-gen/org/eclipse/lsp4j/ColorInformation.java:76-104 | under lawful foreign `equals`/`hashCode`: `equals` is reflexive (which covers the `this == obj` shortcut) and symmetric, and objects it calls equal have equal `hashCode`s. |
| WorkspaceEdits.FileDelete.constructor | org.eclipse.lsp4j/src/main/xtend-gen/org/eclipse/lsp4j/FileDelete.java:31-32 | The no-argument constructor leaves the mandatory `uri` `null`. The ensures clauses give every field its initial value. |
| WorkspaceEdits.FileDelete.Create | org.eclipse.lsp4j/src/main/xtend-gen/org/eclipse/lsp4j/FileDelete.java:34-36 | `FileDelete(uri)`: checks `uri`. Succeeds exactly when `uri` is non-null; a failure names the first `null` one; a success is a fresh object holding the arguments as given and the stated defaults for every other field. |
| WorkspaceEdits.FileDelete.SetUri | org.eclipse.lsp4j/src/main/xtend-gen/org/eclipse/lsp4j/FileDelete.java:50-52 | `null` fails naming `uri` and leaves the field unchanged; any other value is stored; no other field can change |
| WorkspaceEdits.FileDelete.Equals | org.eclipse.lsp4j/src/main/xtend-gen/org/eclipse/lsp4j/FileDelete.java:56-70 | `equals`: the same class, then `uri` null-safe equal. The contract: a true result implies the other object has exactly this class. |
| WorkspaceEdits.FileDelete.HashCode | org.eclipse.lsp4j/src/main/xtend-gen/org/eclipse/lsp4j/FileDelete.java:74-76 | `hashCode`: `31 * 1 + h(uri)`, which is 31 while `uri` is absent. The contract gives the closed form: seed · 31^n + Σ hᵢ · 31^(n−1−i) reduced to a Java `int`. Its seed is 1; the field hashes hᵢ are taken in declaration order, 0 for an absent field. Wrapping at each step gives the same `int`. |
| WorkspaceEdits.FileDelete.EqualsContract | org.eclipse.lsp4j/src/main/xtend-gen/org/eclipse/lsp4j/FileDelete.java:56-76 | under lawful foreign `equals`/`hashCode`: `equals` is reflexive (which covers the `this == obj` shortcut) and symmetric, and objects it calls equal have equal `hashCode`s. |
| WorkspaceEdits.ResourceOperation.constructor | org.eclipse.lsp4j/src/main/xtend-gen/org/eclipse/lsp4j/ResourceOperation.java:37-38 | The implicit constructor, run for a concrete subclass: `kind` is left `null`. The ensures clauses give every field its initial value. |
| WorkspaceEdits.ResourceOperation.Create | org.eclipse.lsp4j/src/main/xtend-gen/org/eclipse/lsp4j/ResourceOperation.java:40-42 | `ResourceOperation(kind)`, run for a concrete subclass: checks `kind`. Succeeds exactly when `kind` is non-null; a failure names the first `null` one; a success is a fresh object holding the arguments as given and the stated defaults for every other field. |
| WorkspaceEdits.ResourceOperation.SetKind | org.eclipse.lsp4j/src/main/xtend-gen/org/eclipse/lsp4j/ResourceOperation.java:56-58 | `null` fails naming `kind` and leaves the field unchanged; any other value is stored; no other field can change |
| WorkspaceEdits.ResourceOperation.SetAnnotationId | org.eclipse.lsp4j/src/main/xtend-gen/org/eclipse/lsp4j/ResourceOperation.java:75-77 | stores its argument, `null` (absent) included, without a check; no other field can change |
| WorkspaceEdits.ResourceOperation.Equals | org.eclipse.lsp4j/src/main/xtend-gen/org/eclipse/lsp4j/ResourceOperation.java:89-108 | `equals`: the same runtime class, then `kind` and `annotationId` null-safe equal. The contract: a true result implies the other object has exactly this class and the same runtime subclass. |
| WorkspaceEdits.ResourceOperation.HashCode | org.eclipse.lsp4j/src/main/xtend-gen/org/eclipse/lsp4j/ResourceOperation.java:112-117 | `hashCode`: the 31-fold over `kind` and `annotationId` in declaration order, starting at 1. The contract gives the closed form: seed · 31^n + Σ hᵢ · 31^(n−1−i) reduced to a Java `int`. Its seed is 1; the field hashes hᵢ are taken in declaration order, 0 for an absent field. Wrapping at each step gives the same `int`. |
| WorkspaceEdits.ResourceOperation.EqualsContract | org.eclipse.lsp4j/src/main/xtend-gen/org/eclipse/lsp4j/ResourceOperation.java:89-117 | under lawful foreign `equals`/`hashCode`: `equals` is reflexive (which covers the `this == obj` shortcut) and symmetric, and objects it calls equal have equal `hashCode`s. |
| WorkspaceEdits.ResourceOperation.SubclassesNeverEqual | org.eclipse.lsp4j/src/main/xtend-gen/org/eclipse/lsp4j/ResourceOperation.java:94 | operations made as different concrete subclasses are unequal in both directions, even with equal `kind` and `annotationId` |
| WorkspaceEdits.CreateFilesParams.constructor | org.eclipse.lsp4j/src/main/xtend-gen/org/eclipse/lsp4j/CreateFilesParams.java:34-37 | the field initialiser gives a default-constructed object a non-null, empty `files` list |
| WorkspaceEdits.CreateFilesParams.Create | org.eclipse.lsp4j/src/main/xtend-gen/org/eclipse/lsp4j/CreateFilesParams.java:39-41 | `CreateFilesParams(files)`: checks `files`. Succeeds exactly when `files` is non-null; a failure names the first `null` one; a success is a fresh object holding the arguments as given and the stated defaults for every other field. |
| WorkspaceEdits.CreateFilesParams.SetFiles | org.eclipse.lsp4j/src/main/xtend-gen/org/eclipse/lsp4j/CreateFilesParams.java:55-57 | `null` fails naming `files` and leaves the field unchanged; any other value is stored; no other field can change |
| WorkspaceEdits.CreateFilesParams.Equals | org.eclipse.lsp4j/src/main/xtend-gen/org/eclipse/lsp4j/CreateFilesParams.java:68-82 | `equals`: the same class, then `files` null-safe equal, `files` element by element. The contract: a true result implies the other object has exactly this class. |
| WorkspaceEdits.CreateFilesParams.HashCode | org.eclipse.lsp4j/src/main/xtend-gen/org/eclipse/lsp4j/CreateFilesParams.java:86-88 | `hashCode`: `31 * 1 + h(files)`, where `h` is the list hash (itself a 31-fold from 1 over the elements). The contract gives the closed form: seed · 31^n + Σ hᵢ · 31^(n−1−i) reduced to a Java `int`. Its seed is 1; the field hashes hᵢ are taken in declaration order, 0 for an absent field. Wrapping at each step gives the same `int`. While the field is absent the hash is 31. |
| WorkspaceEdits.CreateFilesParams.EqualsContract | org.eclipse.lsp4j/src/main/xtend-gen/org/eclipse/lsp4j/CreateFilesParams.java:68-88 | under lawful foreign `equals`/`hashCode`: `equals` is reflexive (which covers the `this == obj` shortcut) and symmetric, and objects it calls equal have equal `hashCode`s. |
| WorkspaceEdits.CreateFilesParams.EqualFilesMakeEqualParams | org.eclipse.lsp4j/src/main/xtend-gen/org/eclipse/lsp4j/CreateFilesParams.java:67-82 | two objects whose lists have the same length and pairwise equal elements are equal, whether or not they share the list |
| WorkspaceEdits.CreateFilesParams.EmptyFilesHash | org.eclipse.lsp4j/src/main/xtend-gen/org/eclipse/lsp4j/CreateFilesParams.java:86-88 | with the default empty list the hash is `31 * 1 + 1` = 32, since the empty list hashes to 1 |
| Capabilities.SemanticTokensCapabilities.constructor | org.eclipse.lsp4j/src/main/xtend-gen/org/eclipse/lsp4j/SemanticTokensCapabilities.java:66-68 | `SemanticTokensCapabilities(dynamicRegistration)`: hands the flag to the superclass and leaves the four mandatory fields `null`. The ensures clauses give every field its initial value. |
| Capabilities.SemanticTokensCapabilities.Create | org.eclipse.lsp4j/src/main/xtend-gen/org/eclipse/lsp4j/SemanticTokensCapabilities.java:70-75 | `SemanticTokensCapabilities(requests, tokenTypes, tokenModifiers, formats)`: the superclass keeps its default (no flag), then the four arguments are checked in order. Succeeds exactly when `requests`, `tokenTypes`, `tokenModifiers`, `formats` are non-null; a failure names the first `null` one in that order; a success is a fresh object holding the arguments as given and the stated defaults for every other field. |
| Capabilities.SemanticTokensCapabilities.CreateWithRegistration | org.eclipse.lsp4j/src/main/xtend-gen/org/eclipse/lsp4j/SemanticTokensCapabilities.java:77-83 | `SemanticTokensCapabilities(dynamicRegistration, requests, tokenTypes, tokenModifiers, formats)`: hands the flag to the superclass, then the same four checks in the same order. Succeeds exactly when `requests`, `tokenTypes`, `tokenModifiers`, `formats` are non-null; a failure names the first `null` one in that order; a success is a fresh object holding the arguments as given and the stated defaults for every other field. |
| Capabilities.SemanticTokensCapabilities.SetRequests | org.eclipse.lsp4j/src/main/xtend-gen/org/eclipse/lsp4j/SemanticTokensCapabilities.java:97-99 | `null` fails naming `requests` and leaves the field unchanged; any other value is stored; no other field can change |
| Capabilities.SemanticTokensCapabilities.SetTokenTypes | org.eclipse.lsp4j/src/main/xtend-gen/org/eclipse/lsp4j/SemanticTokensCapabilities.java:113-115 | `null` fails naming `tokenTypes` and leaves the field unchanged; any other value is stored; no other field can change |
| Capabilities.SemanticTokensCapabilities.SetTokenModifiers | org.eclipse.lsp4j/src/main/xtend-gen/org/eclipse/lsp4j/SemanticTokensCapabilities.java:129-131 | `null` fails naming `tokenModifiers` and leaves the field unchanged; any other value is stored; no other field can change |
| Capabilities.SemanticTokensCapabilities.SetFormats | org.eclipse.lsp4j/src/main/xtend-gen/org/eclipse/lsp4j/SemanticTokensCapabilities.java:149-151 | `null` fails naming `formats` and leaves the field unchanged; any other value is stored; no other field can change |
| Capabilities.SemanticTokensCapabilities.SetOverlappingTokenSupport | org.eclipse.lsp4j/src/main/xtend-gen/org/eclipse/lsp4j/SemanticTokensCapabilities.java:168-170 | stores its argument, `null` (absent) included, without a check; no other field can change |
| Capabilities.SemanticTokensCapabilities.SetMultilineTokenSupport | org.eclipse.lsp4j/src/main/xtend-gen/org/eclipse/lsp4j/SemanticTokensCapabilities.java:187-189 | stores its argument, `null` (absent) included, without a check; no other field can change |
| Capabilities.SemanticTokensCapabilities.Equals | org.eclipse.lsp4j/src/main/xtend-gen/org/eclipse/lsp4j/SemanticTokensCapabilities.java:193-234 | `equals`: the same class, `super.equals`, then `requests`, `tokenTypes`, `tokenModifiers`, `formats`, `overlappingTokenSupport` and `multilineTokenSupport` null-safe equal, `tokenTypes`, `tokenModifiers` and `formats` element by element. The contract: a true result implies the other object has exactly this class and equal superclass state. |
| Capabilities.SemanticTokensCapabilities.HashCode | org.eclipse.lsp4j/src/main/xtend-gen/org/eclipse/lsp4j/SemanticTokensCapabilities.java:238-247 | `hashCode`: the 31-fold over `requests`, `tokenTypes`, `tokenModifiers`, `formats`, `overlappingTokenSupport` and `multilineTokenSupport` in declaration order, starting from `super.hashCode()`. The contract gives the closed form: seed · 31^n + Σ hᵢ · 31^(n−1−i) reduced to a Java `int`. Its seed is `super.hashCode()`; the field hashes hᵢ are taken in declaration order, 0 for an absent field. Wrapping at each step gives the same `int`. |
| Capabilities.SemanticTokensCapabilities.EqualsContract | org.eclipse.lsp4j/src/main/xtend-gen/org/eclipse/lsp4j/SemanticTokensCapabilities.java:193-247 | under lawful foreign `equals`/`hashCode`: `equals` is reflexive (which covers the `this == obj` shortcut) and symmetric, and objects it calls equal have equal `hashCode`s. |
| Capabilities.CodeActionResolveSupportCapabilities.constructor | org.eclipse.lsp4j/src/main/xtend-gen/org/eclipse/lsp4j/CodeActionResolveSupportCapabilities.java:34-37 | The no-argument constructor makes `properties` a fresh empty list. The ensures clauses give every field its initial value. |
| Capabilities.CodeActionResolveSupportCapabilities.Create | org.eclipse.lsp4j/src/main/xtend-gen/org/eclipse/lsp4j/CodeActionResolveSupportCapabilities.java:39-41 | `CodeActionResolveSupportCapabilities(properties)`: checks `properties`. Succeeds exactly when `properties` is non-null; a failure names the first `null` one; a success is a fresh object holding the arguments as given and the stated defaults for every other field. |
| Capabilities.CodeActionResolveSupportCapabilities.SetProperties | org.eclipse.lsp4j/src/main/xtend-gen/org/eclipse/lsp4j/CodeActionResolveSupportCapabilities.java:55-57 | `null` fails naming `properties` and leaves the field unchanged; any other value is stored; no other field can change |
| Capabilities.CodeActionResolveSupportCapabilities.Equals | org.eclipse.lsp4j/src/main/xtend-gen/org/eclipse/lsp4j/CodeActionResolveSupportCapabilities.java:61-75 | `equals`: the same class, then `properties` null-safe equal, `properties` element by element. The contract: a true result implies the other object has exactly this class. |
| Capabilities.CodeActionResolveSupportCapabilities.HashCode | org.eclipse.lsp4j/src/main/xtend-gen/org/eclipse/lsp4j/CodeActionResolveSupportCapabilities.java:79-81 | `hashCode`: `31 * 1 + h(properties)`, where `h` is the list hash. The contract gives the closed form: seed · 31^n + Σ hᵢ · 31^(n−1−i) reduced to a Java `int`. Its seed is 1; the field hashes hᵢ are taken in declaration order, 0 for an absent field. Wrapping at each step gives the same `int`. While the field is absent the hash is 31. |
| Capabilities.CodeActionResolveSupportCapabilities.EqualsContract | org.eclipse.lsp4j/src/main/xtend-gen/org/eclipse/lsp4j/CodeActionResolveSupportCapabilities.java:61-81 | under lawful foreign `equals`/`hashCode`: `equals` is reflexive (which covers the `this == obj` shortcut) and symmetric, and objects it calls equal have equal `hashCode`s. |
| Capabilities.CodeActionResolveSupportCapabilities.PropertiesLengthMatters | org.eclipse.lsp4j/src/main/xtend-gen/org/eclipse/lsp4j/CodeActionResolveSupportCapabilities.java:61-75 | property lists of different lengths never compare equal, whatever their elements |
| Capabilities.CompletionItemCapabilities.constructor | org.eclipse.lsp4j/src/main/xtend-gen/org/eclipse/lsp4j/CompletionItemCapabilities.java:92-93 | The no-argument constructor: every field `null`. The ensures clauses give every field its initial value. |
| Capabilities.CompletionItemCapabilities.WithSnippetSupport | org.eclipse.lsp4j/src/main/xtend-gen/org/eclipse/lsp4j/CompletionItemCapabilities.java:95-97 | `CompletionItemCapabilities(snippetSupport)`: stores `snippetSupport`, `null` included; every other field stays `null`. The ensures clauses give every field its initial value. |
| Capabilities.CompletionItemCapabilities.SetSnippetSupport | org.eclipse.lsp4j/src/main/xtend-gen/org/eclipse/lsp4j/CompletionItemCapabilities.java:120-122 | stores its argument, `null` (absent) included, without a check; no other field can change |
| Capabilities.CompletionItemCapabilities.SetCommitCharactersSupport | org.eclipse.lsp4j/src/main/xtend-gen/org/eclipse/lsp4j/CompletionItemCapabilities.java:135-137 | stores its argument, `null` (absent) included, without a check; no other field can change |
| Capabilities.CompletionItemCapabilities.SetDocumentationFormat | org.eclipse.lsp4j/src/main/xtend-gen/org/eclipse/lsp4j/CompletionItemCapabilities.java:152-154 | stores its argument, `null` (absent) included, without a check; no other field can change |
| Capabilities.CompletionItemCapabilities.SetDeprecatedSupport | org.eclipse.lsp4j/src/main/xtend-gen/org/eclipse/lsp4j/CompletionItemCapabilities.java:167-169 | stores its argument, `null` (absent) included, without a check; no other field can change |
| Capabilities.CompletionItemCapabilities.SetPreselectSupport | org.eclipse.lsp4j/src/main/xtend-gen/org/eclipse/lsp4j/CompletionItemCapabilities.java:182-184 | stores its argument, `null` (absent) included, without a check; no other field can change |
| Capabilities.CompletionItemCapabilities.SetTagSupport | org.eclipse.lsp4j/src/main/xtend-gen/org/eclipse/lsp4j/CompletionItemCapabilities.java:207-209 | stores its argument, `null` (absent) included, without a check; no other field can change |
| Capabilities.CompletionItemCapabilities.SetInsertReplaceSupport | org.eclipse.lsp4j/src/main/xtend-gen/org/eclipse/lsp4j/CompletionItemCapabilities.java:228-230 | stores its argument, `null` (absent) included, without a check; no other field can change |
| Capabilities.CompletionItemCapabilities.SetResolveSupport | org.eclipse.lsp4j/src/main/xtend-gen/org/eclipse/lsp4j/CompletionItemCapabilities.java:251-253 | stores its argument, `null` (absent) included, without a check; no other field can change |
| Capabilities.CompletionItemCapabilities.SetInsertTextModeSupport | org.eclipse.lsp4j/src/main/xtend-gen/org/eclipse/lsp4j/CompletionItemCapabilities.java:274-276 | stores its argument, `null` (absent) included, without a check; no other field can change |
| Capabilities.CompletionItemCapabilities.Equals | org.eclipse.lsp4j/src/main/xtend-gen/org/eclipse/lsp4j/CompletionItemCapabilities.java:280-334 | `equals`: the same class, then `snippetSupport`, `commitCharactersSupport`, `documentationFormat`, `deprecatedSupport`, `preselectSupport`, `tagSupport`, `insertReplaceSupport`, `resolveSupport` and `insertTextModeSupport` null-safe equal, `documentationFormat` element by element. The contract: a true result implies the other object has exactly this class. |
| Capabilities.CompletionItemCapabilities.HashCode | org.eclipse.lsp4j/src/main/xtend-gen/org/eclipse/lsp4j/CompletionItemCapabilities.java:338-350 | `hashCode`: the 31-fold over `snippetSupport`, `commitCharactersSupport`, `documentationFormat`, `deprecatedSupport`, `preselectSupport`, `tagSupport`, `insertReplaceSupport`, `resolveSupport` and `insertTextModeSupport` in declaration order, starting at 1. The contract gives the closed form: seed · 31^n + Σ hᵢ · 31^(n−1−i) reduced to a Java `int`. Its seed is 1; the field hashes hᵢ are taken in declaration order, 0 for an absent field. Wrapping at each step gives the same `int`. |
| Capabilities.CompletionItemCapabilities.EqualsContract | org.eclipse.lsp4j/src/main/xtend-gen/org/eclipse/lsp4j/CompletionItemCapabilities.java:280-350 | under lawful foreign `equals`/`hashCode`: `equals` is reflexive (which covers the `this == obj` shortcut) and symmetric, and objects it calls equal have equal `hashCode`s. |
| Capabilities.SemanticTokensClientCapabilitiesRequestsFull.constructor | org.eclipse.lsp4j/src/main/xtend-gen/org/eclipse/lsp4j/SemanticTokensClientCapabilitiesRequestsFull.java:28-29 | The no-argument constructor leaves `delta` `null`. The ensures clauses give every field its initial value. |
| Capabilities.SemanticTokensClientCapabilitiesRequestsFull.WithDelta | org.eclipse.lsp4j/src/main/xtend-gen/org/eclipse/lsp4j/SemanticTokensClientCapabilitiesRequestsFull.java:31-33 | `SemanticTokensClientCapabilitiesRequestsFull(delta)`: stores `delta`, `null` included. The ensures clauses give every field its initial value. |
| Capabilities.SemanticTokensClientCapabilitiesRequestsFull.SetDelta | org.eclipse.lsp4j/src/main/xtend-gen/org/eclipse/lsp4j/SemanticTokensClientCapabilitiesRequestsFull.java:48-50 | stores its argument, `null` (absent) included, without a check; no other field can change |
| Capabilities.SemanticTokensClientCapabilitiesRequestsFull.Equals | org.eclipse.lsp4j/src/main/xtend-gen/org/eclipse/lsp4j/SemanticTokensClientCapabilitiesRequestsFull.java:61-75 | `equals`: the same class, then `delta` null-safe equal. The contract: a true result implies the other object has exactly this class. |
| Capabilities.SemanticTokensClientCapabilitiesRequestsFull.HashCode | org.eclipse.lsp4j/src/main/xtend-gen/org/eclipse/lsp4j/SemanticTokensClientCapabilitiesRequestsFull.java:79-81 | `hashCode`: `31 * 1 + h(delta)`, which is 31 while `delta` is absent. The contract gives the closed form: seed · 31^n + Σ hᵢ · 31^(n−1−i) reduced to a Java `int`. Its seed is 1; the field hashes hᵢ are taken in declaration order, 0 for an absent field. Wrapping at each step gives the same `int`. |
| Capabilities.SemanticTokensClientCapabilitiesRequestsFull.EqualsContract | org.eclipse.lsp4j/src/main/xtend-gen/org/eclipse/lsp4j/SemanticTokensClientCapabilitiesRequestsFull.java:61-81 | under lawful foreign `equals`/`hashCode`: `equals` is reflexive (which covers the `this == obj` shortcut) and symmetric, and objects it calls equal have equal `hashCode`s. |
| Capabilities.TextDocumentChangeRegistrationOptions.constructor | org.eclipse.lsp4j/src/main/xtend-gen/org/eclipse/lsp4j/TextDocumentChangeRegistrationOptions.java:32-33 | The no-argument constructor leaves the mandatory `syncKind` `null`. The ensures clauses give every field its initial value. |
| Capabilities.TextDocumentChangeRegistrationOptions.Create | org.eclipse.lsp4j/src/main/xtend-gen/org/eclipse/lsp4j/TextDocumentChangeRegistrationOptions.java:35-37 | `TextDocumentChangeRegistrationOptions(syncKind)`: checks `syncKind`. Succeeds exactly when `syncKind` is non-null; a failure names the first `null` one; a success is a fresh object holding the arguments as given and the stated defaults for every other field. |
| Capabilities.TextDocumentChangeRegistrationOptions.SetSyncKind | org.eclipse.lsp4j/src/main/xtend-gen/org/eclipse/lsp4j/TextDocumentChangeRegistrationOptions.java:53-55 | `null` fails naming `syncKind` and leaves the field unchanged; any other value is stored; no other field can change |
| Capabilities.TextDocumentChangeRegistrationOptions.Equals | org.eclipse.lsp4j/src/main/xtend-gen/org/eclipse/lsp4j/TextDocumentChangeRegistrationOptions.java:59-75 | `equals`: the same class, `super.equals`, then `syncKind` null-safe equal. The contract: a true result implies the other object has exactly this class and equal superclass state. |
| Capabilities.TextDocumentChangeRegistrationOptions.HashCode | org.eclipse.lsp4j/src/main/xtend-gen/org/eclipse/lsp4j/TextDocumentChangeRegistrationOptions.java:79-81 | `hashCode`: `31 * super.hashCode() + h(syncKind)`. The contract gives the closed form: seed · 31^n + Σ hᵢ · 31^(n−1−i) reduced to a Java `int`. Its seed is `super.hashCode()`; the field hashes hᵢ are taken in declaration order, 0 for an absent field. Wrapping at each step gives the same `int`. |
| Capabilities.TextDocumentChangeRegistrationOptions.EqualsContract | org.eclipse.lsp4j/src/main/xtend-gen/org/eclipse/lsp4j/TextDocumentChangeRegistrationOptions.java:59-81 | under lawful foreign `equals`/`hashCode`: `equals` is reflexive (which covers the `this == obj` shortcut) and symmetric, and objects it calls equal have equal `hashCode`s. |
| Capabilities.TextDocumentSaveRegistrationOptions.constructor | org.eclipse.lsp4j/src/main/xtend-gen/org/eclipse/lsp4j/TextDocumentSaveRegistrationOptions.java:24-25 | The no-argument constructor leaves `includeText` `null`. The ensures clauses give every field its initial value. |
| Capabilities.TextDocumentSaveRegistrationOptions.WithIncludeText | org.eclipse.lsp4j/src/main/xtend-gen/org/eclipse/lsp4j/TextDocumentSaveRegistrationOptions.java:27-29 | `TextDocumentSaveRegistrationOptions(includeText)`: stores `includeText`, `null` included. The ensures clauses give every field its initial value. |
| Capabilities.TextDocumentSaveRegistrationOptions.SetIncludeText | org.eclipse.lsp4j/src/main/xtend-gen/org/eclipse/lsp4j/TextDocumentSaveRegistrationOptions.java:42-44 | stores its argument, `null` (absent) included, without a check; no other field can change |
| Capabilities.TextDocumentSaveRegistrationOptions.Equals | org.eclipse.lsp4j/src/main/xtend-gen/org/eclipse/lsp4j/TextDocumentSaveRegistrationOptions.java:48-64 | `equals`: the same class, `super.equals`, then `includeText` null-safe equal. The contract: a true result implies the other object has exactly this class and equal superclass state. |
| Capabilities.TextDocumentSaveRegistrationOptions.HashCode | org.eclipse.lsp4j/src/main/xtend-gen/org/eclipse/lsp4j/TextDocumentSaveRegistrationOptions.java:68-70 | `hashCode`: `31 * super.hashCode() + h(includeText)`. The contract gives the closed form: seed · 31^n + Σ hᵢ · 31^(n−1−i) reduced to a Java `int`. Its seed is `super.hashCode()`; the field hashes hᵢ are taken in declaration order, 0 for an absent field. Wrapping at each step gives the same `int`. |
| Capabilities.TextDocumentSaveRegistrationOptions.EqualsContract | org.eclipse.lsp4j/src/main/xtend-gen/org/eclipse/lsp4j/TextDocumentSaveRegistrationOptions.java:48-70 | under lawful foreign `equals`/`hashCode`: `equals` is reflexive (which covers the `this == obj` shortcut) and symmetric, and objects it calls equal have equal `hashCode`s. |
| Capabilities.RegistrationOptionsDistinct | org.eclipse.lsp4j/src/main/xtend-gen/org/eclipse/lsp4j/TextDocumentChangeRegistrationOptions.java:64 | change and save registration options never compare equal in either direction, even though they share a superclass |
| DebugProtocol.SetInstructionBreakpointsResponse.constructor | org.eclipse.lsp4j.debug/src/main/xtend-gen/org/eclipse/lsp4j/debug/SetInstructionBreakpointsResponse.java:29 | The class declares no constructor: the implicit one leaves `breakpoints` `null`. The ensures clauses give every field its initial value. |
| DebugProtocol.SetInstructionBreakpointsResponse.SetBreakpoints | org.eclipse.lsp4j.debug/src/main/xtend-gen/org/eclipse/lsp4j/debug/SetInstructionBreakpointsResponse.java:43-45 | `null` fails naming `breakpoints` and leaves the field unchanged; any other value is stored; no other field can change |
| DebugProtocol.SetInstructionBreakpointsResponse.Equals | org.eclipse.lsp4j.debug/src/main/xtend-gen/org/eclipse/lsp4j/debug/SetInstructionBreakpointsResponse.java:49-63 | `equals`: the same class, then `breakpoints` both `null` or `Arrays.deepEquals`: the same length and null-safe equal `Breakpoint` elements position by position. The contract: a true result implies the other object has exactly this class. |
| DebugProtocol.SetInstructionBreakpointsResponse.HashCode | org.eclipse.lsp4j.debug/src/main/xtend-gen/org/eclipse/lsp4j/debug/SetInstructionBreakpointsResponse.java:67-69 | `hashCode`: `31 * 1 + Arrays.deepHashCode(breakpoints)`, which is 31 while `breakpoints` is absent. The contract gives the closed form: seed · 31^n + Σ hᵢ · 31^(n−1−i) reduced to a Java `int`. Its seed is 1; the field hashes hᵢ are taken in declaration order, 0 for an absent field. Wrapping at each step gives the same `int`. |
| DebugProtocol.SetInstructionBreakpointsResponse.EqualsContract | org.eclipse.lsp4j.debug/src/main/xtend-gen/org/eclipse/lsp4j/debug/SetInstructionBreakpointsResponse.java:49-69 | under lawful foreign `equals`/`hashCode`: `equals` is reflexive (which covers the `this == obj` shortcut) and symmetric, and objects it calls equal have equal `hashCode`s. |
| DebugProtocol.SetInstructionBreakpointsResponse.SameContentsEqual | org.eclipse.lsp4j.debug/src/main/xtend-gen/org/eclipse/lsp4j/debug/SetInstructionBreakpointsResponse.java:60 | two objects holding distinct `breakpoints` arrays with the same elements in the same order are equal: contents are compared, not references |
| DebugProtocol.SetInstructionBreakpointsResponse.ReorderedUnequal | org.eclipse.lsp4j.debug/src/main/xtend-gen/org/eclipse/lsp4j/debug/SetInstructionBreakpointsResponse.java:60 | swapping two elements of `breakpoints` that are not equal to each other makes the objects unequal: the comparison is positional |
| DebugProtocol.SetInstructionBreakpointsResponse.AbsentArrays | org.eclipse.lsp4j.debug/src/main/xtend-gen/org/eclipse/lsp4j/debug/SetInstructionBreakpointsResponse.java:57-59 | a `null` `breakpoints` equals exactly the objects whose `breakpoints` is `null`, in both directions, so absent never equals present |
| DebugProtocol.SetInstructionBreakpointsResponse.ElementwiseEqualHashEqual | org.eclipse.lsp4j.debug/src/main/xtend-gen/org/eclipse/lsp4j/debug/SetInstructionBreakpointsResponse.java:68 | arrays of the same length with pairwise equal elements make the objects equal and give them equal hash codes |
| DebugProtocol.CompletionsResponse.constructor | org.eclipse.lsp4j.debug/src/main/xtend-gen/org/eclipse/lsp4j/debug/CompletionsResponse.java:30 | The class declares no constructor: the implicit one leaves `targets` `null`. The ensures clauses give every field its initial value. |
| DebugProtocol.CompletionsResponse.SetTargets | org.eclipse.lsp4j.debug/src/main/xtend-gen/org/eclipse/lsp4j/debug/CompletionsResponse.java:44-46 | `null` fails naming `targets` and leaves the field unchanged; any other value is stored; no other field can change |
| DebugProtocol.CompletionsResponse.Equals | org.eclipse.lsp4j.debug/src/main/xtend-gen/org/eclipse/lsp4j/debug/CompletionsResponse.java:57-71 | `equals`: the same class, then `targets` both `null` or `Arrays.deepEquals`: the same length and null-safe equal `CompletionItem` elements position by position. The contract: a true result implies the other object has exactly this class. |
| DebugProtocol.CompletionsResponse.HashCode | org.eclipse.lsp4j.debug/src/main/xtend-gen/org/eclipse/lsp4j/debug/CompletionsResponse.java:75-77 | `hashCode`: `31 * 1 + Arrays.deepHashCode(targets)`, which is 31 while `targets` is absent. The contract gives the closed form: seed · 31^n + Σ hᵢ · 31^(n−1−i) reduced to a Java `int`. Its seed is 1; the field hashes hᵢ are taken in declaration order, 0 for an absent field. Wrapping at each step gives the same `int`. |
| DebugProtocol.CompletionsResponse.EqualsContract | org.eclipse.lsp4j.debug/src/main/xtend-gen/org/eclipse/lsp4j/debug/CompletionsResponse.java:57-77 | under lawful foreign `equals`/`hashCode`: `equals` is reflexive (which covers the `this == obj` shortcut) and symmetric, and objects it calls equal have equal `hashCode`s. |
| DebugProtocol.CompletionsResponse.SameContentsEqual | org.eclipse.lsp4j.debug/src/main/xtend-gen/org/eclipse/lsp4j/debug/CompletionsResponse.java:68 | two objects holding distinct `targets` arrays with the same elements in the same order are equal: contents are compared, not references |
| DebugProtocol.CompletionsResponse.ReorderedUnequal | org.eclipse.lsp4j.debug/src/main/xtend-gen/org/eclipse/lsp4j/debug/CompletionsResponse.java:68 | swapping two elements of `targets` that are not equal to each other makes the objects unequal: the comparison is positional |
| DebugProtocol.CompletionsResponse.AbsentArrays | org.eclipse.lsp4j.debug/src/main/xtend-gen/org/eclipse/lsp4j/debug/CompletionsResponse.java:65-67 | a `null` `targets` equals exactly the objects whose `targets` is `null`, in both directions, so absent never equals present |
| DebugProtocol.CompletionsResponse.ElementwiseEqualHashEqual | org.eclipse.lsp4j.debug/src/main/xtend-gen/org/eclipse/lsp4j/debug/CompletionsResponse.java:76 | arrays of the same length with pairwise equal elements make the objects equal and give them equal hash codes |
| DebugProtocol.SetExpressionResponse.constructor | org.eclipse.lsp4j.debug/src/main/xtend-gen/org/eclipse/lsp4j/debug/SetExpressionResponse.java:28-77 | The class declares no constructor: the implicit one leaves every field `null`, the mandatory `value` included. The ensures clauses give every field its initial value. |
| DebugProtocol.SetExpressionResponse.SetValue | org.eclipse.lsp4j.debug/src/main/xtend-gen/org/eclipse/lsp4j/debug/SetExpressionResponse.java:91-93 | `null` fails naming `value` and leaves the field unchanged; any other value is stored; no other field can change |
| DebugProtocol.SetExpressionResponse.SetValueType | org.eclipse.lsp4j.debug/src/main/xtend-gen/org/eclipse/lsp4j/debug/SetExpressionResponse.java:116-118 | stores its argument, `null` (absent) included, without a check; no other field can change |
| DebugProtocol.SetExpressionResponse.SetPresentationHint | org.eclipse.lsp4j.debug/src/main/xtend-gen/org/eclipse/lsp4j/debug/SetExpressionResponse.java:135-137 | stores its argument, `null` (absent) included, without a check; no other field can change |
| DebugProtocol.SetExpressionResponse.SetVariablesReference | org.eclipse.lsp4j.debug/src/main/xtend-gen/org/eclipse/lsp4j/debug/SetExpressionResponse.java:160-162 | stores its argument, `null` (absent) included, without a check; no other field can change |
| DebugProtocol.SetExpressionResponse.SetNamedVariables | org.eclipse.lsp4j.debug/src/main/xtend-gen/org/eclipse/lsp4j/debug/SetExpressionResponse.java:187-189 | stores its argument, `null` (absent) included, without a check; no other field can change |
| DebugProtocol.SetExpressionResponse.SetIndexedVariables | org.eclipse.lsp4j.debug/src/main/xtend-gen/org/eclipse/lsp4j/debug/SetExpressionResponse.java:214-216 | stores its argument, `null` (absent) included, without a check; no other field can change |
| DebugProtocol.SetExpressionResponse.Equals | org.eclipse.lsp4j.debug/src/main/xtend-gen/org/eclipse/lsp4j/debug/SetExpressionResponse.java:220-259 | `equals`: the same class, then `value`, `valueType`, `presentationHint`, `variablesReference`, `namedVariables` and `indexedVariables` null-safe equal. The contract: a true result implies the other object has exactly this class. |
| DebugProtocol.SetExpressionResponse.HashCode | org.eclipse.lsp4j.debug/src/main/xtend-gen/org/eclipse/lsp4j/debug/SetExpressionResponse.java:263-272 | `hashCode`: the 31-fold over `value`, `valueType`, `presentationHint`, `variablesReference`, `namedVariables` and `indexedVariables` in declaration order, starting at 1. The contract gives the closed form: seed · 31^n + Σ hᵢ · 31^(n−1−i) reduced to a Java `int`. Its seed is 1; the field hashes hᵢ are taken in declaration order, 0 for an absent field. Wrapping at each step gives the same `int`. |
| DebugProtocol.SetExpressionResponse.EqualsContract | org.eclipse.lsp4j.debug/src/main/xtend-gen/org/eclipse/lsp4j/debug/SetExpressionResponse.java:220-272 | under lawful foreign `equals`/`hashCode`: `equals` is reflexive (which covers the `this == obj` shortcut) and symmetric, and objects it calls equal have equal `hashCode`s. |
| DebugProtocol.InitializeRequestArguments.constructor | org.eclipse.lsp4j.debug/src/main/xtend-gen/org/eclipse/lsp4j/debug/InitializeRequestArguments.java:29-114 | The class declares no constructor: the implicit one leaves every field `null`, the mandatory `adapterID` included. The ensures clauses give every field its initial value. |
| DebugProtocol.InitializeRequestArguments.SetClientID | org.eclipse.lsp4j.debug/src/main/xtend-gen/org/eclipse/lsp4j/debug/InitializeRequestArguments.java:131-133 | stores its argument, `null` (absent) included, without a check; no other field can change |
| DebugProtocol.InitializeRequestArguments.SetClientName | org.eclipse.lsp4j.debug/src/main/xtend-gen/org/eclipse/lsp4j/debug/InitializeRequestArguments.java:150-152 | stores its argument, `null` (absent) included, without a check; no other field can change |
| DebugProtocol.InitializeRequestArguments.SetAdapterID | org.eclipse.lsp4j.debug/src/main/xtend-gen/org/eclipse/lsp4j/debug/InitializeRequestArguments.java:166-168 | `null` fails naming `adapterID` and leaves the field unchanged; any other value is stored; no other field can change |
| DebugProtocol.InitializeRequestArguments.SetLocale | org.eclipse.lsp4j.debug/src/main/xtend-gen/org/eclipse/lsp4j/debug/InitializeRequestArguments.java:185-187 | stores its argument, `null` (absent) included, without a check; no other field can change |
| DebugProtocol.InitializeRequestArguments.SetLinesStartAt1 | org.eclipse.lsp4j.debug/src/main/xtend-gen/org/eclipse/lsp4j/debug/InitializeRequestArguments.java:204-206 | stores its argument, `null` (absent) included, without a check; no other field can change |
| DebugProtocol.InitializeRequestArguments.SetColumnsStartAt1 | org.eclipse.lsp4j.debug/src/main/xtend-gen/org/eclipse/lsp4j/debug/InitializeRequestArguments.java:223-225 | stores its argument, `null` (absent) included, without a check; no other field can change |
| DebugProtocol.InitializeRequestArguments.SetPathFormat | org.eclipse.lsp4j.debug/src/main/xtend-gen/org/eclipse/lsp4j/debug/InitializeRequestArguments.java:246-248 | stores its argument, `null` (absent) included, without a check; no other field can change |
| DebugProtocol.InitializeRequestArguments.SetSupportsVariableType | org.eclipse.lsp4j.debug/src/main/xtend-gen/org/eclipse/lsp4j/debug/InitializeRequestArguments.java:265-267 | stores its argument, `null` (absent) included, without a check; no other field can change |
| DebugProtocol.InitializeRequestArguments.SetSupportsVariablePaging | org.eclipse.lsp4j.debug/src/main/xtend-gen/org/eclipse/lsp4j/debug/InitializeRequestArguments.java:284-286 | stores its argument, `null` (absent) included, without a check; no other field can change |
| DebugProtocol.InitializeRequestArguments.SetSupportsRunInTerminalRequest | org.eclipse.lsp4j.debug/src/main/xtend-gen/org/eclipse/lsp4j/debug/InitializeRequestArguments.java:303-305 | stores its argument, `null` (absent) included, without a check; no other field can change |
| DebugProtocol.InitializeRequestArguments.SetSupportsMemoryReferences | org.eclipse.lsp4j.debug/src/main/xtend-gen/org/eclipse/lsp4j/debug/InitializeRequestArguments.java:322-324 | stores its argument, `null` (absent) included, without a check; no other field can change |
| DebugProtocol.InitializeRequestArguments.SetSupportsProgressReporting | org.eclipse.lsp4j.debug/src/main/xtend-gen/org/eclipse/lsp4j/debug/InitializeRequestArguments.java:341-343 | stores its argument, `null` (absent) included, without a check; no other field can change |
| DebugProtocol.InitializeRequestArguments.SetSupportsInvalidatedEvent | org.eclipse.lsp4j.debug/src/main/xtend-gen/org/eclipse/lsp4j/debug/InitializeRequestArguments.java:360-362 | stores its argument, `null` (absent) included, without a check; no other field can change |
| DebugProtocol.InitializeRequestArguments.Equals | org.eclipse.lsp4j.debug/src/main/xtend-gen/org/eclipse/lsp4j/debug/InitializeRequestArguments.java:385-459 | `equals`: the same class, then `clientID`, `clientName`, `adapterID`, `locale`, `linesStartAt1`, `columnsStartAt1`, `pathFormat`, `supportsVariableType`, `supportsVariablePaging`, `supportsRunInTerminalRequest`, `supportsMemoryReferences`, `supportsProgressReporting` and `supportsInvalidatedEvent` null-safe equal. The contract: a true result implies the other object has exactly this class. |
| DebugProtocol.InitializeRequestArguments.HashCode | org.eclipse.lsp4j.debug/src/main/xtend-gen/org/eclipse/lsp4j/debug/InitializeRequestArguments.java:463-479 | `hashCode`: the 31-fold over `clientID`, `clientName`, `adapterID`, `locale`, `linesStartAt1`, `columnsStartAt1`, `pathFormat`, `supportsVariableType`, `supportsVariablePaging`, `supportsRunInTerminalRequest`, `supportsMemoryReferences`, `supportsProgressReporting` and `supportsInvalidatedEvent` in declaration order, starting at 1. The contract gives the closed form: seed · 31^n + Σ hᵢ · 31^(n−1−i) reduced to a Java `int`. Its seed is 1; the field hashes hᵢ are taken in declaration order, 0 for an absent field. Wrapping at each step gives the same `int`. |
| DebugProtocol.InitializeRequestArguments.EqualsContract | org.eclipse.lsp4j.debug/src/main/xtend-gen/org/eclipse/lsp4j/debug/InitializeRequestArguments.java:385-479 | under lawful foreign `equals`/`hashCode`: `equals` is reflexive (which covers the `this == obj` shortcut) and symmetric, and objects it calls equal have equal `hashCode`s. |
| DebugProtocol.ExceptionInfoArguments.constructor | org.eclipse.lsp4j.debug/src/main/xtend-gen/org/eclipse/lsp4j/debug/ExceptionInfoArguments.java:24 | the primitive `threadId` starts at 0, so the getter returns 0 before any set |
| DebugProtocol.ExceptionInfoArguments.SetThreadId | org.eclipse.lsp4j.debug/src/main/xtend-gen/org/eclipse/lsp4j/debug/ExceptionInfoArguments.java:37-39 | stores the new `threadId`, so the getter returns the last value set; no other field can change |
| DebugProtocol.ExceptionInfoArguments.Equals | org.eclipse.lsp4j.debug/src/main/xtend-gen/org/eclipse/lsp4j/debug/ExceptionInfoArguments.java:43-54 | a true result implies the other object has exactly this class; for an object of this class, `equals` holds exactly when the two `hashCode`s agree, because `31 + threadId` wraps without collisions over all of `int` |
| DebugProtocol.ExceptionInfoArguments.HashCode | org.eclipse.lsp4j.debug/src/main/xtend-gen/org/eclipse/lsp4j/debug/ExceptionInfoArguments.java:58-60 | `hashCode`: `31 * 1 + threadId` in `int` arithmetic, so it wraps for large ids. The contract gives the closed form: seed · 31^n + Σ hᵢ · 31^(n−1−i) reduced to a Java `int`. Its seed is 1; the field hashes hᵢ are taken in declaration order. Wrapping at each step gives the same `int`. Without overflow it is exactly `31 + id`. |
| DebugProtocol.ExceptionInfoArguments.EqualsContract | org.eclipse.lsp4j.debug/src/main/xtend-gen/org/eclipse/lsp4j/debug/ExceptionInfoArguments.java:43-60 | `equals` is reflexive (which covers the `this == obj` shortcut) and symmetric, and objects it calls equal have equal `hashCode`s. |
| DebugProtocol.ExceptionInfoArguments.HashWrapsAtMaximum | org.eclipse.lsp4j.debug/src/main/xtend-gen/org/eclipse/lsp4j/debug/ExceptionInfoArguments.java:59 | the sum wraps: with `threadId` = 2147483647 the hash is -2147483618 |
| DebugProtocol.ScopesArguments.constructor | org.eclipse.lsp4j.debug/src/main/xtend-gen/org/eclipse/lsp4j/debug/ScopesArguments.java:24 | the primitive `frameId` starts at 0, so the getter returns 0 before any set |
| DebugProtocol.ScopesArguments.SetFrameId | org.eclipse.lsp4j.debug/src/main/xtend-gen/org/eclipse/lsp4j/debug/ScopesArguments.java:37-39 | stores the new `frameId`, so the getter returns the last value set; no other field can change |
| DebugProtocol.ScopesArguments.Equals | org.eclipse.lsp4j.debug/src/main/xtend-gen/org/eclipse/lsp4j/debug/ScopesArguments.java:43-54 | a true result implies the other object has exactly this class; for an object of this class, `equals` holds exactly when the two `hashCode`s agree, because `31 + frameId` wraps without collisions over all of `int` |
| DebugProtocol.ScopesArguments.HashCode | org.eclipse.lsp4j.debug/src/main/xtend-gen/org/eclipse/lsp4j/debug/ScopesArguments.java:58-60 | `hashCode`: `31 * 1 + frameId` in `int` arithmetic, so it wraps for large ids. The contract gives the closed form: seed · 31^n + Σ hᵢ · 31^(n−1−i) reduced to a Java `int`. Its seed is 1; the field hashes hᵢ are taken in declaration order. Wrapping at each step gives the same `int`. Without overflow it is exactly `31 + id`. |
| DebugProtocol.ScopesArguments.EqualsContract | org.eclipse.lsp4j.debug/src/main/xtend-gen/org/eclipse/lsp4j/debug/ScopesArguments.java:43-60 | `equals` is reflexive (which covers the `this == obj` shortcut) and symmetric, and objects it calls equal have equal `hashCode`s. |
| DebugProtocol.ScopesArguments.HashWrapsAtMaximum | org.eclipse.lsp4j.debug/src/main/xtend-gen/org/eclipse/lsp4j/debug/ScopesArguments.java:59 | the sum wraps: with `frameId` = 2147483647 the hash is -2147483618 |
| DebugProtocol.PauseArguments.constructor | org.eclipse.lsp4j.debug/src/main/xtend-gen/org/eclipse/lsp4j/debug/PauseArguments.java:24 | the primitive `threadId` starts at 0, so the getter returns 0 before any set |
| DebugProtocol.PauseArguments.SetThreadId | org.eclipse.lsp4j.debug/src/main/xtend-gen/org/eclipse/lsp4j/debug/PauseArguments.java:37-39 | stores the new `threadId`, so the getter returns the last value set; no other field can change |
| DebugProtocol.PauseArguments.Equals | org.eclipse.lsp4j.debug/src/main/xtend-gen/org/eclipse/lsp4j/debug/PauseArguments.java:43-54 | a true result implies the other object has exactly this class; for an object of this class, `equals` holds exactly when the two `hashCode`s agree, because `31 + threadId` wraps without collisions over all of `int` |
| DebugProtocol.PauseArguments.HashCode | org.eclipse.lsp4j.debug/src/main/xtend-gen/org/eclipse/lsp4j/debug/PauseArguments.java:58-60 | `hashCode`: `31 * 1 + threadId` in `int` arithmetic, so it wraps for large ids. The contract gives the closed form: seed · 31^n + Σ hᵢ · 31^(n−1−i) reduced to a Java `int`. Its seed is 1; the field hashes hᵢ are taken in declaration order. Wrapping at each step gives the same `int`. Without overflow it is exactly `31 + id`. |
| DebugProtocol.PauseArguments.EqualsContract | org.eclipse.lsp4j.debug/src/main/xtend-gen/org/eclipse/lsp4j/debug/PauseArguments.java:43-60 | `equals` is reflexive (which covers the `this == obj` shortcut) and symmetric, and objects it calls equal have equal `hashCode`s. |
| DebugProtocol.PauseArguments.HashWrapsAtMaximum | org.eclipse.lsp4j.debug/src/main/xtend-gen/org/eclipse/lsp4j/debug/PauseArguments.java:59 | the sum wraps: with `threadId` = 2147483647 the hash is -2147483618 |
| DebugProtocol.RestartFrameArguments.constructor | org.eclipse.lsp4j.debug/src/main/xtend-gen/org/eclipse/lsp4j/debug/RestartFrameArguments.java:24 | the primitive `frameId` starts at 0, so the getter returns 0 before any set |
| DebugProtocol.RestartFrameArguments.SetFrameId | org.eclipse.lsp4j.debug/src/main/xtend-gen/org/eclipse/lsp4j/debug/RestartFrameArguments.java:37-39 | stores the new `frameId`, so the getter returns the last value set; no other field can change |
| DebugProtocol.RestartFrameArguments.Equals | org.eclipse.lsp4j.debug/src/main/xtend-gen/org/eclipse/lsp4j/debug/RestartFrameArguments.java:43-54 | a true result implies the other object has exactly this class; for an object of this class, `equals` holds exactly when the two `hashCode`s agree, because `31 + frameId` wraps without collisions over all of `int` |
| DebugProtocol.RestartFrameArguments.HashCode | org.eclipse.lsp4j.debug/src/main/xtend-gen/org/eclipse/lsp4j/debug/RestartFrameArguments.java:58-60 | `hashCode`: `31 * 1 + frameId` in `int` arithmetic, so it wraps for large ids. The contract gives the closed form: seed · 31^n + Σ hᵢ · 31^(n−1−i) reduced to a Java `int`. Its seed is 1; the field hashes hᵢ are taken in declaration order. Wrapping at each step gives the same `int`. Without overflow it is exactly `31 + id`. |
| DebugProtocol.RestartFrameArguments.EqualsContract | org.eclipse.lsp4j.debug/src/main/xtend-gen/org/eclipse/lsp4j/debug/RestartFrameArguments.java:43-60 | `equals` is reflexive (which covers the `this == obj` shortcut) and symmetric, and objects it calls equal have equal `hashCode`s. |
| DebugProtocol.RestartFrameArguments.HashWrapsAtMaximum | org.eclipse.lsp4j.debug/src/main/xtend-gen/org/eclipse/lsp4j/debug/RestartFrameArguments.java:59 | the sum wraps: with `frameId` = 2147483647 the hash is -2147483618 |
| DebugProtocol.PauseIsNotExceptionInfo | org.eclipse.lsp4j.debug/src/main/xtend-gen/org/eclipse/lsp4j/debug/PauseArguments.java:48 | a pause request never equals an exception-info request, in either direction, even for the same thread |
| DebugProtocol.RestartFrameIsNotScopes | org.eclipse.lsp4j.debug/src/main/xtend-gen/org/eclipse/lsp4j/debug/RestartFrameArguments.java:48 | a restart-frame request never equals a scopes request, in either direction, even for the same frame |

## Left out

- `toString` methods, which use `ToStringBuilder`, a class that is not part of this model.
- Getters. A getter returns its field, so the model reads the field directly.
- JSON marshalling: the Gson `@JsonAdapter` type adapters, discriminator dispatch and
  encode/decode round trips. None of that code is part of this model.
- `equals`/`hashCode` of `String`, `Integer`, `Boolean`, enums, ranges and nested messages. These
  are the parameters in `Env`. Their properties are assumed only through `Lawful(env)`, which
  gives reflexivity, symmetry and agreement with `hashCode`. Transitivity is not assumed, and
  nothing needs it.
- Opaque JSON payloads (`data`, `initializationOptions`, `arguments`, `value`). They are abstract
  `Obj` values.
- List aliasing. Setters store the caller's `List` reference. The model holds lists as values
  (`seq`), so later mutation through another reference is not modelled.
- Debug arrays are modelled as Dafny arrays, so their aliasing is kept. Their element classes
  (`Breakpoint`, `CompletionItem`) are abstract `Obj` values, so `Arrays.deepEquals` reduces to
  element `equals`.
- Superclasses that are not part of this model:
  - `TextDocumentPositionParams`, `TextDocumentPositionAndWorkDoneProgressAndPartialResultParams`,
    `DynamicRegistrationCapabilities`, `TextDocumentRegistrationOptions`.
  - Their own constructors' checks, their setters (such as `setPosition`) and their fields
    beyond what the shown constructors pass are not part of this model.
  - Their `equals`/`hashCode` are the `env` functions applied to `inherited`.
- `ImplementationParams` and `LinkedEditingRangeCapabilities` declare no fields. Their
  `equals`/`hashCode` only delegate to superclasses that are not part of this model.
- Documented constraints that the classes do not enforce are not stated as conditions. These
  include:
  - the 2^31 - 1 bound on variable counts;
  - `targetSelectionRange` lying inside `targetRange`;
  - the allowed values of `kind`.
- Annotations (`@Pure`, `@Deprecated`, `@NonNull` as such) carry no behaviour. Concurrency does
  not arise.
- Java exceptions are modelled as `Failure`/`NullArgument` results naming the field. A failing
  factory returns no object, because in Java the partly built object is unreachable after the
  throw.
