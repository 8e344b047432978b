# HMD-Scheme: type inference and evaluation, modelled in Dafny

HMD-Scheme is a small Scheme dialect with two cores. These are modelled here together with what they guarantee.

- **Type inference.** `inference.js` infers Hindley–Milner types for parsed programs.
  - Type variables carry a mutable `instance` slot. `unify` writes these slots and `prune` compresses them.
  - `fresh` copies a type for each use of a polymorphic name.
  - `analyse` gives one rule per form.
  - `pretty_print` names unbound variables `a`, `b`, …, `z`, `aa`, … from a global counter.
  - `typecheck` runs the rules over a program, starting from a base environment.
- **Evaluation.** `interpreter.js` evaluates the first-order forms over a chain of environment frames `{bindings, outer}`.
  - `add_binding` and `update` write into the `bindings` objects in place.
  - `lookup` walks the chain outward from the innermost frame.

## How the model is organised

**The type algebra and the graph**
- `Types` is the type algebra: `TVar(id)` and `TOp(name, args)`.
- `Engine.Session` holds everything `inference.js` keeps globally or in objects:
  - the `instance` slot of every type variable, in an arena `slots` indexed by the variable's id (`|slots|` plays the part of the id counter `gID`);
  - the memoized display names;
  - the name counter `gName`.
- Its methods are `prune`, `occurs_type`, `occurs_in`, `unify`, `fresh`, `get_name`, `fresh_name` and `pretty_print`. Each one updates the arena in place.
- A ghost ranking proves that the `instance` graph has no cycle. `Graph` and `GraphChanges` give that graph its meaning:
  - `Resolve` is the type that a type denotes once every bound variable is replaced by its instance;
  - `Head` is the end of a variable chain, which is what `prune` returns.
- Two relations compare the meaning before and after a change:
  - `Preserves`: every type keeps its meaning (allocation, path compression);
  - `Refines`: the substitution was only extended (a binding made by `unify`).

**Inference**
- `Environment.Env` is the type environment. It is a JavaScript object, updated in place and copied by `clone`.
- `Environment.SpecificSet` is the set of non-generic variables.
- `Inference` holds `get_type`, every rule of `analyse`, and `typecheck`.
- `Typings` is the reference definition of those rules. A `Typing` is a derivation: the form, the environment and specific set before and after, the type, and the derivations of the sub-forms. `Sound` says that every node obeys the rule of its form, read off `analyse`; each method of `Inference` returns a sound derivation of its form. `SoundRefines` shows that the rules keep holding as later unifications extend the substitution.
- `TypecheckExamples` runs `typecheck` on programs of the test suite and derives the printed types from the rules.

**Evaluation**
- `Values` holds the values `evalS` produces, and `===` and the relational operators on them.
- `Scopes` describes an environment chain as data: the binding maps of its frames, innermost first. `Find`, `Define` and `Rebind` are the reference meanings of `lookup`, `add_binding` and `update`.
- `Frames.Frame` is the linked frame. Its `bindings` are changed in place.
- `Evaluation.Run` is the meaning of `evalS`, as a function from an expression and a chain to a completion and the new chain.
- Each method of `Interpreter` (the evaluator proper) is proved to compute exactly `Run` on the frame chain it mutates.
- `Laws` states what `def`, `set!`, `if`, `=`, `begin`, `let` and `let*` guarantee in terms of `Run`.
- `Examples` evaluates the programs of the interpreter's test suite.

**Two object-key coercions**
The source uses objects as keys, and JavaScript converts object keys to strings. The model follows the coercion literally.
- **Specific sets.** Every type variable becomes the key `"[object Object]"` in a specific set. So a specific set is modelled by one flag: whether that key has been set.
  - `is_generic` is then "the set is empty".
  - `fresh` maps every generic variable of one copy to the same new variable.
- **Environment keys.** A form used as an environment key becomes its `String(...)` text: `Syntax.Key`.
- **Inherited names.** A name that an object inherits from `Object.prototype`, such as `toString`, can be looked up in every environment. The lookup then yields a function, not a type: `Environment.Found.Foreign`.

**Where the code and the project's own description disagree, the model follows the code:**
- `def` in the inference rules does not check whether the name is already bound (inference.js:132-138).
- `let` in the inference rules ignores a trailing unpaired name. It does not reject an odd binding list (inference.js:104-107).
- An unknown lower-case name inside a `data` constructor is a parse error from `get_type` (inference.js:270-271). It is not a type parameter.

## Model

| member | source | states |
|---|---|---|
| Types.ReplaceVarsShape | inference.js:375-379 | copying a type keeps every operator's name and arity |
| Types.ReplaceVarsOnly | inference.js:359-367 | after a generic copy, the one variable drawn for it is the only variable left: every generic variable maps to the same new variable |
| Naming.SuccDigits | inference.js:21-38 | one pass of the carry loop turns the k-th name into the (k+1)-th |
| Naming.SpellInjective | inference.js:15-40 | the counter never hands out the same name twice between two resets |
| Naming.SpellExamples | inference.js:15-40 | the names run a, b, …, z, aa, ab, …, zz, aaa |
| Engine.Advance | inference.js:21-38 | the carry loop over `gName` computes the successor name (`Succ`) |
| Engine.Session.constructor | inference.js:9-12 | the name counter starts at "a"; `t1` and `t2` (inference.js:426-427) take ids 0 and 1, unbound |
| Engine.Session.NewVar | inference.js:387-391 | a new variable takes the next id, unbound and unnamed; no existing type changes meaning |
| Engine.Session.FreshName | inference.js:15-40 | returns the name of the current counter value and advances the counter by one |
| Engine.Session.ResetNames | inference.js:492 | the counter goes back to "a"; names already memoized stay |
| Engine.Session.GetName | inference.js:392-399 | the first call draws a name from the counter and memoizes it; later calls return the same name without drawing |
| Engine.Session.Prune | inference.js:237-246 | returns the end of the chain (an operator or an unbound variable); a bound variable then points straight at that end; no type changes meaning and no chain end moves |
| Engine.Session.OccursType | inference.js:295-303 | true exactly when `v` occurs in the resolved type of `t` |
| Engine.Session.OccursIn | inference.js:306-314 | true exactly when `v` occurs in the resolved type of some constituent |
| Engine.Session.Unify | inference.js:320-349 | on success both sides resolve to the same type; the substitution is only extended; no variable is unbound; `unify(t, t)` changes nothing; operators differing in name or arity give "Type mismatch", and a cycle gives "recursive unification", both binding nothing |
| Engine.Session.UnifyVar | inference.js:327-333 | when `t1`'s chain ends in an unbound variable, it is bound to `t2`'s chain end unless a cycle would form; this path never reports a mismatch |
| Engine.Session.BindUnlessCyclic | inference.js:328-333 | fails exactly when the other side's resolved type contains the variable; otherwise binds it so that both sides resolve alike |
| Engine.Session.UnifyArgs | inference.js:339-345 | operators with equal names and arities are unified constituent by constituent, left to right |
| Engine.Session.UnifyStep | inference.js:343-344 | after the i-th pair succeeds, the first i+1 constituents resolve alike |
| Engine.Session.Fresh | inference.js:352-384 | the copy is the resolved type, with every variable replaced by one new variable when the specific set is empty and the type has a variable; otherwise it is unchanged; nothing else changes meaning |
| Engine.Session.FreshRec | inference.js:355-381 | copies one type, drawing the new variable at most once per call |
| Engine.Session.FreshArgs | inference.js:376-379 | copies the constituents in order, sharing the one new variable |
| Engine.Session.PrettyPrint | inference.js:438-464 | the text, names and counter agree with `Printing.Render` of the resolved type |
| Engine.Session.PrettyArrow | inference.js:447-452 | a function type prints as its constituents joined by " -> " in parentheses |
| Engine.Session.PrettyArrowRest | inference.js:449-452 | the loop over the remaining constituents completes that text |
| Engine.Session.PrettyArrowStep | inference.js:450 | one turn of that loop appends " -> " and the next constituent |
| Engine.Session.PrettyList | inference.js:453-454 | a list type prints as its one constituent in parentheses; a list type with no constituent is a printing error |
| Engine.Session.PrettyPair | inference.js:455-457 | a pair type prints as `(t1 . t2)`, left constituent first; fewer than two constituents is a printing error |
| Graph.Resolve | inference.js:237-246 | the meaning of a type is fully resolved: every variable left in it is unbound |
| Graph.Head | inference.js:237-246 | following `instance` links ends at an operator or an unbound variable |
| Graph.HeadResolve | inference.js:237-246 | the end of a chain means what the chain means |
| Graph.ResolveIdempotent | inference.js:237-246 | resolving twice is resolving once |
| Graph.RefinesKeepsEqual | inference.js:320-349 | two types made equal by unification stay equal under every later unification |
| Graph.GroundFixed | inference.js:429-435 | a type without variables, such as a base type, keeps its meaning forever |
| GraphChanges.Compress | inference.js:242 | pointing a bound variable straight at an equivalent type keeps every meaning |
| GraphChanges.CompressStep | inference.js:241-243 | the path-compression write keeps every meaning and chain end, and the variable then points at its chain end |
| GraphChanges.Alloc | inference.js:387-391 | a new unbound variable changes the meaning of no existing type |
| GraphChanges.Bind | inference.js:332 | binding an unbound variable to a type not containing it keeps the graph acyclic and only extends the substitution, and the variable then means that type |
| GraphChanges.UnboundBind | inference.js:332 | every binding of an unbound variable lowers the number of unbound variables by one |
| Unification.HeadFixed | inference.js:237-246 | pruning an already-pruned type returns it unchanged |
| Unification.BindVar | inference.js:327-333 | binding the variable at the end of `t1`'s chain makes `t1` and `t2` resolve alike |
| Unification.OpsDone | inference.js:339-345 | operators with the same name whose constituents were made equal pairwise are equal |
| Unification.PrefixExtends | inference.js:343-344 | if the first i constituents already resolve alike and so do the i-th pair, the first i+1 constituents resolve alike |
| Instantiation.InstanceOp | inference.js:375-379 | the copy of an operator is the operator over the copies of its constituents |
| Printing.Render | inference.js:438-464 | printing succeeds exactly when no operator lacks a shown constituent; names already drawn are kept, and new names are drawn only for variables of the type |
| Printing.RenderArgs | inference.js:447-457 | prints the first k constituents left to right, threading the names and the counter |
| Printing.RenderArrow | inference.js:447-452 | a function type prints as `(t1 -> … -> tn)` |
| Printing.RenderArrowExample | inference.js:447-452 | a function type `x -> y -> y` over two distinct unbound variables, printed from a fresh counter, is `(a -> b -> b)`: the first variable is named `a`, the second `b` |
| Printing.RenderListExample | inference.js:453-454 | `List(List(Int))` prints as `((Int))` |
| Environment.Env.Get | inference.js:260 | `env[name]` is an own binding when there is one, an inherited function for a name of `Object.prototype`, and `undefined` otherwise |
| Environment.Env.Set | inference.js:80 | `env[name] = t` replaces or adds that one binding |
| Environment.Env.Clone | inference.js:52-64 | the copy has exactly the own bindings, and fails when an own binding hides `hasOwnProperty` |
| Environment.SpecificSet.Mark | inference.js:86 | marking any variable sets the one key every variable converts to |
| Environment.SpecificSet.Clone | inference.js:52-64 | the copy is marked exactly when the original is |
| Typings.Literal | inference.js:262-272 | a number or "Int" is `Int`, "Bool" is `Bool`, "Char" or a name starting with a backslash is `Char`, "String" is `String`, and anything else is a parse error |
| Typings.LiteralExamples | test/HMDSTest.js:398-422 | `4` is `Int`, `\c` is `Char`, and `#t` is not a literal |
| Inference.GetType | inference.js:259-273 | a bound name gives a `fresh` copy of its binding, an inherited name fails as `prune` does, and an unbound name is a literal or a parse error |
| Inference.AnalyseAt | inference.js:105 | analysing a missing element is an error |
| Inference.Analyse | inference.js:68-232 | on success the form has a derivation in which every node obeys the rule of its own form (`Typings.Sound`), and the result is its type; `()` and `(list)` are `List` of a new variable; the substitution is only extended |
| Inference.AnalyseData | inference.js:77-100 | the type name is bound to `TOp(name, [])`; each constructor, in turn, is bound to a new variable equal to a function from its fields' types to that operator; the result is what the name is bound to afterwards, which is `TOp(name, [])` unless a constructor has the same name; fewer than three elements is an error |
| Inference.DataRest | inference.js:82-99 | the constructor loop: each constructor is analysed in the environment the one before left, and the type name keeps its operator unless a constructor rebinds it |
| Inference.DataStep | inference.js:84-94 | one turn of that loop extends the chain of constructor derivations and binds the constructor's key |
| Inference.DataConstructor | inference.js:82-94 | the constructor name is bound to a new variable and the set is marked; the variable resolves to a function type with one constituent per field plus the data type last |
| Inference.FieldTypes | inference.js:88-90 | one type per field, in order: each is the type of a derivation of that field as a name analysed by `get_type` in the constructor's environment with the set marked |
| Inference.BindName | inference.js:133-135 | binds a new variable under the name and marks it specific |
| Inference.AnalyseLet | inference.js:102-108 | `let` fails for short forms and for an environment `clone` cannot copy; on success the values are analysed in turn in the enclosing environment, the body in a copy binding each name to its value's type, and the result is the body's type |
| Inference.LetValues | inference.js:104-107 | the value loop: one derivation per binding, in turn, and the copy binds each name to its value's type |
| Inference.LetStep | inference.js:105-106 | one turn of that loop |
| Inference.AnalyseIf | inference.js:110-117 | on success the condition's type resolves to `Bool`, the two branches' types resolve alike, and the result is the then-branch's type; fewer than four elements is an error |
| Inference.IfCondition | inference.js:111-113 | the condition is analysed and its type made equal to `Bool` |
| Inference.IfBranches | inference.js:114-117 | the branches are analysed in turn and their types made equal; the result is the then-branch's type |
| Inference.AnalyseLambda | inference.js:120-130 | the result is `Fn` of one new variable per parameter, in order, followed by the type of the body, analysed with each parameter bound to its variable; the caller's environment is unchanged; short forms and an environment `clone` cannot copy are errors |
| Inference.FunctionBody | inference.js:121-130 | shared by `lambda` and `defn`: the parameters are bound to new variables and the body is analysed in that copy; the result is the function from those variables to the body's type |
| Inference.ParamScope | inference.js:122-128 | the copies of the environment and the set, with the parameters bound to new variables in order |
| Typings.BindVarsSpec | inference.js:124-128 | each parameter is bound to its own new variable, and every other name keeps its binding |
| Inference.BindParams | inference.js:124-128 | the parameter loop allocates the variables in order, binds them, and marks the specific set when asked |
| Inference.AnalyseDef | inference.js:132-138 | `def` marks the specific set, and the new variable made for the name resolves to the result; short forms are errors |
| Inference.AnalyseSet | inference.js:140-147 | `set!` on an unbound name fails with "set! error"; otherwise the existing binding resolves to the result |
| Inference.AnalyseDefn | inference.js:149-163 | the name is bound to a new variable, the body is analysed with the parameters bound to further variables, and the result is `Fn` of those variables followed by the body's type; the name's variable resolves to the result |
| Inference.DefnRest | inference.js:154-163 | after the name is bound: the body in the parameters' copy, then the unification with the name's variable |
| Inference.DefnUnify | inference.js:161-163 | the name's variable is unified with the function type; on success the result is that type and the `defn` derivation is sound |
| Inference.AnalyseLetStar | inference.js:165-178 | `let*` fails for short forms, for an environment `clone` cannot copy, and for an odd binding list; on success each name is bound to a new variable before its value is analysed where the bindings before left off, the variable equals the value's type, the body is analysed in the environment the bindings leave with the caller's set, and the result is the body's type |
| Inference.StarValues | inference.js:171-177 | the binding loop: every binding, in turn, as `LetStarBinding` describes |
| Inference.LetStarBinding | inference.js:171-177 | one binding of `let*`: the name's variable resolves to the value's type |
| Inference.AnalysePair | inference.js:181-184 | the result is `Pair` of the two operands' types, each analysed with an empty specific set, the second in the environment the first left |
| Inference.AnalyseQuote | inference.js:187-196 | more than one operand fails; a name is `Symbol`, a number `Int`, `()` a list of a new variable, and a quoted list has the type of a derivation of the `list` form of its elements |
| Inference.AnalyseList | inference.js:197-207 | the elements are analysed in turn, the first with an empty specific set; all their types resolve alike and the result is `List` of the last one's type |
| Inference.ListRest | inference.js:202-206 | the loop over the elements after the first |
| Inference.ListStep | inference.js:203-205 | one turn of that loop: the next element's type is made equal to the one before |
| Inference.AnalyseApply | inference.js:210-227 | the operator's type resolves alike with `Fn` of the operands' types, in order, followed by the result, a new variable; the operator's key is then rebound to the copy of the operator's type as it resolved right after the operator was analysed, before the operands and the unification, with every variable replaced by the one variable drawn at that point (the next id of the arena then), and that type itself when it has no variable |
| Inference.CopyHead | inference.js:214 | the copy is `fresh` of the operator's type with no specific set: its resolved type with every variable replaced by the one new variable, and that type itself when it has no variable |
| Inference.ApplyRest | inference.js:215-227 | after the operator: the operands, the new result variable, the unification, and the operator's key rebound to exactly the copy it is given |
| Inference.ApplyHead | inference.js:222-226 | unifies the built function type with the operator's type and restores the name |
| Inference.AnalyseOperands | inference.js:217-219 | one derivation per operand, in order, each analysed in the environment the one before left; the types are theirs |
| Inference.CheckForm | inference.js:491 | the form has a sound derivation, and the text is `Render` of its resolved type |
| Inference.Typecheck | inference.js:467-495 | the forms are analysed in turn from the base environment, each where the one before left; on success the i-th text is `Render` of the i-th form's resolved type, printed from a counter reset to "a" after the form before |
| Inference.CheckStep | inference.js:490-493 | one turn of that loop: the form's text, then the counter reset to "a" |
| Inference.BaseScope | inference.js:468-489 | the base environment, with three new variables for `=`, `!=` and `!` |
| Typings.SoundRefines | inference.js:320-349 | a derivation whose nodes obey their rules keeps obeying them under every later unification |
| Typings.DataIntro | inference.js:77-100 | a `data` form whose constructors all have derivations has a sound derivation, whose type is what the name is bound to afterwards |
| Typings.DataGrow | inference.js:84-94 | one more constructor extends the chain of constructors |
| Typings.DataKeeps | inference.js:80-100 | through the constructor loop the type name stays bound, to its operator unless a constructor has its name |
| Typings.LetIntro | inference.js:102-108 | a `let` whose values and body have derivations, as that rule chains them, has a sound derivation of the body's type |
| Typings.IfIntro | inference.js:110-117 | an `if` whose condition is a `Bool` and whose branches have equal types has a sound derivation |
| Typings.LambdaIntro | inference.js:120-130 | a `lambda` whose body has a sound derivation with the parameters bound to new variables has one itself, of the function type |
| Typings.DefnIntro | inference.js:149-163 | a `defn` whose body has a sound derivation and whose name's variable equals the function type has a sound derivation |
| Typings.StarIntro | inference.js:165-178 | a `let*` whose bindings and body have derivations, as that rule chains them, has a sound derivation of the body's type |
| Typings.PairIntro | inference.js:181-184 | a `.` form whose operands have sound derivations has one, of the pair of their types |
| Typings.ListGrow | inference.js:202-205 | one more element, whose type equals the one before, extends the list |
| Typings.ListIntro | inference.js:197-207 | a `list` form whose elements all have derivations of one type has a sound derivation, of a list of that type |
| Typings.ApplyIntro | inference.js:210-227 | an application whose operator's type equals a function from the operands' types to a new variable has a sound derivation |
| TypecheckExamples.LambdaXYType | test/HMDSTest.js:567-572 | any sound derivation of `(lambda (x y) y)` resolves to `x -> y -> y` over the two parameter variables |
| TypecheckExamples.LambdaTwoParams | test/HMDSTest.js:567-572 | `typecheck` of `(lambda (x y) y)` in a new session prints `(a -> b -> b)` |
| TypecheckExamples.NestedListType | test/HMDSTest.js:455-460 | any sound derivation of `(list (list 1 2) (list 3 4))`, where no number is bound, resolves to `List (List Int)` |
| TypecheckExamples.NestedLists | test/HMDSTest.js:455-460 | `typecheck` of `(list (list 1 2) (list 3 4))` in a new session prints `((Int))` |
| Values.DatumForm | interpreter.js:204-206 | a quoted form comes back as the same form: `quote` loses nothing |
| Values.StrictEquals | interpreter.js:90 | `===` is equality of values, and two arrays are outside the model |
| Values.TextLessTrichotomy | interpreter.js:168-191 | string order is total and strict |
| Values.Compare | interpreter.js:168-191 | the relational operators on two numbers are the integer ones; only number/number and string/string pairs are modelled |
| Values.CompareText | interpreter.js:180-191 | on strings `<=` is `<` or equal, and `>=` is `>` or equal |
| Scopes.Holder | interpreter.js:51-63 | the innermost frame binding the name: no earlier frame binds it |
| Scopes.FindFirst | interpreter.js:51-63 | `lookup` answers from the first frame when it binds the name, and from the outer chain otherwise |
| Scopes.RebindFirst | interpreter.js:40-48 | `update` skips a first frame that does not bind the name |
| Scopes.FindDefine | interpreter.js:28-38 | after `add_binding` the name yields the new value and every other name what it yielded before |
| Scopes.FindRebind | interpreter.js:40-48 | after `update` of a bound name, the name yields the new value, every other name is unchanged, and only the innermost frame binding it changed |
| Frames.Frame.Empty | test/HMDSTest.js:83 | `{}` is a chain of one empty frame |
| Frames.Frame.Extend | interpreter.js:210 | `{bindings: bind, outer: env}` puts `bind` in front of the chain of `env` |
| Frames.Frame.IsEmpty | interpreter.js:2-10 | an object without own properties is the one empty frame |
| Frames.Frame.Lookup | interpreter.js:51-63 | `lookup` yields the innermost binding of the name, or `null` when no frame binds it or the environment is empty |
| Frames.Frame.AddBinding | interpreter.js:28-38 | sets the name in `bindings`, creating `bindings` if absent; every other key is unchanged and the result is 0 |
| Frames.Frame.Update | interpreter.js:40-48 | rebinds the name in the innermost frame binding it and returns 0; throws "update error" when no frame binds it; other frames are unchanged |
| Evaluation.Run | interpreter.js:66-84 | evaluation only adds bindings to existing frames, and an expression without `def` or `set!` leaves the chain unchanged |
| Evaluation.RunForm | interpreter.js:84-249 | the same, for each form of the `switch` |
| Evaluation.RunAt | interpreter.js:116 | the same, for one element; a missing element throws |
| Evaluation.RunOperands | interpreter.js:16-17 | the same, for the two operands in order |
| Evaluation.RunArith | interpreter.js:14-25 | the same, for `+`, `-` and `*` |
| Evaluation.RunCompare | interpreter.js:168-191 | the same, for the relational operators |
| Evaluation.RunDiffer | interpreter.js:192-197 | the same, for `!=` |
| Evaluation.RunPair | interpreter.js:160-161 | the same, for `.` |
| Evaluation.RunEqual | interpreter.js:88-95 | the same, for `=` |
| Evaluation.RunBegin | interpreter.js:149-156 | the same, for `begin` |
| Evaluation.RunDef | interpreter.js:111-121 | the same, for `def` |
| Evaluation.RunSet | interpreter.js:141-148 | the same, for `set!` |
| Evaluation.RunIf | interpreter.js:198-203 | the same, for `if` |
| Evaluation.RunLetOne | interpreter.js:207-211 | the same, for `let-one`: the new frame is dropped afterwards |
| Evaluation.RunLet | interpreter.js:212-222 | the same, for `let` |
| Evaluation.RunLetBindings | interpreter.js:217-222 | the same, for the `let` loop and body |
| Evaluation.RunLetStar | interpreter.js:223-235 | the same, for `let*` |
| Evaluation.RunStarBindings | interpreter.js:228-235 | the same, for the `let*` loop and body |
| Evaluation.LetTurn | interpreter.js:217-220 | one turn of the `let` loop: a throwing value ends it, and otherwise the rest runs with the name added to the map |
| Evaluation.StarTurn | interpreter.js:228-233 | one turn of the `let*` loop: a throwing value ends it in the enclosing chain, and otherwise the rest runs with the name defined in the new frame |
| Evaluation.RunApply | interpreter.js:246-248 | an application always throws, since no value of the model is a function |
| Interpreter.Eval | interpreter.js:66-84 | `evalS` on the frame chain gives the completion and the new chain that `Run` gives on its binding maps |
| Interpreter.EvalForm | interpreter.js:84-249 | the same, for the `switch` on the head |
| Interpreter.EvalAt | interpreter.js:116 | the same, for one element |
| Interpreter.EvalOperands | interpreter.js:16-17 | the same, for two operands |
| Interpreter.EvalArith | interpreter.js:14-25 | the same, for `arithmetic` |
| Interpreter.EvalCompare | interpreter.js:168-191 | the same, for `<`, `>`, `<=` and `>=` |
| Interpreter.EvalDiffer | interpreter.js:192-197 | the same, for `!=` |
| Interpreter.EvalPair | interpreter.js:160-161 | the same, for `.` |
| Interpreter.EvalEqual | interpreter.js:88-95 | the same, for the `=` loop |
| Interpreter.EvalBegin | interpreter.js:149-156 | the same, for the `begin` loop |
| Interpreter.EvalDef | interpreter.js:111-121 | the same, for `def` |
| Interpreter.EvalSet | interpreter.js:141-148 | the same, for `set!` |
| Interpreter.EvalIf | interpreter.js:198-203 | the same, for `if` |
| Interpreter.EvalLetOne | interpreter.js:207-211 | the same, for `let-one` |
| Interpreter.EvalLet | interpreter.js:212-222 | the same, for `let` |
| Interpreter.LetValues | interpreter.js:217-220 | the `let` loop fills one binding map, evaluating every value in the outer chain |
| Interpreter.LetBinding | interpreter.js:218-219 | one turn of that loop |
| Interpreter.EvalLetStar | interpreter.js:223-235 | the same, for `let*` |
| Interpreter.StarValues | interpreter.js:228-233 | the `let*` loop evaluates each value in a frame that holds the bindings made so far |
| Interpreter.StarBinding | interpreter.js:230-232 | one turn of that loop, re-creating the frame around the shared map |
| Interpreter.StarFrame | interpreter.js:231 | the new frame holds the bindings made so far plus the new one, in front of the enclosing chain |
| Interpreter.EvalApply | interpreter.js:246-248 | the same, for an application |
| Laws.DefBinds | interpreter.js:111-121 | `def` throws "already defined" when the name yields anything but `null`; otherwise it returns 0, the name yields the value, the binding sits in the current frame, and other names are unchanged |
| Laws.SetRebinds | interpreter.js:141-148 | `set!` throws when the name yields `null`; otherwise, once the value is computed, it returns 0 and never "update error"; the name yields the value and only the frame holding it changed |
| Laws.IfChooses | interpreter.js:198-203 | `if` runs the then-branch exactly when the condition is `'#t'`, and the else-branch otherwise |
| Laws.EqualStep | interpreter.js:89-94 | for two pure operands that evaluate to values, one turn of the `=` loop: a strictly equal pair goes on, an unequal pair gives `'#f'`, and two arrays are unmodelled |
| Laws.PairsEqualAll | interpreter.js:89-94 | the pairwise check from operand i on holds exactly when every consecutive pair from i on is strictly equal |
| Laws.EqualFrom | interpreter.js:89-94 | when the operands from i on are pure, evaluate to values and no two consecutive ones are arrays, the `=` loop from i on gives `'#t'` exactly when every consecutive pair is strictly equal |
| Laws.EqualAllPairs | interpreter.js:88-95 | when the operands are pure, evaluate to values and no two consecutive ones are arrays, `=` is `'#t'` exactly when every consecutive pair of operands is strictly equal, and `'#f'` otherwise |
| Examples.EqualTwice | interpreter.js:89-91 | `(= 0 (def x 0) 0)` throws "already defined": the middle operand is evaluated once for each of its two pairs |
| Laws.BeginFrom | interpreter.js:151-155 | over pure forms that all evaluate to values, the `begin` loop from form i on gives the last form's value |
| Laws.BeginLast | interpreter.js:149-156 | `begin` evaluates its forms in turn, each in the chain the one before left; the first that throws ends it, and otherwise it gives the last form's completion; with no form it is `undefined` |
| Laws.BeginThrough | interpreter.js:151-155 | the `begin` loop from form i on: the forms before the last in turn, then the last in the chain they leave |
| Laws.BeginPure | interpreter.js:149-156 | `begin` over pure forms that all evaluate to values gives the last one's value and leaves the chain unchanged |
| Laws.RunThrough | interpreter.js:151-153 | the forms run in turn, stopping at the first that throws, keep the number of frames |
| Laws.LetOddThrows | interpreter.js:214-216 | `let` and `let*` throw, changing nothing, when the binding list is missing or has an odd length (also interpreter.js:225-227) |
| Laws.LetFrameLast | interpreter.js:217-220 | in the frame of a `let`, a name bound by no later binding is bound to its own value |
| Laws.LetFrom | interpreter.js:217-222 | the `let` loop from binding i on, over values that are pure and evaluate to values, evaluates every value in the enclosing chain |
| Laws.LetValuesOuter | interpreter.js:212-222 | `let` over pure values that evaluate to values runs its body in a new frame binding each name to its value evaluated in the enclosing chain, a later binding of a name winning; the frame is dropped afterwards |
| Laws.StarStep | interpreter.js:229-232 | one turn of the `let*` loop adds the binding to the frame |
| Laws.StarFrom | interpreter.js:229-235 | the `let*` loop from binding i on ends by running the body in the frame of all the bindings |
| Laws.StarSeesEarlier | interpreter.js:223-235 | `let*` over pure values that evaluate to values evaluates each value in a frame of the bindings before it and runs the body in the frame of all of them, a later binding of a name winning; with no bindings the body runs in the enclosing chain |
| Examples.Arithmetic | test/HMDSTest.js:115-131 | `(+ 41 1)` is 42, and adding an unbound name is an arithmetic error |
| Examples.DefineThenLookup | test/HMDSTest.js:87-92 | `(begin (def x 42) x)` is 42 |
| Examples.Redefine | test/HMDSTest.js:93-97 | defining a bound name throws |
| Examples.SetDefined | test/HMDSTest.js:101-106 | `(begin (def x 42) (set! x 0))` is 0 |
| Examples.SetBound | interpreter.js:141-148 | `(set! x 0)` with `x` bound is 0 |
| Examples.SetUnbound | test/HMDSTest.js:107-111 | `set!` of an unbound name throws |
| Examples.IfTrue | test/HMDSTest.js:261-266 | `(if (= 4 4) #f #t)` is `'#f'` |
| Examples.IfFalse | test/HMDSTest.js:267-272 | `(if (= 4 6) #f #t)` is `'#t'` |
| Examples.Equality | test/HMDSTest.js:181-192 | `(= 5 5)` is `'#t'` and `(= 5 4)` is `'#f'` |
| Examples.LetOne | test/HMDSTest.js:320-327 | `(let-one x 2 (+ 40 x))` is 42 |
| Examples.LetSingle | test/HMDSTest.js:330-335 | `(let (x 4) x)` is 4 |
| Examples.LetParallel | test/HMDSTest.js:336-341 | `(let (x 4 y (+ 1 1)) (+ x y))` is 6 |
| Examples.LetSeesOuter | interpreter.js:217-220 | an instance of `Laws.LetValuesOuter`: in `(let (x 4 y x) y)` the value `x` is looked up in the enclosing chain, where it is unbound, so `y` is `null` |
| Examples.LetStarSeesEarlier | test/HMDSTest.js:345-350 | `(let* (x 4 y x) (+ x y))` is 8 |
| Examples.LetOdd | interpreter.js:214-216 | an instance of `Laws.LetOddThrows`: `(let (x) x)` throws |

## Left out

**Inputs and host plumbing**
- Loading the parser and reading files (inference.js:1-5). The model takes the parsed form as input.
- `module.exports` (inference.js:498-500, interpreter.js:252-254).
- `build_data` (inference.js:275-289) is never called.

**Errors that cannot be reached**
- The tag check of `prune` (inference.js:238-240). Every `Types.Type` is a variable or an operator. The source reaches this throw when a lookup yields something that is not a type. A name inherited from `Object.prototype` is modelled: `Inference.GetType` returns the prune error for it. A binding named `__proto__` is not (see "Binding names").
- The "Cannot unify" branch (inference.js:346-347). It cannot be reached with only variables and operators.

**Closures and the forms that use them**
- `lambda`, `defn` and calling a closure in the interpreter (interpreter.js:122-140, 236-248). These build and call JavaScript functions.
  - `Evaluation.RunForm` gives them an "unmodelled" completion.
  - An application evaluates its operands and then throws, as calling a non-function does.
- `cons`, `car` and `cdr` in the interpreter (interpreter.js:157-166) give the same "unmodelled" completion.
- `/` (interpreter.js:105-107) gives the same "unmodelled" completion. It is floating-point division.

**Numbers and comparisons**
- Interpreter numbers are integers. Floating point is left out.
- Numeric keys of forms are decimal integers (`Syntax.NumText`).
- `Values.Compare` leaves mixed-kind comparisons unmodelled. JavaScript converts such operands to numbers.
- Strings are ordered by character, not by UTF-16 code unit.
- `Values.StrictEquals`: two arrays are equal in JavaScript only when they are the same object. The model does not track object identity, so this case is unmodelled.

**Binding names**
- A binding named `hasOwnProperty` or `__proto__` in the interpreter is treated as an ordinary key. In JavaScript it would break the `hasOwnProperty` calls of `lookup` and `update`, or reach the prototype.
- In the inference environment, `Environment.Env.Set` and `Env.Clone` also treat `__proto__` as an ordinary key. In JavaScript, `env["__proto__"] = t` replaces the object's prototype and adds no own key, so `clone` does not copy it and a later lookup of `__proto__` yields `Object.prototype`. For example, `(let (__proto__ 1) (lambda (y) __proto__))` fails with "prune error" in the source; the model types it as `(a -> Int)`.

**Deliberately weaker contracts**
- Evaluation.RunForm: like every `Run…` function, its contract states only how the chain may change. Its values are given by its definition, which the `Interpreter` methods are proved to compute. `Laws` states them in closed form for `def`, `set!`, `if`, `=`, `begin`, `let` and `let*`; `+`, `-`, `*`, the comparisons, `.` and `quote` are stated only by the definition and by `Examples`.
- Laws.LetValuesOuter: stated for values that are pure and evaluate to values. A value that throws, or that defines or rebinds a name, is left to the definition of `Run` (`Evaluation.LetTurn` states one turn for any value).
- Laws.StarSeesEarlier: stated for values that are pure and evaluate to values, as for `let` (`Evaluation.StarTurn` states one turn for any value).
- Laws.EqualAllPairs: stated for pure operands that evaluate to values, no two consecutive ones arrays (so are `Laws.EqualFrom` and `Laws.EqualStep`). The premise matters: every middle operand is evaluated twice, so `(= 0 (def x 0) 0)` throws "already defined" although both of its pairs are equal (`Examples.EqualTwice`). Operands that throw or change the chain are left to the definition of `Run`.
- Laws.BeginPure: stated for pure forms that evaluate to values; `Laws.BeginLast` states `begin` for any forms.
- Inference.Typecheck: like every `analyse` rule, it states what holds when it succeeds. Which programs are well typed is not characterised; the error cases stated are those of each rule.

**Tests that disagree with the code**
These tests are not stated as properties:
- The `list`, `cons`, `car` and `cdr` tests (test/HMDSTest.js:33-38, 193-198, 275-318). `evalS` has no `list` case, and its `car` and `cdr` do not evaluate their operand.
- The empty-quote test (test/HMDSTest.js:426-431). `'()` is a list of a new variable, not `(Nil)`.
