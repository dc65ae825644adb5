# Command-dispatch generators, modelled in Dafny

The repository holds two compile-time generators, both Rust attribute macros named
`command_handler`. Each one is placed on an `impl` block. It scans the block's methods,
builds a table from command label to handler method, and adds a method
`handle_command(command, command_args, ...)` in front of the original items. At run
time that method compares `command` for exact equality with the labels. It calls the
matching handler with `command_args`, or a fallback when nothing matches.

- **Attribute mode** (`macros/attribute-based-dynamic-dispatch/command_macro/src/lib.rs`).
  A method qualifies when it carries `#[command("label")]`. A stateful visitor,
  `CommandFuncFinder`, walks the impl. It keeps a per-method flag and two parallel lists,
  the labels and the method names. The generated method takes a one-shot closure `f`
  and calls `f(command, command_args)` when no label matches.
- **Naming mode** (`macros/attribute-that-adds-a-method/command_macro/src/lib.rs`).
  A method named `command_<label>` handles `<label>`. The exception is `command_unknown`,
  which receives `(command, command_args)` for every unmatched command. The labels are
  kept in a `HashMap`.

Files:

- `wrappers.dfy`: `Option`, `Result` and `Outcome`. A Rust panic becomes an `Err`.
- `syntax.dfy`: the parsed syntax the generators read and write. It has attributes
  (style, path, parsed meta item), methods, other items, and the impl.
- `dispatch.dfy`: what both modes share. This is the run-time meaning of the generated
  `match` (`FirstMatch`, `Run`: the first equal arm wins), `quote!`'s pairing of labels
  with handlers (`ZipArms`), and the rewrite that prepends the new method.
- `attribute_dispatch.dfy`: attribute mode. It has the visitor as a class whose methods
  update its three fields, specified by the state-machine functions `VisitAttr`,
  `VisitAttrs`, `VisitMethod`, `VisitItems` and `VisitImpl`. Beside them are
  `RecordedMethods`, a reference definition of the table, and the lemmas connecting the two.
- `naming_dispatch.dfy`: naming mode. It has the name filter, the `HashMap` insertion
  loop (`BuildTable`, specified by `Table`), the keys/values listing in unspecified
  order (`KeysAndValues`), and the dispatch lemmas.
- `attribute_examples.dfy`, `naming_examples.dfy`: concrete impls and what their
  generated methods do.

What the generators do in edge cases:

- Two malformed `command` attributes panic: tokens that do not parse as a meta item
  (`unwrap`) and an empty list `#[command()]` (`nested[0]`). The forms `#[command]`,
  `#[command = "x"]`, `#[command(x)]` and `#[command(1)]` give no label and are skipped
  silently. Extra list elements after the first string are ignored.
- Only the first deciding `command` attribute on a method is parsed. A later one, even
  a malformed one, is never looked at.
- In attribute mode, two methods may carry the same label. The generated `match` takes the
  first arm, so the first method declared with the label wins (`DuplicateLabelFirstWins`). In naming mode two
  distinct method names never give the same label. Re-inserting a name leaves the
  table unchanged.
- The visitor also sees attributes on the impl itself and on items that are not
  methods. While the flag is clear, a qualifying `command` attribute there logs a label
  with no method name beside it. `quote!`'s repetition stops at the shorter of the two
  lists, so the labels then shift against the handlers (`StrayLabelShiftsHandlers`).
  The lock-step and dispatch lemmas therefore assume `CommandsOnlyOnMethods`.

## Model

| member | source | states |
|---|---|---|
| `AttributeDispatch.Qualify` | macros/attribute-based-dynamic-dispatch/command_macro/src/lib.rs:28-37 | An attribute gives a label exactly when it is outer, its path is the single segment `command`, it parses as a list, and the first element is a string literal; the label is that literal's value. It panics with `UnparseableMeta` exactly when such an attribute does not parse, and with `EmptyArgumentList` exactly when its list is empty. Inner attributes and other paths give nothing. |
| `AttributeDispatch.FirstLabelIsFirstDecision` | macros/attribute-based-dynamic-dispatch/command_macro/src/lib.rs:26-40 | The first attribute of a method that decides anything (a label or a panic) gives the method's outcome. |
| `AttributeDispatch.FirstLabelNone` | macros/attribute-based-dynamic-dispatch/command_macro/src/lib.rs:26-40 | A method gets no label, and causes no panic, exactly when none of its attributes decides. |
| `AttributeDispatch.LaterAttributesIgnored` | macros/attribute-based-dynamic-dispatch/command_macro/src/lib.rs:27-34 | Once an attribute has decided, appending more attributes (more `command` attributes, malformed ones included) does not change the outcome. |
| `AttributeDispatch.VisitAttrsWhileSet` | macros/attribute-based-dynamic-dispatch/command_macro/src/lib.rs:27 | While the flag is set, visiting attributes changes no field and never panics. |
| `AttributeDispatch.VisitAttrsWhileClear` | macros/attribute-based-dynamic-dispatch/command_macro/src/lib.rs:26-40 | While the flag is clear, visiting a method's attributes pushes exactly its first label and sets the flag, or panics as that attribute does, or changes nothing. |
| `AttributeDispatch.MethodVisitIsPerMethod` | macros/attribute-based-dynamic-dispatch/command_macro/src/lib.rs:42-49 | Visiting a method from any state appends its label to `commands` and its name to `funcNames` when it qualifies, and otherwise appends nothing. The outcome depends only on the method's own attributes, and the resulting flag says whether the method qualified. |
| `AttributeDispatch.FlagDoesNotCarryOver` | macros/attribute-based-dynamic-dispatch/command_macro/src/lib.rs:42-44 | The flag value a method's visit starts from makes no difference to its result. |
| `AttributeDispatch.VisitInert` | macros/attribute-based-dynamic-dispatch/command_macro/src/lib.rs:26-40 | Attributes none of which decides leave the visitor's state unchanged, whatever the flag. |
| `AttributeDispatch.RecordedMethodsAreTheLabelledOnes` | macros/attribute-based-dynamic-dispatch/command_macro/src/lib.rs:42-48 | An arm (label, handler) is in the table exactly when the impl declares a method named `handler` whose first deciding attribute gives `label`. |
| `AttributeDispatch.RecordedMethodsPanicsIff` | macros/attribute-based-dynamic-dispatch/command_macro/src/lib.rs:29-31 | Building the table panics exactly when some method's first deciding attribute is a `command` attribute that does not parse or has an empty list. |
| `AttributeDispatch.RecordedMethodsAppend` | macros/attribute-based-dynamic-dispatch/command_macro/src/lib.rs:45-47 | The table of two item lists placed one after the other is the first list's table followed by the second's, so the arms follow declaration order. |
| `AttributeDispatch.VisitItemsLockStep` | macros/attribute-based-dynamic-dispatch/command_macro/src/lib.rs:26-49 | When only methods carry deciding `command` attributes, walking the items starting from any state adds exactly the labels of the recorded methods to `commands` and exactly their names to `funcNames`. Both are in declaration order, so both lists grow by the same length. The walk panics exactly when the reference table does, with the same panic. |
| `AttributeDispatch.ZipRecorded` | macros/attribute-based-dynamic-dispatch/command_macro/src/lib.rs:127-141 | Pairing equally long label and name lists gives back the arms they came from. |
| `AttributeDispatch.ExpandImplIsRecordedMethods` | macros/attribute-based-dynamic-dispatch/command_macro/src/lib.rs:118-160 | When only methods carry deciding `command` attributes, the expansion panics exactly when the reference table panics, with the same panic. Otherwise the expansion is the impl with a `handle_command` in front, whose arms are exactly the recorded methods in declaration order and whose default is the closure. |
| `AttributeDispatch.RecordedFirstMatch` | macros/attribute-based-dynamic-dispatch/command_macro/src/lib.rs:42-48 | The first arm of the table with a given label belongs to a method with that label, and every method declared before it has a different label or none. |
| `AttributeDispatch.HandleCommandRoutes` | macros/attribute-based-dynamic-dispatch/command_macro/src/lib.rs:138-143 | Under the same condition, the generated method calls a handler exactly when some method is labelled `command`. The handler is the first method declared with that label (every method before it has another label or none), and it receives `command_args` unchanged. Any other command leads to `f(command, command_args)` and nothing else. |
| `AttributeDispatch.Command` | macros/attribute-based-dynamic-dispatch/command_macro/src/lib.rs:52-55 | The `command` attribute returns its item unchanged. |
| `AttributeDispatch.CommandFuncFinder.constructor` | macros/attribute-based-dynamic-dispatch/command_macro/src/lib.rs:16-22 | A new visitor has the flag clear and both lists empty. |
| `AttributeDispatch.CommandFuncFinder.VisitAttribute` | macros/attribute-based-dynamic-dispatch/command_macro/src/lib.rs:26-40 | The new fields are what `VisitAttr` gives for the old fields, and a panic leaves the fields as they were. |
| `AttributeDispatch.CommandFuncFinder.VisitAttributes` | macros/attribute-based-dynamic-dispatch/command_macro/src/lib.rs:44 | Visiting the attributes one by one, stopping at the first panic, leaves the fields as `VisitAttrs` gives them. |
| `AttributeDispatch.CommandFuncFinder.VisitImplItemMethod` | macros/attribute-based-dynamic-dispatch/command_macro/src/lib.rs:42-49 | The method clears the flag, walks the method, and records its name if the flag is set again. Without a panic the new fields are what `VisitMethod` gives; a panic is reported as the same panic. |
| `AttributeDispatch.CommandFuncFinder.VisitItemImpl` | macros/attribute-based-dynamic-dispatch/command_macro/src/lib.rs:118-119 | Walking the impl's attributes and then each item leaves the fields as `VisitImpl` gives them, or reports its panic. |
| `AttributeDispatch.BuildIdents` | macros/attribute-based-dynamic-dispatch/command_macro/src/lib.rs:128-134 | The loop makes one ident per recorded name, in the same order and with the same text. |
| `AttributeDispatch.CommandHandler` | macros/attribute-based-dynamic-dispatch/command_macro/src/lib.rs:57-169 | Running the visitor, building the idents, emitting the method and rewriting the item list gives exactly `ExpandImpl`. |
| `AttributeExamples.AppExpands` | macros/method-name-based-dynamic-dispatch/src/main.rs:7-26 | The example application's impl, with `new`, `handle_one` labelled "one", `handle_two` labelled "two" and `run`, expands without a panic. |
| `AttributeExamples.AppDispatchOne` | macros/method-name-based-dynamic-dispatch/src/main.rs:13-16 | In the example application, "one" with ["x"] calls `handle_one` with ["x"]. |
| `AttributeExamples.AppDispatchThree` | macros/method-name-based-dynamic-dispatch/src/main.rs:23-25 | In the example application, "three" with no arguments calls the closure with ("three", []). |
| `AttributeExamples.DuplicateLabelFirstWins` | macros/attribute-based-dynamic-dispatch/command_macro/src/lib.rs:140-143 | Two methods `handle_a1` and `handle_a2` both labelled "a" expand without a panic, and "a" with ["x"] calls `handle_a1` with ["x"]. |
| `AttributeExamples.StrayLabelShiftsHandlers` | macros/attribute-based-dynamic-dispatch/command_macro/src/lib.rs:127-143 | A `command` attribute on a constant placed before two handlers makes "x" call `handle_one` and "one" call `handle_two`, while "two" goes to the closure. |
| `Dispatch.ZipArms` | macros/attribute-based-dynamic-dispatch/command_macro/src/lib.rs:141 | The repetition gives one arm per position up to the shorter list's length, and the i-th arm pairs the i-th label with the i-th handler. |
| `Dispatch.FirstMatch` | macros/attribute-based-dynamic-dispatch/command_macro/src/lib.rs:140-143 | The arm a string `match` takes is the first whose label equals the command. There is none exactly when no label equals it. |
| `Dispatch.Run` | macros/attribute-based-dynamic-dispatch/command_macro/src/lib.rs:138-143 | A run calls a handler exactly when some arm's label equals the command. It calls the handler of the first such arm with the arguments unchanged. Otherwise it makes the single default call with the command and the arguments. |
| `Dispatch.RunDistinct` | macros/attribute-that-adds-a-method/command_macro/src/lib.rs:45-46 | When no two arms share a label, the command of an arm calls that arm's handler. |
| `Dispatch.PrependItems` | macros/attribute-based-dynamic-dispatch/command_macro/src/lib.rs:153-154 | The new item list is the new method followed by every original item, in the same order. |
| `Dispatch.ExpandedKeepsOriginal` | macros/attribute-based-dynamic-dispatch/command_macro/src/lib.rs:153-160 | The rewritten impl keeps its attributes and every other field. Its first item is the new method, and the original items follow unchanged and in order. |
| `NamingDispatch.CommandFnNames` | macros/attribute-that-adds-a-method/command_macro/src/lib.rs:23-28 | A name is a candidate exactly when it starts with `command_` and the impl declares a method of that name. Items that are not methods never contribute. |
| `NamingDispatch.Label` | macros/attribute-that-adds-a-method/command_macro/src/lib.rs:33 | The label is what follows the 8-character prefix, so the prefix followed by the label is the name again. |
| `NamingDispatch.LabelInjective` | macros/attribute-that-adds-a-method/command_macro/src/lib.rs:32-34 | Two handler names have the same label exactly when they are the same name. |
| `NamingDispatch.TableEntries` | macros/attribute-that-adds-a-method/command_macro/src/lib.rs:29-36 | `k` is a key exactly when `command_<k>` is a candidate name other than `command_unknown`. The value under `k` is the ident `command_<k>`. |
| `NamingDispatch.UnknownNeverAKey` | macros/attribute-that-adds-a-method/command_macro/src/lib.rs:30-31 | "unknown" is never a key, and no value is `command_unknown`. |
| `NamingDispatch.ReinsertKeepsTable` | macros/attribute-that-adds-a-method/command_macro/src/lib.rs:32-34 | Inserting a name a second time replaces the value under its key with an equal value, so the table is unchanged. |
| `NamingDispatch.TableDependsOnNameSet` | macros/attribute-that-adds-a-method/command_macro/src/lib.rs:29-36 | Two candidate lists with the same names, in any order and with any repetition, give the same table. |
| `NamingDispatch.TableOfImpl` | macros/attribute-that-adds-a-method/command_macro/src/lib.rs:20-36 | `k` is a key of the impl's table exactly when `k` is not "unknown" and the impl declares `command_<k>`. The value under `k` is that method, which the impl declares. |
| `NamingDispatch.BuildTable` | macros/attribute-that-adds-a-method/command_macro/src/lib.rs:29-36 | The insertion loop leaves the map equal to `Table` of the candidate names. |
| `NamingDispatch.KeysAndValues` | macros/attribute-that-adds-a-method/command_macro/src/lib.rs:41-42 | The keys and values come out in the same order. Paired up, every pair is an entry, every key appears, and no key appears twice. |
| `NamingDispatch.RunOverEnumeration` | macros/attribute-that-adds-a-method/command_macro/src/lib.rs:43-48 | Over any such listing, a key calls the value under it with the arguments unchanged, and any other command makes the default call. |
| `NamingDispatch.DispatchIgnoresOrder` | macros/attribute-that-adds-a-method/command_macro/src/lib.rs:41-46 | Two listings of the same table give the same call for every command. |
| `NamingDispatch.CommandHandler` | macros/attribute-that-adds-a-method/command_macro/src/lib.rs:13-69 | The output keeps every field of the impl and every original item in order behind the new method. The new method is `handle_command`, with no attributes, the default `command_unknown`, and arms that list the impl's table. |
| `NamingDispatch.HandleCommandRoutes` | macros/attribute-that-adds-a-method/command_macro/src/lib.rs:44-48 | A command `k` other than "unknown" for which the impl declares `command_<k>` calls that method with `command_args` unchanged. Every other command, "unknown" included, calls `command_unknown(command, command_args)` and no handler. |
| `NamingDispatch.HandlersExist` | macros/attribute-that-adds-a-method/command_macro/src/lib.rs:32-34 | Every handler the generated method can call is declared in the original impl and is still declared in the rewritten one. |
| `NamingDispatch.ExpansionsAgree` | macros/attribute-that-adds-a-method/command_macro/src/lib.rs:41-48 | Two expansions of one impl give the same call for every command, even when their arms are in different orders. |
| `NamingDispatch.CommandFunc` | macros/attribute-that-adds-a-method/command_macro/src/lib.rs:8-11 | The `command_func` attribute returns its item unchanged. |
| `NamingExamples.HandlersDispatchTwo` | macros/attribute-that-adds-a-method/command_macro/src/lib.rs:44-46 | With `command_one`, `command_two` and `command_unknown` declared, "two" with no arguments calls `command_two([])`, whatever the order of the arms. |
| `NamingExamples.HandlersDispatchZzz` | macros/attribute-that-adds-a-method/command_macro/src/lib.rs:47 | In the same impl, "zzz" with ["a"] calls `command_unknown("zzz", ["a"])`. |
| `NamingExamples.HandlersDispatchUnknown` | macros/attribute-that-adds-a-method/command_macro/src/lib.rs:30-31 | In the same impl, "unknown" calls `command_unknown("unknown", [])`, although a method `command_unknown` is declared. |

## Left out

- Parsing and printing of Rust syntax, `TokenStream` conversions and `quote!` token output are library calls. The impl is a datatype, and the generated method is represented by its arms and its default; its meaning is `Run`.
- Re-parsing the generated method: in the model it always succeeds, since labels are string literals and handlers are identifiers.
- `parse_macro_input!` on an item that is not an impl: the input is an impl by construction.
- How the syntax walk descends into signatures, bodies and generics: a method's attributes stand for every attribute the walk meets inside it, in walk order. The impl's attributes stand for those met before the items.
- Impl blocks nested inside method bodies: these would call `visit_impl_item_method` re-entrantly and are not modelled.
- `path.is_ident`: a path is just its list of segments, and a leading `::` is not modelled.
- `HashMap` hashing and iteration order: the order is left unspecified, and every property is proved for every order.
- What handlers, the closure and `command_unknown` do, and what they return: the dispatch step only forwards its arguments, and the model stops at the call.
- A missing `command_unknown` in naming mode, or duplicate method names, are rejected later by the Rust compiler, not by the generator. Neither is modelled.
- The example front-end's argument reading, printing and `todo!` fallback are I/O. Only its impl is used, as the `App` scenario.
- `AttributeDispatch.CommandFuncFinder.VisitImplItemMethod`: after a panic it says nothing of the fields. A panic aborts the whole expansion, so nothing reads them.
- `AttributeDispatch.CommandFuncFinder.VisitAttributes`: after a panic it says nothing of the fields, for the same reason.
- `AttributeDispatch.CommandFuncFinder.VisitItemImpl`: after a panic it says nothing of the fields, for the same reason.
