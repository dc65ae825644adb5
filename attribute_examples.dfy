/** Concrete expansions in attribute mode. */
module AttributeExamples {
  import opened Wrappers
  import opened Syntax
  import opened Dispatch
  import opened AttributeDispatch

  /** `#[command("key")]`. */
  function CommandAttr(key: string): Attr
  {
    Attr(Outer, CommandPath, Some(List(CommandPath, [LitItem(Str(key))])))
  }

  function PlainMethod(attrs: seq<Attr>, name: string): ImplItem
  {
    Method(ImplItemMethod(attrs, Ident(name), Tokens([])))
  }

  /** The example application: `new`, two handlers labelled "one" and "two",
      and `run`. */
  const App := ItemImpl([], ["impl", "App"], [
    PlainMethod([], "new"),
    PlainMethod([CommandAttr("one")], "handle_one"),
    PlainMethod([CommandAttr("two")], "handle_two"),
    PlainMethod([], "run")])

  /** The example application expands without a panic. */
  lemma AppExpands()
    ensures CommandsOnlyOnMethods(App)
    ensures ExpandImpl(App).Ok?
  {
    var items := App.items;
    assert FirstLabel(items[0].decl.attrs) == Ok(None);
    assert FirstLabel(items[1].decl.attrs) == Ok(Some("one"));
    assert FirstLabel(items[2].decl.attrs) == Ok(Some("two"));
    assert FirstLabel(items[3].decl.attrs) == Ok(None);
    RecordedMethodsPanicsIff(items);
    ExpandImplIsRecordedMethods(App);
  }

  /** "one" with ["x"] reaches `handle_one` with ["x"]. */
  lemma AppDispatchOne()
    ensures ExpandImpl(App).Ok?
    ensures var body := ExpandImpl(App).value.items[0].decl.body;
      body.Match? && Run(body.arms, body.fallback, "one", ["x"]) == CallHandler(Ident("handle_one"), ["x"])
  {
    AppExpands();
    var items := App.items;
    assert FirstLabel(items[1].decl.attrs) == Ok(Some("one"));
    assert FirstLabel(items[2].decl.attrs) == Ok(Some("two"));
    HandleCommandRoutes(App, "one", ["x"]);
  }

  /** "three" with no arguments reaches the closure with ("three", []). */
  lemma AppDispatchThree()
    ensures ExpandImpl(App).Ok?
    ensures var body := ExpandImpl(App).value.items[0].decl.body;
      body.Match? && Run(body.arms, body.fallback, "three", []) == CallClosure("three", [])
  {
    AppExpands();
    var items := App.items;
    assert FirstLabel(items[0].decl.attrs) == Ok(None);
    assert FirstLabel(items[1].decl.attrs) == Ok(Some("one"));
    assert FirstLabel(items[2].decl.attrs) == Ok(Some("two"));
    assert FirstLabel(items[3].decl.attrs) == Ok(None);
    HandleCommandRoutes(App, "three", []);
  }

  /** Two methods with the same label "a". */
  const Twice := ItemImpl([], ["impl", "App"], [
    PlainMethod([CommandAttr("a")], "handle_a1"),
    PlainMethod([CommandAttr("a")], "handle_a2")])

  /** A label declared twice is not rejected: "a" reaches the first method
      declared with it. */
  lemma DuplicateLabelFirstWins()
    ensures ExpandImpl(Twice).Ok?
    ensures var body := ExpandImpl(Twice).value.items[0].decl.body;
      body.Match? && Run(body.arms, body.fallback, "a", ["x"]) == CallHandler(Ident("handle_a1"), ["x"])
  {
    var items := Twice.items;
    assert FirstLabel(items[0].decl.attrs) == Ok(Some("a"));
    assert FirstLabel(items[1].decl.attrs) == Ok(Some("a"));
    assert CommandsOnlyOnMethods(Twice);
    RecordedMethodsPanicsIff(items);
    ExpandImplIsRecordedMethods(Twice);
    HandleCommandRoutes(Twice, "a", ["x"]);
    var body := ExpandImpl(Twice).value.items[0].decl.body;
    var c := Run(body.arms, body.fallback, "a", ["x"]);
    var i :| 0 <= i < |items| && items[i].Method? && items[i].decl.ident == c.handler
      && FirstLabel(items[i].decl.attrs) == Ok(Some("a"))
      && forall j :: 0 <= j < i && items[j].Method? ==> FirstLabel(items[j].decl.attrs) != Ok(Some("a"));
    assert i == 0;
  }

  /** A `command` attribute on a constant before the handlers: the walk pushes
      its label with no name beside it. */
  const Stray := ItemImpl([], ["impl", "App"], [
    Other([CommandAttr("x")], ["const", "X"]),
    PlainMethod([CommandAttr("one")], "handle_one"),
    PlainMethod([CommandAttr("two")], "handle_two")])

  /** Without the lock-step precondition the labels shift against the
      handlers: "x" reaches `handle_one`, "one" reaches `handle_two`, and
      "two", though declared, reaches the closure. */
  lemma StrayLabelShiftsHandlers()
    ensures ExpandImpl(Stray).Ok?
    ensures var body := ExpandImpl(Stray).value.items[0].decl.body;
      && body.Match?
      && Run(body.arms, body.fallback, "x", []) == CallHandler(Ident("handle_one"), [])
      && Run(body.arms, body.fallback, "one", []) == CallHandler(Ident("handle_two"), [])
      && Run(body.arms, body.fallback, "two", []) == CallClosure("two", [])
  {
    var items := Stray.items;
    var s0 := FinderState(true, ["x"], []);
    var s1 := FinderState(true, ["x", "one"], ["handle_one"]);
    var s2 := FinderState(true, ["x", "one", "two"], ["handle_one", "handle_two"]);
    assert Qualify(CommandAttr("x")) == Ok(Some("x"));
    assert !NewFinder.isCommandFunc && NewFinder.commands == [];
    assert NewFinder.(isCommandFunc := true, commands := NewFinder.commands + ["x"]) == s0;
    assert VisitAttr(NewFinder, CommandAttr("x")) == Ok(s0);
    assert items[0].attrs[1..] == [];
    assert VisitItem(NewFinder, items[0]) == Ok(s0);
    assert FirstLabel(items[1].decl.attrs) == Ok(Some("one"));
    MethodVisitIsPerMethod(s0, items[1].decl);
    assert FirstLabel(items[2].decl.attrs) == Ok(Some("two"));
    MethodVisitIsPerMethod(s1, items[2].decl);
    var tail1, tail2 := items[1..], items[2..];
    assert tail1[0] == items[1] && tail1[1..] == tail2;
    assert tail2[0] == items[2] && tail2[1..] == [];
    assert VisitItems(s2, tail2[1..]) == Ok(s2);
    assert s0.commands + ["one"] == s1.commands && s0.funcNames + ["handle_one"] == s1.funcNames;
    assert s1.commands + ["two"] == s2.commands && s1.funcNames + ["handle_two"] == s2.funcNames;
    assert VisitItem(s1, tail2[0]) == Ok(s2);
    assert VisitItem(s0, tail1[0]) == Ok(s1);
    assert VisitItems(s1, tail2) == Ok(s2);
    assert VisitItems(s0, tail1) == Ok(s2);
    assert VisitAttrs(NewFinder, Stray.attrs) == Ok(NewFinder);
    assert VisitImpl(NewFinder, Stray) == Ok(s2);
    var arms := ZipArms(s2.commands, Idents(s2.funcNames));
    assert Idents(s2.funcNames) == [Ident("handle_one"), Ident("handle_two")];
    assert arms == [Arm("x", Ident("handle_one")), Arm("one", Ident("handle_two"))];
    assert FirstMatch(arms, "one") == Some(1);
  }
}
