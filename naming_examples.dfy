/** A concrete expansion in naming mode. */
module NamingExamples {
  import opened Wrappers
  import opened Syntax
  import opened Dispatch
  import opened NamingDispatch

  function Handler(name: string): ImplItem
  {
    Method(ImplItemMethod([], Ident(name), Tokens([])))
  }

  /** Methods `command_one`, `command_two` and `command_unknown`. */
  const Handlers := ItemImpl([], ["impl", "App"], [
    Handler("command_one"), Handler("command_two"), Handler("command_unknown")])

  lemma DeclaresTwo()
    ensures HasMethod(Handlers.items, Prefix + "two")
  {
    assert Handlers.items[1].decl.ident.text == Prefix + "two";
  }

  lemma LacksZzz()
    ensures !HasMethod(Handlers.items, Prefix + "zzz")
  {
    forall i | 0 <= i < |Handlers.items|
      ensures Handlers.items[i].decl.ident.text != Prefix + "zzz"
    {
      assert (Prefix + "zzz")[8] == 'z';
      assert Handlers.items[i].decl.ident.text[8] != 'z';
    }
  }

  /** Whatever order the arms come in, "two" with no arguments calls
      `command_two([])`. */
  lemma HandlersDispatchTwo(r: ItemImpl)
    requires IsExpansion(Handlers, r)
    ensures var body := r.items[0].decl.body;
      Run(body.arms, body.fallback, "two", []) == CallHandler(Ident("command_two"), [])
  {
    DeclaresTwo();
    assert "two" != "unknown" by { assert "two"[0] != "unknown"[0]; }
    assert Prefix + "two" == "command_two";
    HandleCommandRoutes(Handlers, r, "two", []);
  }

  /** "zzz" with ["a"] calls `command_unknown("zzz", ["a"])`. */
  lemma HandlersDispatchZzz(r: ItemImpl)
    requires IsExpansion(Handlers, r)
    ensures var body := r.items[0].decl.body;
      Run(body.arms, body.fallback, "zzz", ["a"]) == CallMethod(UnknownIdent, "zzz", ["a"])
  {
    LacksZzz();
    HandleCommandRoutes(Handlers, r, "zzz", ["a"]);
  }

  /** "unknown" goes to `command_unknown` although `command_unknown` is
      declared. */
  lemma HandlersDispatchUnknown(r: ItemImpl)
    requires IsExpansion(Handlers, r)
    ensures var body := r.items[0].decl.body;
      Run(body.arms, body.fallback, "unknown", []) == CallMethod(UnknownIdent, "unknown", [])
  {
    HandleCommandRoutes(Handlers, r, "unknown", []);
  }
}
