/** Naming mode: `#[command_handler]` on an impl treats every method named
    `command_<label>` as the handler for `<label>`, except `command_unknown`,
    which receives every command that matches no label. */
module NamingDispatch {
  import opened Wrappers
  import opened Syntax
  import opened Dispatch

  const Prefix := "command_"
  const UnknownName := "command_unknown"
  const UnknownIdent := Ident(UnknownName)

  predicate HasPrefix(name: string)
  {
    Prefix <= name
  }

  /** The `filter_map` over the impl's items: the names of the methods that
      start with `command_`, in declaration order. */
  function CommandFnNames(items: seq<ImplItem>): (names: seq<string>)
    ensures forall n :: n in names ==> HasPrefix(n)
    ensures forall n :: n in names <==> HasPrefix(n) && HasMethod(items, n)
  {
    if |items| == 0 then []
    else
      var head := match items[0]
        case Method(m) => if HasPrefix(m.ident.text) then [m.ident.text] else []
        case Other(_, _) => [];
      assert forall n :: HasMethod(items, n) <==>
        (items[0].Method? && items[0].decl.ident.text == n) || HasMethod(items[1..], n) by {
        forall n ensures HasMethod(items, n) ==>
          (items[0].Method? && items[0].decl.ident.text == n) || HasMethod(items[1..], n) {
          if HasMethod(items, n) {
            var i :| 0 <= i < |items| && items[i].Method? && items[i].decl.ident.text == n;
            if i > 0 { assert items[1..][i - 1] == items[i]; }
          }
        }
        forall n | HasMethod(items[1..], n) ensures HasMethod(items, n) {
          var i :| 0 <= i < |items[1..]| && items[1..][i].Method? && items[1..][i].decl.ident.text == n;
          assert items[i + 1] == items[1..][i];
        }
      }
      head + CommandFnNames(items[1..])
  }

  /** The label of a handler: its name with the first 8 characters, the
      prefix, removed. */
  function Label(name: string): (k: string)
    requires HasPrefix(name)
    ensures Prefix + k == name
  {
    name[8..]
  }

  /** Two handler names with the same label are the same name. */
  lemma LabelInjective(a: string, b: string)
    requires HasPrefix(a) && HasPrefix(b)
    ensures Label(a) == Label(b) <==> a == b
  {
    if Label(a) == Label(b) {
      calc {
        a;
        Prefix + Label(a);
        Prefix + Label(b);
        b;
      }
    }
  }

  /** The `HashMap` after the insertion loop: each handler name but
      `command_unknown`, in turn, inserted under its label. */
  function Table(names: seq<string>): map<string, Ident>
    requires forall n :: n in names ==> HasPrefix(n)
  {
    if |names| == 0 then map[]
    else
      var n := names[|names| - 1];
      var t := Table(names[..|names| - 1]);
      if n != UnknownName then t[Label(n) := Ident(n)] else t
  }

  /** Every key `k` of the table is the label of a handler name other than
      `command_unknown`, and maps to the method `command_<k>`; every such
      label is a key. */
  lemma {:induction false} TableEntries(names: seq<string>)
    requires forall n :: n in names ==> HasPrefix(n)
    ensures forall k :: k in Table(names) <==> Prefix + k in names && Prefix + k != UnknownName
    ensures forall k :: k in Table(names) ==> Table(names)[k] == Ident(Prefix + k)
  {
    if |names| > 0 {
      var init, n := names[..|names| - 1], names[|names| - 1];
      assert names == init + [n];
      TableEntries(init);
      forall k ensures k in Table(names) <==> Prefix + k in names && Prefix + k != UnknownName {
        if n != UnknownName && k == Label(n) {
          assert Prefix + k == n;
        }
        if Prefix + k == n {
          assert (Prefix + k)[8..] == k;
        }
      }
    }
  }

  /** `command_unknown` is never in the table, so the command "unknown" is
      never a key. */
  lemma UnknownNeverAKey(names: seq<string>)
    requires forall n :: n in names ==> HasPrefix(n)
    ensures "unknown" !in Table(names)
    ensures forall k :: k in Table(names) ==> Table(names)[k] != UnknownIdent
  {
    TableEntries(names);
  }

  /** Inserting a name already inserted changes nothing: the value under an
      existing key is replaced by an equal one. */
  lemma ReinsertKeepsTable(names: seq<string>, n: string)
    requires forall m :: m in names ==> HasPrefix(m)
    requires n in names
    ensures Table(names + [n]) == Table(names)
  {
    var ext := names + [n];
    assert ext[..|ext| - 1] == names && ext[|ext| - 1] == n;
    TableEntries(names);
    if n != UnknownName {
      assert Label(n) in Table(names);
    }
  }

  /** The table depends on the set of handler names only, not on their order
      or repetition. */
  lemma TableDependsOnNameSet(a: seq<string>, b: seq<string>)
    requires forall n :: n in a ==> HasPrefix(n)
    requires forall n :: n in b ==> HasPrefix(n)
    requires forall n :: n in a <==> n in b
    ensures Table(a) == Table(b)
  {
    TableEntries(a);
    TableEntries(b);
  }

  /** The table of an impl. */
  function TableOf(item: ItemImpl): map<string, Ident>
  {
    Table(CommandFnNames(item.items))
  }

  /** The table holds exactly the labels of the impl's `command_` methods
      other than `command_unknown`, each mapped to a method the impl
      declares. */
  lemma TableOfImpl(item: ItemImpl)
    ensures forall k :: k in TableOf(item) <==>
      k != "unknown" && HasMethod(item.items, Prefix + k)
    ensures forall k :: k in TableOf(item) ==>
      TableOf(item)[k] == Ident(Prefix + k) && HasMethod(item.items, TableOf(item)[k].text)
  {
    var names := CommandFnNames(item.items);
    TableEntries(names);
    forall k ensures Prefix + k != UnknownName <==> k != "unknown" {
      if k == "unknown" {
        assert Prefix + k == UnknownName;
      } else {
        LabelInjective(Prefix + k, UnknownName);
        assert Label(Prefix + k) == k;
      }
    }
    assert forall k :: HasPrefix(Prefix + k);
  }

  /** The loop over the handler names that fills the `HashMap`. */
  method BuildTable(names: seq<string>) returns (commands: map<string, Ident>)
    requires forall n :: n in names ==> HasPrefix(n)
    ensures commands == Table(names)
  {
    commands := map[];
    for i := 0 to |names|
      invariant commands == Table(names[..i])
    {
      assert names[..i + 1][..i] == names[..i] && names[..i + 1][i] == names[i];
      assert names[i] in names && |Prefix| == 8;
      if names[i] != UnknownName {
        commands := commands[names[i][8..] := Ident(names[i])];
      }
    }
    assert names[..|names|] == names;
  }

  /** `arms` lists the table: every arm is an entry, every key has an arm, and
      no key has two. */
  ghost predicate Enumerates(arms: seq<Arm>, t: map<string, Ident>)
  {
    && (forall i :: 0 <= i < |arms| ==> arms[i].key in t && t[arms[i].key] == arms[i].handler)
    && (forall k :: k in t ==> exists i :: 0 <= i < |arms| && arms[i].key == k)
    && (forall i, j :: 0 <= i < j < |arms| ==> arms[i].key != arms[j].key)
  }

  /** `commands.keys()` and `commands.values()`: the same entries in the same,
      unspecified, order. */
  method KeysAndValues(t: map<string, Ident>) returns (ks: seq<string>, vs: seq<Ident>)
    ensures |ks| == |vs|
    ensures Enumerates(ZipArms(ks, vs), t)
  {
    ks, vs := [], [];
    var left := t.Keys;
    while left != {}
      invariant left <= t.Keys
      invariant |ks| == |vs|
      invariant forall i :: 0 <= i < |ks| ==> ks[i] in t && t[ks[i]] == vs[i]
      invariant forall i :: 0 <= i < |ks| ==> ks[i] !in left
      invariant forall k :: k in t ==> k in left || k in ks
      invariant forall i, j :: 0 <= i < j < |ks| ==> ks[i] != ks[j]
      decreases left
    {
      var k :| k in left;
      ks, vs := ks + [k], vs + [t[k]];
      left := left - {k};
    }
    var arms := ZipArms(ks, vs);
    forall k | k in t ensures exists i :: 0 <= i < |arms| && arms[i].key == k {
      var i :| 0 <= i < |ks| && ks[i] == k;
      assert arms[i].key == k;
    }
  }

  /** Over any listing of the table, a command that is a key reaches the
      mapped method with its arguments unchanged, and any other command
      reaches the default arm. */
  lemma RunOverEnumeration(arms: seq<Arm>, t: map<string, Ident>, fallback: Fallback, command: string, args: seq<string>)
    requires Enumerates(arms, t)
    ensures Run(arms, fallback, command, args) ==
      if command in t then CallHandler(t[command], args) else FallbackCall(fallback, command, args)
  {
    if command in t {
      var i :| 0 <= i < |arms| && arms[i].key == command;
      RunDistinct(arms, fallback, i, args);
    }
  }

  /** The order in which the `HashMap` yields its entries does not change
      what the generated method does. */
  lemma DispatchIgnoresOrder(arms1: seq<Arm>, arms2: seq<Arm>, t: map<string, Ident>,
                             fallback: Fallback, command: string, args: seq<string>)
    requires Enumerates(arms1, t) && Enumerates(arms2, t)
    ensures Run(arms1, fallback, command, args) == Run(arms2, fallback, command, args)
  {
    RunOverEnumeration(arms1, t, fallback, command, args);
    RunOverEnumeration(arms2, t, fallback, command, args);
  }

  /** `r` is what `command_handler` makes of `item`: a `handle_command` over
      some listing of the impl's table with `command_unknown` as default,
      then the original items; every other field as it was. */
  ghost predicate IsExpansion(item: ItemImpl, r: ItemImpl)
  {
    && r.attrs == item.attrs && r.header == item.header
    && |r.items| == |item.items| + 1
    && r.items[1..] == item.items
    && r.items[0].Method?
    && r.items[0].decl.attrs == [] && r.items[0].decl.ident == HandleCommandIdent
    && r.items[0].decl.body.Match?
    && r.items[0].decl.body.fallback == SelfMethod(UnknownIdent)
    && Enumerates(r.items[0].decl.body.arms, TableOf(item))
  }

  /** `command_handler` in naming mode. */
  method CommandHandler(attr: TokenStream, item: ItemImpl) returns (r: ItemImpl)
    ensures IsExpansion(item, r)
  {
    var commandFnNames := CommandFnNames(item.items);
    var commands := BuildTable(commandFnNames);
    var k, v := KeysAndValues(commands);
    var newMethod := HandleCommandMethod(ZipArms(k, v), SelfMethod(UnknownIdent));
    var newItems := PrependItems(Method(newMethod), item.items);
    assert newItems[1..] == item.items;
    r := item.(items := newItems);
  }

  /** The generated dispatch: a command `k` other than "unknown" for which the
      impl declares `command_<k>` calls that method with `command_args`
      unchanged; every other command, "unknown" included, calls
      `self.command_unknown(command, command_args)` and no handler. */
  lemma HandleCommandRoutes(item: ItemImpl, r: ItemImpl, command: string, args: seq<string>)
    requires IsExpansion(item, r)
    ensures var body := r.items[0].decl.body;
      Run(body.arms, body.fallback, command, args) ==
        if command != "unknown" && HasMethod(item.items, Prefix + command)
        then CallHandler(Ident(Prefix + command), args)
        else CallMethod(UnknownIdent, command, args)
  {
    var body := r.items[0].decl.body;
    TableOfImpl(item);
    RunOverEnumeration(body.arms, TableOf(item), body.fallback, command, args);
  }

  /** Every handler the generated method can call is a method of the original
      impl, which the rewritten impl still declares. */
  lemma HandlersExist(item: ItemImpl, r: ItemImpl, command: string, args: seq<string>)
    requires IsExpansion(item, r)
    ensures var body := r.items[0].decl.body;
      var c := Run(body.arms, body.fallback, command, args);
      c.CallHandler? ==> HasMethod(item.items, c.handler.text) && HasMethod(r.items[1..], c.handler.text)
  {
    HandleCommandRoutes(item, r, command, args);
  }

  /** Two expansions of the same impl may list the arms in different orders
      but behave the same on every command. */
  lemma ExpansionsAgree(item: ItemImpl, r1: ItemImpl, r2: ItemImpl, command: string, args: seq<string>)
    requires IsExpansion(item, r1) && IsExpansion(item, r2)
    ensures var b1, b2 := r1.items[0].decl.body, r2.items[0].decl.body;
      Run(b1.arms, b1.fallback, command, args) == Run(b2.arms, b2.fallback, command, args)
  {
    HandleCommandRoutes(item, r1, command, args);
    HandleCommandRoutes(item, r2, command, args);
  }

  /** The `command_func` attribute hands its item back untouched. */
  function CommandFunc(attr: TokenStream, item: TokenStream): (r: TokenStream)
    ensures r == item
  {
    item
  }
}
