/** Attribute mode: `#[command_handler]` on an impl records every method that
    carries `#[command("label")]` and adds a `handle_command` that calls the
    method recorded for the label, or the caller's closure `f` when there is
    none.  The walk is done by the stateful visitor `CommandFuncFinder`. */
module AttributeDispatch {
  import opened Wrappers
  import opened Syntax
  import opened Dispatch

  /** The two ways `visit_attribute` panics. */
  datatype Panic =
    | UnparseableMeta    // `parse_meta().unwrap()` on tokens that are not a meta item
    | EmptyArgumentList  // `nested[0]` on `#[command()]`

  const CommandPath: seq<string> := ["command"]

  /** Outer style and the single-segment path `command`. */
  predicate IsCommandAttr(a: Attr)
  {
    a.style == Outer && a.path == CommandPath
  }

  /** What `visit_attribute` makes of one attribute while the flag is clear:
      a label, nothing, or a panic. */
  function Qualify(a: Attr): (r: Result<Option<string>, Panic>)
    ensures !IsCommandAttr(a) ==> r == Ok(None)
    ensures r == Err(UnparseableMeta) <==> IsCommandAttr(a) && a.meta.None?
    ensures r == Err(EmptyArgumentList) <==>
      IsCommandAttr(a) && a.meta.Some? && a.meta.value.List? && |a.meta.value.nested| == 0
    ensures (r.Ok? && r.value.Some?) <==>
      && IsCommandAttr(a) && a.meta.Some? && a.meta.value.List?
      && |a.meta.value.nested| > 0
      && a.meta.value.nested[0].LitItem? && a.meta.value.nested[0].lit.Str?
    ensures r.Ok? && r.value.Some? ==> r.value.value == a.meta.value.nested[0].lit.value
  {
    if !IsCommandAttr(a) then Ok(None)
    else match a.meta
      case None => Err(UnparseableMeta)
      case Some(List(_, nested)) =>
        if |nested| == 0 then Err(EmptyArgumentList)
        else (match nested[0]
              case LitItem(Str(v)) => Ok(Some(v))
              case _ => Ok(None))
      case Some(_) => Ok(None)
  }

  /** The label a method's attributes give it: the decision of the first
      attribute that decides anything (a label or a panic). */
  function FirstLabel(attrs: seq<Attr>): Result<Option<string>, Panic>
  {
    if |attrs| == 0 then Ok(None)
    else match Qualify(attrs[0])
      case Ok(None) => FirstLabel(attrs[1..])
      case decided => decided
  }

  /** The first deciding attribute decides: a label from it wins, and so does a
      panic from it. */
  lemma {:induction false} FirstLabelIsFirstDecision(attrs: seq<Attr>, i: nat)
    requires i < |attrs| && Qualify(attrs[i]) != Ok(None)
    requires forall j :: 0 <= j < i ==> Qualify(attrs[j]) == Ok(None)
    ensures FirstLabel(attrs) == Qualify(attrs[i])
  {
    if i > 0 {
      assert Qualify(attrs[0]) == Ok(None);
      forall j | 0 <= j < i - 1 ensures Qualify(attrs[1..][j]) == Ok(None) {
        assert attrs[1..][j] == attrs[j + 1];
      }
      FirstLabelIsFirstDecision(attrs[1..], i - 1);
    }
  }

  /** A method gets no label exactly when none of its attributes decides. */
  lemma {:induction false} FirstLabelNone(attrs: seq<Attr>)
    ensures FirstLabel(attrs) == Ok(None) <==> forall j :: 0 <= j < |attrs| ==> Qualify(attrs[j]) == Ok(None)
  {
    if |attrs| > 0 {
      FirstLabelNone(attrs[1..]);
      assert forall j :: 0 < j < |attrs| ==> attrs[j] == attrs[1..][j - 1];
    }
  }

  /** Once an attribute has decided, what follows it is never looked at: a
      second `command` attribute, even a malformed one, changes nothing. */
  lemma {:induction false} LaterAttributesIgnored(attrs: seq<Attr>, rest: seq<Attr>)
    requires FirstLabel(attrs) != Ok(None)
    ensures FirstLabel(attrs + rest) == FirstLabel(attrs)
  {
    assert |attrs| > 0;
    assert (attrs + rest)[0] == attrs[0];
    if Qualify(attrs[0]) == Ok(None) {
      assert (attrs + rest)[1..] == attrs[1..] + rest;
      LaterAttributesIgnored(attrs[1..], rest);
    }
  }

  /** The visitor's fields as a value. */
  datatype FinderState = FinderState(isCommandFunc: bool, commands: seq<string>, funcNames: seq<string>)

  /** `CommandFuncFinder::new()`. */
  const NewFinder := FinderState(false, [], [])

  /** `visit_attribute`: while the flag is clear, a qualifying attribute pushes
      its label and sets the flag. */
  function VisitAttr(s: FinderState, a: Attr): Result<FinderState, Panic>
  {
    if s.isCommandFunc then Ok(s)
    else match Qualify(a)
      case Err(e) => Err(e)
      case Ok(None) => Ok(s)
      case Ok(Some(v)) => Ok(s.(isCommandFunc := true, commands := s.commands + [v]))
  }

  /** The visitor called on each attribute in turn; a panic ends the walk. */
  function VisitAttrs(s: FinderState, attrs: seq<Attr>): Result<FinderState, Panic>
    decreases |attrs|
  {
    if |attrs| == 0 then Ok(s)
    else match VisitAttr(s, attrs[0])
      case Err(e) => Err(e)
      case Ok(t) => VisitAttrs(t, attrs[1..])
  }

  /** `visit_impl_item_method`: clear the flag, walk the method, and record its
      name if the flag came back set. */
  function VisitMethod(s: FinderState, m: ImplItemMethod): Result<FinderState, Panic>
  {
    match VisitAttrs(s.(isCommandFunc := false), m.attrs)
    case Err(e) => Err(e)
    case Ok(t) => Ok(if t.isCommandFunc then t.(funcNames := t.funcNames + [m.ident.text]) else t)
  }

  /** One impl item: a method is visited as above; the attributes of any other
      item are visited with the flag as it stands. */
  function VisitItem(s: FinderState, item: ImplItem): Result<FinderState, Panic>
  {
    match item
    case Method(m) => VisitMethod(s, m)
    case Other(attrs, _) => VisitAttrs(s, attrs)
  }

  function VisitItems(s: FinderState, items: seq<ImplItem>): Result<FinderState, Panic>
    decreases |items|
  {
    if |items| == 0 then Ok(s)
    else match VisitItem(s, items[0])
      case Err(e) => Err(e)
      case Ok(t) => VisitItems(t, items[1..])
  }

  /** `visit_item_impl`: the impl's own attributes first, then its items. */
  function VisitImpl(s: FinderState, item: ItemImpl): Result<FinderState, Panic>
  {
    match VisitAttrs(s, item.attrs)
    case Err(e) => Err(e)
    case Ok(t) => VisitItems(t, item.items)
  }

  /** With the flag set, attributes change nothing and cannot panic. */
  lemma {:induction false} VisitAttrsWhileSet(s: FinderState, attrs: seq<Attr>)
    requires s.isCommandFunc
    ensures VisitAttrs(s, attrs) == Ok(s)
  {
    if |attrs| > 0 {
      VisitAttrsWhileSet(s, attrs[1..]);
    }
  }

  /** With the flag clear, a walk over attributes does what their first
      decision says. */
  lemma {:induction false} VisitAttrsWhileClear(s: FinderState, attrs: seq<Attr>)
    requires !s.isCommandFunc
    ensures VisitAttrs(s, attrs) == match FirstLabel(attrs)
      case Err(e) => Err(e)
      case Ok(None) => Ok(s)
      case Ok(Some(v)) => Ok(s.(isCommandFunc := true, commands := s.commands + [v]))
  {
    if |attrs| > 0 {
      match Qualify(attrs[0])
      case Err(_) =>
      case Ok(None) => VisitAttrsWhileClear(s, attrs[1..]);
      case Ok(Some(v)) => VisitAttrsWhileSet(s.(isCommandFunc := true, commands := s.commands + [v]), attrs[1..]);
    }
  }

  /** Because the flag is cleared when a method's visit starts, what a method
      contributes depends on its own attributes only: one label and its name
      when it qualifies, nothing when it does not.  The flag it leaves behind
      is set exactly when it qualified. */
  lemma MethodVisitIsPerMethod(s: FinderState, m: ImplItemMethod)
    ensures VisitMethod(s, m) == match FirstLabel(m.attrs)
      case Err(e) => Err(e)
      case Ok(None) => Ok(s.(isCommandFunc := false))
      case Ok(Some(v)) => Ok(FinderState(true, s.commands + [v], s.funcNames + [m.ident.text]))
  {
    VisitAttrsWhileClear(s.(isCommandFunc := false), m.attrs);
  }

  /** The flag left by an earlier item never carries over into a method. */
  lemma FlagDoesNotCarryOver(s: FinderState, m: ImplItemMethod, flag: bool)
    ensures VisitMethod(s, m) == VisitMethod(s.(isCommandFunc := flag), m)
  {
    MethodVisitIsPerMethod(s, m);
    MethodVisitIsPerMethod(s.(isCommandFunc := flag), m);
  }

  /** No attribute in `attrs` decides anything. */
  predicate Inert(attrs: seq<Attr>)
  {
    forall a :: a in attrs ==> Qualify(a) == Ok(None)
  }

  /** `command` attributes that decide something appear on methods only, not on
      the impl itself nor on other items. */
  predicate CommandsOnlyOnMethods(item: ItemImpl)
  {
    Inert(item.attrs) && OtherItemsInert(item.items)
  }

  lemma {:induction false} VisitInert(s: FinderState, attrs: seq<Attr>)
    requires Inert(attrs)
    ensures VisitAttrs(s, attrs) == Ok(s)
  {
    if |attrs| > 0 {
      assert attrs[0] in attrs;
      VisitInert(s, attrs[1..]);
    }
  }

  /** The arm a method contributes in declaration order. */
  function MethodArm(m: ImplItemMethod): Result<seq<Arm>, Panic>
  {
    match FirstLabel(m.attrs)
    case Err(e) => Err(e)
    case Ok(None) => Ok([])
    case Ok(Some(v)) => Ok([Arm(v, m.ident)])
  }

  /** Reference definition of the table: each method with a label, as the arm
      (label, method), in declaration order; the first panicking method ends it. */
  function RecordedMethods(items: seq<ImplItem>): Result<seq<Arm>, Panic>
  {
    if |items| == 0 then Ok([])
    else
      var head := if items[0].Method? then MethodArm(items[0].decl) else Ok([]);
      match head
      case Err(e) => Err(e)
      case Ok(a) =>
        match RecordedMethods(items[1..])
        case Err(e) => Err(e)
        case Ok(rest) => Ok(a + rest)
  }

  /** Every recorded arm is a method of the impl whose attributes give it that
      label, and every such method is recorded. */
  lemma {:induction false} RecordedMethodsAreTheLabelledOnes(items: seq<ImplItem>)
    requires RecordedMethods(items).Ok?
    ensures forall arm :: arm in RecordedMethods(items).value <==>
      exists i :: 0 <= i < |items| && items[i].Method? && items[i].decl.ident == arm.handler
        && FirstLabel(items[i].decl.attrs) == Ok(Some(arm.key))
  {
    if |items| > 0 {
      RecordedMethodsAreTheLabelledOnes(items[1..]);
      forall arm ensures arm in RecordedMethods(items).value <==>
        exists i :: 0 <= i < |items| && items[i].Method? && items[i].decl.ident == arm.handler
          && FirstLabel(items[i].decl.attrs) == Ok(Some(arm.key))
      {
        if (exists i :: 0 <= i < |items| && items[i].Method? && items[i].decl.ident == arm.handler
              && FirstLabel(items[i].decl.attrs) == Ok(Some(arm.key))) {
          var i :| 0 <= i < |items| && items[i].Method? && items[i].decl.ident == arm.handler
              && FirstLabel(items[i].decl.attrs) == Ok(Some(arm.key));
          if i > 0 { assert items[1..][i - 1] == items[i]; }
        }
      }
    }
  }

  /** The expansion panics exactly when some method's first deciding
      attribute is a malformed `command` attribute. */
  lemma {:induction false} RecordedMethodsPanicsIff(items: seq<ImplItem>)
    ensures RecordedMethods(items).Err? <==>
      exists i :: 0 <= i < |items| && items[i].Method? && FirstLabel(items[i].decl.attrs).Err?
  {
    if |items| > 0 {
      RecordedMethodsPanicsIff(items[1..]);
      if exists i :: 0 <= i < |items| && items[i].Method? && FirstLabel(items[i].decl.attrs).Err? {
        var i :| 0 <= i < |items| && items[i].Method? && FirstLabel(items[i].decl.attrs).Err?;
        if i > 0 { assert items[1..][i - 1] == items[i]; }
      }
      if exists i :: 0 <= i < |items[1..]| && items[1..][i].Method? && FirstLabel(items[1..][i].decl.attrs).Err? {
        var i :| 0 <= i < |items[1..]| && items[1..][i].Method? && FirstLabel(items[1..][i].decl.attrs).Err?;
        assert items[i + 1] == items[1..][i];
      }
    }
  }

  /** The table follows declaration order: the arms of a concatenation are the
      arms of its parts, in order. */
  lemma {:induction false} RecordedMethodsAppend(a: seq<ImplItem>, b: seq<ImplItem>)
    requires RecordedMethods(a).Ok? && RecordedMethods(b).Ok?
    ensures RecordedMethods(a + b) == Ok(RecordedMethods(a).value + RecordedMethods(b).value)
  {
    if |a| == 0 {
      assert a + b == b;
      assert RecordedMethods(a).value == [];
      assert [] + RecordedMethods(b).value == RecordedMethods(b).value;
    } else {
      assert (a + b)[0] == a[0];
      assert (a + b)[1..] == a[1..] + b;
      var head := if a[0].Method? then MethodArm(a[0].decl) else Ok([]);
      assert head.Ok?;
      RecordedMethodsAppend(a[1..], b);
      var x, ra, rb := head.value, RecordedMethods(a[1..]).value, RecordedMethods(b).value;
      assert RecordedMethods(a + b) == Ok(x + (ra + rb));
      assert x + (ra + rb) == (x + ra) + rb;
    }
  }

  function Labels(arms: seq<Arm>): (ks: seq<string>)
    ensures |ks| == |arms| && forall i :: 0 <= i < |arms| ==> ks[i] == arms[i].key
  {
    seq(|arms|, i requires 0 <= i < |arms| => arms[i].key)
  }

  function HandlerNames(arms: seq<Arm>): (ns: seq<string>)
    ensures |ns| == |arms| && forall i :: 0 <= i < |arms| ==> ns[i] == arms[i].handler.text
  {
    seq(|arms|, i requires 0 <= i < |arms| => arms[i].handler.text)
  }

  /** The `format_ident!` of each recorded name. */
  function Idents(names: seq<string>): (v: seq<Ident>)
    ensures |v| == |names| && forall i :: 0 <= i < |names| ==> v[i].text == names[i]
  {
    seq(|names|, i requires 0 <= i < |names| => Ident(names[i]))
  }

  /** `commands` and `funcNames` gain exactly the labels and the names of the
      recorded methods, and the walk panics exactly when the reference
      definition does, with the same panic. */
  ghost predicate LockStep(s: FinderState, items: seq<ImplItem>)
  {
    match (VisitItems(s, items), RecordedMethods(items))
    case (Err(e1), Err(e2)) => e1 == e2
    case (Ok(t), Ok(arms)) =>
      t.commands == s.commands + Labels(arms) && t.funcNames == s.funcNames + HandlerNames(arms)
    case _ => false
  }

  /** No item other than a method carries a deciding attribute. */
  predicate OtherItemsInert(items: seq<ImplItem>)
  {
    forall i :: 0 <= i < |items| && items[i].Other? ==> Inert(items[i].attrs)
  }

  /** A labelled method in front extends both lists by one entry. */
  lemma LockStepLabelled(s: FinderState, m: ImplItemMethod, v: string, rest: seq<ImplItem>)
    requires FirstLabel(m.attrs) == Ok(Some(v))
    requires LockStep(FinderState(true, s.commands + [v], s.funcNames + [m.ident.text]), rest)
    ensures LockStep(s, [Method(m)] + rest)
  {
    var items := [Method(m)] + rest;
    assert items[0] == Method(m) && items[1..] == rest;
    MethodVisitIsPerMethod(s, m);
    if RecordedMethods(rest).Ok? {
      var arms := RecordedMethods(rest).value;
      assert Labels([Arm(v, m.ident)] + arms) == [v] + Labels(arms);
      assert HandlerNames([Arm(v, m.ident)] + arms) == [m.ident.text] + HandlerNames(arms);
    }
  }

  /** An unlabelled method in front adds nothing. */
  lemma LockStepUnlabelled(s: FinderState, m: ImplItemMethod, rest: seq<ImplItem>)
    requires FirstLabel(m.attrs) == Ok(None)
    requires LockStep(s.(isCommandFunc := false), rest)
    ensures LockStep(s, [Method(m)] + rest)
  {
    var items := [Method(m)] + rest;
    assert items[0] == Method(m) && items[1..] == rest;
    MethodVisitIsPerMethod(s, m);
    if RecordedMethods(rest).Ok? {
      assert [] + RecordedMethods(rest).value == RecordedMethods(rest).value;
    }
  }

  /** A method whose first `command` attribute panics ends both. */
  lemma LockStepPanicking(s: FinderState, m: ImplItemMethod, rest: seq<ImplItem>)
    requires FirstLabel(m.attrs).Err?
    ensures LockStep(s, [Method(m)] + rest)
  {
    var items := [Method(m)] + rest;
    assert items[0] == Method(m) && items[1..] == rest;
    MethodVisitIsPerMethod(s, m);
  }

  /** Another item without deciding attributes adds nothing. */
  lemma LockStepOther(s: FinderState, attrs: seq<Attr>, tokens: TokenStream, rest: seq<ImplItem>)
    requires Inert(attrs)
    requires LockStep(s, rest)
    ensures LockStep(s, [Other(attrs, tokens)] + rest)
  {
    var items := [Other(attrs, tokens)] + rest;
    assert items[0] == Other(attrs, tokens) && items[1..] == rest;
    VisitInert(s, attrs);
    if RecordedMethods(rest).Ok? {
      assert [] + RecordedMethods(rest).value == RecordedMethods(rest).value;
    }
  }

  /** When only methods carry deciding `command` attributes, `commands` and
      `funcNames` grow in lock-step, in declaration order, from any state. */
  lemma {:induction false} VisitItemsLockStep(s: FinderState, items: seq<ImplItem>)
    requires OtherItemsInert(items)
    ensures LockStep(s, items)
    decreases |items|
  {
    if |items| == 0 {
      assert s.commands + [] == s.commands && s.funcNames + [] == s.funcNames;
    } else {
      var rest := items[1..];
      assert items == [items[0]] + rest;
      forall i | 0 <= i < |rest| && rest[i].Other? ensures Inert(rest[i].attrs) {
        assert rest[i] == items[i + 1];
      }
      match items[0] {
        case Method(m) =>
          match FirstLabel(m.attrs) {
            case Err(_) =>
              LockStepPanicking(s, m, rest);
            case Ok(None) =>
              VisitItemsLockStep(s.(isCommandFunc := false), rest);
              LockStepUnlabelled(s, m, rest);
            case Ok(Some(v)) =>
              VisitItemsLockStep(FinderState(true, s.commands + [v], s.funcNames + [m.ident.text]), rest);
              LockStepLabelled(s, m, v, rest);
          }
        case Other(attrs, tokens) =>
          VisitItemsLockStep(s, rest);
          LockStepOther(s, attrs, tokens, rest);
      }
    }
  }

  /** Zipping the labels with the idents of the names gives the arms back. */
  lemma ZipRecorded(arms: seq<Arm>)
    ensures ZipArms(Labels(arms), Idents(HandlerNames(arms))) == arms
  {
    var z := ZipArms(Labels(arms), Idents(HandlerNames(arms)));
    assert |z| == |arms|;
    forall i | 0 <= i < |arms| ensures z[i] == arms[i] {
      assert Idents(HandlerNames(arms))[i] == Ident(arms[i].handler.text);
    }
  }

  /** What `command_handler` turns an impl into: the visitor's labels paired,
      by `quote!`'s repetition, with the idents of its names, in a
      `handle_command` that falls back to `f`, put before the original items. */
  function ExpandImpl(item: ItemImpl): Result<ItemImpl, Panic>
  {
    match VisitImpl(NewFinder, item)
    case Err(e) => Err(e)
    case Ok(s) => Ok(Expanded(item, HandleCommandMethod(ZipArms(s.commands, Idents(s.funcNames)), Closure)))
  }

  /** When `command` attributes appear only on methods, the generated `match`
      has exactly one arm per labelled method, in declaration order, and the
      expansion panics exactly when a method's first `command` attribute is
      malformed. */
  lemma ExpandImplIsRecordedMethods(item: ItemImpl)
    requires CommandsOnlyOnMethods(item)
    ensures ExpandImpl(item).Err? <==> RecordedMethods(item.items).Err?
    ensures ExpandImpl(item).Err? ==> ExpandImpl(item).error == RecordedMethods(item.items).error
    ensures ExpandImpl(item).Ok? ==>
      ExpandImpl(item).value == Expanded(item, HandleCommandMethod(RecordedMethods(item.items).value, Closure))
  {
    VisitInert(NewFinder, item.attrs);
    VisitItemsLockStep(NewFinder, item.items);
    assert LockStep(NewFinder, item.items);
    if RecordedMethods(item.items).Ok? {
      var arms := RecordedMethods(item.items).value;
      var s := VisitImpl(NewFinder, item).value;
      assert s.commands == Labels(arms) && s.funcNames == HandlerNames(arms);
      ZipRecorded(arms);
    }
  }

  /** The first arm of the table for `command` is the first method declared
      with that label: every method before it has some other label, none, or
      is not a method. */
  lemma {:induction false} RecordedFirstMatch(items: seq<ImplItem>, command: string)
    requires RecordedMethods(items).Ok?
    ensures var arms := RecordedMethods(items).value;
      FirstMatch(arms, command).Some? ==>
        exists i :: 0 <= i < |items| && items[i].Method?
          && items[i].decl.ident == arms[FirstMatch(arms, command).value].handler
          && FirstLabel(items[i].decl.attrs) == Ok(Some(command))
          && forall j :: 0 <= j < i && items[j].Method? ==> FirstLabel(items[j].decl.attrs) != Ok(Some(command))
  {
    if |items| > 0 {
      var arms := RecordedMethods(items).value;
      var head := if items[0].Method? then MethodArm(items[0].decl) else Ok([]);
      var rest := RecordedMethods(items[1..]).value;
      assert arms == head.value + rest;
      if items[0].Method? && FirstLabel(items[0].decl.attrs) == Ok(Some(command)) {
        assert arms[0] == Arm(command, items[0].decl.ident);
        assert FirstMatch(arms, command) == Some(0);
      } else {
        RecordedFirstMatch(items[1..], command);
        if head.value == [] {
          assert arms == rest;
        } else {
          assert arms[0].key != command && arms[1..] == rest;
        }
        if FirstMatch(arms, command).Some? {
          assert FirstMatch(rest, command).Some?;
          var k :| 0 <= k < |items[1..]| && items[1..][k].Method?
            && items[1..][k].decl.ident == rest[FirstMatch(rest, command).value].handler
            && FirstLabel(items[1..][k].decl.attrs) == Ok(Some(command))
            && forall j :: 0 <= j < k && items[1..][j].Method? ==> FirstLabel(items[1..][j].decl.attrs) != Ok(Some(command));
          assert items[k + 1] == items[1..][k];
          forall j | 0 < j < k + 1 && items[j].Method?
            ensures FirstLabel(items[j].decl.attrs) != Ok(Some(command))
          {
            assert items[j] == items[1..][j - 1];
          }
        }
      }
    }
  }

  /** The generated dispatch: for a command equal to some recorded label it
      calls the first method declared with that label, with `command_args`
      unchanged; for any other command it calls `f(command, command_args)`
      and no handler. */
  lemma HandleCommandRoutes(item: ItemImpl, command: string, args: seq<string>)
    requires CommandsOnlyOnMethods(item)
    requires ExpandImpl(item).Ok?
    ensures var body := ExpandImpl(item).value.items[0].decl.body;
      && body.Match? && body.fallback == Closure
      && var c := Run(body.arms, body.fallback, command, args);
      && (c.CallHandler? <==>
            (exists i :: 0 <= i < |item.items| && item.items[i].Method?
               && FirstLabel(item.items[i].decl.attrs) == Ok(Some(command))))
      && (c.CallHandler? ==> c.args == args)
      && (c.CallHandler? ==>
            (exists i :: 0 <= i < |item.items| && item.items[i].Method?
               && item.items[i].decl.ident == c.handler
               && FirstLabel(item.items[i].decl.attrs) == Ok(Some(command))
               && forall j :: 0 <= j < i && item.items[j].Method? ==>
                    FirstLabel(item.items[j].decl.attrs) != Ok(Some(command))))
      && (!c.CallHandler? ==> c == CallClosure(command, args))
  {
    ExpandImplIsRecordedMethods(item);
    RecordedMethodsAreTheLabelledOnes(item.items);
    RecordedFirstMatch(item.items, command);
    var arms := RecordedMethods(item.items).value;
    var c := Run(arms, Closure, command, args);
    if exists i :: 0 <= i < |item.items| && item.items[i].Method?
         && FirstLabel(item.items[i].decl.attrs) == Ok(Some(command)) {
      var i :| 0 <= i < |item.items| && item.items[i].Method?
         && FirstLabel(item.items[i].decl.attrs) == Ok(Some(command));
      assert Arm(command, item.items[i].decl.ident) in arms;
    }
    if c.CallHandler? {
      assert FirstMatch(arms, command).Some?;
      assert c.handler == arms[FirstMatch(arms, command).value].handler;
    }
  }

  /** The `command` attribute itself hands its item back untouched. */
  function Command(attr: TokenStream, item: TokenStream): (r: TokenStream)
    ensures r == item
  {
    item
  }

  /** `CommandFuncFinder`: the visitor `command_handler` runs over the impl. */
  class CommandFuncFinder {
    var isCommandFunc: bool
    var commands: seq<string>
    var funcNames: seq<string>

    function State(): FinderState
      reads this
    {
      FinderState(isCommandFunc, commands, funcNames)
    }

    constructor ()
      ensures State() == NewFinder
    {
      isCommandFunc := false;
      commands := [];
      funcNames := [];
    }

    method VisitAttribute(node: Attr) returns (res: Outcome<Panic>)
      modifies this
      ensures VisitAttr(old(State()), node) == if res.Fail? then Err(res.error) else Ok(State())
      ensures res.Fail? ==> State() == old(State())
    {
      if !isCommandFunc {
        if node.style == Outer && node.path == CommandPath {
          if node.meta.None? {
            return Fail(UnparseableMeta);
          }
          var meta := node.meta.value;
          if meta.List? {
            if |meta.nested| == 0 {
              return Fail(EmptyArgumentList);
            }
            match meta.nested[0]
            case LitItem(Str(v)) =>
              commands := commands + [v];
              isCommandFunc := true;
            case _ =>
          }
        }
      }
      return Pass;
    }

    /** The visitor's walk over a list of attributes, one call each. */
    method VisitAttributes(attrs: seq<Attr>) returns (res: Outcome<Panic>)
      modifies this
      ensures VisitAttrs(old(State()), attrs) == if res.Fail? then Err(res.error) else Ok(State())
    {
      var i := 0;
      while i < |attrs|
        invariant 0 <= i <= |attrs|
        invariant VisitAttrs(old(State()), attrs) == VisitAttrs(State(), attrs[i..])
      {
        assert attrs[i..][0] == attrs[i] && attrs[i..][1..] == attrs[i + 1..];
        res := VisitAttribute(attrs[i]);
        if res.Fail? {
          return;
        }
        i := i + 1;
      }
      return Pass;
    }

    method VisitImplItemMethod(node: ImplItemMethod) returns (res: Outcome<Panic>)
      modifies this
      ensures VisitMethod(old(State()), node) == if res.Fail? then Err(res.error) else Ok(State())
    {
      isCommandFunc := false;
      res := VisitAttributes(node.attrs);
      if res.Fail? {
        return;
      }
      if isCommandFunc {
        funcNames := funcNames + [node.ident.text];
      }
    }

    method VisitItemImpl(node: ItemImpl) returns (res: Outcome<Panic>)
      modifies this
      ensures VisitImpl(old(State()), node) == if res.Fail? then Err(res.error) else Ok(State())
    {
      res := VisitAttributes(node.attrs);
      if res.Fail? {
        return;
      }
      var i := 0;
      while i < |node.items|
        invariant 0 <= i <= |node.items|
        invariant VisitImpl(old(State()), node) == VisitItems(State(), node.items[i..])
      {
        assert node.items[i..][0] == node.items[i] && node.items[i..][1..] == node.items[i + 1..];
        match node.items[i] {
          case Method(m) =>
            res := VisitImplItemMethod(m);
          case Other(attrs, _) =>
            res := VisitAttributes(attrs);
        }
        if res.Fail? {
          return;
        }
        i := i + 1;
      }
      return Pass;
    }
  }

  /** The `format_ident!` loop that turns the recorded names into idents. */
  method BuildIdents(funcNames: seq<string>) returns (v: seq<Ident>)
    ensures v == Idents(funcNames)
  {
    v := [];
    for i := 0 to |funcNames|
      invariant |v| == i
      invariant forall j :: 0 <= j < i ==> v[j] == Ident(funcNames[j])
    {
      v := v + [Ident(funcNames[i])];
    }
  }

  /** `command_handler`: walk the impl, build the method, rewrite the impl. */
  method CommandHandler(attr: TokenStream, item: ItemImpl) returns (r: Result<ItemImpl, Panic>)
    ensures r == ExpandImpl(item)
  {
    var visitor := new CommandFuncFinder();
    var res := visitor.VisitItemImpl(item);
    if res.Fail? {
      return Err(res.error);
    }
    var k := visitor.commands;
    var v := BuildIdents(visitor.funcNames);
    var newMethod := HandleCommandMethod(ZipArms(k, v), Closure);
    var newItems := PrependItems(Method(newMethod), item.items);
    assert newItems == [Method(newMethod)] + item.items;
    r := Ok(item.(items := newItems));
  }
}
