/** What the generated `handle_command` does when it runs, how `quote!`'s
    repetition pairs labels with handlers, and how both generators put the
    new method in front of the impl's items. */
module Dispatch {
  import opened Wrappers
  import opened Syntax

  const HandleCommandIdent := Ident("handle_command")

  /** The one call a run of `handle_command` makes. */
  datatype Call =
    | CallHandler(handler: Ident, args: seq<string>)              // self.handler(command_args)
    | CallClosure(command: string, args: seq<string>)              // f(command, command_args)
    | CallMethod(target: Ident, command: string, args: seq<string>) // self.target(command, command_args)

  /** The generated method: no attributes, named `handle_command`, its body a
      string `match` with the given arms and default. */
  function HandleCommandMethod(arms: seq<Arm>, fallback: Fallback): ImplItemMethod
  {
    ImplItemMethod([], HandleCommandIdent, Match(arms, fallback))
  }

  /** `#( #k => self.#v(command_args) ,)*` with `k` and `v` iterated together:
      the repetition stops as soon as either runs out. */
  function ZipArms(labels: seq<string>, handlers: seq<Ident>): (arms: seq<Arm>)
    ensures |arms| == if |labels| <= |handlers| then |labels| else |handlers|
    ensures forall i :: 0 <= i < |arms| ==> arms[i] == Arm(labels[i], handlers[i])
  {
    if |labels| == 0 || |handlers| == 0 then []
    else [Arm(labels[0], handlers[0])] + ZipArms(labels[1..], handlers[1..])
  }

  /** The arm a string `match` takes: the first whose label equals `command`. */
  function FirstMatch(arms: seq<Arm>, command: string): (r: Option<nat>)
    ensures r.Some? ==> r.value < |arms| && arms[r.value].key == command
    ensures r.Some? ==> forall j :: 0 <= j < r.value ==> arms[j].key != command
    ensures r.None? <==> forall j :: 0 <= j < |arms| ==> arms[j].key != command
  {
    if |arms| == 0 then None
    else if arms[0].key == command then Some(0)
    else match FirstMatch(arms[1..], command)
      case None => None
      case Some(i) => Some(i + 1)
  }

  /** The default arm's call, with the command and its arguments as given. */
  function FallbackCall(fallback: Fallback, command: string, args: seq<string>): Call
  {
    match fallback
    case Closure => CallClosure(command, args)
    case SelfMethod(m) => CallMethod(m, command, args)
  }

  /** One run of `match command { arms..., _ => fallback }`. */
  function Run(arms: seq<Arm>, fallback: Fallback, command: string, args: seq<string>): (c: Call)
    ensures c.CallHandler? <==> exists i :: 0 <= i < |arms| && arms[i].key == command
    ensures c.CallHandler? ==> c.args == args
    ensures c.CallHandler? ==>
      exists i :: 0 <= i < |arms| && arms[i] == Arm(command, c.handler)
        && forall j :: 0 <= j < i ==> arms[j].key != command
    ensures !c.CallHandler? ==> c == FallbackCall(fallback, command, args)
  {
    match FirstMatch(arms, command)
    case Some(i) => CallHandler(arms[i].handler, args)
    case None => FallbackCall(fallback, command, args)
  }

  /** When no two arms share a label, the arm for `command` is the one taken. */
  lemma RunDistinct(arms: seq<Arm>, fallback: Fallback, i: nat, args: seq<string>)
    requires i < |arms|
    requires forall p, q :: 0 <= p < q < |arms| ==> arms[p].key != arms[q].key
    ensures Run(arms, fallback, arms[i].key, args) == CallHandler(arms[i].handler, args)
  {
    var c := Run(arms, fallback, arms[i].key, args);
    assert c.CallHandler?;
    var k :| 0 <= k < |arms| && arms[k] == Arm(arms[i].key, c.handler)
      && forall j :: 0 <= j < k ==> arms[j].key != arms[i].key;
    assert k == i;
  }

  /** The item list of the rewritten impl, built as `vec![first]` followed by
      `extend(items)`, which pushes the items one by one. */
  method PrependItems(first: ImplItem, items: seq<ImplItem>) returns (newItems: seq<ImplItem>)
    ensures |newItems| == |items| + 1
    ensures newItems[0] == first
    ensures forall i :: 0 <= i < |items| ==> newItems[i + 1] == items[i]
  {
    newItems := [first];
    var i := 0;
    while i < |items|
      invariant 0 <= i <= |items|
      invariant |newItems| == i + 1 && newItems[0] == first
      invariant forall j :: 0 <= j < i ==> newItems[j + 1] == items[j]
    {
      newItems := newItems + [items[i]];
      i := i + 1;
    }
  }

  /** The rewritten impl: the new method first, then the original items in
      their order; every other field as it was. */
  function Expanded(item: ItemImpl, m: ImplItemMethod): ItemImpl
  {
    item.(items := [Method(m)] + item.items)
  }

  /** Nothing of the original impl is lost: its other fields are kept and each
      original item sits, unchanged, one place further on. */
  lemma ExpandedKeepsOriginal(item: ItemImpl, m: ImplItemMethod)
    ensures var r := Expanded(item, m);
      && r.attrs == item.attrs && r.header == item.header
      && |r.items| == |item.items| + 1 && r.items[0] == Method(m)
      && r.items[1..] == item.items
      && forall i :: 0 <= i < |item.items| ==> r.items[i + 1] == item.items[i]
  {
  }

  /** Whether `items` declares a method called `name`. */
  predicate HasMethod(items: seq<ImplItem>, name: string)
  {
    exists i :: 0 <= i < |items| && items[i].Method? && items[i].decl.ident.text == name
  }
}
