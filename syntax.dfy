/** The parsed Rust syntax that both `command_handler` generators inspect and
    produce: an `impl` block, its items and the attributes on them.  Only what
    the generators look at is kept apart; everything else is opaque tokens. */
module Syntax {
  import opened Wrappers

  type TokenStream = seq<string>

  /** An identifier; `text` is what its `to_string()` gives. */
  datatype Ident = Ident(text: string)

  /** `#[...]` is outer, `#![...]` is inner. */
  datatype AttrStyle = Outer | Inner

  /** A literal; `Str` carries the value of a string literal after unescaping. */
  datatype Lit = Str(value: string) | OtherLit(token: string)

  /** A structured attribute body: `path`, `path(nested, ...)` or `path = lit`.
      A path is the list of its segments. */
  datatype Meta =
    | PathMeta(path: seq<string>)
    | List(path: seq<string>, nested: seq<NestedMeta>)
    | NameValue(path: seq<string>, lit: Lit)

  /** One element of a parenthesised meta list. */
  datatype NestedMeta = MetaItem(meta: Meta) | LitItem(lit: Lit)

  /** An attribute.  `meta` is what parsing its tokens as a meta item gives:
      `None` when they do not form one. */
  datatype Attr = Attr(style: AttrStyle, path: seq<string>, meta: Option<Meta>)

  /** The path a meta item starts with. */
  function MetaPath(m: Meta): seq<string>
  {
    match m
    case PathMeta(p) => p
    case List(p, _) => p
    case NameValue(p, _) => p
  }

  /** An attribute as parsing produces it: a parsed meta item starts with the
      attribute's own path.  The generators read only `path`, so their models
      hold for any attribute, well formed or not. */
  predicate WellFormedAttr(a: Attr)
  {
    a.meta.Some? ==> MetaPath(a.meta.value) == a.path
  }

  /** One arm `key => self.handler(command_args)` of a generated `match`. */
  datatype Arm = Arm(key: string, handler: Ident)

  /** The default arm of a generated `match`: the caller's closure `f`, or a
      method of `self`. */
  datatype Fallback = Closure | SelfMethod(target: Ident)

  /** A method body: opaque tokens for a hand-written method, or the string
      `match` the generators emit. */
  datatype Body = Tokens(tokens: TokenStream) | Match(arms: seq<Arm>, fallback: Fallback)

  /** A method of an impl.  `attrs` are all the attributes a syntax walk of the
      method meets, in walk order (its own, inner ones from its body, and those
      in its signature); `body` stands for the signature after the name and the
      block. */
  datatype ImplItemMethod = ImplItemMethod(attrs: seq<Attr>, ident: Ident, body: Body)

  /** An impl item: a method, or any other item (const, type, macro) with the
      attributes a walk of it meets. */
  datatype ImplItem = Method(decl: ImplItemMethod) | Other(attrs: seq<Attr>, tokens: TokenStream)

  /** An impl block.  `attrs` are the attributes a walk meets before the items
      (on the impl itself and in its generics); `header` stands for every other
      field (generics, trait, self type, `unsafe`, `default`). */
  datatype ItemImpl = ItemImpl(attrs: seq<Attr>, header: TokenStream, items: seq<ImplItem>)
}
