/** The hooks an IDE launch carries: branding, the welcome page and the embedded Chromium browser. */
module IdeHook {

  /** Which hook class an object is (`IdeHookBranding`, `EquoChromium`, `IdeHookWelcome`). */
  datatype HookKind = BrandingHook | ChromiumHook | WelcomeHook

  /** A hook object. Two hooks of the same kind are still two different objects. */
  class Hook {
    const kind: HookKind

    constructor (kind: HookKind)
      ensures this.kind == kind
    {
      this.kind := kind;
    }
  }

  /** The kinds of a list of hook objects, position by position. */
  function Kinds(hooks: seq<Hook>): seq<HookKind>
  {
    seq(|hooks|, i requires 0 <= i < |hooks| => hooks[i].kind)
  }

  /** How many entries of `kinds` are `k`. */
  function Count(kinds: seq<HookKind>, k: HookKind): nat
  {
    if kinds == [] then 0
    else Count(kinds[..|kinds| - 1], k) + (if kinds[|kinds| - 1] == k then 1 else 0)
  }
}
