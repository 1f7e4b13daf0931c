/**
 * The `equoIde { ... }` block of the Gradle plugin (class `EquoIdeExtension`).
 *
 * The extension keeps an ordered list of IDE hooks that starts with the branding hook,
 * appends a Chromium hook per `useChromium()` call, creates the welcome hook lazily on
 * the first `welcome()` call, records workspace properties per sub-path, and prepares
 * its P2 model at most once.
 *
 * `DslState` is the abstract value of an extension: the kinds of its hooks, whether the
 * welcome hook exists, the workspace properties, the prepared flag, and the opaque calls
 * made so far into the catalog and the model (`effects`). The class methods are proved to
 * move that value exactly as the `DslState` members do; the lemmas about `Run` state what
 * holds after any sequence of DSL calls.
 */
module GradlePlugin {
  import opened Wrappers
  import opened IdeHook

  /** Workspace property overrides: sub-path -> (key -> value). */
  type Workspace = map<string, map<string, string>>

  /** One `prop(key, value)` call inside a `workspaceInit` block. */
  type Prop = (string, string)

  /**
   * `WorkspaceInit.setProperty(subpath, key, value)`: sets exactly the entry
   * (subpath, key) to value and leaves every other entry as it was.
   */
  function SetProperty(ws: Workspace, subpath: string, key: string, value: string): (r: Workspace)
    ensures subpath in r && key in r[subpath] && r[subpath][key] == value
    ensures forall p :: p != subpath ==> (p in r <==> p in ws) && (p in ws ==> r[p] == ws[p])
    ensures forall k :: k != key ==>
      (k in r[subpath] <==> subpath in ws && k in ws[subpath]) &&
      (k in r[subpath] ==> r[subpath][k] == ws[subpath][k])
  {
    var props := if subpath in ws then ws[subpath] else map[];
    ws[subpath := props[key := value]]
  }

  /** The workspace after the `prop` calls of one `workspaceInit(subpath, ...)` block, in order. */
  function ApplyProps(ws: Workspace, subpath: string, props: seq<Prop>): Workspace
  {
    if props == [] then ws
    else
      var last := props[|props| - 1];
      SetProperty(ApplyProps(ws, subpath, props[..|props| - 1]), subpath, last.0, last.1)
  }

  /** The value of the last `prop(key, _)` call in `props`, if there is one. */
  function LastValue(props: seq<Prop>, key: string): Option<string>
  {
    if props == [] then None
    else if props[|props| - 1].0 == key then Some(props[|props| - 1].1)
    else LastValue(props[..|props| - 1], key)
  }

  /** Within the block's sub-path, a key ends up with the value of its last `prop` call; a key never set keeps its old entry. */
  lemma {:induction false} ApplyPropsLookup(ws: Workspace, subpath: string, props: seq<Prop>, key: string)
    ensures var r := ApplyProps(ws, subpath, props);
      LastValue(props, key).Some? ==>
        subpath in r && key in r[subpath] && r[subpath][key] == LastValue(props, key).value
    ensures var r := ApplyProps(ws, subpath, props);
      LastValue(props, key).None? ==>
        ((subpath in r && key in r[subpath]) <==> (subpath in ws && key in ws[subpath])) &&
        (subpath in ws && key in ws[subpath] ==> r[subpath][key] == ws[subpath][key])
  {
    if props != [] {
      ApplyPropsLookup(ws, subpath, props[..|props| - 1], key);
    }
  }

  /** A `workspaceInit` block leaves the properties of every other sub-path unchanged. */
  lemma {:induction false} ApplyPropsOtherSubpaths(ws: Workspace, subpath: string, props: seq<Prop>, other: string)
    requires other != subpath
    ensures var r := ApplyProps(ws, subpath, props);
      (other in r <==> other in ws) && (other in ws ==> r[other] == ws[other])
  {
    if props != [] {
      ApplyPropsOtherSubpaths(ws, subpath, props[..|props| - 1], other);
    }
  }

  /** A call the extension makes into code outside this model while preparing the model. */
  datatype Effect =
    | PutInto(hooks: seq<HookKind>, workspaceInit: Workspace)   // the catalog's putInto call, with the hooks and the workspace argument
    | ApplyNativeFilterIfNoPlatformFilter                        // the model's native-platform filter call

  /** A state-changing call of the DSL. */
  datatype Call =
    | UseChromiumCall
    | WelcomeCall
    | WorkspaceInitCall(subpath: string, props: seq<Prop>)
    | PrepareModelCall(workspaceInit: Workspace)

  /** The abstract value of an `EquoIdeExtension`. */
  datatype DslState = DslState(
    hooks: seq<HookKind>,
    hasWelcome: bool,
    workspace: Workspace,
    prepared: bool,
    effects: seq<Effect>)
  {
    /**
     * Branding is first and only once, there is a welcome hook exactly when one was
     * created, and the opaque preparation calls happened once, in order, exactly when
     * the model is prepared.
     */
    predicate Valid()
    {
      && |hooks| > 0 && hooks[0] == BrandingHook && Count(hooks, BrandingHook) == 1
      && Count(hooks, WelcomeHook) == (if hasWelcome then 1 else 0)
      && (if prepared
          then |effects| == 2 && effects[0].PutInto? && effects[1] == ApplyNativeFilterIfNoPlatformFilter
          else effects == [])
    }

    /** `useChromium()`: one more Chromium hook at the end. */
    function UseChromium(): DslState
    {
      this.(hooks := hooks + [ChromiumHook])
    }

    /** `welcome()`: the welcome hook is appended only if it does not exist yet. */
    function Welcome(): DslState
    {
      if hasWelcome then this
      else this.(hooks := hooks + [WelcomeHook], hasWelcome := true)
    }

    /** `workspaceInit(subpath, action)` with the action's `prop` calls in order. */
    function WorkspaceInit(subpath: string, props: seq<Prop>): DslState
    {
      this.(workspace := ApplyProps(workspace, subpath, props))
    }

    /** `prepareModel(workspaceInit)`: the first call sets the flag and runs putInto, then the native filter. */
    function PrepareModel(workspaceInit: Workspace): DslState
    {
      if prepared then this
      else this.(prepared := true,
                 effects := effects + [PutInto(hooks, workspaceInit), ApplyNativeFilterIfNoPlatformFilter])
    }
  }

  /** The state right after the constructor: only the branding hook. */
  function Initial(): DslState
  {
    DslState([BrandingHook], false, map[], false, [])
  }

  /** A fresh extension satisfies the invariant. */
  lemma InitialValid()
    ensures Initial().Valid()
  {
    assert [BrandingHook][..0] == [];
  }

  function Step(s: DslState, c: Call): DslState
  {
    match c
    case UseChromiumCall => s.UseChromium()
    case WelcomeCall => s.Welcome()
    case WorkspaceInitCall(subpath, props) => s.WorkspaceInit(subpath, props)
    case PrepareModelCall(ws) => s.PrepareModel(ws)
  }

  /** The state after the calls, in order, starting from `s`. */
  function Run(s: DslState, calls: seq<Call>): DslState
  {
    if calls == [] then s
    else Step(Run(s, calls[..|calls| - 1]), calls[|calls| - 1])
  }

  /** How many `useChromium()` calls there are in `calls`. */
  function ChromiumCalls(calls: seq<Call>): nat
  {
    if calls == [] then 0
    else ChromiumCalls(calls[..|calls| - 1]) + (if calls[|calls| - 1].UseChromiumCall? then 1 else 0)
  }

  /** `calls[i]` is the first `prepareModel` call. */
  ghost predicate FirstPrepare(calls: seq<Call>, i: int)
  {
    0 <= i < |calls| && calls[i].PrepareModelCall? &&
    forall j :: 0 <= j < i ==> !calls[j].PrepareModelCall?
  }

  lemma StepPreservesValid(s: DslState, c: Call)
    requires s.Valid()
    ensures Step(s, c).Valid()
  {
  }

  /** Every reachable state is valid. */
  lemma {:induction false} RunPreservesValid(s: DslState, calls: seq<Call>)
    requires s.Valid()
    ensures Run(s, calls).Valid()
  {
    if calls != [] {
      RunPreservesValid(s, calls[..|calls| - 1]);
      StepPreservesValid(Run(s, calls[..|calls| - 1]), calls[|calls| - 1]);
    }
  }

  /** No call removes or reorders a hook: the old hook list is a prefix of the new one. */
  lemma {:induction false} RunOnlyAppends(s: DslState, calls: seq<Call>)
    ensures |s.hooks| <= |Run(s, calls).hooks|
    ensures Run(s, calls).hooks[..|s.hooks|] == s.hooks
  {
    if calls != [] {
      var mid := Run(s, calls[..|calls| - 1]);
      RunOnlyAppends(s, calls[..|calls| - 1]);
      var after := Step(mid, calls[|calls| - 1]);
      assert after.hooks[..|mid.hooks|] == mid.hooks;
      assert after.hooks[..|s.hooks|] == mid.hooks[..|s.hooks|];
    }
  }

  /** After any calls on a fresh extension, branding is the first hook and the only branding hook. */
  lemma {:induction false} BrandingStaysFirst(calls: seq<Call>)
    ensures var r := Run(Initial(), calls);
      |r.hooks| > 0 && r.hooks[0] == BrandingHook && Count(r.hooks, BrandingHook) == 1
  {
    InitialValid();
    RunPreservesValid(Initial(), calls);
  }

  /** Each `useChromium()` call adds exactly one Chromium hook; there is no guard against repeats. */
  lemma {:induction false} ChromiumHookPerCall(s: DslState, calls: seq<Call>)
    ensures Count(Run(s, calls).hooks, ChromiumHook) == Count(s.hooks, ChromiumHook) + ChromiumCalls(calls)
  {
    if calls != [] {
      var mid := Run(s, calls[..|calls| - 1]);
      ChromiumHookPerCall(s, calls[..|calls| - 1]);
      assert (mid.hooks + [ChromiumHook])[..|mid.hooks|] == mid.hooks;
      assert (mid.hooks + [WelcomeHook])[..|mid.hooks|] == mid.hooks;
    }
  }

  /** The welcome hook exists after the calls iff one of them was `welcome()`. */
  lemma {:induction false} WelcomeExistsIffCalled(calls: seq<Call>)
    ensures Run(Initial(), calls).hasWelcome <==> exists i :: 0 <= i < |calls| && calls[i].WelcomeCall?
  {
    if calls != [] {
      var pre := calls[..|calls| - 1];
      WelcomeExistsIffCalled(pre);
      assert Run(Initial(), calls).hasWelcome == (Run(Initial(), pre).hasWelcome || calls[|calls| - 1].WelcomeCall?);
      if exists i :: 0 <= i < |pre| && pre[i].WelcomeCall? {
        var i :| 0 <= i < |pre| && pre[i].WelcomeCall?;
        assert calls[i] == pre[i];
      }
      if exists i :: 0 <= i < |calls| && calls[i].WelcomeCall? {
        var i :| 0 <= i < |calls| && calls[i].WelcomeCall?;
        if i < |pre| { assert pre[i] == calls[i]; }
      }
    }
  }

  /** However often `welcome()` is called, the welcome hook is in the list once if it was called and not at all otherwise. */
  lemma {:induction false} WelcomeCreatedOnce(calls: seq<Call>)
    ensures Count(Run(Initial(), calls).hooks, WelcomeHook) ==
      if exists i :: 0 <= i < |calls| && calls[i].WelcomeCall? then 1 else 0
  {
    InitialValid();
    RunPreservesValid(Initial(), calls);
    WelcomeExistsIffCalled(calls);
  }

  /** Once prepared, the model stays prepared and no further putInto or native-filter call is made. */
  lemma {:induction false} PreparedIsFinal(s: DslState, calls: seq<Call>)
    requires s.prepared
    ensures Run(s, calls).prepared && Run(s, calls).effects == s.effects
  {
    if calls != [] {
      PreparedIsFinal(s, calls[..|calls| - 1]);
    }
  }

  /** The model is prepared after the calls iff one of them was `prepareModel`. */
  lemma {:induction false} PreparedIffCalled(calls: seq<Call>)
    ensures Run(Initial(), calls).prepared <==> exists i :: 0 <= i < |calls| && calls[i].PrepareModelCall?
  {
    if calls != [] {
      var pre := calls[..|calls| - 1];
      PreparedIffCalled(pre);
      assert Run(Initial(), calls).prepared == (Run(Initial(), pre).prepared || calls[|calls| - 1].PrepareModelCall?);
      if exists i :: 0 <= i < |pre| && pre[i].PrepareModelCall? {
        var i :| 0 <= i < |pre| && pre[i].PrepareModelCall?;
        assert calls[i] == pre[i];
      }
      if exists i :: 0 <= i < |calls| && calls[i].PrepareModelCall? {
        var i :| 0 <= i < |calls| && calls[i].PrepareModelCall?;
        if i < |pre| { assert pre[i] == calls[i]; }
      }
    }
  }

  /** Before preparation no opaque call has been made. */
  lemma NoEffectsBeforePrepare(calls: seq<Call>)
    ensures !Run(Initial(), calls).prepared ==> Run(Initial(), calls).effects == []
  {
    InitialValid();
    RunPreservesValid(Initial(), calls);
  }

  /** The first `prepareModel` call stays the first one when calls are appended. */
  lemma FirstPrepareExtends(pre: seq<Call>, c: Call, i: int)
    requires FirstPrepare(pre, i)
    ensures FirstPrepare(pre + [c], i) && (pre + [c])[..i] == pre[..i]
  {
  }

  /**
   * The model is prepared iff some call was `prepareModel`; then the only opaque calls ever
   * made are one putInto, with the hooks as they were and the argument of the FIRST
   * `prepareModel` call, followed by one native-filter call.
   */
  lemma {:induction false} PrepareModelRunsOnce(calls: seq<Call>)
    ensures var r := Run(Initial(), calls);
      r.prepared <==> exists i :: 0 <= i < |calls| && calls[i].PrepareModelCall?
    ensures var r := Run(Initial(), calls);
      r.prepared ==>
        exists i ::
          FirstPrepare(calls, i) &&
          r.effects == [PutInto(Run(Initial(), calls[..i]).hooks, calls[i].workspaceInit),
                        ApplyNativeFilterIfNoPlatformFilter]
  {
    PreparedIffCalled(calls);
    if calls != [] {
      var pre := calls[..|calls| - 1];
      var c := calls[|calls| - 1];
      var mid := Run(Initial(), pre);
      assert calls == pre + [c];
      assert Run(Initial(), calls) == Step(mid, c);
      PrepareModelRunsOnce(pre);
      if mid.prepared {
        var i :| FirstPrepare(pre, i) &&
          mid.effects == [PutInto(Run(Initial(), pre[..i]).hooks, pre[i].workspaceInit),
                          ApplyNativeFilterIfNoPlatformFilter];
        FirstPrepareExtends(pre, c, i);
      } else if c.PrepareModelCall? {
        NoEffectsBeforePrepare(pre);
        PreparedIffCalled(pre);
        assert calls[..|pre|] == pre;
        assert FirstPrepare(calls, |pre|);
      }
    }
  }

  /** `P2Model`: the model the extension prepares; only its identity matters here. */
  class P2Model {
    constructor ()
    {
    }
  }

  /** `EquoIdeExtension`, the DSL inside the `equoIde` block. */
  class EquoIdeExtension {
    var ideHooks: seq<Hook>
    const branding: Hook
    var welcome: Hook?
    var workspace: Workspace
    var hasBeenPrepared: bool
    const model: P2Model
    /** The calls made so far into `catalog.putInto` and `model.applyNativeFilterIfNoPlatformFilter`. */
    ghost var effects: seq<Effect>

    ghost function State(): DslState
      reads this
    {
      DslState(Kinds(ideHooks), welcome != null, workspace, hasBeenPrepared, effects)
    }

    ghost predicate Valid()
      reads this
    {
      && State().Valid()
      && |ideHooks| > 0 && ideHooks[0] == branding
      && (welcome != null ==> welcome.kind == WelcomeHook && welcome in ideHooks)
    }

    constructor ()
      ensures Valid() && State() == Initial()
      ensures ideHooks == [branding] && branding.kind == BrandingHook && welcome == null
      ensures fresh(branding) && fresh(model)
    {
      branding := new Hook(BrandingHook);
      model := new P2Model();
      ideHooks := [];
      welcome := null;
      workspace := map[];
      hasBeenPrepared := false;
      effects := [];
      new;
      ideHooks := ideHooks + [branding];
      assert Kinds(ideHooks) == [BrandingHook];
      InitialValid();
    }

    /** Appends a new Chromium hook; every call adds one. */
    method UseChromium()
      requires Valid()
      modifies this`ideHooks
      ensures Valid()
      ensures State() == old(State()).UseChromium()
      ensures |ideHooks| == |old(ideHooks)| + 1 && ideHooks[..|old(ideHooks)|] == old(ideHooks)
      ensures ideHooks[|old(ideHooks)|].kind == ChromiumHook && fresh(ideHooks[|old(ideHooks)|])
    {
      var chromium := new Hook(ChromiumHook);
      ideHooks := ideHooks + [chromium];
      assert Kinds(ideHooks) == old(Kinds(ideHooks)) + [ChromiumHook];
      StepPreservesValid(old(State()), UseChromiumCall);
    }

    /** The branding hook: always the same object, always the first hook. */
    method Branding() returns (b: Hook)
      requires Valid()
      ensures b == branding && b == ideHooks[0] && b.kind == BrandingHook
    {
      assert Kinds(ideHooks)[0] == BrandingHook;
      b := branding;
    }

    /** The welcome hook, created and appended on the first call only. */
    method Welcome() returns (w: Hook)
      requires Valid()
      modifies this`ideHooks, this`welcome
      ensures Valid()
      ensures State() == old(State()).Welcome()
      ensures w == welcome && w.kind == WelcomeHook
      ensures old(welcome) != null ==> w == old(welcome) && ideHooks == old(ideHooks)
      ensures old(welcome) == null ==> fresh(w) && ideHooks == old(ideHooks) + [w]
    {
      if welcome == null {
        var created := new Hook(WelcomeHook);
        welcome := created;
        ideHooks := ideHooks + [created];
        assert Kinds(ideHooks) == old(Kinds(ideHooks)) + [WelcomeHook];
        StepPreservesValid(old(State()), WelcomeCall);
      }
      w := welcome;
    }

    /** The hook list, branding first. */
    method GetIdeHooks() returns (hooks: seq<Hook>)
      requires Valid()
      ensures hooks == ideHooks && |hooks| > 0 && hooks[0] == branding
      ensures branding.kind == BrandingHook
    {
      assert Kinds(ideHooks)[0] == BrandingHook;
      hooks := ideHooks;
    }

    /** `workspaceInit(subpath, action)`: runs the action's `prop` calls against this sub-path, in order. */
    method WorkspaceInit(subpath: string, action: seq<Prop>)
      requires Valid()
      modifies this`workspace
      ensures Valid()
      ensures State() == old(State()).WorkspaceInit(subpath, action)
    {
      var file := new SetWorkspaceFile(this, subpath);
      var i := 0;
      while i < |action|
        invariant 0 <= i <= |action|
        invariant Valid()
        invariant workspace == ApplyProps(old(workspace), subpath, action[..i])
      {
        file.Prop(action[i].0, action[i].1);
        assert action[..i + 1][..i] == action[..i];
        i := i + 1;
      }
      assert action[..|action|] == action;
    }

    /**
     * Prepares the model on the first call only; every call returns the same model.
     * `putInto` receives the live hook list and the workspace object; the model takes it
     * that `putInto` adds nothing to either, and records the hook kinds as they are then.
     */
    method PrepareModel(workspaceInit: Workspace) returns (m: P2Model)
      requires Valid()
      modifies this`hasBeenPrepared, this`effects
      ensures Valid()
      ensures m == model
      ensures State() == old(State()).PrepareModel(workspaceInit)
    {
      if hasBeenPrepared {
        return model;
      }
      hasBeenPrepared := true;
      effects := effects + [PutInto(Kinds(ideHooks), workspaceInit)];
      effects := effects + [ApplyNativeFilterIfNoPlatformFilter];
      return model;
    }
  }

  /** `EquoIdeExtension.SetWorkspaceFile`: the receiver of `prop` calls for one sub-path. */
  class SetWorkspaceFile {
    const outer: EquoIdeExtension
    const subpath: string

    constructor (outer: EquoIdeExtension, subpath: string)
      ensures this.outer == outer && this.subpath == subpath
    {
      this.outer := outer;
      this.subpath := subpath;
    }

    /** `prop(key, value)`: sets the entry (subpath, key) of the extension's workspace. */
    method Prop(key: string, value: string)
      requires outer.Valid()
      modifies outer`workspace
      ensures outer.Valid()
      ensures outer.workspace == SetProperty(old(outer.workspace), subpath, key, value)
    {
      outer.workspace := SetProperty(outer.workspace, subpath, key, value);
    }
  }
}
