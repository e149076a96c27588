/** The decision parts of the three host hooks, as functions of a rule set,
    an already-resolved request context and the host's inputs; and, since
    every instance registers its hooks when it is created, the evaluation of
    a whole registry as a fold over its rule sets in insertion order. */
module Hooks {
  import opened Rules

  /** A call into the host's per-post-type feature registry. */
  datatype SupportAction =
    | AddPostTypeSupport(postType: string, feature: string)
    | RemovePostTypeSupport(postType: string, feature: string)

  /** 'add' becomes an add call; any other stored action a remove call. */
  function ActionFor(postType: string, feature: string, s: Support): SupportAction {
    if s == Add then AddPostTypeSupport(postType, feature) else RemovePostTypeSupport(postType, feature)
  }

  /** `hook_add_or_remove_support`, after context resolution: nothing unless
      the rule set matches; then one call per supports entry, all for the
      context's post type. */
  function SyncActions(r: RuleSet, ctx: Context): (acts: set<SupportAction>)
    ensures !Matches(r.key, ctx) ==> acts == {}
    ensures Matches(r.key, ctx) ==>
              forall f :: f in r.supports ==> ActionFor(ctx.postType, f, r.supports[f]) in acts
    ensures forall a :: a in acts ==>
              && Matches(r.key, ctx)
              && a.postType == ctx.postType
              && a.feature in r.supports
              && a == ActionFor(ctx.postType, a.feature, r.supports[a.feature])
  {
    if !Matches(r.key, ctx) then {}
    else set f | f in r.supports :: ActionFor(ctx.postType, f, r.supports[f])
  }

  /** The host's feature set for `postType` after the given calls, when no
      two calls name the same feature (as SyncActions guarantees). */
  function Apply(postType: string, enabled: set<string>, acts: set<SupportAction>): set<string> {
    (enabled - set a | a in acts && a.RemovePostTypeSupport? && a.postType == postType :: a.feature)
    + set a | a in acts && a.AddPostTypeSupport? && a.postType == postType :: a.feature
  }

  /** One instance's sync on the host's feature set: a feature it decides
      ends up as decided; every other feature keeps its state. */
  lemma ApplySyncAt(r: RuleSet, ctx: Context, enabled: set<string>, f: string)
    ensures f in Apply(ctx.postType, enabled, SyncActions(r, ctx))
        <==> if Matches(r.key, ctx) && f in r.supports then r.supports[f] == Add else f in enabled
  {
    var acts := SyncActions(r, ctx);
    if Matches(r.key, ctx) && f in r.supports {
      assert ActionFor(ctx.postType, f, r.supports[f]) in acts;
    }
  }

  /** The admin-init hooks of all instances, run in insertion order. */
  function SyncAll(rules: seq<RuleSet>, ctx: Context, enabled: set<string>): set<string>
    decreases |rules|
  {
    if rules == [] then enabled
    else
      var n := |rules| - 1;
      Apply(ctx.postType, SyncAll(rules[..n], ctx, enabled), SyncActions(rules[n], ctx))
  }

  /** The decision of the last matching rule set that mentions `f`, if any. */
  function LastDecision(rules: seq<RuleSet>, ctx: Context, f: string): Option<Support>
    decreases |rules|
  {
    if rules == [] then None
    else
      var n := |rules| - 1;
      if Matches(rules[n].key, ctx) && f in rules[n].supports then Some(rules[n].supports[f])
      else LastDecision(rules[..n], ctx, f)
  }

  /** Last write wins across instances: after the sync, a feature is
      supported iff the last matching instance that decides it says 'add',
      and a feature no matching instance decides keeps its state. */
  lemma {:induction false} SyncLastWriteWins(rules: seq<RuleSet>, ctx: Context, enabled: set<string>, f: string)
    ensures f in SyncAll(rules, ctx, enabled)
        <==> match LastDecision(rules, ctx, f) case None => f in enabled case Some(s) => s == Add
    decreases |rules|
  {
    if rules != [] {
      var n := |rules| - 1;
      SyncLastWriteWins(rules[..n], ctx, enabled, f);
      ApplySyncAt(rules[n], ctx, SyncAll(rules[..n], ctx, enabled), f);
    }
  }

  /** The post-type argument `show_in_rest` is a boolean; the other
      registration arguments are carried through untouched. */
  datatype Arg = BoolArg(b: bool) | OtherArg(text: string)

  const SHOW_IN_REST: string := "show_in_rest"

  /** `hook_enable_gutenberg`, after context resolution. The registered post
      type is received but not used: the source overwrites that parameter
      with the post type resolved from the request. */
  function EnableGutenberg(r: RuleSet, args: map<string, Arg>, registeredType: string,
                           isAdmin: bool, ctx: Context): (out: map<string, Arg>)
    ensures !isAdmin || !Matches(r.key, ctx) || r.editor != Gutenberg ==> out == args
    ensures isAdmin && Matches(r.key, ctx) && r.editor == Gutenberg ==>
              SHOW_IN_REST in out && out[SHOW_IN_REST] == BoolArg(true)
              && forall k :: k != SHOW_IN_REST ==> (k in out <==> k in args)
                                                   && (k in args ==> out[k] == args[k])
  {
    if !isAdmin then args
    else if !Matches(r.key, ctx) then args
    else if r.editor == Gutenberg then args[SHOW_IN_REST := BoolArg(true)]
    else args
  }

  /** The result does not depend on which post type is being registered. */
  lemma EnableIgnoresRegisteredType(r: RuleSet, args: map<string, Arg>, t1: string, t2: string,
                                    isAdmin: bool, ctx: Context)
    ensures EnableGutenberg(r, args, t1, isAdmin, ctx) == EnableGutenberg(r, args, t2, isAdmin, ctx)
  {
  }

  /** The `register_post_type_args` filter chain over all instances. */
  function EnableChain(rules: seq<RuleSet>, args: map<string, Arg>, registeredType: string,
                       isAdmin: bool, ctx: Context): map<string, Arg>
    decreases |rules|
  {
    if rules == [] then args
    else
      var n := |rules| - 1;
      EnableGutenberg(rules[n], EnableChain(rules[..n], args, registeredType, isAdmin, ctx),
                      registeredType, isAdmin, ctx)
  }

  /** Some instance asks for the block editor in this context. */
  predicate SomeWantsBlockEditor(rules: seq<RuleSet>, ctx: Context) {
    exists i :: 0 <= i < |rules| && Matches(rules[i].key, ctx) && rules[i].editor == Gutenberg
  }

  /** The chain sets `show_in_rest` to true exactly when the request is in
      the admin and some matching instance is in Gutenberg mode; otherwise
      the host's arguments pass through unchanged. */
  lemma {:induction false} EnableChainSpec(rules: seq<RuleSet>, args: map<string, Arg>,
                                           registeredType: string, isAdmin: bool, ctx: Context)
    ensures EnableChain(rules, args, registeredType, isAdmin, ctx)
         == if isAdmin && SomeWantsBlockEditor(rules, ctx) then args[SHOW_IN_REST := BoolArg(true)] else args
    decreases |rules|
  {
    if rules != [] {
      var n := |rules| - 1;
      EnableChainSpec(rules[..n], args, registeredType, isAdmin, ctx);
      if isAdmin && SomeWantsBlockEditor(rules[..n], ctx) {
        var i :| 0 <= i < n && Matches(rules[..n][i].key, ctx) && rules[..n][i].editor == Gutenberg;
        assert rules[i] == rules[..n][i];
      } else if isAdmin && SomeWantsBlockEditor(rules, ctx) {
        assert forall i :: 0 <= i < n ==> rules[..n][i] == rules[i];
      }
    }
  }

  /** `hook_disable_gutenberg`, with the host's post type, the requested
      post id and that post's template: a matching instance in Classic or
      Empty mode answers false; every other case passes `canEdit` through. */
  function DisableGutenberg(r: RuleSet, canEdit: bool, ctx: Context): (allowed: bool)
    ensures Matches(r.key, ctx) && r.editor.DeniesBlockEditor() ==> !allowed
    ensures !(Matches(r.key, ctx) && r.editor.DeniesBlockEditor()) ==> allowed == canEdit
  {
    if !Matches(r.key, ctx) then canEdit
    else if r.editor == Classic || r.editor == Empty then false
    else canEdit
  }

  /** The `use_block_editor_for_post_type` (and `gutenberg_can_edit_post_type`)
      filter chain over all instances. */
  function DisableChain(rules: seq<RuleSet>, canEdit: bool, ctx: Context): bool
    decreases |rules|
  {
    if rules == [] then canEdit
    else
      var n := |rules| - 1;
      DisableGutenberg(rules[n], DisableChain(rules[..n], canEdit, ctx), ctx)
  }

  /** The block editor stays allowed iff the host allowed it and no
      matching instance is in Classic or Empty mode. */
  lemma {:induction false} DisableChainSpec(rules: seq<RuleSet>, canEdit: bool, ctx: Context)
    ensures DisableChain(rules, canEdit, ctx)
        <==> canEdit && forall i :: 0 <= i < |rules| ==>
                          !(Matches(rules[i].key, ctx) && rules[i].editor.DeniesBlockEditor())
    decreases |rules|
  {
    if rules != [] {
      var n := |rules| - 1;
      DisableChainSpec(rules[..n], canEdit, ctx);
      assert forall i :: 0 <= i < n ==> rules[..n][i] == rules[i];
    }
  }
}
