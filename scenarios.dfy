/** End-to-end runs: a registry is built and configured through the builder
    methods, then the hooks are evaluated over its rule sets in insertion
    order. */
module Scenarios {
  import opened Rules
  import opened Manager
  import opened Instances
  import opened Hooks

  /** Asking twice for one key yields one instance and one entry; the same
      value under another kind (id 5 against post type "5") is another key. */
  method FindOrCreateIsStable() returns (first: EditorSupportManager, second: EditorSupportManager,
                                         byId: EditorSupportManager, size: nat)
    ensures first == second
    ensures byId != first
    ensures size == 2
  {
    var registry := new Registry();
    first := registry.FromPostType("5");
    second := registry.FromPostType("5");
    byId := registry.FromPostId(5);
    size := |registry.entries|;
  }

  /** A post type in classic mode refuses the block editor for a post of
      that type, whatever the host would have answered. */
  method ClassicBookRefusesBlockEditor() returns (allowed: bool)
    ensures !allowed
  {
    var registry := new Registry();
    var book := registry.FromPostType("book");
    book.SetClassicEditor();
    var rules := registry.RuleSets();
    allowed := DisableChain(rules, true, Context("book", 9, ""));
    DisableChainSpec(rules, true, Context("book", 9, ""));
    assert Matches(rules[0].key, Context("book", 9, ""));
  }

  /** Post 42 with every feature added and comments then removed: on that
      post's screen exactly the canonical features but comments end up
      supported; on another post's screen nothing changes. */
  method AllButCommentsForOnePost(enabled: set<string>)
    returns (onPost: set<string>, elsewhere: set<string>)
    ensures forall f :: f in onPost <==> (f in CANONICAL && f != "comments")
                                         || (f !in CANONICAL && f in enabled)
    ensures elsewhere == enabled
  {
    var registry := new Registry();
    var post := registry.FromPostId(42);
    post.AddAll([]);
    post.RemoveSupport("comments");
    assert registry.entries == [Entry(PostIdKey(42), post)];
    var rules := registry.RuleSets();
    onPost := SyncAll(rules, Context("post", 42, ""), enabled);
    elsewhere := SyncAll(rules, Context("post", 7, ""), enabled);
    AllButCommentsSync(rules[0], enabled);
  }

  /** The sync of the rule set built above, on its own post and on another. */
  lemma AllButCommentsSync(r: RuleSet, enabled: set<string>)
    requires r.key == PostIdKey(42)
    requires r.supports == Assign(map[], CANONICAL, [], Add)["comments" := Remove]
    ensures forall f :: f in SyncAll([r], Context("post", 42, ""), enabled)
                   <==> (f in CANONICAL && f != "comments") || (f !in CANONICAL && f in enabled)
    ensures SyncAll([r], Context("post", 7, ""), enabled) == enabled
  {
    var here, there := Context("post", 42, ""), Context("post", 7, "");
    assert [r][..0] == [];
    assert CANONICAL[7] == "comments";
    forall f ensures f in SyncAll([r], here, enabled)
                 <==> (f in CANONICAL && f != "comments") || (f !in CANONICAL && f in enabled) {
      ApplySyncAt(r, here, enabled, f);
    }
    assert Apply(there.postType, enabled, {}) == enabled;
  }
}
