# OffsetWP Editor Support — a Dafny model of `EditorSupportManager`

`EditorSupportManager` lets WordPress site code choose, per post type, per post id or per
page template, an editor mode (Gutenberg block editor, classic editor, or no content editor)
and a set of post-type feature toggles (title, editor, author, thumbnail, …). Instances are
obtained through `from_post_type`, `from_post_id` and `from_template`. These factories keep
one instance per (type, value) key in a static list. The builder methods record decisions in
the instance. Three hooks apply the decisions on admin requests:
- `admin_init` adds or removes post-type supports;
- `register_post_type_args` may force `show_in_rest`;
- `use_block_editor_for_post_type` / `gutenberg_can_edit_post_type` may refuse the block editor.

The model has five modules:

- `Rules` (rules.dfy): the values. A key is a kind (`post_type`, `post_id`, `template`) and a
  PHP `string|int` value, so strict `===` comparison is represented exactly (`post_id` 5 is
  not `post_id` "5"). It also holds the editor mode, the 'add'/'remove' support value, the
  eleven canonical features, the resolved request context, `check_is_good_instance`
  (`Matches`) and `Assign`, the specification of the bulk builders.
- `Manager` (manager.dfy): the instance as a class whose `editor` and `supports` fields the
  builder methods update in place. `add_all`/`remove_all` are loops over the canonical list,
  proved against `Assign`.
- `Instances` (instances.dfy): the registry as an object passed around explicitly instead of
  a static array. It holds entries in insertion order, a linear `Find` and the find-or-create
  `From` with its three factories. It also holds `find_instance` exactly as written (see
  Findings).
- `Hooks` (hooks.dfy): the decision part of each hook as a function of a rule-set value, an
  already-resolved context and the host's inputs. Every instance registers its hooks in its
  constructor, at the same priority, so the host runs them in registry order. The module
  evaluates a whole registry as a fold in that order and proves the resulting
  last-write-wins and any-match rules.
- `Scenarios` (scenarios.dfy): end-to-end runs that build a registry, configure it and
  evaluate the hooks.

Host inputs are parameters: the resolved `(post type, post id, template)` context, `is_admin()`,
the host's `$can_edit` answer and the `$args` array. The calls `add_post_type_support` /
`remove_post_type_support` become emitted `SupportAction` values. Their effect on the post
type's feature set is modelled as adding or removing a set element.

The two editor hooks resolve the post type differently, and the model follows the code.
`hook_disable_gutenberg` matches against the post type the host passes to the filter.
`hook_enable_gutenberg` ignores its `$post_type` parameter: it overwrites it with the post
type resolved from the request. As a result, on a matching screen every post type being
registered gets `show_in_rest = true` (`Hooks.EnableIgnoresRegisteredType`).

## Model

| member | source | states |
|---|---|---|
| `Rules.FeatureNamesAreCanonical` | src/EditorSupportManager.php:290-302 | each single-feature wrapper names a feature of the canonical `add_all`/`remove_all` list, and that list contains only those features |
| `Rules.Matches` | src/EditorSupportManager.php:461-475 | an instance matches iff its bound value strictly equals the one context field its kind selects (post type, post id or template) |
| `Rules.MatchReadsOnlyItsField` | src/EditorSupportManager.php:461-475 | two contexts that agree on the field selected by the kind get the same answer; the other two fields are never consulted |
| `Rules.MatchIsStrict` | src/EditorSupportManager.php:466-468 | an id binding matches exactly the contexts with that post id; an id binding holding a string, or a post-type binding holding an int, never matches |
| `Rules.Assign` | src/EditorSupportManager.php:304-308 | after the bulk loop, every canonical name not excluded maps to the given action; every excluded or non-canonical key keeps its presence and its previous action |
| `Manager.EditorSupportManager.constructor` | src/EditorSupportManager.php:37-44 | a new instance has no editor mode and an empty supports map, and is bound to its key |
| `Manager.EditorSupportManager.AddSupport` | src/EditorSupportManager.php:278-281 | `supports[feature]` becomes 'add', all other keys and the editor mode are unchanged (last write wins) |
| `Manager.EditorSupportManager.RemoveSupport` | src/EditorSupportManager.php:448-451 | `supports[feature]` becomes 'remove', all other keys and the editor mode are unchanged |
| `Manager.EditorSupportManager.AddFeature` | src/EditorSupportManager.php:178-270 | each `add_<feature>` wrapper sets exactly that feature's name to 'add' |
| `Manager.EditorSupportManager.RemoveFeature` | src/EditorSupportManager.php:318-410 | each `remove_<feature>` wrapper sets exactly that feature's name to 'remove' |
| `Manager.EditorSupportManager.SetGutenbergEditor` | src/EditorSupportManager.php:146-150 | mode becomes gutenberg and `supports['editor']` becomes 'add', nothing else changes |
| `Manager.EditorSupportManager.SetClassicEditor` | src/EditorSupportManager.php:157-160 | mode becomes classic; supports untouched |
| `Manager.EditorSupportManager.SetEmptyEditor` | src/EditorSupportManager.php:167-171 | mode becomes empty and `supports['editor']` becomes 'remove', nothing else changes |
| `Manager.EditorSupportManager.AddAll` | src/EditorSupportManager.php:289-311 | the loop leaves supports equal to `Assign(old supports, canonical list, excluded, 'add')`; the mode is unchanged |
| `Manager.EditorSupportManager.RemoveAll` | src/EditorSupportManager.php:418-440 | the loop leaves supports equal to `Assign(old supports, canonical list, excluded, 'remove')`; the mode is unchanged |
| `Instances.FindInstanceAsWritten` | src/EditorSupportManager.php:132-139 | as written, the lookup raises a TypeError iff some entry has the key, and returns null otherwise |
| `Instances.SecondFromRaisesAsWritten` | src/EditorSupportManager.php:109-123 | as written, the first `from` of a key finds nothing and appends; the second `from` of that key raises |
| `Instances.Registry.constructor` | src/EditorSupportManager.php:51 | the registry starts empty and valid |
| `Instances.Registry.Find` | src/EditorSupportManager.php:132-139 | nothing is found iff no entry has the key (same kind and same value); otherwise the result is the first entry with that key |
| `Instances.Registry.From` | src/EditorSupportManager.php:109-123 | find-or-create: a registered key returns its instance and leaves the registry unchanged; a new key appends exactly one entry with a fresh, unconfigured instance; keys stay unique and the returned instance is bound to the key |
| `Instances.Registry.FromPostType` | src/EditorSupportManager.php:69-74 | find-or-create under the post-type key; the instance is bound to that key |
| `Instances.Registry.FromPostId` | src/EditorSupportManager.php:82-87 | find-or-create under the post-id key; the instance is bound to that key |
| `Instances.Registry.FromTemplate` | src/EditorSupportManager.php:95-100 | find-or-create under the template key; the instance is bound to that key |
| `Hooks.SyncActions` | src/EditorSupportManager.php:497-507 | no match gives no action; a match gives exactly one action per supports entry, for the context's post type, an add call for 'add' and a remove call otherwise |
| `Hooks.ApplySyncAt` | src/EditorSupportManager.php:501-507 | after one instance's sync, a feature it decides is supported iff it said 'add'; any other feature keeps its state |
| `Hooks.SyncLastWriteWins` | src/EditorSupportManager.php:497-507 | over the whole registry in insertion order, a feature ends up supported iff the last matching instance that decides it says 'add'; undecided features keep their state |
| `Hooks.EnableGutenberg` | src/EditorSupportManager.php:517-547 | args are returned unchanged unless admin, matching and in gutenberg mode; then only `show_in_rest` is set to true |
| `Hooks.EnableIgnoresRegisteredType` | src/EditorSupportManager.php:517-523 | the result does not depend on the post type being registered |
| `Hooks.EnableChainSpec` | src/EditorSupportManager.php:538-546 | over the whole registry, `show_in_rest` is forced to true iff admin and some matching instance is in gutenberg mode; otherwise args pass through |
| `Hooks.DisableGutenberg` | src/EditorSupportManager.php:556-570 | a matching instance in classic or empty mode answers false; in every other case `can_edit` passes through unchanged |
| `Hooks.DisableChainSpec` | src/EditorSupportManager.php:561-569 | over the whole registry, the block editor stays allowed iff the host allowed it and no matching instance is in classic or empty mode |
| `Scenarios.FindOrCreateIsStable` | src/EditorSupportManager.php:109-139 | two `from_post_type('5')` calls give the same instance; `from_post_id(5)` gives another one; the registry then holds two entries |
| `Scenarios.ClassicBookRefusesBlockEditor` | src/EditorSupportManager.php:556-570 | post type 'book' in classic mode refuses the block editor for post 9 of type 'book' even though the host allowed it |
| `Scenarios.AllButCommentsForOnePost` | src/EditorSupportManager.php:497-507 | post 42 with `add_all()` then `remove_support('comments')`: on that post exactly the canonical features other than comments end up supported; on another post nothing changes |
| `Scenarios.AllButCommentsSync` | src/EditorSupportManager.php:497-507 | the sync results of that rule set, on its own post and on another |

## Findings

| source | as written | input that shows it | evidently intended | confidence | as-written member | corrected member |
|---|---|---|---|---|---|---|
| src/EditorSupportManager.php:132-139 | `find_instance` is declared to return `self` or null but returns the matching entry array; in a strict-types file the return check throws a TypeError, so `from` never reaches `['instance']` | `from_post_type('book')` called twice: the second call finds the entry and raises | return the stored entry (which `from` then indexes) so that the second call returns the same instance | high, not executed | `Instances.FindInstanceAsWritten` | `Instances.Registry.Find` |

## Left out

- Hook registration in the constructor (`add_action` / `add_filter`, src/EditorSupportManager.php:56-61) is host wiring. The hooks are instead evaluated as folds over the registry in insertion order (`SyncAll`, `EnableChain`, `DisableChain`), which is the order the host runs callbacks registered at the same priority.
- Context resolution is host I/O and global state, so the resolved context and `is_admin()` are inputs. This covers `$pagenow`, `$_GET['post']`, `$_GET['post_type']`, `get_post_type`, `get_page_template_slug`, `sanitize_text_field` / `wp_unslash` and `is_admin` (src/EditorSupportManager.php:481-495, 518-536, 557-559). The resolvers differ slightly: on `post-new.php` without a `post_type` query argument, the sync hook resolves post type 'post' and the enable hook resolves ''. The disable hook uses the filter's post type, the requested post id and that post's template.
- `add_post_type_support` / `remove_post_type_support` are WordPress calls. They are emitted as `SupportAction` values, and their effect on one post type's feature set is modelled as set insertion and removal.
- Manager.EditorSupportManager.constructor: the source creates the object unbound and the factory writes `instance_type` / `instance_value` right after `from` returns, writing the same key again on every later call. Because `from` is private and only the factories call it, the model fixes the key when the object is constructed.
- Builder methods return `$this` for chaining in the source. The model's methods return nothing, and the caller keeps the reference.
- PHP arrays keep insertion order, but the `supports` map does not. The order of one instance's support calls is therefore not modelled. Each feature gets exactly one call, so the order does not change the outcome.
- The static registry's lifetime across requests and any concurrent access are not modelled. The registry is a single object used sequentially.

