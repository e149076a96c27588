/** The values the editor-support rules are made of: the key an instance is
    bound to, the editor mode, the per-feature support action, the resolved
    request context, and the matching rule that ties a key to a context. */
module Rules {

  datatype Option<T> = None | Some(value: T)

  /** The three kinds of binding: 'post_type', 'post_id' and 'template'. */
  datatype Kind = PostTypeKind | PostIdKind | TemplateKind

  /** The bound value is a PHP `string|int`; strict comparison (`===`)
      never equates a string with an integer. */
  datatype Value = Str(s: string) | Int(n: int)

  /** A registry key: kind and value, compared by both. */
  datatype Key = Key(kind: Kind, value: Value)

  function PostTypeKey(postType: string): Key { Key(PostTypeKind, Str(postType)) }
  function PostIdKey(postId: int): Key { Key(PostIdKind, Int(postId)) }
  function TemplateKey(template: string): Key { Key(TemplateKind, Str(template)) }

  /** The editor mode; `Unset` is the initial empty string. */
  datatype EditorType = Unset | Gutenberg | Classic | Empty {
    /** The modes under which the block editor is refused. */
    predicate DeniesBlockEditor() { Classic? || Empty? }
  }

  /** The value stored in the supports map: 'add' or 'remove'. */
  datatype Support = Add | Remove

  /** The eleven features the one-line builder wrappers name. */
  datatype Feature =
    | Title | Editor | Author | Thumbnail | Excerpt | Trackbacks
    | CustomFields | Comments | Revisions | PageAttributes | PostFormats
  {
    function Name(): string {
      match this
      case Title => "title"
      case Editor => "editor"
      case Author => "author"
      case Thumbnail => "thumbnail"
      case Excerpt => "excerpt"
      case Trackbacks => "trackbacks"
      case CustomFields => "custom-fields"
      case Comments => "comments"
      case Revisions => "revisions"
      case PageAttributes => "page-attributes"
      case PostFormats => "post-formats"
    }
  }

  /** The canonical feature list walked by the bulk builders, in order. */
  const CANONICAL: seq<string> := [
    "title", "editor", "author", "thumbnail", "excerpt", "trackbacks",
    "custom-fields", "comments", "revisions", "page-attributes", "post-formats"
  ]

  /** Every wrapper's feature is canonical, and the canonical list holds
      nothing but the wrappers' features. */
  lemma FeatureNamesAreCanonical()
    ensures forall f: Feature :: f.Name() in CANONICAL
    ensures forall i :: 0 <= i < |CANONICAL| ==> exists f: Feature :: f.Name() == CANONICAL[i]
  {
    assert CANONICAL[0] == Title.Name();
    assert CANONICAL[1] == Editor.Name();
    assert CANONICAL[2] == Author.Name();
    assert CANONICAL[3] == Thumbnail.Name();
    assert CANONICAL[4] == Excerpt.Name();
    assert CANONICAL[5] == Trackbacks.Name();
    assert CANONICAL[6] == CustomFields.Name();
    assert CANONICAL[7] == Comments.Name();
    assert CANONICAL[8] == Revisions.Name();
    assert CANONICAL[9] == PageAttributes.Name();
    assert CANONICAL[10] == PostFormats.Name();
  }

  /** The request context the host resolves: post type, post id, template
      slug (the host's defaults are '', 0 and ''). */
  datatype Context = Context(postType: string, postId: int, template: string)

  /** The context field a kind of binding is compared with. */
  function Field(kind: Kind, ctx: Context): Value {
    match kind
    case PostTypeKind => Str(ctx.postType)
    case PostIdKind => Int(ctx.postId)
    case TemplateKind => Str(ctx.template)
  }

  /** `check_is_good_instance`: three guarded strict comparisons, one per kind. */
  function Matches(key: Key, ctx: Context): (r: bool)
    ensures r <==> key.value == Field(key.kind, ctx)
  {
    if key.kind == PostTypeKind && Str(ctx.postType) == key.value then true
    else if key.kind == PostIdKind && Int(ctx.postId) == key.value then true
    else if key.kind == TemplateKind && Str(ctx.template) == key.value then true
    else false
  }

  /** Only the field chosen by the key's kind is consulted. */
  lemma MatchReadsOnlyItsField(key: Key, c1: Context, c2: Context)
    requires Field(key.kind, c1) == Field(key.kind, c2)
    ensures Matches(key, c1) == Matches(key, c2)
  {
  }

  /** Strictness: an id binding never matches through the post type or the
      template, and an id binding holding a string never matches at all. */
  lemma MatchIsStrict(ctx: Context, id: int, s: string)
    ensures Matches(PostIdKey(id), ctx) <==> ctx.postId == id
    ensures !Matches(Key(PostIdKind, Str(s)), ctx)
    ensures !Matches(Key(PostTypeKind, Int(id)), ctx)
  {
  }

  /** The supports map after setting every name of `names` that is not in
      `excluded` to `s`, in order; the specification of the bulk builders. */
  function Assign(m: map<string, Support>, names: seq<string>, excluded: seq<string>, s: Support)
    : (r: map<string, Support>)
    ensures forall f :: f in names && f !in excluded ==> f in r && r[f] == s
    ensures forall f :: f !in names || f in excluded ==> (f in r <==> f in m) && (f in m ==> r[f] == m[f])
    decreases |names|
  {
    if names == [] then m
    else
      var last := names[|names| - 1];
      var prior := Assign(m, names[..|names| - 1], excluded, s);
      assert forall f :: f in names <==> f in names[..|names| - 1] || f == last;
      if last in excluded then prior else prior[last := s]
  }

  /** One more step of the bulk assignment: the next name, unless excluded. */
  lemma AssignStep(m: map<string, Support>, names: seq<string>, i: nat, excluded: seq<string>, s: Support)
    requires i < |names|
    ensures Assign(m, names[..i + 1], excluded, s)
         == if names[i] in excluded then Assign(m, names[..i], excluded, s)
            else Assign(m, names[..i], excluded, s)[names[i] := s]
  {
    assert names[..i + 1][..i] == names[..i];
  }

  /** A rule set as a value: the instance's binding, mode and supports. */
  datatype RuleSet = RuleSet(key: Key, editor: EditorType, supports: map<string, Support>)
}
