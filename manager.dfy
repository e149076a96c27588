/** One editor-support instance: a rule set bound to one key, configured in
    place by builder methods. The source's builders return `$this` for
    chaining; here they return nothing and the caller keeps the reference. */
module Manager {
  import opened Rules

  class EditorSupportManager {
    /** The (kind, value) binding written by the factory that created it. */
    const key: Key
    /** `editor_type`. */
    var editor: EditorType
    /** `supports`: feature name to 'add' or 'remove', last write wins. */
    var supports: map<string, Support>

    /** A fresh instance: no editor mode, no support decisions. */
    constructor (key: Key)
      ensures this.key == key && editor == Unset && supports == map[]
    {
      this.key := key;
      editor := Unset;
      supports := map[];
    }

    /** The current configuration as a value. */
    function Snapshot(): RuleSet
      reads this
    {
      RuleSet(key, editor, supports)
    }

    /** `add_support`: the feature is set to 'add', nothing else changes. */
    method AddSupport(feature: string)
      modifies this
      ensures editor == old(editor)
      ensures supports == old(supports)[feature := Add]
    {
      supports := supports[feature := Add];
    }

    /** `remove_support`: the feature is set to 'remove', nothing else changes. */
    method RemoveSupport(feature: string)
      modifies this
      ensures editor == old(editor)
      ensures supports == old(supports)[feature := Remove]
    {
      supports := supports[feature := Remove];
    }

    /** The eleven `add_<feature>` wrappers. */
    method AddFeature(feature: Feature)
      modifies this
      ensures editor == old(editor)
      ensures supports == old(supports)[feature.Name() := Add]
    {
      AddSupport(feature.Name());
    }

    /** The eleven `remove_<feature>` wrappers. */
    method RemoveFeature(feature: Feature)
      modifies this
      ensures editor == old(editor)
      ensures supports == old(supports)[feature.Name() := Remove]
    {
      RemoveSupport(feature.Name());
    }

    /** `set_gutenberg_editor`: block editor, and the 'editor' feature added. */
    method SetGutenbergEditor()
      modifies this
      ensures editor == Gutenberg
      ensures supports == old(supports)["editor" := Add]
    {
      editor := Gutenberg;
      AddSupport("editor");
    }

    /** `set_classic_editor`: only the mode changes. */
    method SetClassicEditor()
      modifies this
      ensures editor == Classic
      ensures supports == old(supports)
    {
      editor := Classic;
    }

    /** `set_empty_editor`: no content editor, and the 'editor' feature removed. */
    method SetEmptyEditor()
      modifies this
      ensures editor == Empty
      ensures supports == old(supports)["editor" := Remove]
    {
      editor := Empty;
      RemoveSupport("editor");
    }

    /** `add_all`: every canonical feature not excluded is set to 'add'. */
    method AddAll(excluded: seq<string>)
      modifies this
      ensures editor == old(editor)
      ensures supports == Assign(old(supports), CANONICAL, excluded, Add)
    {
      var names, i := CANONICAL, 0;
      while i < |names|
        invariant names == CANONICAL
        invariant 0 <= i <= |names|
        invariant editor == old(editor)
        invariant supports == Assign(old(supports), names[..i], excluded, Add)
      {
        AssignStep(old(supports), names, i, excluded, Add);
        if names[i] !in excluded {
          AddSupport(names[i]);
        }
        i := i + 1;
      }
      assert names[..i] == names;
    }

    /** `remove_all`: every canonical feature not excluded is set to 'remove'. */
    method RemoveAll(excluded: seq<string>)
      modifies this
      ensures editor == old(editor)
      ensures supports == Assign(old(supports), CANONICAL, excluded, Remove)
    {
      var names, i := CANONICAL, 0;
      while i < |names|
        invariant names == CANONICAL
        invariant 0 <= i <= |names|
        invariant editor == old(editor)
        invariant supports == Assign(old(supports), names[..i], excluded, Remove)
      {
        AssignStep(old(supports), names, i, excluded, Remove);
        if names[i] !in excluded {
          RemoveSupport(names[i]);
        }
        i := i + 1;
      }
      assert names[..i] == names;
    }
  }
}
