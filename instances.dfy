/** The process-wide instance registry, modelled as an object that is passed
    around: an ordered list of (key, instance) entries, scanned linearly with
    strict comparison of kind and value, appended to on a miss. */
module Instances {
  import opened Rules
  import opened Manager

  /** One registry entry: `['type' => …, 'value' => …, 'instance' => …]`. */
  datatype Entry = Entry(key: Key, instance: EditorSupportManager)

  /** True when some entry of `entries` carries `key`. */
  predicate Holds(entries: seq<Entry>, key: Key) {
    exists i :: 0 <= i < |entries| && entries[i].key == key
  }

  /** The outcome of `find_instance` exactly as written: it is declared to
      return `self|null`, but on a match it returns the entry array, which
      the return-type check of a strict-types file refuses with a TypeError. */
  datatype FindOutcome = ReturnsNull | RaisesTypeError

  /** `find_instance` as written (see FindOutcome): every lookup of a key
      that is already registered raises instead of returning the instance. */
  function FindInstanceAsWritten(entries: seq<Entry>, key: Key): (r: FindOutcome)
    ensures r == RaisesTypeError <==> Holds(entries, key)
  {
    if entries == [] then ReturnsNull
    else if entries[0].key == key then RaisesTypeError
    else
      var r := FindInstanceAsWritten(entries[1..], key);
      assert Holds(entries[1..], key) ==> Holds(entries, key) by {
        if Holds(entries[1..], key) {
          var i :| 0 <= i < |entries[1..]| && entries[1..][i].key == key;
          assert entries[i + 1].key == key;
        }
      }
      assert Holds(entries, key) ==> Holds(entries[1..], key) by {
        if Holds(entries, key) {
          var i :| 0 <= i < |entries| && entries[i].key == key;
          assert i != 0 && entries[1..][i - 1].key == key;
        }
      }
      r
  }

  /** As written, the second `from` for one key fails: once the first call
      has appended the entry, the lookup of the second raises. */
  lemma SecondFromRaisesAsWritten(entries: seq<Entry>, key: Key, m: EditorSupportManager)
    requires !Holds(entries, key)
    ensures FindInstanceAsWritten(entries, key) == ReturnsNull
    ensures FindInstanceAsWritten(entries + [Entry(key, m)], key) == RaisesTypeError
  {
    assert (entries + [Entry(key, m)])[|entries|].key == key;
  }

  class Registry {
    /** `self::$instances`, in insertion order. */
    var entries: seq<Entry>

    /** No two entries share a key, and every instance is bound to the key of
        its entry (so no instance appears under two keys). */
    ghost predicate Valid()
      reads this
    {
      && (forall i, j :: 0 <= i < j < |entries| ==> entries[i].key != entries[j].key)
      && (forall i :: 0 <= i < |entries| ==> entries[i].instance.key == entries[i].key)
    }

    constructor ()
      ensures Valid() && entries == []
    {
      entries := [];
    }

    /** `find_instance` as evidently intended: the first entry whose kind and
        value both equal the key's, or nothing. (The source returns the entry
        array although it declares `self|null`; see FindInstanceAsWritten.) */
    method Find(key: Key) returns (found: Option<Entry>)
      ensures found.None? <==> !Holds(entries, key)
      ensures found.Some? ==> exists i :: 0 <= i < |entries| && entries[i] == found.value
                                          && found.value.key == key
                                          && forall j :: 0 <= j < i ==> entries[j].key != key
    {
      var i := 0;
      while i < |entries|
        invariant 0 <= i <= |entries|
        invariant forall j :: 0 <= j < i ==> entries[j].key != key
      {
        if entries[i].key == key {
          return Some(entries[i]);
        }
        i := i + 1;
      }
      return None;
    }

    /** `from`: find-or-create. A registered key yields its instance and the
        registry is unchanged; otherwise a fresh, unconfigured instance is
        appended under the key. Either way exactly one entry holds the key. */
    method From(key: Key) returns (m: EditorSupportManager)
      requires Valid()
      modifies this
      ensures Valid()
      ensures m.key == key
      ensures exists i :: 0 <= i < |entries| && entries[i] == Entry(key, m)
      ensures forall i :: 0 <= i < |entries| && entries[i].key == key ==> entries[i].instance == m
      ensures old(Holds(entries, key)) ==> entries == old(entries)
      ensures !old(Holds(entries, key)) ==> entries == old(entries) + [Entry(key, m)]
      ensures !old(Holds(entries, key)) ==> fresh(m) && m.editor == Unset && m.supports == map[]
    {
      var found := Find(key);
      if found.None? {
        var instance := new EditorSupportManager(key);
        entries := entries + [Entry(key, instance)];
        found := Some(entries[|entries| - 1]);
      }
      m := found.value.instance;
    }

    /** `from_post_type`. */
    method FromPostType(postType: string) returns (m: EditorSupportManager)
      requires Valid()
      modifies this
      ensures Valid()
      ensures m.key == PostTypeKey(postType)
      ensures exists i :: 0 <= i < |entries| && entries[i] == Entry(PostTypeKey(postType), m)
      ensures old(Holds(entries, PostTypeKey(postType))) ==> entries == old(entries)
      ensures !old(Holds(entries, PostTypeKey(postType))) ==>
                entries == old(entries) + [Entry(PostTypeKey(postType), m)] && fresh(m)
                && m.editor == Unset && m.supports == map[]
    {
      m := From(PostTypeKey(postType));
    }

    /** `from_post_id`. */
    method FromPostId(postId: int) returns (m: EditorSupportManager)
      requires Valid()
      modifies this
      ensures Valid()
      ensures m.key == PostIdKey(postId)
      ensures exists i :: 0 <= i < |entries| && entries[i] == Entry(PostIdKey(postId), m)
      ensures old(Holds(entries, PostIdKey(postId))) ==> entries == old(entries)
      ensures !old(Holds(entries, PostIdKey(postId))) ==>
                entries == old(entries) + [Entry(PostIdKey(postId), m)] && fresh(m)
                && m.editor == Unset && m.supports == map[]
    {
      m := From(PostIdKey(postId));
    }

    /** `from_template`. */
    method FromTemplate(template: string) returns (m: EditorSupportManager)
      requires Valid()
      modifies this
      ensures Valid()
      ensures m.key == TemplateKey(template)
      ensures exists i :: 0 <= i < |entries| && entries[i] == Entry(TemplateKey(template), m)
      ensures old(Holds(entries, TemplateKey(template))) ==> entries == old(entries)
      ensures !old(Holds(entries, TemplateKey(template))) ==>
                entries == old(entries) + [Entry(TemplateKey(template), m)] && fresh(m)
                && m.editor == Unset && m.supports == map[]
    {
      m := From(TemplateKey(template));
    }

    /** The instances on which the rule sets depend. */
    ghost function Instances(): set<EditorSupportManager>
      reads this
    {
      set i | 0 <= i < |entries| :: entries[i].instance
    }

    /** The configured rule sets, in insertion order (the order in which the
        instances' hooks were registered). */
    function RuleSets(): (rs: seq<RuleSet>)
      reads this, Instances()
      ensures |rs| == |entries|
      ensures forall i :: 0 <= i < |entries| ==> rs[i] == entries[i].instance.Snapshot()
    {
      SnapshotAll(entries)
    }
  }

  function SnapshotAll(es: seq<Entry>): (rs: seq<RuleSet>)
    reads set i | 0 <= i < |es| :: es[i].instance
    ensures |rs| == |es|
    ensures forall i :: 0 <= i < |es| ==> rs[i] == es[i].instance.Snapshot()
  {
    if es == [] then []
    else
      assert forall i :: 0 <= i < |es[1..]| ==> es[1..][i] == es[i + 1];
      [es[0].instance.Snapshot()] + SnapshotAll(es[1..])
  }
}
