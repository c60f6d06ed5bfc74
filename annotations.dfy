/**
 * The "Run Query" annotations drawn next to every operation header of a
 * GraphQL view. The keys of the decorations are recorded in one list shared
 * by every view; a rebuild erases every recorded key from the view, then
 * adds one decoration per match of the host's search, numbered from 0.
 */
module Annotations {
  import opened Wrappers
  import opened Decimal
  import opened Syntax

  /** A region of the buffer, from offset `a` to offset `b`. */
  datatype Region = Region(a: nat, b: nat)

  /** What the "Run Query" link of an annotation carries. */
  datatype Payload = Payload(operationName: Option<string>, view: int)

  /** The regions a view draws under one key, with the annotation's link. */
  datatype Decoration = Decoration(regions: seq<Region>, payload: Payload)

  const AnnotationsKey := "graphql_runner_annotations"
  const KeyPrefix := AnnotationsKey + "_"

  /** `"%s_%s" % (ANNOTATIONS_KEY, index)` */
  function Key(index: nat): string {
    KeyPrefix + NatToString(index)
  }

  predicate IsAnnotationKey(k: string) {
    KeyPrefix <= k
  }

  lemma KeyIsAnnotationKey(index: nat)
    ensures IsAnnotationKey(Key(index))
  {
    assert Key(index)[..|KeyPrefix|] == KeyPrefix;
  }

  /** Different indices give different keys, so no annotation overwrites another. */
  lemma KeyInjective(i: nat, j: nat)
    requires Key(i) == Key(j)
    ensures i == j
  {
    assert Key(i)[|KeyPrefix|..] == NatToString(i);
    assert Key(j)[|KeyPrefix|..] == NatToString(j);
    NatToStringInjective(i, j);
  }

  /**
   * The link of the annotation for a captured name: the empty capture
   * becomes None, any other name is carried unchanged, with the source view.
   */
  function PayloadFor(name: string, viewId: int): (p: Payload)
    ensures p.operationName.None? <==> name == ""
    ensures p.operationName.Some? ==> p.operationName.value == name
    ensures p.view == viewId
  {
    Payload(if name == "" then None else Some(name), viewId)
  }

  /** The decoration for one match: exactly its region, and its link. */
  function Annotation(region: Region, name: string, viewId: int): Decoration {
    Decoration([region], PayloadFor(name, viewId))
  }

  function KeySet(keys: seq<string>): set<string> {
    set i | 0 <= i < |keys| :: keys[i]
  }

  /** The keys `Key(0)` .. `Key(n - 1)`. */
  function KeysBelow(n: nat): set<string> {
    set j | 0 <= j < n :: Key(j)
  }

  /** The keys appended by a build over `n` matches, in order. */
  function NewKeys(n: nat): seq<string> {
    seq(n, j requires 0 <= j => Key(j))
  }

  /** The decorations after every recorded key was erased. */
  function Erased(d: map<string, Decoration>, keys: seq<string>): map<string, Decoration> {
    d - KeySet(keys)
  }

  /** The decorations after the annotations of the first `n` matches were added. */
  function Added(d: map<string, Decoration>, regions: seq<Region>, names: seq<string>, viewId: int, n: nat): map<string, Decoration>
    requires |regions| == |names| && n <= |names|
  {
    if n == 0 then d
    else Added(d, regions, names, viewId, n - 1)[Key(n - 1) := Annotation(regions[n - 1], names[n - 1], viewId)]
  }

  /** A whole rebuild: erase the recorded keys, then add one annotation per match. */
  function Rebuilt(d: map<string, Decoration>, keys: seq<string>, regions: seq<Region>, names: seq<string>, viewId: int): map<string, Decoration>
    requires |regions| == |names|
  {
    Added(Erased(d, keys), regions, names, viewId, |names|)
  }

  /** The recorded keys account for every annotation key of the view. */
  predicate Tracked(d: map<string, Decoration>, keys: seq<string>) {
    && (forall k :: k in d && IsAnnotationKey(k) ==> k in KeySet(keys))
    && (forall i :: 0 <= i < |keys| ==> IsAnnotationKey(keys[i]))
  }

  /**
   * Adding the first `n` annotations puts annotation `j` under `Key(j)` and
   * leaves every other key as it was.
   */
  lemma {:induction false} AddedAt(d: map<string, Decoration>, regions: seq<Region>, names: seq<string>, viewId: int, n: nat)
    requires |regions| == |names| && n <= |names|
    ensures forall j :: 0 <= j < n ==>
      Key(j) in Added(d, regions, names, viewId, n) && Added(d, regions, names, viewId, n)[Key(j)] == Annotation(regions[j], names[j], viewId)
    ensures forall k :: k !in KeysBelow(n) ==>
      (k in Added(d, regions, names, viewId, n) <==> k in d)
      && (k in d ==> Added(d, regions, names, viewId, n)[k] == d[k])
  {
    if n > 0 {
      AddedAt(d, regions, names, viewId, n - 1);
      forall j | 0 <= j < n - 1
        ensures Key(j) != Key(n - 1)
      {
        if Key(j) == Key(n - 1) { KeyInjective(j, n - 1); }
      }
      assert KeysBelow(n) == KeysBelow(n - 1) + {Key(n - 1)};
    }
  }

  /** A build over `n` matches adds exactly `n` distinct keys. */
  lemma {:induction false} KeysBelowCount(n: nat)
    ensures |KeysBelow(n)| == n
  {
    if n > 0 {
      KeysBelowCount(n - 1);
      assert KeysBelow(n) == KeysBelow(n - 1) + {Key(n - 1)};
      if Key(n - 1) in KeysBelow(n - 1) {
        var j :| 0 <= j < n - 1 && Key(j) == Key(n - 1);
        KeyInjective(j, n - 1);
      }
    }
  }

  /**
   * After a rebuild over `n` matches the view carries, among annotation keys,
   * exactly `Key(0)` .. `Key(n - 1)`, each with the single region of its
   * match; every other decoration of the view is as it was.
   */
  lemma RebuildExact(d: map<string, Decoration>, keys: seq<string>, regions: seq<Region>, names: seq<string>, viewId: int)
    requires |regions| == |names| && Tracked(d, keys)
    ensures var r := Rebuilt(d, keys, regions, names, viewId);
      && (forall k :: IsAnnotationKey(k) ==> (k in r <==> k in KeysBelow(|names|)))
      && (forall j :: 0 <= j < |names| ==> Key(j) in r && r[Key(j)] == Annotation(regions[j], names[j], viewId))
      && (forall k :: !IsAnnotationKey(k) ==> (k in r <==> k in d) && (k in d ==> r[k] == d[k]))
  {
    var e := Erased(d, keys);
    AddedAt(e, regions, names, viewId, |names|);
    forall k | k in KeysBelow(|names|)
      ensures IsAnnotationKey(k)
    {
      var j :| 0 <= j < |names| && k == Key(j);
      KeyIsAnnotationKey(j);
    }
    assert forall k :: k in KeySet(keys) ==> IsAnnotationKey(k);
  }

  /** A rebuild over `n` matches leaves at most `n` annotations, however often it runs. */
  lemma RebuildBounded(d: map<string, Decoration>, keys: seq<string>, regions: seq<Region>, names: seq<string>, viewId: int)
    requires |regions| == |names| && Tracked(d, keys)
    ensures var r := Rebuilt(d, keys, regions, names, viewId);
      |set k | k in r && IsAnnotationKey(k)| == |names|
  {
    var r := Rebuilt(d, keys, regions, names, viewId);
    RebuildExact(d, keys, regions, names, viewId);
    forall k | k in KeysBelow(|names|)
      ensures IsAnnotationKey(k)
    {
      var j :| 0 <= j < |names| && k == Key(j);
      KeyIsAnnotationKey(j);
    }
    assert (set k | k in r && IsAnnotationKey(k)) == KeysBelow(|names|);
    KeysBelowCount(|names|);
  }

  /** The keys recorded by a build keep the view tracked. */
  lemma RebuildTracked(d: map<string, Decoration>, keys: seq<string>, regions: seq<Region>, names: seq<string>, viewId: int)
    requires |regions| == |names| && Tracked(d, keys)
    ensures Tracked(Rebuilt(d, keys, regions, names, viewId), keys + NewKeys(|names|))
  {
    var r := Rebuilt(d, keys, regions, names, viewId);
    var keys' := keys + NewKeys(|names|);
    RebuildExact(d, keys, regions, names, viewId);
    forall k | k in r && IsAnnotationKey(k)
      ensures k in KeySet(keys')
    {
      var j :| 0 <= j < |names| && k == Key(j);
      assert keys'[|keys| + j] == k;
    }
    forall i | 0 <= i < |keys'|
      ensures IsAnnotationKey(keys'[i])
    {
      if i >= |keys| { KeyIsAnnotationKey(i - |keys|); }
    }
  }

  /**
   * Rebuilding again on unchanged text, with the keys the first rebuild
   * recorded, gives the same decorations.
   */
  lemma RebuildIdempotent(d: map<string, Decoration>, keys: seq<string>, regions: seq<Region>, names: seq<string>, viewId: int)
    requires |regions| == |names| && Tracked(d, keys)
    ensures var r := Rebuilt(d, keys, regions, names, viewId);
      Rebuilt(r, keys + NewKeys(|names|), regions, names, viewId) == r
  {
    var r := Rebuilt(d, keys, regions, names, viewId);
    var keys' := keys + NewKeys(|names|);
    RebuildExact(d, keys, regions, names, viewId);
    RebuildTracked(d, keys, regions, names, viewId);
    RebuildExact(r, keys', regions, names, viewId);
    var r2 := Rebuilt(r, keys', regions, names, viewId);
    forall k | k in r2 || k in r
      ensures k in r2 && k in r && r2[k] == r[k]
    {
      if IsAnnotationKey(k) {
        assert k in KeysBelow(|names|);
        var j :| 0 <= j < |names| && k == Key(j);
      }
    }
    assert r2 == r;
  }

  /** An editor view: its identity and the decorations drawn on it, by key. */
  class View {
    const id: int
    var decorations: map<string, Decoration>

    constructor (id: int)
      ensures this.id == id && decorations == map[]
    {
      this.id := id;
      decorations := map[];
    }
  }

  /**
   * `GraphqlBuildAnnotationsCommand`. Its key list is class-level in the
   * plugin: one object of this class stands for it, shared by every view.
   */
  class BuildAnnotationsCommand {
    var keys: seq<string>

    constructor ()
      ensures keys == []
    {
      keys := [];
    }

    /** Every annotation key on `view` is recorded, and only annotation keys are recorded. */
    ghost predicate Tracks(view: View)
      reads this, view
    {
      Tracked(view.decorations, keys)
    }

    /**
     * `run`: for a view that passes the syntax gate, erase every recorded
     * key; the build is then scheduled (see `BuildAnnotations`).
     */
    method Run(view: View, syntax: Option<string>) returns (scheduled: bool)
      modifies view
      ensures scheduled <==> GraphqlOrUnknown(syntax)
      ensures view.decorations == if scheduled then Erased(old(view.decorations), keys) else old(view.decorations)
    {
      scheduled := GraphqlOrUnknown(syntax);
      if !scheduled {
        return;
      }
      var i := 0;
      while i < |keys|
        invariant 0 <= i <= |keys|
        invariant view.decorations == old(view.decorations) - KeySet(keys[..i])
      {
        assert KeySet(keys[..i + 1]) == KeySet(keys[..i]) + {keys[i]} by {
          assert keys[..i + 1] == keys[..i] + [keys[i]];
        }
        view.decorations := view.decorations - {keys[i]};
        i := i + 1;
      }
      assert keys[..i] == keys;
    }

    /**
     * `_build_annotations`: for every match of the host's search (its
     * regions and captured names, in order), record the key `Key(index)`
     * and draw the match's region under it with the match's link.
     */
    method BuildAnnotations(view: View, regions: seq<Region>, names: seq<string>)
      requires |regions| == |names|
      modifies this, view
      ensures keys == old(keys) + NewKeys(|names|)
      ensures view.decorations == Added(old(view.decorations), regions, names, view.id, |names|)
    {
      var index := 0;
      while index < |names|
        invariant 0 <= index <= |names|
        invariant keys == old(keys) + NewKeys(index)
        invariant view.decorations == Added(old(view.decorations), regions, names, view.id, index)
      {
        var key := KeyPrefix + NatToString(index);
        keys := keys + [key];
        var payload := PayloadFor(names[index], view.id);
        view.decorations := view.decorations[key := Decoration([regions[index]], payload)];
        assert NewKeys(index + 1) == NewKeys(index) + [Key(index)];
        index := index + 1;
      }
    }

    /**
     * A rebuild as the two steps the timer separates: erase, then build. The
     * recorded keys only grow, and the view ends with exactly one annotation
     * per match and its other decorations untouched.
     */
    method Rebuild(view: View, syntax: Option<string>, regions: seq<Region>, names: seq<string>) returns (scheduled: bool)
      requires |regions| == |names| && Tracks(view)
      modifies this, view
      ensures scheduled <==> GraphqlOrUnknown(syntax)
      ensures Tracks(view)
      ensures old(keys) <= keys
      ensures keys == if scheduled then old(keys) + NewKeys(|names|) else old(keys)
      ensures !scheduled ==> view.decorations == old(view.decorations)
      ensures scheduled ==> view.decorations == Rebuilt(old(view.decorations), old(keys), regions, names, view.id)
      ensures scheduled ==> forall j :: 0 <= j < |names| ==>
        Key(j) in view.decorations && view.decorations[Key(j)] == Annotation(regions[j], names[j], view.id)
      ensures scheduled ==> forall k :: k in view.decorations && IsAnnotationKey(k) ==> k in KeysBelow(|names|)
      ensures forall k :: !IsAnnotationKey(k) ==>
        (k in view.decorations <==> k in old(view.decorations))
        && (k in view.decorations ==> view.decorations[k] == old(view.decorations)[k])
    {
      ghost var d := view.decorations;
      scheduled := Run(view, syntax);
      if scheduled {
        BuildAnnotations(view, regions, names);
        RebuildExact(d, old(keys), regions, names, view.id);
        RebuildTracked(d, old(keys), regions, names, view.id);
      }
    }
  }
}
