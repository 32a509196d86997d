/** The chained context of variables and its iterator (src/context.rs). */
module Context {
  import opened Wrappers

  type ContextMap = map<string, string>

  datatype Context = Context(own: ContextMap, parent: Option<Context>)
  {
    function With(own: ContextMap): Context {
      Context(own, Some(this))
    }

    function Get(name: string): Option<string> {
      if name in own then Some(own[name])
      else
        match parent
        case Some(p) => p.Get(name)
        case None => None
    }

    /** The value bound by the frame nearest to the root. */
    function Outermost(name: string): Option<string> {
      var outer := match parent
        case Some(p) => p.Outermost(name)
        case None => None;
      if outer.Some? then outer
      else if name in own then Some(own[name])
      else None
    }

    /** All values bound to the name, from the innermost frame to the root. */
    function Bindings(name: string): seq<string> {
      (if name in own then [own[name]] else []) + (if parent.Some? then parent.value.Bindings(name) else [])
    }

    /** The number of entries of all frames together. */
    function Size(): nat {
      |own| + if parent.Some? then parent.value.Size() else 0
    }
  }

  type Entry = (string, string)

  /** The entries of one frame in some order, each once. */
  ghost predicate Enumerates(entries: seq<Entry>, m: ContextMap) {
    && |entries| == |m|
    && (forall i :: 0 <= i < |entries| ==> entries[i].0 in m && m[entries[i].0] == entries[i].1)
    && (forall i, j :: 0 <= i < j < |entries| ==> entries[i].0 != entries[j].0)
  }

  /** So no entry is left out. */
  lemma {:induction false} EveryEntryMet(entries: seq<Entry>, m: ContextMap, k: string)
    requires Enumerates(entries, m) && k in m
    ensures (k, m[k]) in entries
    decreases |entries|
  {
    var last := entries[|entries| - 1];
    if last.0 != k {
      var rest := m - {last.0};
      assert m == rest[last.0 := last.1];
      EveryEntryMet(entries[..|entries| - 1], rest, k);
    }
  }

  /** The entries of a whole chain: each frame once, in some order, the innermost frame first. */
  ghost predicate EnumeratesChain(entries: seq<Entry>, ctx: Context) {
    && |ctx.own| <= |entries|
    && Enumerates(entries[..|ctx.own|], ctx.own)
    && match ctx.parent
       case None => |entries| == |ctx.own|
       case Some(p) => EnumeratesChain(entries[|ctx.own|..], p)
  }

  /** The entries of a hash map, in an order of the map's choosing. */
  method MapEntries(m: ContextMap) returns (entries: seq<Entry>)
    ensures Enumerates(entries, m)
  {
    entries := [];
    var rest := m.Keys;
    while rest != {}
      invariant rest <= m.Keys && |entries| + |rest| == |m|
      invariant forall i :: 0 <= i < |entries| ==>
                              entries[i].0 in m && m[entries[i].0] == entries[i].1 && entries[i].0 !in rest
      invariant forall i, j :: 0 <= i < j < |entries| ==> entries[i].0 != entries[j].0
      decreases |rest|
    {
      var k :| k in rest;
      entries := entries + [(k, m[k])];
      rest := rest - {k};
    }
  }

  /** The iterator over a chain. It runs over the entries of its own frame and then, once, sets
      up the iterator of the parent and hands on what that yields. */
  class ContextIterator {
    const ctx: Context
    var entries: seq<Entry>
    var nested: ContextIterator?
    var finished: bool
    ghost const own: seq<Entry>
    ghost var yielded: seq<Entry>
    ghost var repr: set<object>

    ghost predicate Valid()
      reads this, repr
      decreases ctx
    {
      && this in repr
      && Enumerates(own, ctx.own)
      && (nested == null ==> !finished && own == yielded + entries)
      && (nested != null ==>
            && entries == [] && finished
            && ctx.parent == Some(nested.ctx)
            && nested in repr && nested.repr <= repr && this !in nested.repr
            && nested.Valid()
            && yielded == own + nested.yielded)
    }

    constructor (ctx: Context)
      ensures Valid() && fresh(repr)
      ensures this.ctx == ctx && yielded == []
    {
      var order := MapEntries(ctx.own);
      this.ctx := ctx;
      own := order;
      entries := order;
      nested := null;
      finished := false;
      yielded := [];
      repr := {this};
    }

    /** The iterator never yields more than the chain holds. */
    lemma YieldsAtMostSize()
      requires Valid()
      ensures |yielded| <= ctx.Size()
      decreases ctx
    {
      if nested != null {
        nested.YieldsAtMostSize();
      }
    }

    /** The next entry; none exactly when the whole chain has been yielded, and then for good. */
    method Next() returns (item: Option<Entry>)
      requires Valid()
      modifies repr
      ensures Valid() && fresh(repr - old(repr))
      ensures yielded == old(yielded) + (if item.Some? then [item.value] else [])
      ensures item.None? <==> |old(yielded)| == ctx.Size()
      ensures |yielded| <= ctx.Size()
      ensures item.None? ==> EnumeratesChain(yielded, ctx)
      decreases ctx
    {
      if nested == null && entries != [] {
        item := Some(entries[0]);
        yielded := yielded + [entries[0]];
        entries := entries[1..];
        YieldsAtMostSize();
        return;
      }
      if nested != null {
        item := NextOfParent();
      } else if ctx.parent.None? {
        item := None;
        assert yielded == own;
        assert yielded[..|ctx.own|] == own;
      } else {
        assert yielded == own;
        finished := true;
        nested := new ContextIterator(ctx.parent.value);
        repr := repr + nested.repr;
        assert yielded == own + nested.yielded;
        item := NextOfParent();
      }
    }

    method NextOfParent() returns (item: Option<Entry>)
      requires Valid() && nested != null
      modifies repr
      ensures Valid() && fresh(repr - old(repr))
      ensures yielded == old(yielded) + (if item.Some? then [item.value] else [])
      ensures item.None? <==> |old(yielded)| == ctx.Size()
      ensures |yielded| <= ctx.Size()
      ensures item.None? ==> EnumeratesChain(yielded, ctx)
      decreases ctx, 0
    {
      item := nested.Next();
      repr := repr + nested.repr;
      yielded := own + nested.yielded;
      assert yielded[..|ctx.own|] == own && yielded[|ctx.own|..] == nested.yielded;
    }
  }

  /** Draining the iterator, as collecting it does, meets every frame's entries exactly once. */
  method Drain(ctx: Context) returns (entries: seq<Entry>)
    ensures EnumeratesChain(entries, ctx)
  {
    var it := new ContextIterator(ctx);
    entries := [];
    while true
      invariant it.Valid() && fresh(it.repr) && it.ctx == ctx
      invariant it.yielded == entries
      decreases ctx.Size() - |entries|
    {
      var item := it.Next();
      if item.None? {
        assert it.yielded == entries;
        return;
      }
      entries := entries + [item.value];
    }
  }

  function FirstValue(entries: seq<Entry>, name: string): Option<string> {
    if entries == [] then None
    else if entries[0].0 == name then Some(entries[0].1)
    else FirstValue(entries[1..], name)
  }

  /** Collecting pairs into a map: a later pair replaces an earlier one of the same name. */
  function Collect(entries: seq<Entry>): ContextMap {
    if entries == [] then map[]
    else
      var last := entries[|entries| - 1];
      Collect(entries[..|entries| - 1])[last.0 := last.1]
  }

  lemma {:induction false} FirstInAppend(a: seq<Entry>, b: seq<Entry>, name: string)
    ensures FirstValue(a + b, name) == if FirstValue(a, name).Some? then FirstValue(a, name) else FirstValue(b, name)
  {
    if a == [] {
      assert a + b == b;
    } else {
      assert (a + b)[1..] == a[1..] + b;
      FirstInAppend(a[1..], b, name);
    }
  }

  lemma {:induction false} FirstAt(entries: seq<Entry>, i: nat)
    requires i < |entries|
    requires forall j :: 0 <= j < i ==> entries[j].0 != entries[i].0
    ensures FirstValue(entries, entries[i].0) == Some(entries[i].1)
  {
    if i > 0 {
      FirstAt(entries[1..], i - 1);
    }
  }

  lemma {:induction false} FirstAbsent(entries: seq<Entry>, name: string)
    requires forall j :: 0 <= j < |entries| ==> entries[j].0 != name
    ensures FirstValue(entries, name) == None
  {
    if entries != [] {
      FirstAbsent(entries[1..], name);
    }
  }

  lemma FirstInFrame(entries: seq<Entry>, m: ContextMap, name: string)
    requires Enumerates(entries, m)
    ensures FirstValue(entries, name) == if name in m then Some(m[name]) else None
  {
    if name in m {
      EveryEntryMet(entries, m, name);
      var i :| 0 <= i < |entries| && entries[i] == (name, m[name]);
      FirstAt(entries, i);
    } else {
      FirstAbsent(entries, name);
    }
  }

  /** Looking a name up finds what iterating over the chain meets first; it finds nothing exactly
      when iterating never meets the name. */
  lemma {:induction false} GetIsFirst(ctx: Context, entries: seq<Entry>, name: string)
    requires EnumeratesChain(entries, ctx)
    ensures ctx.Get(name) == FirstValue(entries, name)
    decreases ctx
  {
    var n := |ctx.own|;
    assert entries == entries[..n] + entries[n..];
    FirstInAppend(entries[..n], entries[n..], name);
    FirstInFrame(entries[..n], ctx.own, name);
    if ctx.parent.Some? {
      GetIsFirst(ctx.parent.value, entries[n..], name);
    }
  }

  lemma {:induction false} CollectAppend(a: seq<Entry>, b: seq<Entry>)
    ensures Collect(a + b) == Collect(a) + Collect(b)
  {
    if b == [] {
      assert a + b == a;
    } else {
      assert (a + b)[..|a + b| - 1] == a + b[..|b| - 1];
      CollectAppend(a, b[..|b| - 1]);
    }
  }

  lemma {:induction false} CollectFrame(entries: seq<Entry>)
    requires forall i, j :: 0 <= i < j < |entries| ==> entries[i].0 != entries[j].0
    ensures forall i :: 0 <= i < |entries| ==>
                          entries[i].0 in Collect(entries) && Collect(entries)[entries[i].0] == entries[i].1
    ensures forall k :: k in Collect(entries) ==> exists i :: 0 <= i < |entries| && entries[i].0 == k
  {
    if entries != [] {
      CollectFrame(entries[..|entries| - 1]);
    }
  }

  /** Collecting the entries of one frame gives the frame back. */
  lemma CollectedFrame(entries: seq<Entry>, m: ContextMap)
    requires Enumerates(entries, m)
    ensures Collect(entries) == m
  {
    CollectFrame(entries);
    forall k | k in m
      ensures k in Collect(entries)
    {
      EveryEntryMet(entries, m, k);
    }
  }

  /** The map collected for the condition filters binds each name as the outermost frame does. */
  lemma {:induction false} CollectedIsOutermost(ctx: Context, entries: seq<Entry>, name: string)
    requires EnumeratesChain(entries, ctx)
    ensures Collected(entries, name) == ctx.Outermost(name)
    decreases ctx
  {
    var n := |ctx.own|;
    assert entries == entries[..n] + entries[n..];
    CollectAppend(entries[..n], entries[n..]);
    CollectedFrame(entries[..n], ctx.own);
    if ctx.parent.Some? {
      CollectedIsOutermost(ctx.parent.value, entries[n..], name);
    }
  }

  lemma {:induction false} BindingEnds(ctx: Context, name: string)
    ensures var values := ctx.Bindings(name);
            && ctx.Get(name) == (if values == [] then None else Some(values[0]))
            && ctx.Outermost(name) == (if values == [] then None else Some(values[|values| - 1]))
    decreases ctx
  {
    if ctx.parent.Some? {
      BindingEnds(ctx.parent.value, name);
    }
  }

  /** What a filter finds under a name. */
  function Collected(entries: seq<Entry>, name: string): Option<string> {
    if name in Collect(entries) then Some(Collect(entries)[name]) else None
  }

  /** A filter and a lookup agree on a name exactly if no frame binds it, or the innermost and the
      outermost frame that do bind it alike. */
  lemma FilterAgrees(ctx: Context, entries: seq<Entry>, name: string)
    requires EnumeratesChain(entries, ctx)
    ensures var values := ctx.Bindings(name);
            Collected(entries, name) == ctx.Get(name) <==> values == [] || values[0] == values[|values| - 1]
  {
    CollectedIsOutermost(ctx, entries, name);
    BindingEnds(ctx, name);
  }

  const LISTENER_NAME: string := "CTX_LISTENER_NAME"
  const REQUEST_PREFIX: string := "CTX_REQUEST_"
  const REQUEST_PATH: string := "CTX_REQUEST_PATH"

  const ROOT_SAMPLE: ContextMap := map[REQUEST_PATH := "root"]
  const REQUEST_SAMPLE: ContextMap :=
    map[LISTENER_NAME := "LISTENER-0.0.0.0:8080", "CTX_REQUEST_SOURCE_IP" := "127.0.0.1",
        "CTX_REQUEST_METHOD" := "GET", REQUEST_PATH := "health"]

  /** The names a request's own frame binds. */
  predicate IsRequestFrame(own: ContextMap) {
    && (forall name :: name in own ==> name == LISTENER_NAME || REQUEST_PREFIX <= name)
    && {LISTENER_NAME, "CTX_REQUEST_SOURCE_IP", "CTX_REQUEST_METHOD", REQUEST_PATH} <= own.Keys
  }

  /** Filters are evaluated on a request's frame over the root's. They differ from a lookup in exactly
      the names of the request's frame that the accepted environment binds to another value. */
  lemma FilterDiffers(root: ContextMap, own: ContextMap, entries: seq<Entry>, name: string)
    requires IsRequestFrame(own) && EnumeratesChain(entries, Context(root, None).With(own))
    ensures Collected(entries, name) != Context(root, None).With(own).Get(name) <==>
            && (name == LISTENER_NAME || REQUEST_PREFIX <= name)
            && name in own && name in root && root[name] != own[name]
  {
    var outer := Context(root, None);
    FilterAgrees(outer.With(own), entries, name);
    assert outer.Bindings(name) == if name in root then [root[name]] else [];
  }

  /** So it is with a request for `health` where the environment binds that name too. */
  lemma FilterSeesOuterValue(entries: seq<Entry>)
    requires EnumeratesChain(entries, Context(ROOT_SAMPLE, None).With(REQUEST_SAMPLE))
    ensures IsRequestFrame(REQUEST_SAMPLE)
    ensures Collected(entries, REQUEST_PATH) == Some("root")
    ensures Context(ROOT_SAMPLE, None).With(REQUEST_SAMPLE).Get(REQUEST_PATH) == Some("health")
  {
    var root := Context(ROOT_SAMPLE, None);
    CollectedIsOutermost(root.With(REQUEST_SAMPLE), entries, REQUEST_PATH);
    assert root.Outermost(REQUEST_PATH) == Some("root");
  }
}
