/** The scene hierarchy, as far as environment lookup needs it: objects
    are numbers, each with an optional parent, numbered so that a parent's
    number is below its children's (every finite forest can be numbered
    so). The objects carrying a given component form a set. */
module Hierarchy {
  import opened Common

  predicate Ordered(parent: map<nat, nat>)
  {
    forall c :: c in parent ==> parent[c] < c
  }

  /** `GetComponentInParent`: the object itself if it carries the
      component, else the nearest ancestor that does, else none. */
  function NearestWith(parent: map<nat, nat>, has: set<nat>, o: nat): (r: Option<nat>)
    requires Ordered(parent)
    ensures r.Some? ==> r.value in has && r.value <= o
    ensures o in has ==> r == Some(o)
    decreases o
  {
    if o in has then Some(o)
    else if o in parent then NearestWith(parent, has, parent[o])
    else None
  }

  /** The object and its ancestors, nearest first. */
  function Chain(parent: map<nat, nat>, o: nat): (c: seq<nat>)
    requires Ordered(parent)
    ensures |c| >= 1 && c[0] == o && c[|c| - 1] !in parent
    ensures forall i :: 0 <= i < |c| - 1 ==> c[i] in parent && c[i + 1] == parent[c[i]]
    decreases o
  {
    if o in parent then [o] + Chain(parent, parent[o]) else [o]
  }

  /** The lookup finds the first object on the chain that carries the
      component, and finds none exactly when no object on the chain
      carries it. */
  lemma {:induction false} NearestIsFirstOnChain(parent: map<nat, nat>, has: set<nat>, o: nat)
    requires Ordered(parent)
    ensures NearestWith(parent, has, o).None? <==> forall i :: 0 <= i < |Chain(parent, o)| ==> Chain(parent, o)[i] !in has
    ensures NearestWith(parent, has, o).Some? ==>
              exists k :: 0 <= k < |Chain(parent, o)| && Chain(parent, o)[k] == NearestWith(parent, has, o).value
                          && forall j :: 0 <= j < k ==> Chain(parent, o)[j] !in has
    decreases o
  {
    var c := Chain(parent, o);
    if o !in has && o in parent {
      var p := parent[o];
      NearestIsFirstOnChain(parent, has, p);
      var cp := Chain(parent, p);
      assert c == [o] + cp;
      assert forall i :: 0 < i < |c| ==> c[i] == cp[i - 1];
      if NearestWith(parent, has, p).Some? {
        var k :| 0 <= k < |cp| && cp[k] == NearestWith(parent, has, p).value
                 && forall j :: 0 <= j < k ==> cp[j] !in has;
        assert c[k + 1] == cp[k];
        assert forall j :: 0 <= j < k + 1 ==> c[j] !in has by {
          forall j | 0 <= j < k + 1 ensures c[j] !in has {
            if j > 0 { assert c[j] == cp[j - 1]; }
          }
        }
      } else {
        assert NearestWith(parent, has, p).None?;
        assert forall i :: 0 <= i < |Chain(parent, p)| ==> Chain(parent, p)[i] !in has;
        assert forall i :: 0 <= i < |c| ==> c[i] !in has by {
          forall i | 0 <= i < |c| ensures c[i] !in has {
            if i > 0 { assert c[i] == cp[i - 1]; assert cp[i - 1] !in has; }
          }
        }
      }
    } else if o in has {
      assert Chain(parent, o)[0] in has;
      assert c[0] in has;
      assert !(forall i :: 0 <= i < |c| ==> c[i] !in has);
      assert 0 <= 0 < |c| && c[0] == NearestWith(parent, has, o).value;
    } else {
      assert c == [o];
    }
  }

  /** The `while` loop that precedes the lookup: starting from the parent,
      it climbs until it reaches an object carrying the component or runs
      out of ancestors. Its result is the nearest strict ancestor carrying
      the component; the callers discard it. */
  method WalkUp(parent: map<nat, nat>, has: set<nat>, o: nat) returns (found: Option<nat>)
    requires Ordered(parent)
    ensures found == if o in parent then NearestWith(parent, has, parent[o]) else None
    ensures o !in has ==> found == NearestWith(parent, has, o)
  {
    found := if o in parent then Some(parent[o]) else None;
    while found.Some? && found.value !in has
      invariant (if found.Some? then NearestWith(parent, has, found.value) else None)
                == (if o in parent then NearestWith(parent, has, parent[o]) else None)
      decreases if found.Some? then found.value + 1 else 0
    {
      found := if found.value in parent then Some(parent[found.value]) else None;
    }
  }
}
