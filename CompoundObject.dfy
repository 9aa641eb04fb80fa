/** PhysicsObject (the lifecycle contract every simulated thing honours) and CompoundObject (an
    ordered composite that forwards every lifecycle call to its children).

    A physics object is either a shape object, which owns at most one body, or a compound. A
    compound's children are fixed at construction and own disjoint sets of shape objects, so the
    whole object is a tree whose shape objects, read left to right, are `LeafSeq()`. Forwarding a
    call through the tree visits exactly those shape objects in that order, which is how every
    contract below is stated. */
module Objects {
  import opened JavaLang
  import opened Backend
  import opened ShapeObjects

  // ---------------------------------------------------------------------------------------------
  // Specification functions over the states of the shape objects, in forwarding order.

  /** Index of the first shape object at or after i that already has a body, or the length if
      there is none. */
  function FirstBodiedFrom(ss: seq<ShapeState>, i: nat): (k: nat)
    requires i <= |ss|
    ensures i <= k <= |ss|
    ensures forall j :: i <= j < k ==> ss[j].body.None?
    ensures k < |ss| ==> ss[k].body.Some?
    decreases |ss| - i
  {
    if i == |ss| || ss[i].body.Some? then i else FirstBodiedFrom(ss, i + 1)
  }

  /** Index of the first shape object that already has a body, or the length if none has. */
  function FirstBodied(ss: seq<ShapeState>): (k: nat)
    ensures k <= |ss|
    ensures forall j :: 0 <= j < k ==> ss[j].body.None?
    ensures k < |ss| ==> ss[k].body.Some?
  {
    FirstBodiedFrom(ss, 0)
  }

  /** The states with the first n resolved against a world of size w by h. */
  function ResolvedUpTo(ss: seq<ShapeState>, n: nat, w: int32, h: int32): (r: seq<ShapeState>)
    ensures |r| == |ss|
  {
    seq(|ss|, j requires 0 <= j < |ss| => if j < n then ss[j].Resolved(w, h) else ss[j])
  }

  /** The states after forwarding setupRelative in order: every shape object before the first one
      that has a body resolves its relative data; that one throws, so it and all later ones are
      left as they were. */
  function SetupAll(ss: seq<ShapeState>, w: int32, h: int32): (r: seq<ShapeState>)
    ensures |r| == |ss|
  {
    ResolvedUpTo(ss, FirstBodied(ss), w, h)
  }

  /** Whether forwarding setupRelative returns normally: it throws IllegalStateException exactly
      when some shape object already has a body. */
  function SetupOutcome(ss: seq<ShapeState>): (r: Outcome)
    ensures r.Pass? <==> forall j :: 0 <= j < |ss| ==> ss[j].body.None?
    ensures r.Fail? ==> r.error == IllegalState
  {
    if FirstBodied(ss) < |ss| then Fail(IllegalState) else Pass
  }

  /** The bodies forwarding onCreate adds to the world, in creation order. */
  function CreationRecords(ss: seq<ShapeState>): (r: seq<BodyRecord>)
    ensures |r| == |ss|
  {
    seq(|ss|, j requires 0 <= j < |ss| => ss[j].CreationRecord())
  }

  /** The states with the first n given bodies numbered from `next`. */
  function CreatedUpTo(ss: seq<ShapeState>, n: nat, next: nat): (r: seq<ShapeState>)
    ensures |r| == |ss|
  {
    seq(|ss|, j requires 0 <= j < |ss| => if j < n then ss[j].(body := Some(next + j)) else ss[j])
  }

  /** The states after forwarding onCreate when the world's next handle is `next`: each shape
      object gets the next handle in turn. */
  function WithBodies(ss: seq<ShapeState>, next: nat): (r: seq<ShapeState>)
    ensures |r| == |ss|
  {
    CreatedUpTo(ss, |ss|, next)
  }

  /** The handles forwarding onDestroy passes to destroyBody: those of the shape objects that have
      a body, in order. */
  function Handles(ss: seq<ShapeState>): (r: seq<Handle>)
    ensures |r| <= |ss|
  {
    if ss == [] then [] else BodyHandle(ss[0]) + Handles(ss[1..])
  }

  /** The handle one shape object passes to destroyBody, if it has a body. */
  function BodyHandle(s: ShapeState): seq<Handle>
  {
    if s.body.Some? then [s.body.value] else []
  }

  /** The handles of the bodies present, as a set. */
  ghost function HandleSet(ss: seq<ShapeState>): set<Handle>
  {
    set x | x in Handles(ss)
  }

  /** The handles a run of `count` creations starting at handle `next` returns. */
  function HandleRange(next: nat, count: nat): (r: set<Handle>)
    ensures forall x :: x in r <==> next <= x < next + count
  {
    if count == 0 then {} else HandleRange(next, count - 1) + {next + count - 1}
  }

  /** No element occurs twice. */
  ghost predicate Distinct<T>(s: seq<T>)
  {
    forall i, j :: 0 <= i < j < |s| ==> s[i] != s[j]
  }

  // ---------------------------------------------------------------------------------------------
  // The object tree.

  /** The PhysicsObject interface, as its two implementations. */
  datatype PhysicsObject = Shape(shape: ShapeObject) | Compound(compound: CompoundObject)
  {
    /** Height of the tree (ghost, for termination). */
    ghost function Rank(): nat
    {
      match this
      case Shape(_) => 0
      case Compound(c) => c.rank
    }

    /** The shape objects of the tree in forwarding order. */
    ghost function LeafSeq(): seq<ShapeObject>
    {
      match this
      case Shape(s) => [s]
      case Compound(c) => c.leaves
    }

    ghost function LeafSet(): set<ShapeObject>
    {
      set l | l in LeafSeq()
    }

    /** A well-formed tree: every compound is taller than its children, its recorded leaves are
        its children's leaves in order (child i's at `offsets[i]..offsets[i + 1]`), and no shape
        object occurs twice. */
    ghost predicate Valid()
      decreases Rank()
    {
      match this
      case Shape(_) => true
      case Compound(c) =>
        && |c.offsets| == |c.children| + 1
        && c.offsets[0] == 0
        && c.offsets[|c.children|] == |c.leaves|
        && (forall i :: 0 <= i < |c.children| ==> c.children[i].Rank() < c.rank && c.children[i].Valid())
        && (forall i :: 0 <= i < |c.children| ==> Segment(c.leaves, c.offsets, c.children, i))
        && Distinct(c.leaves)
    }

    /** The specification of requiresRelative: some shape object of the tree requires it. */
    ghost predicate NeedsRelative()
      reads LeafSet()
    {
      exists l :: l in LeafSet() && l.State().RequiresRelative()
    }

    /** `requiresRelative()`. */
    method RequiresRelative() returns (r: bool)
      requires Valid()
      ensures r == NeedsRelative()
      decreases Rank(), 2
    {
      match this
      case Shape(s) =>
        r := s.RequiresRelative();
        assert s in LeafSet();
      case Compound(c) =>
        r := c.RequiresRelative();
    }

    /** `setupRelative(width, height)`. */
    method SetupRelative(w: int32, h: int32) returns (outcome: Outcome)
      requires Valid()
      modifies LeafSet()
      ensures States(LeafSeq()) == SetupAll(old(States(LeafSeq())), w, h)
      ensures outcome == SetupOutcome(old(States(LeafSeq())))
      ensures outcome.Pass? ==> !NeedsRelative()
      decreases Rank(), 2
    {
      ghost var S0 := States(LeafSeq());
      match this
      case Shape(s) =>
        outcome := s.SetupRelative(w, h);
        assert States([s]) == [s.State()];
      case Compound(c) =>
        outcome := c.SetupRelative(w, h);
      if outcome.Pass? {
        SetupPassClears(this, S0, w, h);
      }
    }

    /** `onAttach(engine)`: a no-op for shape objects, forwarded by compounds; `notified` lists
        the shape objects reached, in order. */
    method OnAttach() returns (ghost notified: seq<ShapeObject>)
      requires Valid()
      ensures notified == LeafSeq()
      decreases Rank(), 2
    {
      match this
      case Shape(s) =>
        notified := [s];
      case Compound(c) =>
        notified := c.OnAttach();
    }

    /** `onCreate(world)`. */
    method OnCreate(world: World)
      requires Valid() && world.Valid()
      modifies LeafSet(), world
      ensures world.Valid()
      ensures States(LeafSeq()) == WithBodies(old(States(LeafSeq())), |old(world.bodies)|)
      ensures world.bodies == old(world.bodies) + CreationRecords(old(States(LeafSeq())))
      ensures world.live == old(world.live) + HandleRange(|old(world.bodies)|, |LeafSeq()|)
      ensures world.destroyed == old(world.destroyed) && world.steps == old(world.steps)
      decreases Rank(), 3
    {
      match this
      case Shape(s) =>
        s.OnCreate(world);
        assert States([s]) == [s.State()];
      case Compound(c) =>
        c.OnCreate(world);
    }

    /** `onDestroy(world)`. */
    method OnDestroy(world: World)
      requires Valid() && world.Valid()
      modifies world
      ensures world.Valid()
      ensures world.destroyed == old(world.destroyed) + Handles(States(LeafSeq()))
      ensures world.live == old(world.live) - HandleSet(States(LeafSeq()))
      ensures forall l :: l in LeafSet() && l.body.Some? ==> l.body.value !in world.live
      ensures world.bodies == old(world.bodies) && world.steps == old(world.steps)
      decreases Rank(), 2
    {
      match this
      case Shape(s) =>
        s.OnDestroy(world);
        assert States([s]) == [s.State()];
      case Compound(c) =>
        c.OnDestroy(world);
      HeldHandlesDestroyed(this);
    }
  }

  /** Child i's shape objects are `leaves[offsets[i]..offsets[i + 1]]`. */
  ghost predicate Segment(leaves: seq<ShapeObject>, offsets: seq<nat>, cs: seq<PhysicsObject>, i: nat)
    requires i < |cs| && |offsets| == |cs| + 1
  {
    offsets[i] <= offsets[i + 1] <= |leaves| && leaves[offsets[i]..offsets[i + 1]] == cs[i].LeafSeq()
  }

  /** The shape objects of a list of children, in order. */
  ghost function Flatten(cs: seq<PhysicsObject>): seq<ShapeObject>
  {
    if cs == [] then [] else Flatten(cs[..|cs| - 1]) + cs[|cs| - 1].LeafSeq()
  }

  /** Every shape object of a list of objects. */
  ghost function Footprint(os: seq<PhysicsObject>): set<ShapeObject>
  {
    set l | l in Flatten(os)
  }

  /** Upper bound of the children's ranks. */
  ghost function MaxRank(children: seq<PhysicsObject>): (r: nat)
    ensures forall i :: 0 <= i < |children| ==> children[i].Rank() <= r
  {
    if children == [] then 0
    else
      var rest := MaxRank(children[1..]);
      assert forall i :: 1 <= i < |children| ==> children[i] == children[1..][i - 1];
      if children[0].Rank() <= rest then rest else children[0].Rank()
  }

  class CompoundObject {
    /** The children, fixed when the object is constructed (`createChildren()`). */
    const children: seq<PhysicsObject>
    /** The shape objects of the children, in forwarding order. */
    ghost const leaves: seq<ShapeObject>
    /** Where each child's shape objects start in `leaves`. */
    ghost const offsets: seq<nat>
    ghost const rank: nat

    /** A compound over children that share no shape object. */
    constructor (children: seq<PhysicsObject>)
      requires forall i :: 0 <= i < |children| ==> children[i].Valid()
      requires forall i, j :: 0 <= i < j < |children| ==> children[i].LeafSet() !! children[j].LeafSet()
      ensures this.children == children && leaves == Flatten(children)
      ensures Compound(this).Valid()
    {
      forall i | 0 <= i < |children|
        ensures Distinct(children[i].LeafSeq())
      {
        LeafSeqDistinct(children[i]);
      }
      FlattenDistinct(children);
      FlattenSegments(children);
      this.children := children;
      this.leaves := Flatten(children);
      this.offsets := Offsets(children);
      this.rank := MaxRank(children) + 1;
    }

    /** `requiresRelative()`: asks the children in order and stops at the first that says yes. */
    method RequiresRelative() returns (r: bool)
      requires Compound(this).Valid()
      ensures r == Compound(this).NeedsRelative()
      decreases rank, 1
    {
      r := false;
      var i := 0;
      while i < |children|
        invariant 0 <= i <= |children|
        invariant !r
        invariant offsets[i] <= |leaves|
        invariant forall j :: 0 <= j < offsets[i] ==> !leaves[j].State().RequiresRelative()
      {
        ChildLeaves(this, i);
        var childRequires := children[i].RequiresRelative();
        if childRequires {
          r := true;
          break;
        }
        NoLeafNeedsRelative(children[i]);
        assert forall m :: 0 <= m < offsets[i + 1] - offsets[i] ==>
          leaves[offsets[i] + m] == children[i].LeafSeq()[m];
        i := i + 1;
      }
    }

    /** `setupRelative(width, height)`: forwarded to the children in order; an exception thrown
        by a child ends the loop and propagates. */
    method SetupRelative(w: int32, h: int32) returns (outcome: Outcome)
      requires Compound(this).Valid()
      modifies Compound(this).LeafSet()
      ensures States(leaves) == SetupAll(old(States(leaves)), w, h)
      ensures outcome == SetupOutcome(old(States(leaves)))
      decreases rank, 1
    {
      ghost var S0 := States(leaves);
      var i := 0;
      while i < |children|
        invariant 0 <= i <= |children|
        invariant offsets[i] <= FirstBodied(S0)
        invariant States(leaves) == ResolvedUpTo(S0, offsets[i], w, h)
      {
        var childOutcome := ForwardSetup(i, w, h, S0);
        if childOutcome.Fail? {
          outcome := childOutcome;
          return;
        }
        i := i + 1;
      }
      SetupAllFinished(S0, w, h);
      outcome := Pass;
    }

    /** One turn of the setupRelative loop: child i resolves its shape objects, or throws at the
        first one that has a body. */
    method ForwardSetup(i: nat, w: int32, h: int32, ghost S0: seq<ShapeState>) returns (childOutcome: Outcome)
      requires Compound(this).Valid() && i < |children|
      requires |S0| == |leaves| && offsets[i] <= FirstBodied(S0)
      requires States(leaves) == ResolvedUpTo(S0, offsets[i], w, h)
      modifies Compound(this).LeafSet()
      ensures FirstBodied(S0) < offsets[i + 1] ==>
        childOutcome == Fail(IllegalState) && States(leaves) == SetupAll(S0, w, h) && SetupOutcome(S0) == Fail(IllegalState)
      ensures offsets[i + 1] <= FirstBodied(S0) ==>
        childOutcome == Pass && States(leaves) == ResolvedUpTo(S0, offsets[i + 1], w, h)
      decreases rank, 0
    {
      ghost var p, q := offsets[i], offsets[i + 1];
      ChildLeaves(this, i);
      LeavesOutside(leaves, p, q);
      ghost var before := States(leaves);
      StatesSlice(leaves, p, q);
      childOutcome := children[i].SetupRelative(w, h);
      forall j | 0 <= j < |leaves| && !(p <= j < q)
        ensures leaves[j].State() == before[j]
      {
        assert leaves[j] !in leaves[p..q];
      }
      StatesSlice(leaves, p, q);
      SetupStep(S0, before, States(leaves), p, q, w, h);
    }

    /** `onAttach(engine)`: forwarded to the children in order. */
    method OnAttach() returns (ghost notified: seq<ShapeObject>)
      requires Compound(this).Valid()
      ensures notified == leaves
      decreases rank, 1
    {
      notified := [];
      for i := 0 to |children|
        invariant offsets[i] <= |leaves|
        invariant notified == leaves[..offsets[i]]
      {
        ghost var reached := children[i].OnAttach();
        ChildLeaves(this, i);
        notified := notified + reached;
      }
    }

    /** `onCreate(world)`: forwarded to the children in order, so bodies are created one per
        shape object in forwarding order. */
    method OnCreate(world: World)
      requires Compound(this).Valid() && world.Valid()
      modifies Compound(this).LeafSet(), world
      ensures world.Valid()
      ensures States(leaves) == WithBodies(old(States(leaves)), |old(world.bodies)|)
      ensures world.bodies == old(world.bodies) + CreationRecords(old(States(leaves)))
      ensures world.live == old(world.live) + HandleRange(|old(world.bodies)|, |leaves|)
      ensures world.destroyed == old(world.destroyed) && world.steps == old(world.steps)
      decreases rank, 2
    {
      ghost var S0 := States(leaves);
      ghost var B0, L0 := world.bodies, world.live;
      var i := 0;
      while i < |children|
        invariant 0 <= i <= |children|
        invariant world.Valid()
        invariant offsets[i] <= |leaves|
        invariant States(leaves) == CreatedUpTo(S0, offsets[i], |B0|)
        invariant world.bodies == B0 + CreationRecords(S0[..offsets[i]])
        invariant world.live == L0 + HandleRange(|B0|, offsets[i])
        invariant world.destroyed == old(world.destroyed) && world.steps == old(world.steps)
      {
        CreateChild(i, world, S0, B0, L0);
        i := i + 1;
      }
      TakeAll(S0);
    }

    /** The i-th turn of the onCreate loop, with its bookkeeping: S0 is the states of the shape
        objects before the loop, B0 and L0 the world's bodies and live handles then. */
    method CreateChild(i: nat, world: World, ghost S0: seq<ShapeState>, ghost B0: seq<BodyRecord>, ghost L0: set<Handle>)
      requires Compound(this).Valid() && world.Valid() && i < |children|
      requires offsets[i] <= |leaves| && |S0| == |leaves|
      requires States(leaves) == CreatedUpTo(S0, offsets[i], |B0|)
      requires world.bodies == B0 + CreationRecords(S0[..offsets[i]])
      requires world.live == L0 + HandleRange(|B0|, offsets[i])
      modifies Compound(this).LeafSet(), world
      ensures world.Valid() && offsets[i + 1] <= |leaves|
      ensures States(leaves) == CreatedUpTo(S0, offsets[i + 1], |B0|)
      ensures world.bodies == B0 + CreationRecords(S0[..offsets[i + 1]])
      ensures world.live == L0 + HandleRange(|B0|, offsets[i + 1])
      ensures world.destroyed == old(world.destroyed) && world.steps == old(world.steps)
      decreases rank, 1
    {
      ghost var before, bodies, live := States(leaves), world.bodies, world.live;
      assert |bodies| == |B0| + offsets[i];
      ForwardCreate(i, world);
      CreateStep(S0, before, States(leaves), offsets[i], offsets[i + 1], |B0|);
      CreateWorldStep(S0, offsets[i], offsets[i + 1], B0, bodies, world.bodies, L0, live, world.live);
    }

    /** One turn of the onCreate loop: child i's shape objects get the next bodies, and no other
        shape object of this compound changes. */
    method ForwardCreate(i: nat, world: World)
      requires Compound(this).Valid() && world.Valid() && i < |children|
      modifies Compound(this).LeafSet(), world
      ensures offsets[i] <= offsets[i + 1] <= |leaves|
      ensures world.Valid()
      ensures States(leaves)[offsets[i]..offsets[i + 1]]
        == WithBodies(old(States(leaves))[offsets[i]..offsets[i + 1]], |old(world.bodies)|)
      ensures forall j :: 0 <= j < |leaves| && !(offsets[i] <= j < offsets[i + 1]) ==>
        States(leaves)[j] == old(States(leaves))[j]
      ensures world.bodies == old(world.bodies) + CreationRecords(old(States(leaves))[offsets[i]..offsets[i + 1]])
      ensures world.live == old(world.live) + HandleRange(|old(world.bodies)|, offsets[i + 1] - offsets[i])
      ensures world.destroyed == old(world.destroyed) && world.steps == old(world.steps)
      decreases rank, 0
    {
      ghost var p, q := offsets[i], offsets[i + 1];
      ChildLeaves(this, i);
      LeavesOutside(leaves, p, q);
      StatesSlice(leaves, p, q);
      children[i].OnCreate(world);
      forall j | 0 <= j < |leaves| && !(p <= j < q)
        ensures leaves[j].State() == old(leaves[j].State())
      {
        assert leaves[j] !in leaves[p..q];
      }
      StatesSlice(leaves, p, q);
    }

    /** `onDestroy(world)`: forwarded to the children in order. */
    method OnDestroy(world: World)
      requires Compound(this).Valid() && world.Valid()
      modifies world
      ensures world.Valid()
      ensures world.destroyed == old(world.destroyed) + Handles(States(leaves))
      ensures world.live == old(world.live) - HandleSet(States(leaves))
      ensures world.bodies == old(world.bodies) && world.steps == old(world.steps)
      decreases rank, 1
    {
      ghost var S := States(leaves);
      ghost var D0, L0 := world.destroyed, world.live;
      var i := 0;
      while i < |children|
        invariant 0 <= i <= |children|
        invariant world.Valid()
        invariant offsets[i] <= |leaves|
        invariant States(leaves) == S
        invariant world.destroyed == D0 + Handles(S[..offsets[i]])
        invariant world.live == L0 - HandleSet(S[..offsets[i]])
        invariant world.bodies == old(world.bodies) && world.steps == old(world.steps)
      {
        ForwardDestroy(i, world, S, D0, L0);
        i := i + 1;
      }
      TakeAll(S);
    }

    /** One turn of the onDestroy loop: child i destroys the bodies of its shape objects. */
    method ForwardDestroy(i: nat, world: World, ghost S: seq<ShapeState>, ghost D0: seq<Handle>, ghost L0: set<Handle>)
      requires Compound(this).Valid() && world.Valid() && i < |children|
      requires S == States(leaves) && offsets[i] <= |leaves|
      requires world.destroyed == D0 + Handles(S[..offsets[i]])
      requires world.live == L0 - HandleSet(S[..offsets[i]])
      modifies world
      ensures offsets[i + 1] <= |leaves|
      ensures world.Valid()
      ensures world.destroyed == D0 + Handles(S[..offsets[i + 1]])
      ensures world.live == L0 - HandleSet(S[..offsets[i + 1]])
      ensures world.bodies == old(world.bodies) && world.steps == old(world.steps)
      decreases rank, 0
    {
      ghost var p, q := offsets[i], offsets[i + 1];
      ChildLeaves(this, i);
      StatesSlice(leaves, p, q);
      ghost var destroyed, live := world.destroyed, world.live;
      children[i].OnDestroy(world);
      assert States(children[i].LeafSeq()) == S[p..q];
      DestroyStep(S, p, q, D0, destroyed, world.destroyed, L0, live, world.live);
    }
  }

  /** Where each child's leaves start in the flattened sequence, with the total length last. */
  ghost function Offsets(cs: seq<PhysicsObject>): (r: seq<nat>)
    ensures |r| == |cs| + 1
  {
    seq(|cs| + 1, i requires 0 <= i <= |cs| => |Flatten(cs[..i])|)
  }

  // ---------------------------------------------------------------------------------------------
  // Lemmas about the tree.

  lemma FlattenStep(cs: seq<PhysicsObject>, i: nat)
    requires i < |cs|
    ensures Flatten(cs[..i + 1]) == Flatten(cs[..i]) + cs[i].LeafSeq()
  {
    assert cs[..i + 1][..i] == cs[..i];
  }

  /** The leaves of the first n children are a prefix of the leaves of all of them. */
  lemma {:induction false} FlattenPrefix(cs: seq<PhysicsObject>, n: nat)
    requires n <= |cs|
    ensures Flatten(cs[..n]) <= Flatten(cs)
    decreases |cs| - n
  {
    if n < |cs| {
      FlattenStep(cs, n);
      FlattenPrefix(cs, n + 1);
    } else {
      assert cs[..n] == cs;
    }
  }

  /** A shape object is among the leaves of a list of children exactly when one of them owns it. */
  lemma {:induction false} FlattenMembers(cs: seq<PhysicsObject>)
    ensures forall l :: l in Flatten(cs) <==> exists k :: 0 <= k < |cs| && l in cs[k].LeafSet()
  {
    if cs != [] {
      var front := cs[..|cs| - 1];
      FlattenMembers(front);
      assert forall k :: 0 <= k < |front| ==> front[k] == cs[k];
    }
  }

  /** The child that owns a given leaf. */
  lemma FlattenOwner(cs: seq<PhysicsObject>, l: ShapeObject) returns (k: nat)
    requires l in Flatten(cs)
    ensures k < |cs| && l in cs[k].LeafSet()
  {
    FlattenMembers(cs);
    k :| 0 <= k < |cs| && l in cs[k].LeafSet();
  }

  /** Children whose leaf sequences have no repetitions and are pairwise disjoint flatten to a
      sequence without repetitions. */
  lemma {:induction false} FlattenDistinct(cs: seq<PhysicsObject>)
    requires forall k :: 0 <= k < |cs| ==> Distinct(cs[k].LeafSeq())
    requires forall i, j :: 0 <= i < j < |cs| ==> cs[i].LeafSet() !! cs[j].LeafSet()
    ensures Distinct(Flatten(cs))
  {
    if cs != [] {
      var front := cs[..|cs| - 1];
      var A := Flatten(front);
      var B := cs[|cs| - 1].LeafSeq();
      assert forall k :: 0 <= k < |front| ==> front[k] == cs[k];
      FlattenDistinct(front);
      forall i, j | 0 <= i < j < |A + B|
        ensures (A + B)[i] != (A + B)[j]
      {
        if i < |A| <= j {
          var k := FlattenOwner(front, A[i]);
          assert front[k] == cs[k];
          assert B[j - |A|] in B;
          assert cs[k].LeafSet() !! cs[|cs| - 1].LeafSet();
        }
      }
    }
  }

  /** The leaf sequence of a well-formed tree has no repetitions. */
  lemma LeafSeqDistinct(o: PhysicsObject)
    requires o.Valid()
    ensures Distinct(o.LeafSeq())
  {
  }

  /** The offsets cut the flattened sequence into the children's leaf sequences. */
  lemma FlattenSegments(cs: seq<PhysicsObject>)
    ensures Offsets(cs)[0] == 0 && Offsets(cs)[|cs|] == |Flatten(cs)|
    ensures forall i :: 0 <= i < |cs| ==> Segment(Flatten(cs), Offsets(cs), cs, i)
  {
    assert cs[..0] == [];
    assert cs[..|cs|] == cs;
    forall i | 0 <= i < |cs|
      ensures Segment(Flatten(cs), Offsets(cs), cs, i)
    {
      SegmentAt(cs, i);
    }
  }

  /** Child i's shape objects sit between the i-th and the (i + 1)-th offset. */
  lemma SegmentAt(cs: seq<PhysicsObject>, i: nat)
    requires i < |cs|
    ensures Segment(Flatten(cs), Offsets(cs), cs, i)
  {
    var F, A, B := Flatten(cs), Flatten(cs[..i]), cs[i].LeafSeq();
    assert A + B <= F by {
      FlattenStep(cs, i);
      FlattenPrefix(cs, i + 1);
    }
    assert Offsets(cs)[i] == |A|;
    assert Offsets(cs)[i + 1] == |A| + |B| by {
      FlattenStep(cs, i);
    }
    SliceAfterPrefix(F, A, B);
  }

  /** In a sequence that starts with A + B, B sits right after A. */
  lemma SliceAfterPrefix<T>(s: seq<T>, A: seq<T>, B: seq<T>)
    requires A + B <= s
    ensures s[|A|..|A| + |B|] == B
  {
    assert s[..|A| + |B|] == A + B;
  }

  /** Child i of a well-formed compound is well formed and owns the segment of its shape objects
      between `offsets[i]` and `offsets[i + 1]`. */
  lemma ChildLeaves(c: CompoundObject, i: nat)
    requires Compound(c).Valid() && i < |c.children|
    ensures c.children[i].Valid()
    ensures c.offsets[i] <= c.offsets[i + 1] <= |c.leaves|
    ensures c.leaves[c.offsets[i]..c.offsets[i + 1]] == c.children[i].LeafSeq()
    ensures c.children[i].LeafSet() <= Compound(c).LeafSet()
  {
    assert Segment(c.leaves, c.offsets, c.children, i);
    var Lc := c.children[i].LeafSeq();
    forall l | l in Lc
      ensures l in c.leaves
    {
      var m :| 0 <= m < |Lc| && Lc[m] == l;
      assert c.leaves[c.offsets[i] + m] == l;
    }
  }

  /** When no shape object of a tree requires relative resolution, each one in the leaf sequence
      does not. */
  lemma NoLeafNeedsRelative(o: PhysicsObject)
    requires !o.NeedsRelative()
    ensures forall m :: 0 <= m < |o.LeafSeq()| ==> !o.LeafSeq()[m].State().RequiresRelative()
  {
    forall m | 0 <= m < |o.LeafSeq()|
      ensures !o.LeafSeq()[m].State().RequiresRelative()
    {
      assert o.LeafSeq()[m] in o.LeafSet();
    }
  }

  /** The states of a segment are the segment of the states. */
  lemma StatesSlice(L: seq<ShapeObject>, p: nat, q: nat)
    requires p <= q <= |L|
    ensures States(L[p..q]) == States(L)[p..q]
  {
  }

  /** In a sequence without repetitions, the elements outside a segment are not in the segment. */
  lemma LeavesOutside(L: seq<ShapeObject>, p: nat, q: nat)
    requires Distinct(L) && p <= q <= |L|
    ensures forall j :: 0 <= j < |L| && !(p <= j < q) ==> L[j] !in L[p..q]
  {
    forall j | 0 <= j < |L| && !(p <= j < q)
      ensures L[j] !in L[p..q]
    {
      assert forall m :: 0 <= m < q - p ==> L[p..q][m] == L[p + m] != L[j];
    }
  }

  // ---------------------------------------------------------------------------------------------
  // Lemmas about the specification functions.

  /** One child's setupRelative, seen on the whole sequence of states: the states before its
      segment are resolved, the segment is set up, the states after it are untouched. */
  lemma SetupStep(s0: seq<ShapeState>, before: seq<ShapeState>, after: seq<ShapeState>,
                  p: nat, q: nat, w: int32, h: int32)
    requires p <= q <= |s0| && p <= FirstBodied(s0)
    requires before == ResolvedUpTo(s0, p, w, h) && |after| == |s0|
    requires after[p..q] == SetupAll(before[p..q], w, h)
    requires forall j :: 0 <= j < |s0| && !(p <= j < q) ==> after[j] == before[j]
    ensures SetupOutcome(before[p..q]) == if FirstBodied(s0) < q then Fail(IllegalState) else Pass
    ensures FirstBodied(s0) < q ==> SetupOutcome(s0) == Fail(IllegalState) && after == SetupAll(s0, w, h)
    ensures q <= FirstBodied(s0) ==> after == ResolvedUpTo(s0, q, w, h)
  {
    var k := FirstBodied(s0);
    assert before[p..q] == s0[p..q];
    FirstBodiedSlice(s0, p, q);
    var stop := if k < q then k else q;
    forall j | 0 <= j < |s0|
      ensures after[j] == if j < stop then s0[j].Resolved(w, h) else s0[j]
    {
      SetupStepAt(s0, before, after, p, q, w, h, j);
    }
    if k < q {
      assert s0[p..q][k - p].body.Some?;
      assert s0[k].body.Some?;
    }
  }

  /** SetupStep at one position j: resolved before the first body and before the end of the
      segment, untouched from there on. */
  lemma SetupStepAt(s0: seq<ShapeState>, before: seq<ShapeState>, after: seq<ShapeState>,
                    p: nat, q: nat, w: int32, h: int32, j: nat)
    requires p <= q <= |s0| && p <= FirstBodied(s0) && j < |s0|
    requires before == ResolvedUpTo(s0, p, w, h) && |after| == |s0|
    requires after[p..q] == SetupAll(before[p..q], w, h)
    requires forall j :: 0 <= j < |s0| && !(p <= j < q) ==> after[j] == before[j]
    ensures after[j] == if j < FirstBodied(s0) && j < q then s0[j].Resolved(w, h) else s0[j]
  {
    var seg := before[p..q];
    assert seg == s0[p..q];
    FirstBodiedSlice(s0, p, q);
    if p <= j < q {
      assert after[j] == after[p..q][j - p] == SetupAll(seg, w, h)[j - p];
      assert seg[j - p] == s0[j];
    } else {
      assert after[j] == before[j];
    }
  }

  /** The promise of the PhysicsObject interface: once setupRelative returns normally, no shape
      object of the tree requires relative resolution. */
  lemma SetupPassClears(o: PhysicsObject, s0: seq<ShapeState>, w: int32, h: int32)
    requires States(o.LeafSeq()) == SetupAll(s0, w, h) && SetupOutcome(s0) == Pass
    ensures !o.NeedsRelative()
  {
    assert FirstBodied(s0) == |s0|;
    forall l | l in o.LeafSet()
      ensures !l.State().RequiresRelative()
    {
      var m :| 0 <= m < |o.LeafSeq()| && o.LeafSeq()[m] == l;
      assert l.State() == States(o.LeafSeq())[m];
      ResolvedSpec(s0[m], w, h);
    }
  }

  /** A setupRelative that returns normally leaves every body absent, so a second one returns
      normally too and, whatever the size, changes nothing. */
  lemma SetupAgain(s0: seq<ShapeState>, w: int32, h: int32, w2: int32, h2: int32)
    requires SetupOutcome(s0) == Pass
    ensures SetupOutcome(SetupAll(s0, w, h)) == Pass
    ensures SetupAll(SetupAll(s0, w, h), w2, h2) == SetupAll(s0, w, h)
  {
    var s1 := SetupAll(s0, w, h);
    assert FirstBodied(s0) == |s0|;
    forall j | 0 <= j < |s1|
      ensures s1[j].body.None? && s1[j].Resolved(w2, h2) == s1[j]
    {
      ResolvedKeepsTheRest(s0[j], w, h);
      ResolvedIdempotent(s0[j], w, h, w2, h2);
    }
    assert FirstBodied(s1) == |s1|;
  }

  /** With every leaf set up, the result is the whole specification. */
  lemma SetupAllFinished(s0: seq<ShapeState>, w: int32, h: int32)
    requires FirstBodied(s0) == |s0|
    ensures ResolvedUpTo(s0, |s0|, w, h) == SetupAll(s0, w, h)
    ensures SetupOutcome(s0) == Pass
  {
  }

  /** The first body of a segment that starts before the first body of the whole. */
  lemma FirstBodiedSlice(ss: seq<ShapeState>, p: nat, q: nat)
    requires p <= FirstBodied(ss) && p <= q <= |ss|
    ensures FirstBodied(ss[p..q]) == if FirstBodied(ss) < q then FirstBodied(ss) - p else q - p
  {
    var seg := ss[p..q];
    var f := FirstBodied(seg);
    if f < q - p {
      assert seg[f] == ss[p + f];
    }
    if FirstBodied(ss) < q {
      assert seg[FirstBodied(ss) - p] == ss[FirstBodied(ss)];
    }
  }

  /** Shape objects that have changed at most in their bodies since they had the states recorded
      in O: their states in order, up to the body, are the recorded ones. */
  lemma StatesUpToBodies(o: PhysicsObject, U: set<ShapeObject>, O: map<ShapeObject, ShapeState>)
    requires o.LeafSet() <= U
    requires forall l :: l in U ==> l in O && l.State() == O[l].(body := l.body)
    ensures forall m :: 0 <= m < |o.LeafSeq()| ==>
      o.LeafSeq()[m] in O && States(o.LeafSeq())[m] == O[o.LeafSeq()[m]].(body := States(o.LeafSeq())[m].body)
  {
    forall m | 0 <= m < |o.LeafSeq()|
      ensures o.LeafSeq()[m] in O
      ensures States(o.LeafSeq())[m] == O[o.LeafSeq()[m]].(body := States(o.LeafSeq())[m].body)
    {
      assert o.LeafSeq()[m] in o.LeafSet();
    }
  }

  /** onCreate seen leaf by leaf: when the states before it were, up to the body, those recorded
      in O, and the world's bodies went from `bodies0` to `bodies1` by onCreate's records, every
      shape object of the tree has a body numbered from |bodies0|, built from the state O records
      for it, and is still, up to the body, what O records. */
  lemma CreatedLeaves(o: PhysicsObject, before: seq<ShapeState>, O: map<ShapeObject, ShapeState>,
                      bodies0: seq<BodyRecord>, bodies1: seq<BodyRecord>)
    requires |before| == |o.LeafSeq()|
    requires forall m :: 0 <= m < |o.LeafSeq()| ==>
      o.LeafSeq()[m] in O && before[m] == O[o.LeafSeq()[m]].(body := before[m].body)
    requires States(o.LeafSeq()) == WithBodies(before, |bodies0|)
    requires bodies1 == bodies0 + CreationRecords(before)
    ensures forall l :: l in o.LeafSet() ==>
      && l.body.Some? && |bodies0| <= l.body.value < |bodies1|
      && l in O && l.State() == O[l].(body := l.body)
      && bodies1[l.body.value] == O[l].CreationRecord()
  {
    forall l | l in o.LeafSet()
      ensures l.body.Some? && |bodies0| <= l.body.value < |bodies1|
      ensures l in O && l.State() == O[l].(body := l.body)
      ensures bodies1[l.body.value] == O[l].CreationRecord()
    {
      var m :| 0 <= m < |o.LeafSeq()| && o.LeafSeq()[m] == l;
      assert l.State() == States(o.LeafSeq())[m];
      assert bodies1[|bodies0| + m] == before[m].CreationRecord();
    }
  }

  /** Whether a tree requires relative resolution depends on its shape objects alone. */
  twostate lemma NeedsRelativeKept(o: PhysicsObject)
    requires unchanged(o.LeafSet())
    ensures o.NeedsRelative() == old(o.NeedsRelative())
  {
  }

  /** Every shape object of a list of allocated objects is allocated. */
  lemma {:induction false} FootprintAllocated(os: seq<PhysicsObject>)
    ensures forall l :: l in Footprint(os) ==> allocated(l)
    decreases |os|
  {
    if os != [] {
      var init, last := os[..|os| - 1], os[|os| - 1];
      FootprintAllocated(init);
      assert Flatten(os) == Flatten(init) + last.LeafSeq();
      forall l | l in Footprint(os)
        ensures allocated(l)
      {
        if l !in Footprint(init) {
          match last
          case Shape(s) => assert l == s;
          case Compound(c) => assert l in c.leaves;
        }
      }
    }
  }

  /** The shape objects of the first n objects of a list are among those of the list. */
  lemma FootprintPrefix(os: seq<PhysicsObject>, n: nat)
    requires n <= |os|
    ensures Footprint(os[..n]) <= Footprint(os)
  {
    FlattenPrefix(os, n);
  }

  /** The shape objects of one object of a list are among those of the list. */
  lemma FootprintHas(os: seq<PhysicsObject>, i: nat)
    requires i < |os|
    ensures os[i].LeafSet() <= Footprint(os)
  {
    FlattenMembers(os);
  }

  /** One child's onDestroy, seen on the whole sequence of states. */
  lemma DestroyStep(ss: seq<ShapeState>, p: nat, q: nat,
                    d0: seq<Handle>, destroyed: seq<Handle>, destroyed': seq<Handle>,
                    l0: set<Handle>, live: set<Handle>, live': set<Handle>)
    requires p <= q <= |ss|
    requires destroyed == d0 + Handles(ss[..p]) && destroyed' == destroyed + Handles(ss[p..q])
    requires live == l0 - HandleSet(ss[..p]) && live' == live - HandleSet(ss[p..q])
    ensures destroyed' == d0 + Handles(ss[..q])
    ensures live' == l0 - HandleSet(ss[..q])
  {
    SliceSplit(ss, p, q);
    HandlesAppend(ss[..p], ss[p..q]);
    AppendAssociative(d0, Handles(ss[..p]), Handles(ss[p..q]));
    ElementsAppend(Handles(ss[..p]), Handles(ss[p..q]));
    RemoveTwice(l0, HandleSet(ss[..p]), HandleSet(ss[p..q]));
  }

  lemma ElementsAppend<T>(a: seq<T>, b: seq<T>)
    ensures (set x | x in a + b) == (set x | x in a) + (set x | x in b)
  {
  }

  lemma RemoveTwice<T>(s: set<T>, a: set<T>, b: set<T>)
    ensures (s - a) - b == s - (a + b)
  {
  }

  lemma {:induction false} HandlesAppend(a: seq<ShapeState>, b: seq<ShapeState>)
    ensures Handles(a + b) == Handles(a) + Handles(b)
  {
    if a == [] {
      assert a + b == b;
    } else {
      calc {
        Handles(a + b);
        { assert (a + b)[0] == a[0]; assert (a + b)[1..] == a[1..] + b; }
        BodyHandle(a[0]) + Handles(a[1..] + b);
        { HandlesAppend(a[1..], b); }
        BodyHandle(a[0]) + (Handles(a[1..]) + Handles(b));
        Handles(a) + Handles(b);
      }
    }
  }

  /** Every handle a shape object holds is among those forwarding onDestroy destroys. */
  lemma {:induction false} HandlesHas(ss: seq<ShapeState>)
    ensures forall j :: 0 <= j < |ss| && ss[j].body.Some? ==> ss[j].body.value in Handles(ss)
  {
    if ss != [] {
      HandlesHas(ss[1..]);
      forall j | 0 <= j < |ss| && ss[j].body.Some?
        ensures ss[j].body.value in Handles(ss)
      {
        if j > 0 {
          assert ss[1..][j - 1] == ss[j];
        }
      }
    }
  }

  /** Every handle a shape object of the tree holds is among those onDestroy destroys. */
  lemma HeldHandlesDestroyed(o: PhysicsObject)
    ensures forall l :: l in o.LeafSet() && l.body.Some? ==> l.body.value in HandleSet(States(o.LeafSeq()))
  {
    HandlesHas(States(o.LeafSeq()));
    forall l | l in o.LeafSet() && l.body.Some?
      ensures l.body.value in HandleSet(States(o.LeafSeq()))
    {
      var m :| 0 <= m < |o.LeafSeq()| && o.LeafSeq()[m] == l;
      assert States(o.LeafSeq())[m] == l.State();
    }
  }

  /** Every handle forwarding onDestroy destroys is held by one of the shape objects. */
  lemma {:induction false} HandlesHeld(ss: seq<ShapeState>)
    ensures forall x :: x in Handles(ss) ==> exists j :: 0 <= j < |ss| && ss[j].body == Some(x)
  {
    if ss != [] {
      HandlesHeld(ss[1..]);
      forall x | x in Handles(ss)
        ensures exists j :: 0 <= j < |ss| && ss[j].body == Some(x)
      {
        if x !in BodyHandle(ss[0]) {
          var j :| 0 <= j < |ss[1..]| && ss[1..][j].body == Some(x);
          assert ss[j + 1].body == Some(x);
        }
      }
    }
  }

  /** The shape objects hold, after onCreate, exactly the handles it handed out. */
  lemma WithBodiesHandleSet(ss: seq<ShapeState>, next: nat)
    ensures HandleSet(WithBodies(ss, next)) == HandleRange(next, |ss|)
  {
    var created := WithBodies(ss, next);
    assert HandleRange(next, |ss|) <= HandleSet(created) by {
      HandlesHas(created);
      forall x | x in HandleRange(next, |ss|)
        ensures x in Handles(created)
      {
        assert created[x - next].body == Some(x);
      }
    }
    assert HandleSet(created) <= HandleRange(next, |ss|) by {
      HandlesHeld(created);
      forall x | x in Handles(created)
        ensures next <= x < next + |ss|
      {
        var j :| 0 <= j < |created| && created[j].body == Some(x);
      }
    }
  }

  /** onCreate followed by onDestroy: the handles onDestroy destroys are exactly those onCreate
      handed out, so every body onCreate added is dead afterwards, and when the live handles
      before onCreate all name older bodies they are live again unchanged. */
  lemma DestroyUndoesCreate(ss: seq<ShapeState>, next: nat, live0: set<Handle>, live1: set<Handle>, live2: set<Handle>)
    requires live1 == live0 + HandleRange(next, |ss|)
    requires live2 == live1 - HandleSet(WithBodies(ss, next))
    ensures forall x :: x in HandleRange(next, |ss|) ==> x !in live2
    ensures (forall x :: x in live0 ==> x < next) ==> live2 == live0
  {
    WithBodiesHandleSet(ss, next);
  }

  lemma CreationRecordsAppend(a: seq<ShapeState>, b: seq<ShapeState>)
    ensures CreationRecords(a + b) == CreationRecords(a) + CreationRecords(b)
  {
    forall j | 0 <= j < |a| + |b|
      ensures CreationRecords(a + b)[j] == (CreationRecords(a) + CreationRecords(b))[j]
    {
      if j < |a| {
        assert (a + b)[j] == a[j];
      } else {
        assert (a + b)[j] == b[j - |a|];
      }
    }
  }

  /** One child's onCreate, seen on the whole sequence of states: the states before its segment
      already have bodies, the segment gets the next handles, the states after it are untouched. */
  lemma CreateStep(s0: seq<ShapeState>, before: seq<ShapeState>, after: seq<ShapeState>,
                   p: nat, q: nat, next: nat)
    requires p <= q <= |s0|
    requires before == CreatedUpTo(s0, p, next) && |after| == |s0|
    requires after[p..q] == WithBodies(before[p..q], next + p)
    requires forall j :: 0 <= j < |s0| && !(p <= j < q) ==> after[j] == before[j]
    ensures before[p..q] == s0[p..q]
    ensures after == CreatedUpTo(s0, q, next)
  {
    assert before[p..q] == s0[p..q];
    forall j | 0 <= j < |s0|
      ensures after[j] == if j < q then s0[j].(body := Some(next + j)) else s0[j]
    {
      if p <= j < q {
        assert after[j] == after[p..q][j - p];
      }
    }
  }

  /** One child's onCreate, seen on the world: its bodies and handles follow those of the
      children before it. */
  lemma CreateWorldStep(s0: seq<ShapeState>, p: nat, q: nat,
                        b0: seq<BodyRecord>, bodies: seq<BodyRecord>, bodies': seq<BodyRecord>,
                        l0: set<Handle>, live: set<Handle>, live': set<Handle>)
    requires p <= q <= |s0|
    requires bodies == b0 + CreationRecords(s0[..p]) && bodies' == bodies + CreationRecords(s0[p..q])
    requires live == l0 + HandleRange(|b0|, p) && live' == live + HandleRange(|bodies|, q - p)
    ensures bodies' == b0 + CreationRecords(s0[..q])
    ensures live' == l0 + HandleRange(|b0|, q)
  {
    assert |bodies| == |b0| + p;
    SliceSplit(s0, p, q);
    CreationRecordsAppend(s0[..p], s0[p..q]);
    HandleRangeSplit(|b0|, p, q - p);
    AppendAssociative(b0, CreationRecords(s0[..p]), CreationRecords(s0[p..q]));
  }

  lemma TakeAll<T>(s: seq<T>)
    ensures s[..|s|] == s
  {
  }

  lemma SliceSplit<T>(s: seq<T>, p: nat, q: nat)
    requires p <= q <= |s|
    ensures s[..q] == s[..p] + s[p..q]
  {
  }

  lemma TakeOneMore<T>(s: seq<T>, k: nat)
    requires k < |s|
    ensures s[..k + 1] == s[..k] + [s[k]]
  {
  }

  lemma DropOneMore<T>(s: seq<T>, k: nat)
    requires k < |s|
    ensures s[k..][1..] == s[k + 1..] && s[k..][0] == s[k]
  {
  }

  lemma AppendAssociative<T>(a: seq<T>, b: seq<T>, c: seq<T>)
    ensures (a + b) + c == a + (b + c)
  {
  }

  /** Handles handed out in two consecutive runs are those of one run. */
  lemma {:induction false} HandleRangeSplit(next: nat, a: nat, b: nat)
    ensures HandleRange(next, a + b) == HandleRange(next, a) + HandleRange(next + a, b)
    decreases b
  {
    if b > 0 {
      HandleRangeSplit(next, a, b - 1);
    }
  }
}
